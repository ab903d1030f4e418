# Rekap-profit ledger in Dafny

Rekap-profit is a one-page cash book for a small seller. Each day from a
fixed start date (19 January 2026) is a numbered "day" of the journey. On
the focused day the user records:

- plain cash entries: a description, an amount and 'plus' or 'minus';
- sales: the cost (`modal`) and the sell price (`jual`), which book their
  margin as income.

After every change the page re-renders. The render shows:

- the all-time balance (`saldo`);
- the signed totals of the current week, month and year;
- the focused day's income, expense, number of entries and entries;
- a colour class by sign for the balance card and for the week, month and
  year totals (the day's income, expense and count get none).

This project models that ledger logic from `script.js` and proves it.

- `Calendar` covers day numbering from the start date (`getAppStartDate`,
  `getDayNumber`), weekdays and the Monday of the current week
  (`diffToMonday`), and the civil month and year of a day (`getMonth`,
  `getFullYear`).
- `Records` holds the transaction record. It defines how the two entry
  forms build a record or refuse it (`saveTransaction`, `saveProfit`), and
  the selection behind the render filters and `deleteItem`. The selection
  itself lives in `Selection`.
- `Display` holds the sign-to-class rules (`setPeriodicColor`, the
  `is-minus` card class) and the prev-button rule.
- `Aggregation` gives the specification of one render, `Snapshot`: every
  figure as a sum over a selection of the store. It also holds the
  functional model of the render loop (`Visit`, `Fold`), the lemmas that
  tie the two together, and how adding an entry moves the figures.
- `App` holds the mutable application state, `AppState`, a focused day and
  the list of transactions, newest first. Its methods navigate, add,
  delete and render. `Render` runs the loop of `CoreLogic.render`, and each
  step is the forEach callback `Accumulate`. Each method is proved against
  `Snapshot`.
- `Scenarios` holds two small client methods: navigating on the start date,
  and deleting an absent id followed by a refused sale.

## Representation

- **Days.** A day is an integer index, with the start date as day 0. A
  stored transaction's `date` is the ISO string of the focused day it was
  entered on. The focused-day test compares that string with the same
  conversion of the focused day, so a transaction carries that day's index.
- **Instants.** An instant is a count of milliseconds from the local
  midnight that opens the start date. `DayNumber` divides the elapsed time
  by 86 400 000 and rounds down, like `Math.floor`.
- **Calendar.** Month (0-based) and year come from the proleptic Gregorian
  calendar. The model fixes a local time zone at a UTC offset of zero or
  more, where the start date reads as local 19 January 2026. That day is
  day 20472 after 1970-01-01 and is a Monday.
- **Inputs.** "Now", the fresh id (`Date.now()`), the time label and the
  parsed form values are parameters.
- **Entry kind.** A `type` other than 'plus' counts as an expense, as in
  the code's `isPlus` test.
- **Operation results.**
  - An operation that renders returns the rendered `View`.
  - An operation that returns early, without rendering, returns `None`.

## Behaviour worth knowing

The model follows `script.js`:

- A sale below cost is stored as a 'plus' entry with a negative amount.
  It therefore lowers the balance and the day's income. It does not raise
  the expense (`LossMakingSale`).
- `deleteItem` removes every entry with the given id. Ids come from the
  clock and are not guaranteed to be unique.
- The initial focus is today. If today is before the start date, the focus
  starts there; only `changeDate` refuses such days.
- The week total has no upper bound. An entry on a day after today still
  counts toward "this week" if it is on or after this week's Monday.

## Model

| member | source | states |
|---|---|---|
| Calendar.AppStartDate | script.js:38-42 | the start date is the midnight that opens day 0, and its day number is 1 |
| Calendar.DayNumber | script.js:50-53 | the day number is at least 1 exactly for instants from the start midnight on, and 1 exactly within the start date |
| Calendar.DayNumberOfDay | script.js:50-53 | every instant of day `d` has day number `d - StartDay + 1` |
| Calendar.DayNumberNextDay | script.js:50-53 | moving one day forward adds exactly 1 to the day number |
| Calendar.DayOfWeek | script.js:146 | the weekday is in 0..6, and it is Monday exactly on days a multiple of 7 after the start date |
| Calendar.DiffToMonday | script.js:147 | the offset is between -6 and 0 and lands the weekday on Monday |
| Calendar.WeekStart | script.js:145-149 | the week start is a Monday at most six days before now |
| Calendar.WeekStartUnique | script.js:145-149 | no other Monday lies within the six days before now, so the week start is the Monday of now's week |
| Calendar.Civil | script.js:160-161 | no contract of its own: the civil date of a day, its month and day checked in range by `CivilInRange`, its 400-year period by `CivilPeriodic` and three dates by the lemmas below |
| Calendar.Month | script.js:160 | no contract of its own: `getMonth` of a day, the month of `Civil` |
| Calendar.Year | script.js:160-161 | no contract of its own: `getFullYear` of a day, the year of `Civil` |
| Calendar.CivilInRange | script.js:160 | every day's month is 0..11 and its day of the month 1..31 |
| Calendar.CivilPeriodic | script.js:160-161 | 146097 days later the month and day are the same and the year is 400 more |
| Calendar.StartDateIsJanuary19 | script.js:5 | day 0 is 19 January 2026 in the civil calendar |
| Calendar.FebruaryBeginsOnDay13 | script.js:160 | month boundary: day 13 is 1 February 2026 |
| Calendar.Year2027BeginsOnDay347 | script.js:161 | year boundary: day 347 is 1 January 2027 |
| Selection.Keep | script.js:108 | a selection is no longer than its input and holds exactly the input's elements that pass the test |
| Selection.KeepAppend | script.js:108 | selecting from `a + b` gives the survivors of `a` followed by those of `b`, so relative order is kept |
| Selection.KeepPrepend | script.js:151-170 | an element in front is kept in front exactly when it passes |
| Selection.KeepAll | script.js:108 | when every element passes, the selection is the input itself |
| Selection.KeepIdempotent | script.js:108 | selecting twice with one test equals selecting once |
| Records.PlainEntry | script.js:90-103 | refused exactly when the description is empty or the amount is not positive; otherwise a non-profit entry with the given fields on the focused day, whose signed value is positive exactly for 'plus' |
| Records.ProfitEntry | script.js:72-86 | refused exactly when the sell price is 0; otherwise a 'plus' profit entry with amount `jual - modal`, keeping both prices, named "Jualan" when the name is empty |
| Records.Signed | script.js:152-153 | no contract of its own: `val`, the amount for 'plus' and minus the amount otherwise |
| Records.Matches | script.js:159-164 | no contract of its own: the per-transaction tests of the week, month, year and focused-day conditions and of deletion (script.js:108) |
| Records.Filter | script.js:164 | the selection holds exactly the store's transactions meeting the criterion, and is no longer than the store |
| Records.WithoutId | script.js:107-108 | after deletion, a transaction remains exactly when it was stored and does not carry the id |
| Records.WithoutAbsentId | script.js:108 | deleting an id that no transaction carries leaves the list unchanged |
| Records.WithoutIdIdempotent | script.js:108 | deleting the same id twice equals deleting it once |
| Records.WithoutIdAppend | script.js:108 | deletion keeps the survivors in their relative order |
| Display.PeriodicClass | script.js:209-213 | `text-danger` exactly for a negative value, `text-success` exactly for a positive one, no class exactly for zero |
| Display.CardClass | script.js:200 | the card has the is-minus class exactly when the balance is negative |
| Display.PrevDisabled | script.js:138 | the prev button is disabled exactly when the focused day is not after the start date |
| Aggregation.Sum | script.js:151-167 | no contract of its own: a running total of one measure over a list; `SumAppend`, `SumPrepend` and `NetIsInflowMinusOutflow` state its properties |
| Aggregation.Visit | script.js:151-171 | no contract of its own: one forEach step on the running figures; `Accumulate` is proved equal to it |
| Aggregation.Fold | script.js:151-171 | no contract of its own: the forEach over a list; the `Fold*` lemmas and `FoldIsSnapshot` state what it computes |
| Aggregation.SumAppend | script.js:151-156 | a total over `a + b` is the total over `a` plus the total over `b` |
| Aggregation.SumPrepend | script.js:151-156 | an entry in front adds its own value to a total |
| Aggregation.NetIsInflowMinusOutflow | script.js:164-168 | the income minus the expense of a list is its signed total |
| Aggregation.Snapshot | script.js:131-177 | the rendered day number, prev state, focused-day items (exactly the store's entries on that day), count = number of those items, income - expense = their signed total, and card class by the sign of the balance |
| Aggregation.FoldPrefix | script.js:151-171 | the loop over one more transaction is one more callback step |
| Aggregation.FoldSaldo | script.js:151-156 | the loop's balance is the signed total of the whole store |
| Aggregation.FoldWeek | script.js:159 | the loop's week figure is the signed total of the entries on or after the week start |
| Aggregation.FoldMonth | script.js:160 | the loop's month figure is the signed total of the entries in now's month and year |
| Aggregation.FoldYear | script.js:161 | the loop's year figure is the signed total of the entries in now's year |
| Aggregation.FoldItems | script.js:164-169 | the loop lists exactly the focused day's entries in store order, and counts them |
| Aggregation.FoldDayInc | script.js:166 | the loop's day income is the 'plus' amount of the focused day's entries |
| Aggregation.FoldDayExp | script.js:167 | the loop's day expense is the other amounts of the focused day's entries |
| Aggregation.FoldIsSnapshot | script.js:140-171 | a full loop over the store yields exactly the totals and items of the render specification |
| Aggregation.TotalsIgnoreFocus | script.js:151-161 | the balance and the week, month and year totals do not depend on the focused day |
| Aggregation.AddOnFocusedDay | script.js:151-169 | a new entry on the focused day moves the balance by its signed value, the count by 1 and income or expense by its amount, and heads the day's items |
| Aggregation.AddOnOtherDay | script.js:151-169 | a new entry on another day moves the balance by its signed value and leaves the focused day's items, income and expense alone |
| Aggregation.AddMovesWeek | script.js:159 | a new entry moves the week total by its signed value exactly when its day is on or after the week start, whichever day is focused |
| Aggregation.AddMovesMonth | script.js:160 | a new entry moves the month total by its signed value exactly when its day is in now's month and year, whichever day is focused |
| Aggregation.AddMovesYear | script.js:161 | a new entry moves the year total by its signed value exactly when its day is in now's year, whichever day is focused |
| Aggregation.LossMakingSale | script.js:82-83 | a sale with `modal > jual` is a 'plus' entry with a negative amount: the balance and day income fall by the loss, the day expense is unchanged, the count rises by 1 |
| App.AppState.constructor | script.js:9-13 | the state starts focused on today with the stored list |
| App.AppState.ChangeDate | script.js:43-49 | a move to before the start date changes nothing and renders nothing; otherwise the focus moves by the offset and the new state is rendered; the list never changes |
| App.AppState.SaveTransaction | script.js:90-106 | a refused entry changes nothing and renders nothing; otherwise the entry of `PlainEntry` is prepended to the unchanged old list and the new state is rendered |
| App.AppState.SaveProfit | script.js:72-89 | a refused sale changes nothing and renders nothing; otherwise the entry of `ProfitEntry` is prepended to the unchanged old list and the new state is rendered |
| App.AppState.DeleteItem | script.js:107-110 | the list becomes the list without the id, the focus is unchanged, and the new state is rendered |
| App.AppState.Render | script.js:131-177 | the loop's result is exactly the render specification of the current store, focused day and now |
| App.Accumulate | script.js:151-171 | one callback step adds a transaction to the running figures as the loop step `Visit` prescribes |

## Left out

- The DOM is not modelled: `document.getElementById`, `innerHTML`, the
  history-item HTML of `appendHistoryItem`, the empty-day placeholder,
  `clearProfitForm`/`clearKasForm` and `calcPreview`. These are view code.
  The rendered items are modelled as a list of transactions.
- `localStorage` and `JSON.parse`/`JSON.stringify` are not modelled. The
  stored list is a constructor parameter, and `save()` is "then render".
- `formatRupiah`, `handleFormat`, `formatFullDate` and `cleanNum` are not
  modelled: they depend on `toLocaleString`, `toLocaleDateString` and
  `parseInt`. The save operations take already-parsed integers.
- Wall-clock and time-zone behaviour is not modelled:
  - `new Date()`, `Date.now()` and the "HH:MM" time label are parameters.
  - The UTC details of `toISOString` are replaced by the day index.
  - Daylight saving is excluded; every day is 86 400 000 ms.
- Parsing the start-date string "2026-01-19" is not modelled. It is the
  constant day 0.
- Numbers are not modelled as JavaScript doubles. Amounts, prices,
  totals and ids are unbounded integers. The program computes them as
  IEEE doubles (`cleanNum`'s `parseInt`, `jual - modal`, the `totals`
  updates), which agree with the integers only while every value stays
  below 2^53 in magnitude.
- Time zones west of UTC are not modelled. There `new Date("2026-01-19")`
  is UTC midnight, which is local 18 January, so `setHours(0,0,0,0)` moves
  the start date to 18 January, a Sunday. The day numbers, the start-date
  guard, the weekday seen by `diffToMonday` and the month and year
  boundaries then differ by a day from this model, which fixes a UTC
  offset of zero or more.
