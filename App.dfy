/** The application state (appState) and the operations that change it:
    day navigation (DateModule.changeDate), the two entry forms
    (TransactionModule.saveTransaction, saveProfit), deletion
    (TransactionModule.deleteItem) and the render pass (CoreLogic.render).
    Persisting the list is left out; a successful change is followed by a
    render, whose result the operation returns. */
module App {
  import opened Calendar
  import opened Records
  import opened Aggregation
  import opened Display

  class AppState {
    /** The focused day, as a day index. */
    var focusedDate: int
    /** The stored transactions, newest first. */
    var transactions: seq<Tx>

    /** Start-up: focus on today's midnight and take the stored list. */
    constructor (today: int, stored: seq<Tx>)
      ensures focusedDate == today && transactions == stored
    {
      focusedDate := today;
      transactions := stored;
    }

    /** changeDate: move the focus by `offset` days unless that goes before the
        start date, in which case nothing happens and nothing is rendered. */
    method ChangeDate(offset: int, now: int) returns (view: Option<View>)
      modifies this
      ensures transactions == old(transactions)
      ensures old(focusedDate) + offset < StartDay ==>
                focusedDate == old(focusedDate) && view == None
      ensures old(focusedDate) + offset >= StartDay ==>
                focusedDate == old(focusedDate) + offset
                && view == Some(Snapshot(transactions, focusedDate, now))
    {
      var newDate := focusedDate + offset;
      if Midnight(newDate) < AppStartDate() {
        return None;
      }
      focusedDate := newDate;
      var v := Render(now);
      return Some(v);
    }

    /** saveTransaction: prepend a plain entry on the focused day, unless the
        description is empty or the amount is not positive. */
    method SaveTransaction(desc: string, amt: int, kind: Kind, id: int, time: string, now: int)
      returns (view: Option<View>)
      modifies this
      ensures focusedDate == old(focusedDate)
      ensures var e := PlainEntry(desc, amt, kind, id, focusedDate, time);
        && (e.None? ==> transactions == old(transactions) && view == None)
        && (e.Some? ==> transactions == [e.value] + old(transactions)
                        && view == Some(Snapshot(transactions, focusedDate, now)))
    {
      var e := PlainEntry(desc, amt, kind, id, focusedDate, time);
      if e.None? {
        return None;
      }
      transactions := [e.value] + transactions;
      var v := Render(now);
      return Some(v);
    }

    /** saveProfit: prepend a sale on the focused day, unless the sell price is zero. */
    method SaveProfit(name: string, modal: int, jual: int, id: int, time: string, now: int)
      returns (view: Option<View>)
      modifies this
      ensures focusedDate == old(focusedDate)
      ensures var e := ProfitEntry(name, modal, jual, id, focusedDate, time);
        && (e.None? ==> transactions == old(transactions) && view == None)
        && (e.Some? ==> transactions == [e.value] + old(transactions)
                        && view == Some(Snapshot(transactions, focusedDate, now)))
    {
      var e := ProfitEntry(name, modal, jual, id, focusedDate, time);
      if e.None? {
        return None;
      }
      transactions := [e.value] + transactions;
      var v := Render(now);
      return Some(v);
    }

    /** deleteItem: drop every transaction with this id, then render. */
    method DeleteItem(id: int, now: int) returns (view: View)
      modifies this
      ensures focusedDate == old(focusedDate)
      ensures transactions == WithoutId(old(transactions), id)
      ensures view == Snapshot(transactions, focusedDate, now)
    {
      transactions := WithoutId(transactions, id);
      view := Render(now);
    }

    /** render: one pass over the store, newest first, accumulating the
        balance, the week, month and year totals relative to `now`, and the
        focused day's income, expense, count and items. */
    method Render(now: int) returns (view: View)
      ensures view == Snapshot(transactions, focusedDate, now)
    {
      var dayNumber := DayNumber(Midnight(focusedDate));
      var prevDisabled := dayNumber <= 1;
      var tally := Tally(0, 0, 0, 0, 0, 0, 0, []);
      var firstDayOfWeek := WeekStart(now);
      var i := 0;
      while i < |transactions|
        invariant 0 <= i <= |transactions|
        invariant tally == Fold(transactions[..i], focusedDate, firstDayOfWeek, now)
      {
        tally := Accumulate(tally, transactions[i], focusedDate, firstDayOfWeek, now);
        FoldPrefix(transactions, i, focusedDate, firstDayOfWeek, now);
        i := i + 1;
      }
      assert transactions[..i] == transactions;
      FoldIsSnapshot(transactions, focusedDate, now);
      var totals := Totals(tally.saldo, tally.dayInc, tally.dayExp, tally.count,
                           tally.week, tally.month, tally.year);
      view := View(dayNumber, prevDisabled, totals, tally.items, CardClass(tally.saldo),
                   PeriodicClass(tally.week), PeriodicClass(tally.month),
                   PeriodicClass(tally.year));
    }
  }

  /** The body of render's forEach: adds one transaction to the running
      figures. Every transaction moves the balance; the week, month and year
      figures move when its day falls in that period of `now`; the focused
      day's count, income or expense and item list move when it is on the
      focused day. */
  method Accumulate(acc: Tally, t: Tx, focused: int, firstDayOfWeek: int, now: int) returns (r: Tally)
    ensures r == Visit(acc, t, focused, firstDayOfWeek, now)
  {
    r := acc;
    var isPlus := t.kind == Plus;
    var val := if isPlus then t.amount else -t.amount;
    r := r.(saldo := r.saldo + val);
    if t.day >= firstDayOfWeek {
      r := r.(week := r.week + val);
    }
    var sameYear := Year(t.day) == Year(now);
    if Month(t.day) == Month(now) && sameYear {
      r := r.(month := r.month + val);
    }
    if sameYear {
      r := r.(year := r.year + val);
    }
    if t.day == focused {
      r := r.(count := r.count + 1);
      if isPlus {
        r := r.(dayInc := r.dayInc + t.amount);
      } else {
        r := r.(dayExp := r.dayExp + t.amount);
      }
      r := r.(items := r.items + [t]);
    }
  }
}
