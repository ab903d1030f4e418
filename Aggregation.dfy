/** What one render pass computes from the store, the focused day and the
    current day (the totals of CoreLogic.render), stated as functions of
    those three inputs, and how adding an entry moves the figures. */
module Aggregation {
  import opened Calendar
  import opened Selection
  import opened Records
  import opened Display

  /** Which part of a transaction's value a total collects. */
  datatype Measure =
    | Net      // the signed value (saldo, week, month, year)
    | Inflow   // the amount of a 'plus' entry (dayInc)
    | Outflow  // the amount of any other entry (dayExp)

  function Value(t: Tx, m: Measure): int
  {
    match m
    case Net => Signed(t)
    case Inflow => if t.kind == Plus then t.amount else 0
    case Outflow => if t.kind == Plus then 0 else t.amount
  }

  /** The total of measure `m` over `s`. */
  function Sum(s: seq<Tx>, m: Measure): int
    decreases |s|
  {
    if s == [] then 0 else Sum(s[..|s| - 1], m) + Value(s[|s| - 1], m)
  }

  lemma {:induction false} SumAppend(a: seq<Tx>, b: seq<Tx>, m: Measure)
    ensures Sum(a + b, m) == Sum(a, m) + Sum(b, m)
    decreases |b|
  {
    if b == [] {
      assert a + b == a;
    } else {
      var init := b[..|b| - 1];
      assert (a + b)[..|a + b| - 1] == a + init;
      assert (a + b)[|a + b| - 1] == b[|b| - 1];
      SumAppend(a, init, m);
    }
  }

  /** A transaction appended at the end adds its value to the total. */
  lemma SumSnoc(s: seq<Tx>, t: Tx, m: Measure)
    ensures Sum(s + [t], m) == Sum(s, m) + Value(t, m)
  {
    assert (s + [t])[..|s|] == s;
  }

  /** A transaction appended at the end is kept exactly when it meets `c`. */
  lemma FilterSnoc(s: seq<Tx>, t: Tx, c: Criterion)
    ensures Filter(s + [t], c) == Filter(s, c) + (if Matches(t, c) then [t] else [])
  {
    assert (s + [t])[..|s|] == s;
  }

  /** A new transaction in front adds its own value to every total. */
  lemma SumPrepend(t: Tx, s: seq<Tx>, m: Measure)
    ensures Sum([t] + s, m) == Value(t, m) + Sum(s, m)
  {
    SumAppend([t], s, m);
    assert [t][..0] == [];
  }

  /** Income minus expense is the signed total. */
  lemma {:induction false} NetIsInflowMinusOutflow(s: seq<Tx>)
    ensures Sum(s, Inflow) - Sum(s, Outflow) == Sum(s, Net)
    decreases |s|
  {
    if s != [] {
      NetIsInflowMinusOutflow(s[..|s| - 1]);
    }
  }

  datatype Totals = Totals(saldo: int, dayInc: int, dayExp: int, count: int,
                           week: int, month: int, year: int)

  /** Everything a render shows: the day label, the prev-button state, the
      totals, the focused day's items (store order) and the colour classes. */
  datatype View = View(dayNumber: int, prevDisabled: bool, totals: Totals, items: seq<Tx>,
                       cardClass: string, weekClass: string, monthClass: string,
                       yearClass: string)

  /** The render of store `txs` with focused day `focused` on day `now`. */
  function Snapshot(txs: seq<Tx>, focused: int, now: int): (v: View)
    ensures v.dayNumber == focused - StartDay + 1
    ensures v.prevDisabled <==> v.dayNumber <= 1
    ensures forall t :: t in v.items <==> t in txs && t.day == focused
    ensures v.totals.count == |v.items|
    ensures v.totals.dayInc - v.totals.dayExp == Sum(v.items, Net)
    ensures v.cardClass == CardMainMinus <==> v.totals.saldo < 0
  {
    var items := Filter(txs, OnDay(focused));
    NetIsInflowMinusOutflow(items);
    DayNumberOfDay(focused, 0);
    var totals := Totals(Sum(txs, Net), Sum(items, Inflow), Sum(items, Outflow), |items|,
                         Sum(Filter(txs, FromDay(WeekStart(now))), Net),
                         Sum(Filter(txs, SameMonth(now)), Net),
                         Sum(Filter(txs, SameYear(now)), Net));
    View(DayNumber(Midnight(focused)), PrevDisabled(focused), totals, items,
         CardClass(totals.saldo), PeriodicClass(totals.week), PeriodicClass(totals.month),
         PeriodicClass(totals.year))
  }

  /** The running figures of the render pass after some of the store. */
  datatype Tally = Tally(saldo: int, dayInc: int, dayExp: int, count: int,
                         week: int, month: int, year: int, items: seq<Tx>)

  /** One visit of the forEach body of render to transaction `t`. */
  function Visit(acc: Tally, t: Tx, focused: int, firstDayOfWeek: int, now: int): Tally
  {
    var isPlus := t.kind == Plus;
    var val := Signed(t);
    var onDay := t.day == focused;
    Tally(acc.saldo + val,
          acc.dayInc + (if onDay && isPlus then t.amount else 0),
          acc.dayExp + (if onDay && !isPlus then t.amount else 0),
          acc.count + (if onDay then 1 else 0),
          acc.week + (if t.day >= firstDayOfWeek then val else 0),
          acc.month + (if Month(t.day) == Month(now) && Year(t.day) == Year(now) then val else 0),
          acc.year + (if Year(t.day) == Year(now) then val else 0),
          if onDay then acc.items + [t] else acc.items)
  }

  /** The figures after visiting all of `s` in order, from all-zero figures. */
  function Fold(s: seq<Tx>, focused: int, firstDayOfWeek: int, now: int): Tally
    decreases |s|
  {
    if s == [] then Tally(0, 0, 0, 0, 0, 0, 0, [])
    else Visit(Fold(s[..|s| - 1], focused, firstDayOfWeek, now), s[|s| - 1], focused, firstDayOfWeek, now)
  }

  /** Visiting one more transaction extends the fold. */
  lemma FoldPrefix(s: seq<Tx>, i: int, focused: int, firstDayOfWeek: int, now: int)
    requires 0 <= i < |s|
    ensures Fold(s[..i + 1], focused, firstDayOfWeek, now)
         == Visit(Fold(s[..i], focused, firstDayOfWeek, now), s[i], focused, firstDayOfWeek, now)
  {
    assert s[..i + 1][..i] == s[..i];
  }

  /** The fold's balance is the signed total of everything visited. */
  lemma {:induction false} FoldSaldo(s: seq<Tx>, focused: int, firstDayOfWeek: int, now: int)
    ensures Fold(s, focused, firstDayOfWeek, now).saldo == Sum(s, Net)
    decreases |s|
  {
    if s != [] {
      FoldSaldo(s[..|s| - 1], focused, firstDayOfWeek, now);
    }
  }

  /** The fold's week figure is the signed total of the transactions on or
      after the week start. */
  lemma {:induction false} FoldWeek(s: seq<Tx>, focused: int, firstDayOfWeek: int, now: int)
    ensures Fold(s, focused, firstDayOfWeek, now).week == Sum(Filter(s, FromDay(firstDayOfWeek)), Net)
    decreases |s|
  {
    if s != [] {
      var init, t := s[..|s| - 1], s[|s| - 1];
      assert s == init + [t];
      FoldWeek(init, focused, firstDayOfWeek, now);
      PeriodStep(init, t, FromDay(firstDayOfWeek));
    }
  }

  /** The fold's month figure is the signed total of the transactions in the
      month and year of `now`. */
  lemma {:induction false} FoldMonth(s: seq<Tx>, focused: int, firstDayOfWeek: int, now: int)
    ensures Fold(s, focused, firstDayOfWeek, now).month == Sum(Filter(s, SameMonth(now)), Net)
    decreases |s|
  {
    if s != [] {
      var init, t := s[..|s| - 1], s[|s| - 1];
      assert s == init + [t];
      FoldMonth(init, focused, firstDayOfWeek, now);
      PeriodStep(init, t, SameMonth(now));
    }
  }

  /** The fold's year figure is the signed total of the transactions in the
      year of `now`. */
  lemma {:induction false} FoldYear(s: seq<Tx>, focused: int, firstDayOfWeek: int, now: int)
    ensures Fold(s, focused, firstDayOfWeek, now).year == Sum(Filter(s, SameYear(now)), Net)
    decreases |s|
  {
    if s != [] {
      var init, t := s[..|s| - 1], s[|s| - 1];
      assert s == init + [t];
      FoldYear(init, focused, firstDayOfWeek, now);
      PeriodStep(init, t, SameYear(now));
    }
  }

  lemma PeriodStep(s: seq<Tx>, t: Tx, c: Criterion)
    ensures Sum(Filter(s + [t], c), Net) == Sum(Filter(s, c), Net) + (if Matches(t, c) then Signed(t) else 0)
  {
    FilterSnoc(s, t, c);
    if Matches(t, c) {
      SumSnoc(Filter(s, c), t, Net);
    } else {
      assert Filter(s, c) + [] == Filter(s, c);
    }
  }

  /** The fold's item list is the focused day's transactions in store order,
      and its count is their number. */
  lemma {:induction false} FoldItems(s: seq<Tx>, focused: int, firstDayOfWeek: int, now: int)
    ensures Fold(s, focused, firstDayOfWeek, now).items == Filter(s, OnDay(focused))
    ensures Fold(s, focused, firstDayOfWeek, now).count == |Filter(s, OnDay(focused))|
    decreases |s|
  {
    if s != [] {
      var init, t := s[..|s| - 1], s[|s| - 1];
      assert s == init + [t];
      FoldItems(init, focused, firstDayOfWeek, now);
      FilterSnoc(init, t, OnDay(focused));
      if t.day != focused {
        assert Filter(init, OnDay(focused)) + [] == Filter(init, OnDay(focused));
      }
    }
  }

  /** The fold's day income is the inflow of the focused day's transactions. */
  lemma {:induction false} FoldDayInc(s: seq<Tx>, focused: int, firstDayOfWeek: int, now: int)
    ensures Fold(s, focused, firstDayOfWeek, now).dayInc == Sum(Filter(s, OnDay(focused)), Inflow)
    decreases |s|
  {
    if s != [] {
      var init, t := s[..|s| - 1], s[|s| - 1];
      assert s == init + [t];
      FoldDayInc(init, focused, firstDayOfWeek, now);
      var before := Fold(init, focused, firstDayOfWeek, now);
      assert Fold(s, focused, firstDayOfWeek, now) == Visit(before, t, focused, firstDayOfWeek, now);
      assert Visit(before, t, focused, firstDayOfWeek, now).dayInc
          == before.dayInc + (if t.day == focused then Value(t, Inflow) else 0);
      DayFlowStep(init, t, focused, Inflow);
    }
  }

  /** The fold's day expense is the outflow of the focused day's transactions. */
  lemma {:induction false} FoldDayExp(s: seq<Tx>, focused: int, firstDayOfWeek: int, now: int)
    ensures Fold(s, focused, firstDayOfWeek, now).dayExp == Sum(Filter(s, OnDay(focused)), Outflow)
    decreases |s|
  {
    if s != [] {
      var init, t := s[..|s| - 1], s[|s| - 1];
      assert s == init + [t];
      FoldDayExp(init, focused, firstDayOfWeek, now);
      var before := Fold(init, focused, firstDayOfWeek, now);
      assert Fold(s, focused, firstDayOfWeek, now) == Visit(before, t, focused, firstDayOfWeek, now);
      assert Visit(before, t, focused, firstDayOfWeek, now).dayExp
          == before.dayExp + (if t.day == focused then Value(t, Outflow) else 0);
      DayFlowStep(init, t, focused, Outflow);
    }
  }

  lemma DayFlowStep(s: seq<Tx>, t: Tx, focused: int, m: Measure)
    ensures Sum(Filter(s + [t], OnDay(focused)), m)
         == Sum(Filter(s, OnDay(focused)), m) + (if t.day == focused then Value(t, m) else 0)
  {
    FilterSnoc(s, t, OnDay(focused));
    if t.day == focused {
      SumSnoc(Filter(s, OnDay(focused)), t, m);
    } else {
      assert Filter(s, OnDay(focused)) + [] == Filter(s, OnDay(focused));
    }
  }

  /** A full pass over the store yields exactly the rendered totals and items. */
  lemma FoldIsSnapshot(txs: seq<Tx>, focused: int, now: int)
    ensures var f, v := Fold(txs, focused, WeekStart(now), now), Snapshot(txs, focused, now);
      v.totals == Totals(f.saldo, f.dayInc, f.dayExp, f.count, f.week, f.month, f.year)
      && v.items == f.items
  {
    var w := WeekStart(now);
    FoldSaldo(txs, focused, w, now);
    FoldWeek(txs, focused, w, now);
    FoldMonth(txs, focused, w, now);
    FoldYear(txs, focused, w, now);
    FoldItems(txs, focused, w, now);
    FoldDayInc(txs, focused, w, now);
    FoldDayExp(txs, focused, w, now);
  }

  /** The balance and the period totals do not depend on the focused day. */
  lemma TotalsIgnoreFocus(txs: seq<Tx>, f1: int, f2: int, now: int)
    ensures Snapshot(txs, f1, now).totals.saldo == Snapshot(txs, f2, now).totals.saldo
    ensures Snapshot(txs, f1, now).totals.week == Snapshot(txs, f2, now).totals.week
    ensures Snapshot(txs, f1, now).totals.month == Snapshot(txs, f2, now).totals.month
    ensures Snapshot(txs, f1, now).totals.year == Snapshot(txs, f2, now).totals.year
  {
  }

  /** Adding a transaction on the focused day: the balance moves by its
      signed value, it heads the day's items, and the day's count, income
      and expense move by one and by its amount. */
  lemma AddOnFocusedDay(t: Tx, s: seq<Tx>, now: int)
    ensures var before, after := Snapshot(s, t.day, now).totals, Snapshot([t] + s, t.day, now).totals;
      && after.saldo == before.saldo + Signed(t)
      && after.count == before.count + 1
      && after.dayInc == before.dayInc + Value(t, Inflow)
      && after.dayExp == before.dayExp + Value(t, Outflow)
    ensures Snapshot([t] + s, t.day, now).items == [t] + Snapshot(s, t.day, now).items
  {
    var c := OnDay(t.day);
    KeepPrepend(t, s, Meets(c));
    SumPrepend(t, s, Net);
    SumPrepend(t, Filter(s, c), Inflow);
    SumPrepend(t, Filter(s, c), Outflow);
  }

  /** Adding a transaction on another day leaves the focused day's figures alone. */
  lemma AddOnOtherDay(t: Tx, s: seq<Tx>, focused: int, now: int)
    requires t.day != focused
    ensures var before, after := Snapshot(s, focused, now), Snapshot([t] + s, focused, now);
      && after.totals.saldo == before.totals.saldo + Signed(t)
      && after.items == before.items
      && after.totals.dayInc == before.totals.dayInc
      && after.totals.dayExp == before.totals.dayExp
  {
    var c := OnDay(focused);
    assert Filter([t] + s, c) == Filter(s, c) by {
      KeepPrepend(t, s, Meets(c));
    }
    SumPrepend(t, s, Net);
  }

  /** Adding a transaction moves the week total by its signed value exactly
      when its day is on or after the week start, whichever day is focused. */
  lemma AddMovesWeek(t: Tx, s: seq<Tx>, focused: int, now: int)
    ensures Snapshot([t] + s, focused, now).totals.week
         == Snapshot(s, focused, now).totals.week + (if t.day >= WeekStart(now) then Signed(t) else 0)
  {
    SnapshotWeek(s, focused, now);
    SnapshotWeek([t] + s, focused, now);
    PeriodPrepend(t, s, FromDay(WeekStart(now)));
  }

  /** Adding a transaction moves the month total by its signed value exactly
      when its day is in the month and year of `now`. */
  lemma AddMovesMonth(t: Tx, s: seq<Tx>, focused: int, now: int)
    ensures Snapshot([t] + s, focused, now).totals.month
         == Snapshot(s, focused, now).totals.month
            + (if Month(t.day) == Month(now) && Year(t.day) == Year(now) then Signed(t) else 0)
  {
    SnapshotMonth(s, focused, now);
    SnapshotMonth([t] + s, focused, now);
    assert Matches(t, SameMonth(now)) == (Month(t.day) == Month(now) && Year(t.day) == Year(now));
    PeriodPrepend(t, s, SameMonth(now));
  }

  /** Adding a transaction moves the year total by its signed value exactly
      when its day is in the year of `now`. */
  lemma AddMovesYear(t: Tx, s: seq<Tx>, focused: int, now: int)
    ensures Snapshot([t] + s, focused, now).totals.year
         == Snapshot(s, focused, now).totals.year + (if Year(t.day) == Year(now) then Signed(t) else 0)
  {
    SnapshotYear(s, focused, now);
    SnapshotYear([t] + s, focused, now);
    assert Matches(t, SameYear(now)) == (Year(t.day) == Year(now));
    PeriodPrepend(t, s, SameYear(now));
  }

  lemma SnapshotWeek(s: seq<Tx>, focused: int, now: int)
    ensures Snapshot(s, focused, now).totals.week == Sum(Filter(s, FromDay(WeekStart(now))), Net)
  {
  }

  lemma SnapshotMonth(s: seq<Tx>, focused: int, now: int)
    ensures Snapshot(s, focused, now).totals.month == Sum(Filter(s, SameMonth(now)), Net)
  {
  }

  lemma SnapshotYear(s: seq<Tx>, focused: int, now: int)
    ensures Snapshot(s, focused, now).totals.year == Sum(Filter(s, SameYear(now)), Net)
  {
  }

  lemma PeriodPrepend(t: Tx, s: seq<Tx>, c: Criterion)
    ensures Sum(Filter([t] + s, c), Net) == (if Matches(t, c) then Signed(t) else 0) + Sum(Filter(s, c), Net)
  {
    KeepPrepend(t, s, Meets(c));
    if Matches(t, c) {
      SumPrepend(t, Filter(s, c), Net);
    } else {
      assert [] + Filter(s, c) == Filter(s, c);
    }
  }

  /** A sale below cost is stored as a 'plus' entry with a negative amount:
      it lowers the balance and the day's income by the loss and leaves the
      day's expense unchanged. */
  lemma LossMakingSale(s: seq<Tx>, name: string, modal: int, jual: int, id: int,
                       day: int, time: string, now: int)
    requires jual != 0 && modal > jual
    ensures ProfitEntry(name, modal, jual, id, day, time).Some?
    ensures var e := ProfitEntry(name, modal, jual, id, day, time).value;
      var before, after := Snapshot(s, day, now).totals, Snapshot([e] + s, day, now).totals;
      && e.amount < 0 && e.kind == Plus
      && after.saldo == before.saldo - (modal - jual)
      && after.dayInc == before.dayInc - (modal - jual)
      && after.dayExp == before.dayExp
      && after.count == before.count + 1
  {
    var e := ProfitEntry(name, modal, jual, id, day, time).value;
    assert e.day == day && e.kind == Plus && e.amount == jual - modal;
    assert Value(e, Inflow) == jual - modal && Value(e, Outflow) == 0;
    AddOnFocusedDay(e, s, now);
  }
}
