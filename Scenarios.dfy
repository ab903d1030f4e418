/** Worked examples of the ledger, written as clients of the application
    state: navigation at the start date, deleting an id that is not stored
    and a refused sale. */
module Scenarios {
  import opened Calendar
  import opened Records
  import opened Display
  import opened App

  /** On the start date the previous button is disabled and a step back is
      refused; a step forward reaches day number 2. */
  method NavigateFromStart() {
    var app := new AppState(StartDay, []);
    assert PrevDisabled(app.focusedDate);
    var back := app.ChangeDate(-1, StartDay);
    assert back == None && app.focusedDate == StartDay;
    var next := app.ChangeDate(1, StartDay);
    assert app.focusedDate == StartDay + 1;
    assert next.Some? && next.value.dayNumber == 2 && !next.value.prevDisabled;
  }

  /** Deleting an id that nothing carries leaves the ledger as it was;
      a sale with a zero sell price is refused. */
  method DeleteAbsentIdAndRefusedSale() {
    var t := Tx(1, "Coffee", 15000, Minus, None, StartDay, "08:00");
    var app := new AppState(StartDay, [t]);
    WithoutAbsentId([t], 2);
    var v := app.DeleteItem(2, StartDay);
    assert app.transactions == [t];
    var r := app.SaveProfit("Es", 5000, 0, 3, "11:00", StartDay);
    assert r == None && app.transactions == [t];
  }
}
