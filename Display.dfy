/** The sign and day rules the view applies to the computed figures
    (the prev-button rule of CoreLogic.render, updateUI and setPeriodicColor). */
module Display {
  import opened Calendar

  const TextDanger: string := "text-danger"
  const TextSuccess: string := "text-success"
  const NoColour: string := ""

  /** setPeriodicColor: red for a negative period total, green for a positive one, none for zero. */
  function PeriodicClass(val: int): (c: string)
    ensures c == TextDanger <==> val < 0
    ensures c == TextSuccess <==> val > 0
    ensures c == NoColour <==> val == 0
  {
    if val < 0 then TextDanger else if val > 0 then TextSuccess else NoColour
  }

  const CardMain: string := "card-main"
  const CardMainMinus: string := "card-main is-minus"

  /** The main card carries the is-minus class exactly when the balance is negative. */
  function CardClass(saldo: int): (c: string)
    ensures c == CardMainMinus <==> saldo < 0
    ensures c == CardMain <==> saldo >= 0
  {
    if saldo < 0 then CardMainMinus else CardMain
  }

  /** The "previous day" button is disabled when the focused day's number is at most 1,
      that is exactly when the focused day is not after the start date. */
  function PrevDisabled(focused: int): (b: bool)
    ensures b <==> focused <= StartDay
  {
    DayNumberOfDay(focused, 0);
    DayNumber(Midnight(focused)) <= 1
  }
}
