/** The travel dates and the day count the form derives from them. */
module Travel {
  import opened Wrappers
  import opened Numbers

  /** A travel date as a day number; `None` is the empty date field. */
  type TravelDate = Option<int>

  /** `Math.max(0, x)`. */
  function MaxZero(x: int): nat {
    if x < 0 then 0 else x
  }

  /**
   * The effect that fills "No. of Days": with both dates set and the end not before the start,
   * the whole days between them plus one (never below 0), as text; otherwise the empty text.
   * On day numbers the millisecond difference divided by a day and rounded up is exactly
   * `end - start`.
   */
  function DayCount(start: TravelDate, end: TravelDate): string {
    if start.Some? && end.Some? then
      if end.value >= start.value then
        NatToString(MaxZero(end.value - start.value + 1))
      else ""
    else ""
  }

  /**
   * The count is set exactly when both dates are and the end is not before the start; it then
   * reads as `end - start + 1`, which is at least 1.
   */
  lemma DayCountSpec(start: TravelDate, end: TravelDate)
    ensures DayCount(start, end) != "" <==> start.Some? && end.Some? && end.value >= start.value
    ensures start.Some? && end.Some? && end.value >= start.value ==>
      exists n: nat :: n >= 1 && n == end.value - start.value + 1 && NumberOfDigits(DayCount(start, end)) == Some(n)
  {
    if start.Some? && end.Some? && end.value >= start.value {
      var n: nat := end.value - start.value + 1;
      NumberOfNatToString(n);
    }
  }
}
