/**
 * The normalisation both task dialogs apply to their text fields when they
 * emit a task: a trimmed time slot or "Anytime", and a duration read with
 * `parseInt` where NaN and 0 fall back to 30 minutes.
 */
module TaskForm {
  import opened Wrappers
  import opened JsText

  const Anytime := "Anytime"
  const DefaultDuration := 30

  /** `timeSlot.trim() || 'Anytime'`. */
  function SlotOrAnytime(field: string): (r: string)
    ensures r != ""
    ensures Trim(field) != "" ==> r == Trim(field)
    ensures Trim(field) == "" ==> r == Anytime
  {
    OrString(Some(Trim(field)), Anytime)
  }

  /** The slot written is already normal: normalising it again leaves it as it is. */
  lemma SlotStable(field: string)
    ensures Trim(SlotOrAnytime(field)) == SlotOrAnytime(field)
    ensures SlotOrAnytime(SlotOrAnytime(field)) == SlotOrAnytime(field)
  {
    TrimIdempotent(field);
    TrimOfTrimmed(Anytime);
  }

  /** `parseInt(duration) || 30`: NaN and 0 are falsy; any other value, negative ones included, is kept. */
  function DurationOrDefault(field: string): (d: int)
    ensures d != 0
    ensures ParseInt(field).Some? && ParseInt(field).value != 0 ==> d == ParseInt(field).value
    ensures ParseInt(field) == None || ParseInt(field) == Some(0) ==> d == DefaultDuration
  {
    match ParseInt(field)
    case Some(v) => if v != 0 then v else DefaultDuration
    case None => DefaultDuration
  }

  /**
   * A duration written with `String(n)` reads back as `n`, except 0 which
   * becomes 30: so a negative duration survives the round trip.
   */
  lemma DurationOfText(n: int)
    ensures DurationOrDefault(IntToString(n)) == if n == 0 then DefaultDuration else n
  {
    ParseIntOfIntToString(n);
  }

  /** A field holding no digits at all, such as the empty field, gives 30 minutes. */
  lemma BlankDurationIsDefault(field: string)
    requires forall i :: 0 <= i < |field| ==> IsJsSpace(field[i])
    ensures DurationOrDefault(field) == DefaultDuration
  {
    assert TrimStart(field) == [];
  }
}
