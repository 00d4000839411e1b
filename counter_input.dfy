/** The numeric counter control: minus and plus buttons step the value by one inside
    [min, max], and typed text is parsed and clamped into that range. Each handler holds no
    state; it returns the value handed to `onChange`, or None when nothing is emitted. */
module CounterInput {

  import opened Wrappers
  import opened Text
  import opened Numbers

  const DefaultMin: int := 0
  const DefaultMax: int := 100

  /** `increment`: value + 1 while below max. */
  function Increment(value: int, max: int): (r: Option<int>)
    ensures r.Some? <==> value < max
    ensures r.Some? ==> r.value == value + 1 && r.value <= max
  {
    if value < max then Some(value + 1) else None
  }

  /** `decrement`: value - 1 while above min. */
  function Decrement(value: int, min: int): (r: Option<int>)
    ensures r.Some? <==> value > min
    ensures r.Some? ==> r.value == value - 1 && r.value >= min
  {
    if value > min then Some(value - 1) else None
  }

  /** `handleChange`: the parsed text clamped into [min, max]; nothing for non-numeric text. */
  function HandleChange(text: string, min: int, max: int): (r: Option<int>)
    ensures r.None? <==> ParseInt(text).None?
    ensures r.Some? && min <= max ==> min <= r.value <= max
    ensures r.Some? && min <= ParseInt(text).value <= max ==> r.value == ParseInt(text).value
    ensures r.Some? && ParseInt(text).value < min ==> r.value == min
    ensures r.Some? && min <= max < ParseInt(text).value ==> r.value == max
    ensures r.Some? && max < min ==> r.value == min
  {
    match ParseInt(text)
    case None => None
    case Some(n) => Some(Clamp(n, min, max))
  }

  /** The minus button is disabled (value <= min) exactly when decrementing emits nothing,
      and likewise for the plus button. */
  lemma DisabledIffNoChange(value: int, min: int, max: int)
    ensures value <= min <==> Decrement(value, min).None?
    ensures value >= max <==> Increment(value, max).None?
  {
  }

  /** From a value in range, every handler emits a value in range. */
  lemma EmittedValuesInRange(value: int, min: int, max: int, text: string)
    requires min <= value <= max
    ensures Increment(value, max).Some? ==> min <= Increment(value, max).value <= max
    ensures Decrement(value, min).Some? ==> min <= Decrement(value, min).value <= max
    ensures HandleChange(text, min, max).Some? ==> min <= HandleChange(text, min, max).value <= max
  {
  }

  /** Plus then minus comes back to the starting value. */
  lemma IncrementThenDecrement(value: int, min: int, max: int)
    requires min <= value < max
    ensures Decrement(Increment(value, max).value, min) == Some(value)
  {
  }

  /** Typing the rendering of an in-range number emits that number. */
  lemma TypedNumberRoundTrip(v: int, min: int, max: int)
    requires min <= v <= max
    ensures HandleChange(IntToString(v), min, max) == Some(v)
  {
    ParseIntOfIntToString(v);
  }

  /** Typing back what was emitted emits it again. */
  lemma HandleChangeIdempotent(text: string, min: int, max: int)
    requires min <= max && HandleChange(text, min, max).Some?
    ensures HandleChange(IntToString(HandleChange(text, min, max).value), min, max)
            == HandleChange(text, min, max)
  {
    TypedNumberRoundTrip(HandleChange(text, min, max).value, min, max);
  }

  /** Text that does not start with a digit (after an optional sign) emits nothing. */
  lemma NonNumericEmitsNothing()
    ensures HandleChange("", DefaultMin, DefaultMax).None?
    ensures HandleChange("abc", DefaultMin, DefaultMax).None?
    ensures HandleChange("-", DefaultMin, DefaultMax).None?
  {
    assert "-"[1..] == "";
  }

  /** With the default range, typing 250 emits 100 and typing -7 emits 0. */
  lemma DefaultRangeExamples()
    ensures HandleChange("250", DefaultMin, DefaultMax) == Some(100)
    ensures HandleChange("-7", DefaultMin, DefaultMax) == Some(0)
  {
    assert IntToString(250) == "250";
    ParseIntOfIntToString(250);
    assert IntToString(-7) == "-7";
    ParseIntOfIntToString(-7);
  }
}
