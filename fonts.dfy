/**
 * The mapping from a `fontWeight` value to the name of an Inter font face.
 * The switch is on `String(weight)`, so a weight may be a number, a string
 * or undefined.
 */
module Fonts {
  import opened JsText

  const Regular := "Inter_400Regular"
  const Medium := "Inter_500Medium"
  const SemiBold := "Inter_600SemiBold"
  const Bold := "Inter_700Bold"
  const ExtraBold := "Inter_800ExtraBold"

  /** The five faces of the `fonts` record. */
  const Faces: seq<string> := [Regular, Medium, SemiBold, Bold, ExtraBold]

  /** A `fontWeight` argument: `string | number | undefined`, numbers being integers. */
  datatype Weight = NumberWeight(n: int) | StringWeight(s: string) | Undefined

  /** `String(weight)`. */
  function WeightText(w: Weight): string {
    match w
    case NumberWeight(n) => IntToString(n)
    case StringWeight(s) => s
    case Undefined => "undefined"
  }

  /** The `switch` on the weight's text. */
  function FontForText(s: string): (f: string)
    ensures f in Faces
    ensures f == ExtraBold <==> s == "800" || s == "900"
    ensures f == Bold <==> s == "700"
    ensures f == SemiBold <==> s == "600"
    ensures f == Medium <==> s == "500"
    ensures f == Regular <==> s !in ["500", "600", "700", "800", "900"]
  {
    if s == "800" || s == "900" then ExtraBold
    else if s == "700" then Bold
    else if s == "600" then SemiBold
    else if s == "500" then Medium
    else Regular
  }

  /** `fontForWeight(weight)`. */
  function FontForWeight(w: Weight): (f: string)
    ensures f in Faces
  {
    FontForText(WeightText(w))
  }

  /** A number and its decimal text select the same face. */
  lemma NumberMatchesItsText(n: int)
    ensures FontForWeight(NumberWeight(n)) == FontForWeight(StringWeight(IntToString(n)))
  {
  }

  /** For numeric weights: 800 and 900 are extra bold, 700 bold, 600 semibold, 500 medium, all else regular. */
  lemma FontForNumber(n: int)
    ensures FontForWeight(NumberWeight(n)) ==
      if n == 800 || n == 900 then ExtraBold
      else if n == 700 then Bold
      else if n == 600 then SemiBold
      else if n == 500 then Medium
      else Regular
  {
    assert IntToString(500) == "500";
    assert IntToString(600) == "600";
    assert IntToString(700) == "700";
    assert IntToString(800) == "800";
    assert IntToString(900) == "900";
    IntToStringInjective(n, 500);
    IntToStringInjective(n, 600);
    IntToStringInjective(n, 700);
    IntToStringInjective(n, 800);
    IntToStringInjective(n, 900);
  }

  /** An absent weight, and `'400'`, are regular. */
  lemma UndefinedIsRegular()
    ensures FontForWeight(Undefined) == Regular
    ensures FontForWeight(StringWeight("400")) == Regular
    ensures FontForWeight(NumberWeight(400)) == Regular
  {
    FontForNumber(400);
  }
}
