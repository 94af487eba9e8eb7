/**
 * The day key `YYYY-MM-DD` built from a calendar date, the identity
 * `formatTime`, and the greeting chosen by the hour.  The clock is a
 * parameter: the year, the zero-based month and the day of the month of
 * "now", or its hour.
 */
module DateUtils {
  import opened Wrappers
  import opened JsText

  /** `${year}-${pad2(month + 1)}-${pad2(day)}`, with `month` zero-based as `getMonth()` returns it. */
  function DateKey(year: int, monthIndex: nat, day: nat): string {
    IntToString(year) + "-" + PadStart(NatToString(monthIndex + 1), 2, '0') + "-" + PadStart(NatToString(day), 2, '0')
  }

  /** For a four-digit year the key is ten characters, with dashes at positions 4 and 7. */
  lemma DateKeyShape(year: int, monthIndex: nat, day: nat)
    requires 1000 <= year <= 9999 && monthIndex < 12 && 1 <= day <= 31
    ensures var k := DateKey(year, monthIndex, day);
            |k| == 10 && k[4] == '-' && k[7] == '-'
            && k[..4] == NatToString(year)
            && k[5..7] == TwoDigits(monthIndex + 1) && k[8..] == TwoDigits(day)
  {
    NatToStringLength(year);
    DateKeyAsParts(year, monthIndex, day);
  }

  /** For a year that is not negative the key is its three parts joined by dashes. */
  lemma DateKeyAsParts(year: int, monthIndex: nat, day: nat)
    requires 0 <= year && monthIndex < 99 && day < 100
    ensures DateKey(year, monthIndex, day) == NatToString(year) + "-" + TwoDigits(monthIndex + 1) + "-" + TwoDigits(day)
  {
  }

  /** Two-digit padding keeps the value: equal padded texts mean equal numbers. */
  lemma TwoDigitsInjective(a: nat, b: nat)
    requires a < 100 && b < 100
    ensures TwoDigits(a) == TwoDigits(b) <==> a == b
  {
    if TwoDigits(a) == TwoDigits(b) {
      assert DigitValue(TwoDigits(a)[0], 10) == Some(a / 10);
      assert DigitValue(TwoDigits(b)[0], 10) == Some(b / 10);
      assert DigitValue(TwoDigits(a)[1], 10) == Some(a % 10);
      assert DigitValue(TwoDigits(b)[1], 10) == Some(b % 10);
    }
  }

  /** The key read backwards: the day is the last two characters, the month the two before the dash. */
  lemma DateKeyParts(year: int, monthIndex: nat, day: nat)
    requires monthIndex < 99 && day < 100
    ensures var k := DateKey(year, monthIndex, day);
            |k| >= 7 && k[..|k| - 6] == IntToString(year)
            && k[|k| - 5..|k| - 3] == TwoDigits(monthIndex + 1) && k[|k| - 2..] == TwoDigits(day)
  {
    SplitParts(IntToString(year), TwoDigits(monthIndex + 1), TwoDigits(day));
  }

  /** Joining with two-character middle and last parts can be undone by position. */
  lemma SplitParts(y: string, m: string, d: string)
    requires |m| == 2 && |d| == 2
    ensures var k := y + "-" + m + "-" + d;
            |k| == |y| + 6 && k[..|k| - 6] == y && k[|k| - 5..|k| - 3] == m && k[|k| - 2..] == d
  {
    var k := y + "-" + m + "-" + d;
    assert k == y + ("-" + m + "-" + d);
  }

  /**
   * Distinct dates give distinct keys: the month and the day always take
   * two characters, so the key splits back into its three parts.
   */
  lemma DateKeyInjective(y1: int, m1: nat, d1: nat, y2: int, m2: nat, d2: nat)
    requires m1 < 99 && m2 < 99 && d1 < 100 && d2 < 100
    ensures DateKey(y1, m1, d1) == DateKey(y2, m2, d2) <==> (y1, m1, d1) == (y2, m2, d2)
  {
    if DateKey(y1, m1, d1) == DateKey(y2, m2, d2) {
      DateKeyParts(y1, m1, d1);
      DateKeyParts(y2, m2, d2);
      IntToStringInjective(y1, y2);
      TwoDigitsInjective(m1 + 1, m2 + 1);
      TwoDigitsInjective(d1, d2);
    }
  }

  // ---------------------------------------------------------------------------
  // String order of keys
  // ---------------------------------------------------------------------------

  /**
   * JavaScript's `<` on strings, on ASCII text such as date keys: character
   * by character, the shorter text first when one is a prefix of the other.
   * JavaScript compares UTF-16 code units, which order astral characters
   * differently from code points; keys never contain them.
   */
  function StrLess(a: string, b: string): bool {
    if a == [] then b != []
    else if b == [] then false
    else if a[0] != b[0] then a[0] < b[0]
    else StrLess(a[1..], b[1..])
  }

  /** Comparing two concatenations whose first parts have equal length. */
  lemma {:induction false} StrLessConcat(a1: string, b1: string, a2: string, b2: string)
    requires |a1| == |a2|
    ensures StrLess(a1 + b1, a2 + b2) <==> StrLess(a1, a2) || (a1 == a2 && StrLess(b1, b2))
    decreases |a1|
  {
    if a1 != [] {
      assert (a1 + b1)[0] == a1[0] && (a2 + b2)[0] == a2[0];
      assert (a1 + b1)[1..] == a1[1..] + b1 && (a2 + b2)[1..] == a2[1..] + b2;
      StrLessConcat(a1[1..], b1, a2[1..], b2);
      if a1[0] == a2[0] {
        assert a1 == a2 <==> a1[1..] == a2[1..];
      }
    } else {
      assert a1 + b1 == b1 && a2 + b2 == b2;
    }
  }

  function Pow10(k: nat): (p: nat)
    ensures p >= 1
  {
    if k == 0 then 1 else 10 * Pow10(k - 1)
  }

  /** The decimal value of a digit string read from its first digit. */
  function FrontValue(s: string): (v: nat)
    requires AllDigits(s)
    ensures v < Pow10(|s|)
  {
    if s == [] then 0
    else
      var d := (s[0] as int) - ('0' as int);
      var rest := FrontValue(s[1..]);
      DigitPlace(d, Pow10(|s| - 1), rest);
      d * Pow10(|s| - 1) + rest
  }

  /** A digit in front of a smaller remainder stays below the next power of ten. */
  lemma DigitPlace(d: int, p: nat, rest: nat)
    requires 0 <= d < 10 && rest < p
    ensures 0 <= d * p + rest < 10 * p
  {
    assert d * p <= 9 * p;
  }

  /** A larger leading digit outweighs whatever follows it. */
  lemma LeadingDigitDominates(a: int, b: int, p: nat, ra: nat, rb: nat)
    requires 0 <= a < b && ra < p
    ensures a * p + ra < b * p + rb
  {
    assert b * p == a * p + (b - a) * p;
    assert (b - a) * p >= p by {
      assert b - a >= 1;
    }
  }

  /** Among digit strings of one length, string order is numeric order. */
  lemma {:induction false} DigitsOrder(s: string, t: string)
    requires AllDigits(s) && AllDigits(t) && |s| == |t|
    ensures StrLess(s, t) <==> FrontValue(s) < FrontValue(t)
    ensures s == t <==> FrontValue(s) == FrontValue(t)
    decreases |s|
  {
    if s != [] {
      DigitsOrder(s[1..], t[1..]);
      var ds, dt := (s[0] as int) - ('0' as int), (t[0] as int) - ('0' as int);
      var p := Pow10(|s| - 1);
      var rs, rt := FrontValue(s[1..]), FrontValue(t[1..]);
      assert FrontValue(s) == ds * p + rs && FrontValue(t) == dt * p + rt;
      if ds < dt {
        LeadingDigitDominates(ds, dt, p, rs, rt);
      } else if dt < ds {
        LeadingDigitDominates(dt, ds, p, rt, rs);
      } else {
        assert s == [s[0]] + s[1..] && t == [t[0]] + t[1..];
      }
    }
  }

  lemma ShiftDigit(d: int, p: int, x: int, e: int)
    ensures d * (10 * p) + (x * 10 + e) == (d * p + x) * 10 + e
  {
  }

  /** Appending a digit multiplies the value by ten and adds the digit. */
  lemma {:induction false} FrontValueAppend(s: string, c: char)
    requires AllDigits(s) && IsDigit(c)
    ensures AllDigits(s + [c])
    ensures FrontValue(s + [c]) == FrontValue(s) * 10 + ((c as int) - ('0' as int))
    decreases |s|
  {
    var sc := s + [c];
    if s != [] {
      assert sc[1..] == s[1..] + [c];
      FrontValueAppend(s[1..], c);
      var d := (s[0] as int) - ('0' as int);
      var p := Pow10(|s| - 1);
      assert Pow10(|sc| - 1) == 10 * p;
      assert FrontValue(sc) == d * (10 * p) + FrontValue(s[1..] + [c]);
      assert FrontValue(s) == d * p + FrontValue(s[1..]);
      ShiftDigit(d, p, FrontValue(s[1..]), (c as int) - ('0' as int));
    } else {
      assert sc[1..] == [];
    }
  }

  /** Read from the front, `String(n)` still denotes n. */
  lemma {:induction false} FrontValueOfNatToString(n: nat)
    ensures AllDigits(NatToString(n)) && FrontValue(NatToString(n)) == n
    decreases n
  {
    if n >= 10 {
      FrontValueOfNatToString(n / 10);
      FrontValueAppend(NatToString(n / 10), DigitChar(n % 10));
    } else {
      assert NatToString(n)[1..] == [];
    }
  }

  /** Lexicographic order of dates. */
  predicate DateBefore(y1: int, m1: int, d1: int, y2: int, m2: int, d2: int) {
    y1 < y2 || (y1 == y2 && (m1 < m2 || (m1 == m2 && d1 < d2)))
  }

  lemma TwoDigitsValue(n: nat)
    requires n < 100
    ensures FrontValue(TwoDigits(n)) == n
  {
    var t := TwoDigits(n);
    assert t[1..][1..] == [];
  }

  /** Two dash-separated triples with parts of equal length compare part by part. */
  lemma TripleOrder(a1: string, b1: string, c1: string, a2: string, b2: string, c2: string)
    requires |a1| == |a2| && |b1| == |b2|
    ensures StrLess(a1 + "-" + b1 + "-" + c1, a2 + "-" + b2 + "-" + c2) <==>
      StrLess(a1, a2) || (a1 == a2 && (StrLess(b1, b2) || (b1 == b2 && StrLess(c1, c2))))
  {
    assert a1 + "-" + b1 + "-" + c1 == a1 + ("-" + (b1 + ("-" + c1)));
    assert a2 + "-" + b2 + "-" + c2 == a2 + ("-" + (b2 + ("-" + c2)));
    StrLessConcat(a1, "-" + (b1 + ("-" + c1)), a2, "-" + (b2 + ("-" + c2)));
    StrLessConcat("-", b1 + ("-" + c1), "-", b2 + ("-" + c2));
    StrLessConcat(b1, "-" + c1, b2, "-" + c2);
    StrLessConcat("-", c1, "-", c2);
    assert !StrLess("-", "-");
  }

  /** Two-digit texts compare as their numbers. */
  lemma TwoDigitsOrder(a: nat, b: nat)
    requires a < 100 && b < 100
    ensures StrLess(TwoDigits(a), TwoDigits(b)) <==> a < b
    ensures TwoDigits(a) == TwoDigits(b) <==> a == b
  {
    TwoDigitsValue(a);
    TwoDigitsValue(b);
    DigitsOrder(TwoDigits(a), TwoDigits(b));
  }

  /** Four-digit years compare as their numbers. */
  lemma YearOrder(a: nat, b: nat)
    requires 1000 <= a <= 9999 && 1000 <= b <= 9999
    ensures |NatToString(a)| == |NatToString(b)| == 4
    ensures StrLess(NatToString(a), NatToString(b)) <==> a < b
    ensures NatToString(a) == NatToString(b) <==> a == b
  {
    NatToStringLength(a);
    NatToStringLength(b);
    FrontValueOfNatToString(a);
    FrontValueOfNatToString(b);
    DigitsOrder(NatToString(a), NatToString(b));
  }

  /** For four-digit years, comparing keys as strings compares the dates. */
  lemma DateKeyOrder(y1: int, m1: nat, d1: nat, y2: int, m2: nat, d2: nat)
    requires 1000 <= y1 <= 9999 && 1000 <= y2 <= 9999
    requires m1 < 12 && m2 < 12 && 1 <= d1 <= 31 && 1 <= d2 <= 31
    ensures StrLess(DateKey(y1, m1, d1), DateKey(y2, m2, d2)) <==> DateBefore(y1, m1, d1, y2, m2, d2)
  {
    var a1, b1, c1 := NatToString(y1), TwoDigits(m1 + 1), TwoDigits(d1);
    var a2, b2, c2 := NatToString(y2), TwoDigits(m2 + 1), TwoDigits(d2);
    DateKeyAsParts(y1, m1, d1);
    DateKeyAsParts(y2, m2, d2);
    YearOrder(y1, y2);
    TwoDigitsOrder(m1 + 1, m2 + 1);
    TwoDigitsOrder(d1, d2);
    OrderFromParts(a1, b1, c1, a2, b2, c2, y1, m1 + 1, d1, y2, m2 + 1, d2);
  }

  /** Dash-joined parts that each compare as their numbers compare as the dates. */
  lemma OrderFromParts(a1: string, b1: string, c1: string, a2: string, b2: string, c2: string,
                       y1: int, m1: int, d1: int, y2: int, m2: int, d2: int)
    requires |a1| == |a2| && |b1| == |b2|
    requires (StrLess(a1, a2) <==> y1 < y2) && (a1 == a2 <==> y1 == y2)
    requires (StrLess(b1, b2) <==> m1 < m2) && (b1 == b2 <==> m1 == m2)
    requires StrLess(c1, c2) <==> d1 < d2
    ensures StrLess(a1 + "-" + b1 + "-" + c1, a2 + "-" + b2 + "-" + c2) <==> DateBefore(y1, m1, d1, y2, m2, d2)
  {
    TripleOrder(a1, b1, c1, a2, b2, c2);
  }

  // ---------------------------------------------------------------------------
  // formatTime and getGreeting
  // ---------------------------------------------------------------------------

  /** `formatTime(timeStr)` hands its argument back unchanged. */
  function FormatTime(timeStr: string): (r: string)
    ensures r == timeStr
  {
    timeStr
  }

  /** `getGreeting()` for the current hour. */
  function Greeting(hour: int): (g: string)
    ensures g == "Up at this hour?" <==> hour < 6
    ensures g == "Morning" <==> 6 <= hour < 12
    ensures g == "Afternoon" <==> 12 <= hour < 17
    ensures g == "Evening" <==> 17 <= hour < 21
    ensures g == "Late night" <==> 21 <= hour
  {
    if hour < 6 then "Up at this hour?"
    else if hour < 12 then "Morning"
    else if hour < 17 then "Afternoon"
    else if hour < 21 then "Evening"
    else "Late night"
  }
}
