/**
 * The `subtasksJson` attribute of a stored task: `JSON.stringify` of the
 * checklist, an array of `{"id", "title", "completed"}` objects, and the
 * `JSON.parse` that reads it back.  The reader accepts the text the writer
 * produces, with every escape sequence JSON allows inside strings; a text it
 * cannot read is `None`, where `JSON.parse` would throw.
 */
module SubtaskJson {
  import opened Wrappers
  import opened TaskTypes

  // ---------------------------------------------------------------------------
  // Writing
  // ---------------------------------------------------------------------------

  /** The lower-case hexadecimal digit of `n`. */
  function HexDigit(n: nat): (c: char)
    requires n < 16
    ensures HexValue(c) == Some(n)
  {
    if n < 10 then ('0' as int + n) as char else ('a' as int + n - 10) as char
  }

  /** How `JSON.stringify` writes one character inside a string literal. */
  function EscapeChar(c: char): (r: string)
    ensures |r| >= 1
  {
    if c == '"' then "\\\""
    else if c == '\\' then "\\\\"
    else if c == '\U{0008}' then "\\b"
    else if c == '\t' then "\\t"
    else if c == '\n' then "\\n"
    else if c == '\U{000C}' then "\\f"
    else if c == '\r' then "\\r"
    else if (c as int) < 0x20 then "\\u00" + [HexDigit((c as int) / 16), HexDigit((c as int) % 16)]
    else [c]
  }

  function EscapeBody(s: string): string {
    if s == [] then [] else EscapeChar(s[0]) + EscapeBody(s[1..])
  }

  /** A string literal: the escaped text between double quotes. */
  function Quote(s: string): string {
    "\"" + EscapeBody(s) + "\""
  }

  function EncodeBool(b: bool): string {
    if b then "true" else "false"
  }

  /** One checklist item, keys in the order `id`, `title`, `completed`. */
  function EncodeSubTask(st: SubTask): string {
    "{\"id\":" + Quote(st.id) + ",\"title\":" + Quote(st.title) + ",\"completed\":" + EncodeBool(st.completed) + "}"
  }

  /** The items of a non-empty array, separated by commas. */
  function EncodeItems(subs: seq<SubTask>): string
    requires |subs| > 0
  {
    if |subs| == 1 then EncodeSubTask(subs[0])
    else EncodeSubTask(subs[0]) + "," + EncodeItems(subs[1..])
  }

  /** `JSON.stringify(subtasks)`. */
  function Encode(subs: seq<SubTask>): (r: string)
    ensures |r| >= 2 && r[0] == '[' && r[|r| - 1] == ']'
  {
    if subs == [] then "[]" else "[" + EncodeItems(subs) + "]"
  }

  // ---------------------------------------------------------------------------
  // Reading
  // ---------------------------------------------------------------------------

  /** The value of a hexadecimal digit, either case. */
  function HexValue(c: char): (r: Option<nat>)
    ensures r.Some? ==> r.value < 16
  {
    if '0' <= c <= '9' then Some((c as int) - ('0' as int))
    else if 'a' <= c <= 'f' then Some((c as int) - ('a' as int) + 10)
    else if 'A' <= c <= 'F' then Some((c as int) - ('A' as int) + 10)
    else None
  }

  /** The rest of `s` after the literal `lit`, if `s` starts with it. */
  function Expect(lit: string, s: string): (r: Option<string>)
    ensures r.Some? ==> |r.value| == |s| - |lit| && s == lit + r.value
  {
    if |lit| <= |s| && s[..|lit|] == lit then Some(s[|lit|..]) else None
  }

  /**
   * The character denoted by the escape sequence after a backslash, and the
   * text after it.  `\uXXXX` naming a surrogate half has no character of its
   * own and is not read.
   */
  function ParseEscape(s: string): (r: Option<(char, string)>)
    ensures r.Some? ==> |r.value.1| < |s|
  {
    if s == [] then None
    else if s[0] == '"' then Some(('"', s[1..]))
    else if s[0] == '\\' then Some(('\\', s[1..]))
    else if s[0] == '/' then Some(('/', s[1..]))
    else if s[0] == 'b' then Some(('\U{0008}', s[1..]))
    else if s[0] == 'f' then Some(('\U{000C}', s[1..]))
    else if s[0] == 'n' then Some(('\n', s[1..]))
    else if s[0] == 'r' then Some(('\r', s[1..]))
    else if s[0] == 't' then Some(('\t', s[1..]))
    else if s[0] == 'u' && |s| >= 5 then
      match (HexValue(s[1]), HexValue(s[2]), HexValue(s[3]), HexValue(s[4]))
      case (Some(a), Some(b), Some(c), Some(d)) =>
        var v := 4096 * a + 256 * b + 16 * c + d;
        if 0xD800 <= v < 0xE000 then None else Some((v as char, s[5..]))
      case _ => None
    else None
  }

  /**
   * The characters of a string literal whose opening quote has been read, up
   * to and including the closing quote.  A raw control character is an error.
   */
  function ParseStringBody(s: string): (r: Option<(string, string)>)
    ensures r.Some? ==> |r.value.1| < |s|
    decreases |s|
  {
    if s == [] then None
    else if s[0] == '"' then Some(([], s[1..]))
    else if s[0] == '\\' then
      match ParseEscape(s[1..])
      case None => None
      case Some((c, rest)) =>
        match ParseStringBody(rest)
        case None => None
        case Some((t, after)) => Some(([c] + t, after))
    else if (s[0] as int) < 0x20 then None
    else
      match ParseStringBody(s[1..])
      case None => None
      case Some((t, after)) => Some(([s[0]] + t, after))
  }

  function ParseBool(s: string): (r: Option<(bool, string)>)
    ensures r.Some? ==> |r.value.1| < |s|
  {
    match Expect("true", s)
    case Some(rest) => Some((true, rest))
    case None =>
      match Expect("false", s)
      case Some(rest) => Some((false, rest))
      case None => None
  }

  /** A string literal: an opening quote, then its body. */
  function ParseQuoted(s: string): (r: Option<(string, string)>)
    ensures r.Some? ==> |r.value.1| < |s|
  {
    match Expect("\"", s)
    case None => None
    case Some(s1) => ParseStringBody(s1)
  }

  /** One `{"id":…,"title":…,"completed":…}` object and the text after it. */
  function ParseSubTask(s: string): (r: Option<(SubTask, string)>)
    ensures r.Some? ==> |r.value.1| < |s|
  {
    match Expect("{\"id\":", s)
    case None => None
    case Some(s1) =>
      match ParseQuoted(s1)
      case None => None
      case Some((id, s2)) =>
        match Expect(",\"title\":", s2)
        case None => None
        case Some(s3) =>
          match ParseQuoted(s3)
          case None => None
          case Some((title, s4)) =>
            match Expect(",\"completed\":", s4)
            case None => None
            case Some(s5) =>
              match ParseBool(s5)
              case None => None
              case Some((done, s6)) =>
                match Expect("}", s6)
                case None => None
                case Some(s7) => Some((SubTask(id, title, done), s7))
  }

  /** Objects separated by commas, up to and including the closing bracket. */
  function ParseItems(s: string): (r: Option<(seq<SubTask>, string)>)
    ensures r.Some? ==> |r.value.0| > 0
    decreases |s|
  {
    match ParseSubTask(s)
    case None => None
    case Some((st, rest)) =>
      if |rest| > 0 && rest[0] == ',' then
        match ParseItems(rest[1..])
        case None => None
        case Some((more, after)) => Some(([st] + more, after))
      else if |rest| > 0 && rest[0] == ']' then Some(([st], rest[1..]))
      else None
  }

  /** `JSON.parse(text) as SubTask[]`; `None` where the text is not such an array. */
  function Decode(text: string): Option<seq<SubTask>> {
    if text == "[]" then Some([])
    else if |text| > 0 && text[0] == '[' then
      match ParseItems(text[1..])
      case Some((subs, rest)) => if rest == [] then Some(subs) else None
      case None => None
    else None
  }

  // ---------------------------------------------------------------------------
  // Reading back what was written
  // ---------------------------------------------------------------------------

  lemma ExpectPrefix(lit: string, rest: string)
    ensures Expect(lit, lit + rest) == Some(rest)
  {
    assert (lit + rest)[..|lit|] == lit;
    assert (lit + rest)[|lit|..] == rest;
  }

  /** Reading one written character leaves the text after it. */
  lemma ParseEscapedChar(c: char, tail: string)
    ensures ParseStringBody(EscapeChar(c) + tail) ==
      match ParseStringBody(tail)
      case None => None
      case Some((t, after)) => Some(([c] + t, after))
  {
    var e := EscapeChar(c);
    var s := e + tail;
    if c == '"' || c == '\\' || c == '\U{0008}' || c == '\t' || c == '\n' || c == '\U{000C}' || c == '\r' {
      assert s[0] == '\\' && s[1..] == [e[1]] + tail;
      assert s[1..][1..] == tail;
    } else if (c as int) < 0x20 {
      var hi, lo := (c as int) / 16, (c as int) % 16;
      assert e == ['\\', 'u', '0', '0', HexDigit(hi), HexDigit(lo)];
      assert s[1..] == ['u', '0', '0', HexDigit(hi), HexDigit(lo)] + tail;
      assert s[1..][5..] == tail;
      assert 4096 * 0 + 256 * 0 + 16 * hi + lo == c as int;
    } else {
      assert s[1..] == tail;
    }
  }

  /** A written string body, then the closing quote, reads back as the string. */
  lemma {:induction false} ParseEscapeBody(x: string, rest: string)
    ensures ParseStringBody(EscapeBody(x) + "\"" + rest) == Some((x, rest))
    decreases |x|
  {
    if x == [] {
      assert EscapeBody(x) + "\"" + rest == ['"'] + rest;
    } else {
      assert EscapeBody(x) + "\"" + rest == EscapeChar(x[0]) + (EscapeBody(x[1..]) + "\"" + rest);
      ParseEscapedChar(x[0], EscapeBody(x[1..]) + "\"" + rest);
      ParseEscapeBody(x[1..], rest);
      assert [x[0]] + x[1..] == x;
    }
  }

  lemma ParseQuotedEncoded(x: string, rest: string)
    ensures ParseQuoted(Quote(x) + rest) == Some((x, rest))
  {
    assert Quote(x) + rest == "\"" + (EscapeBody(x) + "\"" + rest);
    ExpectPrefix("\"", EscapeBody(x) + "\"" + rest);
    ParseEscapeBody(x, rest);
  }

  lemma ParseEncodedBool(b: bool, rest: string)
    ensures ParseBool(EncodeBool(b) + rest) == Some((b, rest))
  {
    ExpectPrefix(EncodeBool(b), rest);
    if !b {
      assert Expect("true", EncodeBool(b) + rest) == None by {
        assert (EncodeBool(b) + rest)[1] == 'a';
      }
    }
  }

  /** The written object spelled out piece by piece. */
  lemma EncodeSubTaskPieces(st: SubTask, rest: string)
    ensures EncodeSubTask(st) + rest ==
      "{\"id\":" + (Quote(st.id) + (",\"title\":" + (Quote(st.title) + (",\"completed\":" + (EncodeBool(st.completed) + ("}" + rest))))))
  {
    var a, b, c, d := "{\"id\":", Quote(st.id), ",\"title\":", Quote(st.title);
    var e, f, g := ",\"completed\":", EncodeBool(st.completed), "}";
    Assoc(a + b + c + d + e + f, g, rest);
    Assoc(a + b + c + d + e, f, g + rest);
    Assoc(a + b + c + d, e, f + (g + rest));
    Assoc(a + b + c, d, e + (f + (g + rest)));
    Assoc(a + b, c, d + (e + (f + (g + rest))));
    Assoc(a, b, c + (d + (e + (f + (g + rest)))));
  }

  lemma Assoc(x: string, y: string, z: string)
    ensures x + y + z == x + (y + z)
  {
  }

  lemma ParseEncodedSubTask(st: SubTask, rest: string)
    ensures ParseSubTask(EncodeSubTask(st) + rest) == Some((st, rest))
  {
    var k1, k2, k3 := "{\"id\":", ",\"title\":", ",\"completed\":";
    var s6 := "}" + rest;
    var s5 := EncodeBool(st.completed) + s6;
    var s4 := k3 + s5;
    var s3 := Quote(st.title) + s4;
    var s2 := k2 + s3;
    var s1 := Quote(st.id) + s2;
    ExpectPrefix(k1, s1);
    ParseQuotedEncoded(st.id, s2);
    ExpectPrefix(k2, s3);
    ParseQuotedEncoded(st.title, s4);
    ExpectPrefix(k3, s5);
    ParseEncodedBool(st.completed, s6);
    ExpectPrefix("}", rest);
    EncodeSubTaskPieces(st, rest);
  }

  lemma ParseItemsLast(st: SubTask, rest: string)
    ensures ParseItems(EncodeSubTask(st) + ("]" + rest)) == Some(([st], rest))
  {
    ParseEncodedSubTask(st, "]" + rest);
    assert ("]" + rest)[1..] == rest;
  }

  lemma ParseItemsNext(st: SubTask, tail: string)
    ensures ParseItems(EncodeSubTask(st) + ("," + tail)) ==
      match ParseItems(tail)
      case None => None
      case Some((more, after)) => Some(([st] + more, after))
  {
    ParseEncodedSubTask(st, "," + tail);
    assert ("," + tail)[1..] == tail;
  }

  lemma {:induction false} ParseEncodedItems(subs: seq<SubTask>, rest: string)
    requires |subs| > 0
    ensures ParseItems(EncodeItems(subs) + "]" + rest) == Some((subs, rest))
    decreases |subs|
  {
    if |subs| == 1 {
      Assoc(EncodeSubTask(subs[0]), "]", rest);
      ParseItemsLast(subs[0], rest);
      assert [subs[0]] == subs;
    } else {
      var head, items := EncodeSubTask(subs[0]), EncodeItems(subs[1..]);
      var tail := items + "]" + rest;
      Assoc(head + "," + items, "]", rest);
      Assoc(head + ",", items, "]" + rest);
      Assoc(items, "]", rest);
      Assoc(head, ",", tail);
      ParseItemsNext(subs[0], tail);
      ParseEncodedItems(subs[1..], rest);
      assert [subs[0]] + subs[1..] == subs;
    }
  }

  /** `JSON.parse(JSON.stringify(subtasks))` gives back the same checklist, in order. */
  lemma DecodeEncode(subs: seq<SubTask>)
    ensures Decode(Encode(subs)) == Some(subs)
  {
    if subs != [] {
      ParseEncodedItems(subs, []);
      EncodedArray(subs);
    }
  }

  /** A non-empty array is its items between brackets, and is not `[]`. */
  lemma EncodedArray(subs: seq<SubTask>)
    requires |subs| > 0
    ensures var text := Encode(subs);
            text != "[]" && |text| > 0 && text[0] == '[' && text[1..] == EncodeItems(subs) + "]" + []
  {
    var items := EncodeItems(subs);
    assert |items| >= |EncodeSubTask(subs[0])| > 0;
    var tail := items + "]";
    Assoc("[", items, "]");
    assert Encode(subs) == "[" + tail;
    assert ("[" + tail)[1..] == tail;
    assert items + "]" + [] == items + "]";
  }

  /** Different checklists are written as different texts. */
  lemma EncodeInjective(a: seq<SubTask>, b: seq<SubTask>)
    ensures Encode(a) == Encode(b) <==> a == b
  {
    if Encode(a) == Encode(b) {
      DecodeEncode(a);
      DecodeEncode(b);
    }
  }
}
