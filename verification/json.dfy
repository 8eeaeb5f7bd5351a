/**
  The JSON text layer the cache relies on: `JSON.stringify` (without indentation) and
  `JSON.parse`, as used by `serializeCache`, `initializeCache` and `response.json()`.

  Numbers are integers only (the cache stores millisecond timestamps); a number with a
  fraction or an exponent is not representable and its text is rejected.
*/
module JsonText {
  import opened Wrappers

  datatype Json =
    | JNull
    | JBool(b: bool)
    | JNumber(n: int)
    | JString(s: string)
    | JArray(items: seq<Json>)
    | JObject(members: seq<Member>)

  /** One `"name": value` pair of an object, in source order (duplicates allowed). */
  datatype Member = Member(name: string, value: Json)

  // ---------------------------------------------------------------------------
  // Characters
  // ---------------------------------------------------------------------------

  predicate IsDigit(c: char) { '0' <= c <= '9' }

  predicate IsWhitespace(c: char) { c == ' ' || c == '\t' || c == '\n' || c == '\r' }

  predicate IsHex(c: char) { IsDigit(c) || 'a' <= c <= 'f' || 'A' <= c <= 'F' }

  /** A character that can begin a JSON value: a literal, a number, a string, an array or an object. */
  predicate StartsValue(c: char) { c in "ntf-\"[{" || IsDigit(c) }

  /** A text that may follow a value: it cannot extend a number. */
  predicate Delimited(rest: string) { rest == [] || !IsDigit(rest[0]) }

  function DigitChar(d: nat): (c: char)
    requires d < 10
    ensures IsDigit(c)
  {
    ('0' as int + d) as char
  }

  function DigitOf(c: char): (d: nat)
    requires IsDigit(c)
    ensures d < 10
  {
    c as int - '0' as int
  }

  /** Lower-case hexadecimal digit, as `JSON.stringify` writes in `\u00XX`. */
  function HexDigit(d: nat): (c: char)
    requires d < 16
    ensures IsHex(c)
  {
    if d < 10 then DigitChar(d) else ('a' as int + (d - 10)) as char
  }

  function HexOf(c: char): (d: nat)
    requires IsHex(c)
    ensures d < 16
  {
    if IsDigit(c) then DigitOf(c)
    else if 'a' <= c <= 'f' then c as int - 'a' as int + 10
    else c as int - 'A' as int + 10
  }

  lemma HexOfHexDigit(d: nat)
    requires d < 16
    ensures HexOf(HexDigit(d)) == d
  {
  }

  // ---------------------------------------------------------------------------
  // Printing: JSON.stringify
  // ---------------------------------------------------------------------------

  /** Decimal digits of a natural number, most significant first, no leading zero. */
  function NatText(n: nat): (r: string)
    ensures |r| > 0
    ensures forall i :: 0 <= i < |r| ==> IsDigit(r[i])
    ensures r[0] == '0' ==> n == 0
    decreases n
  {
    if n < 10 then [DigitChar(n)] else NatText(n / 10) + [DigitChar(n % 10)]
  }

  /** The decimal form of an integer, as `${n}` and `JSON.stringify` write it. */
  function IntText(n: int): (r: string)
    ensures |r| > 0 && (r[0] == '-' || IsDigit(r[0]))
  {
    if n < 0 then "-" + NatText(-n) else NatText(n)
  }

  function EscapeChar(c: char): (r: string)
    ensures |r| > 0 && r[0] != '"'
  {
    if c == '"' then ['\\', '"']
    else if c == '\\' then ['\\', '\\']
    else if c as int == 8 then ['\\', 'b']
    else if c == '\t' then ['\\', 't']
    else if c == '\n' then ['\\', 'n']
    else if c as int == 12 then ['\\', 'f']
    else if c == '\r' then ['\\', 'r']
    else if c < ' ' then ['\\', 'u', '0', '0', HexDigit(c as int / 16), HexDigit(c as int % 16)]
    else [c]
  }

  function Escape(s: string): string
  {
    if s == [] then [] else EscapeChar(s[0]) + Escape(s[1..])
  }

  function Quote(s: string): string
  {
    ['"'] + Escape(s) + ['"']
  }

  function Stringify(v: Json): (r: string)
    ensures |r| > 0 && StartsValue(r[0]) && !IsWhitespace(r[0]) && r[0] != ']' && r[0] != '}'
    decreases v
  {
    match v
    case JNull => "null"
    case JBool(b) => if b then "true" else "false"
    case JNumber(n) => IntText(n)
    case JString(s) => Quote(s)
    case JArray(items) => "[" + StringifyItems(items) + "]"
    case JObject(ms) => "{" + StringifyMembers(ms) + "}"
  }

  function StringifyItems(items: seq<Json>): (r: string)
    ensures items != [] ==> |r| > 0 && !IsWhitespace(r[0]) && r[0] != ']'
    decreases items
  {
    if items == [] then ""
    else if |items| == 1 then Stringify(items[0])
    else Stringify(items[0]) + "," + StringifyItems(items[1..])
  }

  function StringifyMembers(ms: seq<Member>): (r: string)
    ensures ms != [] ==> |r| > 0 && r[0] == '"'
    decreases ms
  {
    if ms == [] then ""
    else
      var head := Quote(ms[0].name) + ":" + Stringify(ms[0].value);
      if |ms| == 1 then head else head + "," + StringifyMembers(ms[1..])
  }

  // ---------------------------------------------------------------------------
  // Parsing: JSON.parse
  // ---------------------------------------------------------------------------

  function SkipWhitespace(s: string): (r: string)
    ensures |r| <= |s|
    ensures r == [] || !IsWhitespace(r[0])
  {
    if s != [] && IsWhitespace(s[0]) then SkipWhitespace(s[1..]) else s
  }

  /** Length of the longest prefix of `s` made of decimal digits. */
  function DigitRun(s: string): (k: nat)
    ensures k <= |s|
    ensures forall i :: 0 <= i < k ==> IsDigit(s[i])
    ensures k < |s| ==> !IsDigit(s[k])
  {
    if s != [] && IsDigit(s[0]) then 1 + DigitRun(s[1..]) else 0
  }

  function DigitsValue(ds: string): nat
    requires forall i :: 0 <= i < |ds| ==> IsDigit(ds[i])
  {
    if ds == [] then 0 else DigitsValue(ds[..|ds| - 1]) * 10 + DigitOf(ds[|ds| - 1])
  }

  /** The integer part of a JSON number: `0` alone, or a non-zero digit and more digits. */
  function ParseNat(s: string): (r: Option<(nat, string)>)
    ensures r.Some? ==> |r.value.1| < |s|
  {
    if s == [] || !IsDigit(s[0]) then None
    else if s[0] == '0' then Some((0, s[1..]))
    else
      var k := DigitRun(s);
      Some((DigitsValue(s[..k]), s[k..]))
  }

  /** The character denoted by an escape, `s` being the text after the backslash. */
  function EscapeSequence(s: string): (r: Option<(char, string)>)
    ensures r.Some? ==> |r.value.1| < |s|
  {
    if s == [] then None
    else if s[0] == '"' || s[0] == '\\' || s[0] == '/' then Some((s[0], s[1..]))
    else if s[0] == 'b' then Some((8 as char, s[1..]))
    else if s[0] == 'f' then Some((12 as char, s[1..]))
    else if s[0] == 'n' then Some(('\n', s[1..]))
    else if s[0] == 'r' then Some(('\r', s[1..]))
    else if s[0] == 't' then Some(('\t', s[1..]))
    else if s[0] == 'u' && 5 <= |s| && IsHex(s[1]) && IsHex(s[2]) && IsHex(s[3]) && IsHex(s[4]) then
      var code := HexOf(s[1]) * 4096 + HexOf(s[2]) * 256 + HexOf(s[3]) * 16 + HexOf(s[4]);
      if 0xD800 <= code <= 0xDFFF then None else Some((code as char, s[5..]))
    else None
  }

  /** The characters of a string literal up to its closing quote, `s` being the text after the opening quote. */
  function ParseChars(s: string): (r: Option<(string, string)>)
    ensures r.Some? ==> |r.value.1| < |s|
    decreases |s|
  {
    if s == [] then None
    else if s[0] == '"' then Some(([], s[1..]))
    else if s[0] == '\\' then
      match EscapeSequence(s[1..])
      case None => None
      case Some((c, rest)) =>
        match ParseChars(rest)
        case None => None
        case Some((cs, after)) => Some(([c] + cs, after))
    else if s[0] < ' ' then None
    else
      match ParseChars(s[1..])
      case None => None
      case Some((cs, after)) => Some(([s[0]] + cs, after))
  }

  function ParseLiteral(t: string, word: string, v: Json): (r: Option<(Json, string)>)
    requires |word| > 0
    ensures r.Some? ==> |r.value.1| < |t|
  {
    if |word| <= |t| && t[..|word|] == word then Some((v, t[|word|..])) else None
  }

  /** One value after optional leading whitespace, with the text that follows it. */
  function ParseValue(s: string): (r: Option<(Json, string)>)
    ensures r.Some? ==> |r.value.1| < |s|
    decreases |s|, 1
  {
    var t := SkipWhitespace(s);
    if t == [] then None
    else if t[0] == '[' then ParseArray(t)
    else if t[0] == '{' then ParseObject(t)
    else ParseScalar(t)
  }

  /** A literal, a number or a string at the start of `t`. */
  function ParseScalar(t: string): (r: Option<(Json, string)>)
    requires t != []
    ensures r.Some? ==> |r.value.1| < |t|
  {
    if t[0] == 'n' then ParseLiteral(t, "null", JNull)
    else if t[0] == 't' then ParseLiteral(t, "true", JBool(true))
    else if t[0] == 'f' then ParseLiteral(t, "false", JBool(false))
    else if t[0] == '-' then
      match ParseNat(t[1..])
      case None => None
      case Some((n, rest)) => Some((JNumber(-(n as int)), rest))
    else if IsDigit(t[0]) then
      match ParseNat(t)
      case None => None
      case Some((n, rest)) => Some((JNumber(n), rest))
    else if t[0] == '"' then
      match ParseChars(t[1..])
      case None => None
      case Some((str, rest)) => Some((JString(str), rest))
    else None
  }

  function ParseArray(t: string): (r: Option<(Json, string)>)
    requires t != [] && t[0] == '['
    ensures r.Some? ==> |r.value.1| < |t|
    decreases |t|, 0
  {
    var u := SkipWhitespace(t[1..]);
    if u != [] && u[0] == ']' then Some((JArray([]), u[1..]))
    else
      match ParseItems(t[1..])
      case None => None
      case Some((items, rest)) => Some((JArray(items), rest))
  }

  function ParseObject(t: string): (r: Option<(Json, string)>)
    requires t != [] && t[0] == '{'
    ensures r.Some? ==> |r.value.1| < |t|
    decreases |t|, 0
  {
    var u := SkipWhitespace(t[1..]);
    if u != [] && u[0] == '}' then Some((JObject([]), u[1..]))
    else
      match ParseMembers(t[1..])
      case None => None
      case Some((ms, rest)) => Some((JObject(ms), rest))
  }

  /** The elements of a non-empty array and its closing bracket. */
  function ParseItems(s: string): (r: Option<(seq<Json>, string)>)
    ensures r.Some? ==> |r.value.1| < |s|
    decreases |s|, 2
  {
    match ParseValue(s)
    case None => None
    case Some((v, rest)) =>
      var u := SkipWhitespace(rest);
      if u == [] then None
      else if u[0] == ',' then
        match ParseItems(u[1..])
        case None => None
        case Some((vs, after)) => Some(([v] + vs, after))
      else if u[0] == ']' then Some(([v], u[1..]))
      else None
  }

  /** The members of a non-empty object and its closing brace. */
  function ParseMembers(s: string): (r: Option<(seq<Member>, string)>)
    ensures r.Some? ==> |r.value.1| < |s|
    decreases |s|, 2
  {
    var t := SkipWhitespace(s);
    if t == [] || t[0] != '"' then None
    else
      match ParseChars(t[1..])
      case None => None
      case Some((name, rest)) =>
        var u := SkipWhitespace(rest);
        if u == [] || u[0] != ':' then None
        else
          match ParseValue(u[1..])
          case None => None
          case Some((v, rest')) =>
            var w := SkipWhitespace(rest');
            if w == [] then None
            else if w[0] == ',' then
              match ParseMembers(w[1..])
              case None => None
              case Some((ms, after)) => Some(([Member(name, v)] + ms, after))
            else if w[0] == '}' then Some(([Member(name, v)], w[1..]))
            else None
  }

  /** `JSON.parse`: one value surrounded by optional whitespace; `None` is the SyntaxError. */
  function Parse(text: string): (r: Option<Json>)
    ensures r.Some? ==> SkipWhitespace(text) != [] && StartsValue(SkipWhitespace(text)[0])
  {
    match ParseValue(text)
    case None => None
    case Some((v, rest)) => if SkipWhitespace(rest) == [] then Some(v) else None
  }

  // ---------------------------------------------------------------------------
  // Round trip: JSON.parse(JSON.stringify(v)) is v
  // ---------------------------------------------------------------------------

  lemma Assoc3(a: string, b: string, c: string)
    ensures a + b + c == a + (b + c)
  {
  }

  lemma Assoc4(a: string, b: string, c: string, d: string)
    ensures a + b + c + d == a + (b + c + d)
  {
  }

  lemma DropFirst(a: string, b: string)
    requires a != []
    ensures (a + b)[1..] == a[1..] + b
  {
  }

  lemma Assoc5(a: string, b: string, c: string, d: string, e: string)
    ensures a + b + c + d + e == a + (b + (c + d + e))
  {
  }

  lemma {:induction false} DigitsValueOfNatText(n: nat)
    ensures DigitsValue(NatText(n)) == n
    decreases n
  {
    if n >= 10 {
      var ds := NatText(n);
      assert ds[..|ds| - 1] == NatText(n / 10);
      DigitsValueOfNatText(n / 10);
    }
  }

  lemma {:induction false} DigitRunOfDigits(ds: string, rest: string)
    requires forall i :: 0 <= i < |ds| ==> IsDigit(ds[i])
    requires Delimited(rest)
    ensures DigitRun(ds + rest) == |ds|
    decreases |ds|
  {
    if ds != [] {
      assert (ds + rest)[1..] == ds[1..] + rest;
      DigitRunOfDigits(ds[1..], rest);
    }
  }

  lemma NatRoundTrip(n: nat, rest: string)
    requires Delimited(rest)
    ensures ParseNat(NatText(n) + rest) == Some((n, rest))
  {
    var ds := NatText(n);
    var s := ds + rest;
    if n == 0 {
      assert s[1..] == rest;
    } else {
      DigitRunOfDigits(ds, rest);
      assert s[..|ds|] == ds && s[|ds|..] == rest;
      DigitsValueOfNatText(n);
    }
  }

  lemma EscapeSequenceOf(c: char, tail: string)
    requires EscapeChar(c) != [c]
    ensures EscapeChar(c)[0] == '\\'
    ensures EscapeSequence(EscapeChar(c)[1..] + tail) == Some((c, tail))
  {
    var e := EscapeChar(c)[1..] + tail;
    if c < ' ' && c as int != 8 && c != '\t' && c != '\n' && c as int != 12 && c != '\r' {
      var hi, lo := c as int / 16, c as int % 16;
      HexOfHexDigit(hi);
      HexOfHexDigit(lo);
      assert e[1] == '0' && e[2] == '0' && e[3] == HexDigit(hi) && e[4] == HexDigit(lo);
      assert e[5..] == tail;
    } else {
      assert e[1..] == tail;
    }
  }

  /** A character that needs no escape stands for itself. */
  lemma CharsStepPlain(s: string, cs: string, rest: string)
    requires s != [] && EscapeChar(s[0]) == [s[0]]
    requires ParseChars(s[1..]) == Some((cs, rest))
    ensures ParseChars(s) == Some(([s[0]] + cs, rest))
  {
  }

  /** A backslash and an escape sequence stand for the character it denotes. */
  lemma CharsStepEscape(s: string, c: char, tail: string, cs: string, rest: string)
    requires s != [] && s[0] == '\\' && EscapeSequence(s[1..]) == Some((c, tail))
    requires ParseChars(tail) == Some((cs, rest))
    ensures ParseChars(s) == Some(([c] + cs, rest))
  {
  }

  lemma {:induction false} CharsRoundTrip(str: string, rest: string)
    ensures ParseChars(Escape(str) + ['"'] + rest) == Some((str, rest))
    decreases |str|
  {
    var s := Escape(str) + ['"'] + rest;
    if str == [] {
      assert s == ['"'] + rest;
      assert s[1..] == rest;
    } else {
      var c := str[0];
      var tail := Escape(str[1..]) + ['"'] + rest;
      assert Escape(str) == EscapeChar(c) + Escape(str[1..]);
      Assoc4(EscapeChar(c), Escape(str[1..]), ['"'], rest);
      CharsRoundTrip(str[1..], rest);
      assert [c] + str[1..] == str;
      if EscapeChar(c) == [c] {
        assert s[1..] == tail;
        CharsStepPlain(s, str[1..], rest);
      } else {
        EscapeSequenceOf(c, tail);
        DropFirst(EscapeChar(c), tail);
        CharsStepEscape(s, c, tail, str[1..], rest);
      }
    }
  }

  lemma {:induction false} ValueRoundTrip(v: Json, rest: string)
    requires Delimited(rest)
    ensures ParseValue(Stringify(v) + rest) == Some((v, rest))
    decreases v, 1
  {
    match v
    case JNull => LiteralRoundTrip(v, "null", rest);
    case JBool(b) => LiteralRoundTrip(v, if b then "true" else "false", rest);
    case JNumber(n) => NumberRoundTrip(n, rest);
    case JString(str) => StringRoundTrip(str, rest);
    case JArray(items) =>
      if items == [] {
        EmptyArrayRoundTrip(rest);
      } else {
        ItemsRoundTrip(items, rest);
        ArrayRoundTrip(items, rest);
      }
    case JObject(ms) =>
      if ms == [] {
        EmptyObjectRoundTrip(rest);
      } else {
        MembersRoundTrip(ms, rest);
        ObjectRoundTrip(ms, rest);
      }
  }

  lemma LiteralRoundTrip(v: Json, word: string, rest: string)
    requires v == JNull || v.JBool?
    requires word == Stringify(v)
    ensures ParseValue(Stringify(v) + rest) == Some((v, rest))
  {
    var s := word + rest;
    assert SkipWhitespace(s) == s;
    assert s[..|word|] == word && s[|word|..] == rest;
  }

  /** A minus sign followed by a natural number is read as its negation. */
  lemma ScalarOfNegative(t: string, m: nat, rest: string)
    requires t != [] && t[0] == '-' && ParseNat(t[1..]) == Some((m, rest))
    ensures ParseScalar(t) == Some((JNumber(-(m as int)), rest))
  {
  }

  /** A leading digit starts a natural number. */
  lemma ScalarOfDigits(t: string, n: nat, rest: string)
    requires t != [] && IsDigit(t[0]) && ParseNat(t) == Some((n, rest))
    ensures ParseScalar(t) == Some((JNumber(n), rest))
  {
  }

  /** The decimal text of an integer reads back as that integer. */
  lemma IntRoundTrip(n: int, rest: string)
    requires Delimited(rest)
    ensures ParseScalar(IntText(n) + rest) == Some((JNumber(n), rest))
  {
    var s := IntText(n) + rest;
    if n < 0 {
      var m: nat := -n;
      assert s == "-" + (NatText(m) + rest);
      assert s[1..] == NatText(m) + rest;
      NatRoundTrip(m, rest);
      ScalarOfNegative(s, m, rest);
    } else {
      assert s == NatText(n) + rest;
      NatRoundTrip(n, rest);
      ScalarOfDigits(s, n, rest);
    }
  }

  lemma NumberRoundTrip(n: int, rest: string)
    requires Delimited(rest)
    ensures ParseValue(Stringify(JNumber(n)) + rest) == Some((JNumber(n), rest))
  {
    var s := IntText(n) + rest;
    IntRoundTrip(n, rest);
    assert SkipWhitespace(s) == s;
  }

  lemma StringRoundTrip(str: string, rest: string)
    ensures ParseValue(Stringify(JString(str)) + rest) == Some((JString(str), rest))
  {
    var s := Quote(str) + rest;
    assert SkipWhitespace(s) == s;
    assert s[1..] == Escape(str) + ['"'] + rest;
    CharsRoundTrip(str, rest);
  }

  lemma EmptyArrayRoundTrip(rest: string)
    ensures ParseValue(Stringify(JArray([])) + rest) == Some((JArray([]), rest))
  {
    var s := "[]" + rest;
    assert SkipWhitespace(s) == s;
    assert s[1..] == "]" + rest;
    assert SkipWhitespace(s[1..]) == s[1..];
    assert s[1..][1..] == rest;
  }

  lemma EmptyObjectRoundTrip(rest: string)
    ensures ParseValue(Stringify(JObject([])) + rest) == Some((JObject([]), rest))
  {
    var s := "{}" + rest;
    assert SkipWhitespace(s) == s;
    assert s[1..] == "}" + rest;
    assert SkipWhitespace(s[1..]) == s[1..];
    assert s[1..][1..] == rest;
  }

  lemma ArrayRoundTrip(items: seq<Json>, rest: string)
    requires items != []
    requires ParseItems(StringifyItems(items) + "]" + rest) == Some((items, rest))
    ensures ParseValue(Stringify(JArray(items)) + rest) == Some((JArray(items), rest))
  {
    var inner := StringifyItems(items) + "]" + rest;
    var s := "[" + inner;
    assert Stringify(JArray(items)) + rest == s;
    assert SkipWhitespace(s) == s;
    assert s[1..] == inner;
    assert SkipWhitespace(inner) == inner;
  }

  lemma ObjectRoundTrip(ms: seq<Member>, rest: string)
    requires ms != []
    requires ParseMembers(StringifyMembers(ms) + "}" + rest) == Some((ms, rest))
    ensures ParseValue(Stringify(JObject(ms)) + rest) == Some((JObject(ms), rest))
  {
    var inner := StringifyMembers(ms) + "}" + rest;
    var s := "{" + inner;
    assert Stringify(JObject(ms)) + rest == s;
    assert s[0] == '{' && s[1..] == inner;
    assert SkipWhitespace(inner) == inner;
    assert ParseObject(s) == Some((JObject(ms), rest));
    assert SkipWhitespace(s) == s;
  }

  /** One element and what follows it: a comma continues the array, a bracket closes it. */
  lemma ItemsStep(s: string, v: Json, after: string)
    requires ParseValue(s) == Some((v, after))
    requires after != [] && (after[0] == ',' || after[0] == ']')
    ensures ParseItems(s) ==
      if after[0] == ']' then Some(([v], after[1..]))
      else match ParseItems(after[1..])
        case None => None
        case Some((vs, rest)) => Some(([v] + vs, rest))
  {
    assert SkipWhitespace(after) == after;
  }

  /** The printed elements of an array of two or more, split after the first. */
  lemma ItemsText(items: seq<Json>, rest: string)
    requires |items| > 1
    ensures StringifyItems(items) + "]" + rest ==
      Stringify(items[0]) + ("," + (StringifyItems(items[1..]) + "]" + rest))
  {
    Assoc5(Stringify(items[0]), ",", StringifyItems(items[1..]), "]", rest);
  }

  lemma {:induction false} ItemsRoundTrip(items: seq<Json>, rest: string)
    requires items != []
    ensures ParseItems(StringifyItems(items) + "]" + rest) == Some((items, rest))
    decreases items, 2
  {
    if |items| == 1 {
      LastItemRoundTrip(items, rest);
    } else {
      ItemsConsRoundTrip(items, rest);
    }
  }

  lemma LastItemRoundTrip(items: seq<Json>, rest: string)
    requires |items| == 1
    ensures ParseItems(StringifyItems(items) + "]" + rest) == Some((items, rest))
    decreases items, 1
  {
    var s := StringifyItems(items) + "]" + rest;
    var after := "]" + rest;
    Assoc3(Stringify(items[0]), "]", rest);
    ValueRoundTrip(items[0], after);
    ItemsStep(s, items[0], after);
    assert after[1..] == rest;
    assert [items[0]] == items;
  }

  lemma ItemsConsRoundTrip(items: seq<Json>, rest: string)
    requires |items| > 1
    ensures ParseItems(StringifyItems(items) + "]" + rest) == Some((items, rest))
    decreases items, 1
  {
    var s := StringifyItems(items) + "]" + rest;
    var after := "," + (StringifyItems(items[1..]) + "]" + rest);
    ItemsText(items, rest);
    ValueRoundTrip(items[0], after);
    ItemsStep(s, items[0], after);
    assert after[1..] == StringifyItems(items[1..]) + "]" + rest;
    ItemsRoundTrip(items[1..], rest);
    assert [items[0]] + items[1..] == items;
  }

  /** One member `"name":value` and what follows it: a brace closes the object, a comma continues it. */
  lemma MembersStep(s: string, name: string, u: string, v: Json, after: string)
    requires s != [] && s[0] == '"' && ParseChars(s[1..]) == Some((name, u))
    requires u != [] && u[0] == ':' && ParseValue(u[1..]) == Some((v, after))
    requires after != [] && (after[0] == ',' || after[0] == '}')
    ensures after[0] == '}' ==> ParseMembers(s) == Some(([Member(name, v)], after[1..]))
    ensures after[0] == ',' ==>
      ParseMembers(s) ==
        match ParseMembers(after[1..])
        case None => None
        case Some((ms, rest)) => Some(([Member(name, v)] + ms, rest))
  {
    assert SkipWhitespace(s) == s;
    assert SkipWhitespace(u) == u;
    assert SkipWhitespace(after) == after;
  }

  /** The printed member `"name":value`, then `more`, reads as that member with `more` left over. */
  lemma MemberText(m: Member, more: string)
    requires more != [] && (more[0] == ',' || more[0] == '}')
    requires ParseValue(Stringify(m.value) + more) == Some((m.value, more))
    ensures var s := Quote(m.name) + ":" + Stringify(m.value) + more;
      && s != [] && s[0] == '"'
      && ParseChars(s[1..]) == Some((m.name, ":" + (Stringify(m.value) + more)))
  {
    var afterName := ":" + (Stringify(m.value) + more);
    var s := Quote(m.name) + ":" + Stringify(m.value) + more;
    assert s == ['"'] + (Escape(m.name) + ['"'] + afterName);
    assert s[1..] == Escape(m.name) + ['"'] + afterName;
    CharsRoundTrip(m.name, afterName);
  }

  /** The last member, then the closing brace. */
  lemma LastMemberStep(m: Member, more: string)
    requires more != [] && more[0] == '}'
    requires ParseValue(Stringify(m.value) + more) == Some((m.value, more))
    ensures ParseMembers(Quote(m.name) + ":" + Stringify(m.value) + more) == Some(([m], more[1..]))
  {
    var afterName := ":" + (Stringify(m.value) + more);
    MemberText(m, more);
    assert afterName[1..] == Stringify(m.value) + more;
    MembersStep(Quote(m.name) + ":" + Stringify(m.value) + more, m.name, afterName, m.value, more);
  }

  /** A member followed by a comma and further members that read as `ms`. */
  lemma MemberConsStep(m: Member, more: string, ms: seq<Member>, rest: string)
    requires more != [] && more[0] == ','
    requires ParseValue(Stringify(m.value) + more) == Some((m.value, more))
    requires ParseMembers(more[1..]) == Some((ms, rest))
    ensures ParseMembers(Quote(m.name) + ":" + Stringify(m.value) + more) == Some(([m] + ms, rest))
  {
    var afterName := ":" + (Stringify(m.value) + more);
    MemberText(m, more);
    assert afterName[1..] == Stringify(m.value) + more;
    MembersStep(Quote(m.name) + ":" + Stringify(m.value) + more, m.name, afterName, m.value, more);
  }

  /** The printed members of an object, split after the first. */
  lemma MembersText(ms: seq<Member>, rest: string)
    requires ms != []
    ensures var more := if |ms| == 1 then "}" + rest else "," + (StringifyMembers(ms[1..]) + "}" + rest);
      StringifyMembers(ms) + "}" + rest == Quote(ms[0].name) + ":" + Stringify(ms[0].value) + more
  {
    var head := Quote(ms[0].name) + ":" + Stringify(ms[0].value);
    if |ms| == 1 {
      Assoc3(head, "}", rest);
    } else {
      Assoc5(head, ",", StringifyMembers(ms[1..]), "}", rest);
    }
  }

  lemma {:induction false} MembersRoundTrip(ms: seq<Member>, rest: string)
    requires ms != []
    ensures ParseMembers(StringifyMembers(ms) + "}" + rest) == Some((ms, rest))
    decreases ms, 2
  {
    if |ms| == 1 {
      LastMemberRoundTrip(ms, rest);
    } else {
      MembersConsRoundTrip(ms, rest);
    }
  }

  lemma LastMemberRoundTrip(ms: seq<Member>, rest: string)
    requires |ms| == 1
    ensures ParseMembers(StringifyMembers(ms) + "}" + rest) == Some((ms, rest))
    decreases ms, 1
  {
    var m := ms[0];
    var more := "}" + rest;
    MembersText(ms, rest);
    ValueRoundTrip(m.value, more);
    LastMemberStep(m, more);
    assert more[1..] == rest;
    assert [m] == ms;
  }

  lemma MembersConsRoundTrip(ms: seq<Member>, rest: string)
    requires |ms| > 1
    ensures ParseMembers(StringifyMembers(ms) + "}" + rest) == Some((ms, rest))
    decreases ms, 1
  {
    var m := ms[0];
    var more := "," + (StringifyMembers(ms[1..]) + "}" + rest);
    MembersText(ms, rest);
    ValueRoundTrip(m.value, more);
    assert more[1..] == StringifyMembers(ms[1..]) + "}" + rest;
    MembersRoundTrip(ms[1..], rest);
    MemberConsStep(m, more, ms[1..], rest);
    assert [m] + ms[1..] == ms;
  }

  /** What `JSON.stringify` writes, `JSON.parse` reads back unchanged. */
  lemma StringifyParseRoundTrip(v: Json)
    ensures Parse(Stringify(v)) == Some(v)
  {
    ValueRoundTrip(v, []);
    assert Stringify(v) + [] == Stringify(v);
  }

  /** Text that starts with no JSON value is rejected, as `JSON.parse("invalid JSON")` throws. */
  lemma RejectsNonJsonText(text: string)
    requires SkipWhitespace(text) != []
    requires !StartsValue(SkipWhitespace(text)[0])
    ensures Parse(text) == None
  {
  }
}
