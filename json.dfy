/**
 * The JSON text the review screen sends with `JSON.stringify` and the results
 * screen reads back with `JSON.parse`, restricted to what a reviewed-card list
 * contains: null, booleans, integers, strings, arrays and objects. Stringify
 * follows the ECMAScript JSON serialiser (no whitespace, the same escapes);
 * Parse accepts JSON text of that grammar with whitespace between tokens.
 */
module JsonText {
  import opened Wrappers
  import opened Text
  import opened Seqs

  datatype Json =
    | JNull
    | JBool(b: bool)
    | JInt(n: int)
    | JString(s: string)
    | JArray(items: seq<Json>)
    | JObject(members: seq<Member>)

  datatype Member = Member(key: string, value: Json)

  /** Property read on a parsed object: with a repeated key the last one wins, as in `JSON.parse`. */
  function Lookup(ms: seq<Member>, key: string): (r: Option<Json>)
    ensures r.Some? ==> exists i :: 0 <= i < |ms| && ms[i].key == key && ms[i].value == r.value
    ensures r.None? ==> forall i :: 0 <= i < |ms| ==> ms[i].key != key
    decreases |ms|
  {
    if ms == [] then None
    else if ms[|ms| - 1].key == key then Some(ms[|ms| - 1].value)
    else Lookup(ms[..|ms| - 1], key)
  }

  // ---------------------------------------------------------------------------
  // Serialising

  predicate IsWs(c: char) { c == ' ' || c == '\t' || c == '\n' || c == '\r' }

  function HexDigit(d: nat): char
    requires d < 16
  {
    if d < 10 then ('0' as int + d) as char else ('a' as int + d - 10) as char
  }

  /** The escape `JSON.stringify` writes for one character of a string. */
  function EscapeChar(c: char): string
  {
    if c == '"' then "\\\""
    else if c == '\\' then "\\\\"
    else if c == '\U{8}' then "\\b"
    else if c == '\t' then "\\t"
    else if c == '\n' then "\\n"
    else if c == '\U{C}' then "\\f"
    else if c == '\r' then "\\r"
    else if c as int < 0x20 then "\\u00" + [HexDigit(c as int / 16), HexDigit(c as int % 16)]
    else [c]
  }

  function EscapeString(s: string): string
    decreases |s|
  {
    if s == [] then "" else EscapeChar(s[0]) + EscapeString(s[1..])
  }

  function Quote(s: string): (q: string)
    ensures |q| >= 2 && q[0] == '"'
  {
    "\"" + EscapeString(s) + "\""
  }

  /** `JSON.stringify(v)`: no whitespace, keys in insertion order. */
  function Stringify(v: Json): (t: string)
    ensures |t| >= 1 && !IsWs(t[0])
  {
    match v
    case JNull => "null"
    case JBool(b) => if b then "true" else "false"
    case JInt(n) => IntText(n)
    case JString(s) => Quote(s)
    case JArray(items) => "[" + ItemsText(items) + "]"
    case JObject(ms) => "{" + MembersText(ms) + "}"
  }

  function ItemsText(items: seq<Json>): string
  {
    if items == [] then ""
    else if |items| == 1 then Stringify(items[0])
    else Stringify(items[0]) + "," + ItemsText(items[1..])
  }

  function MemberText(m: Member): string
  {
    Quote(m.key) + ":" + Stringify(m.value)
  }

  function MembersText(ms: seq<Member>): string
  {
    if ms == [] then ""
    else if |ms| == 1 then MemberText(ms[0])
    else MemberText(ms[0]) + "," + MembersText(ms[1..])
  }

  // ---------------------------------------------------------------------------
  // Parsing

  function SkipWs(s: string): (r: string)
    ensures |r| <= |s|
    ensures r == [] || !IsWs(r[0])
    ensures s != [] && !IsWs(s[0]) ==> r == s
    decreases |s|
  {
    if s != [] && IsWs(s[0]) then SkipWs(s[1..]) else s
  }

  predicate IsHex(c: char) { '0' <= c <= '9' || 'a' <= c <= 'f' || 'A' <= c <= 'F' }

  function HexValue(c: char): (d: nat)
    requires IsHex(c)
    ensures d < 16
  {
    if '0' <= c <= '9' then c as int - '0' as int
    else if 'a' <= c <= 'f' then c as int - 'a' as int + 10
    else c as int - 'A' as int + 10
  }

  /**
   * The character a backslash escape stands for; `s` is the text after the
   * backslash. A `\u` escape naming a UTF-16 surrogate is outside this model.
   */
  function Unescape(s: string): (r: Option<(char, string)>)
    ensures r.Some? ==> |r.value.1| < |s|
  {
    if s == [] then None
    else if s[0] == 'u' then
      if |s| >= 5 && IsHex(s[1]) && IsHex(s[2]) && IsHex(s[3]) && IsHex(s[4]) then
        var code := HexValue(s[1]) * 4096 + HexValue(s[2]) * 256 + HexValue(s[3]) * 16 + HexValue(s[4]);
        if 0xD800 <= code < 0xE000 then None else Some((code as char, s[5..]))
      else None
    else if s[0] == '"' then Some(('"', s[1..]))
    else if s[0] == '\\' then Some(('\\', s[1..]))
    else if s[0] == '/' then Some(('/', s[1..]))
    else if s[0] == 'b' then Some(('\U{8}', s[1..]))
    else if s[0] == 'f' then Some(('\U{C}', s[1..]))
    else if s[0] == 'n' then Some(('\n', s[1..]))
    else if s[0] == 'r' then Some(('\r', s[1..]))
    else if s[0] == 't' then Some(('\t', s[1..]))
    else None
  }

  /** The characters of a string literal up to its closing quote, and the text after it. */
  function ParseStringBody(s: string): (r: Option<(string, string)>)
    ensures r.Some? ==> |r.value.1| < |s|
    decreases |s|
  {
    if s == [] then None
    else if s[0] == '"' then Some(("", s[1..]))
    else if s[0] == '\\' then
      match Unescape(s[1..])
      case None => None
      case Some((c, rest)) =>
        match ParseStringBody(rest)
        case None => None
        case Some((t, after)) => Some(([c] + t, after))
    else if s[0] as int < 0x20 then None
    else
      match ParseStringBody(s[1..])
      case None => None
      case Some((t, after)) => Some(([s[0]] + t, after))
  }

  /** Length of the leading run of decimal digits. */
  function DigitRun(s: string): (k: nat)
    ensures k <= |s|
    ensures AllDigits(s[..k])
    ensures k < |s| ==> !IsDigit(s[k])
    decreases |s|
  {
    if s != [] && IsDigit(s[0]) then
      var k := 1 + DigitRun(s[1..]);
      assert s[..k] == [s[0]] + s[1..][..k - 1];
      k
    else 0
  }

  /** A JSON natural number: a lone zero, or digits without a leading zero. */
  function ParseNat(s: string): (r: Option<(nat, string)>)
    ensures r.Some? ==> |r.value.1| < |s|
  {
    if s == [] || !IsDigit(s[0]) then None
    else if s[0] == '0' then Some((0, s[1..]))
    else
      var k := DigitRun(s);
      Some((DecimalValue(s[..k]), s[k..]))
  }

  function ParseLiteral(s: string, word: string, v: Json): (r: Option<(Json, string)>)
    requires |word| >= 1
    ensures r.Some? ==> |r.value.1| < |s|
  {
    if |s| >= |word| && s[..|word|] == word then Some((v, s[|word|..])) else None
  }

  /** One JSON value after optional whitespace, and the text after it. */
  function ParseValue(s: string): (r: Option<(Json, string)>)
    ensures r.Some? ==> |r.value.1| < |s|
    decreases |s|, 2
  {
    ParseToken(SkipWs(s))
  }

  /** One JSON value starting exactly at the first character of `t`. */
  function ParseToken(t: string): (r: Option<(Json, string)>)
    ensures r.Some? ==> |r.value.1| < |t|
    decreases |t|, 1
  {
    if t == [] then None
    else if t[0] == 'n' then ParseLiteral(t, "null", JNull)
    else if t[0] == 't' then ParseLiteral(t, "true", JBool(true))
    else if t[0] == 'f' then ParseLiteral(t, "false", JBool(false))
    else if t[0] == '"' then
      match ParseStringBody(t[1..])
      case None => None
      case Some((str, rest)) => Some((JString(str), rest))
    else if t[0] == '-' then
      match ParseNat(t[1..])
      case None => None
      case Some((n, rest)) => Some((JInt(-(n as int)), rest))
    else if IsDigit(t[0]) then
      match ParseNat(t)
      case None => None
      case Some((n, rest)) => Some((JInt(n), rest))
    else if t[0] == '[' then ParseArray(t[1..])
    else if t[0] == '{' then ParseObject(t[1..])
    else None
  }

  /** An array after its opening bracket. */
  function ParseArray(s: string): (r: Option<(Json, string)>)
    ensures r.Some? ==> |r.value.1| < |s|
    decreases |s|, 5
  {
    var u := SkipWs(s);
    if u != [] && u[0] == ']' then Some((JArray([]), u[1..]))
    else
      match ParseElements(s)
      case None => None
      case Some((items, rest)) => Some((JArray(items), rest))
  }

  /** An object after its opening brace. */
  function ParseObject(s: string): (r: Option<(Json, string)>)
    ensures r.Some? ==> |r.value.1| < |s|
    decreases |s|, 5
  {
    var u := SkipWs(s);
    if u != [] && u[0] == '}' then Some((JObject([]), u[1..]))
    else
      match ParseMembers(s)
      case None => None
      case Some((ms, rest)) => Some((JObject(ms), rest))
  }

  /** The elements of a non-empty array through its closing bracket. */
  function ParseElements(s: string): (r: Option<(seq<Json>, string)>)
    ensures r.Some? ==> |r.value.1| < |s|
    decreases |s|, 3
  {
    match ParseValue(s)
    case None => None
    case Some((v, rest)) =>
      var u := SkipWs(rest);
      if u == [] then None
      else if u[0] == ']' then Some(([v], u[1..]))
      else if u[0] == ',' then
        match ParseElements(u[1..])
        case None => None
        case Some((vs, after)) => Some(([v] + vs, after))
      else None
  }

  /** One `"key": value` pair, with optional whitespace around its tokens. */
  function ParseMember(s: string): (r: Option<(Member, string)>)
    ensures r.Some? ==> |r.value.1| < |s|
    decreases |s|, 3
  {
    var t := SkipWs(s);
    if t == [] || t[0] != '"' then None
    else
      match ParseStringBody(t[1..])
      case None => None
      case Some((key, rest)) =>
        var u := SkipWs(rest);
        if u == [] || u[0] != ':' then None
        else
          match ParseValue(u[1..])
          case None => None
          case Some((v, after)) => Some((Member(key, v), after))
  }

  /** The members of a non-empty object through its closing brace. */
  function ParseMembers(s: string): (r: Option<(seq<Member>, string)>)
    ensures r.Some? ==> |r.value.1| < |s|
    decreases |s|, 4
  {
    match ParseMember(s)
    case None => None
    case Some((m, rest)) =>
      var w := SkipWs(rest);
      if w == [] then None
      else if w[0] == '}' then Some(([m], w[1..]))
      else if w[0] == ',' then
        match ParseMembers(w[1..])
        case None => None
        case Some((ms, after)) => Some(([m] + ms, after))
      else None
  }

  /** `JSON.parse(s)`: a value and nothing but whitespace after it; `None` is the thrown SyntaxError. */
  function Parse(s: string): Option<Json>
  {
    match ParseValue(s)
    case None => None
    case Some((v, rest)) => if SkipWs(rest) == [] then Some(v) else None
  }

  // ---------------------------------------------------------------------------
  // Round trip

  /** What may follow a value inside serialised text. */
  predicate Delimited(rest: string)
  {
    rest == [] || rest[0] == ',' || rest[0] == ']' || rest[0] == '}'
  }

  lemma UnescapeEscapeChar(c: char, rest: string)
    requires EscapeChar(c) != [c]
    ensures EscapeChar(c)[0] == '\\'
    ensures Unescape(EscapeChar(c)[1..] + rest) == Some((c, rest))
  {
    var e := EscapeChar(c);
    if c as int < 0x20 && c != '\U{8}' && c != '\t' && c != '\n' && c != '\U{C}' && c != '\r' {
      var hi, lo := c as int / 16, c as int % 16;
      var s := e[1..] + rest;
      assert s[0] == 'u' && s[1] == '0' && s[2] == '0' && s[3] == HexDigit(hi) && s[4] == HexDigit(lo);
      assert HexValue(HexDigit(hi)) == hi;
      assert HexValue(HexDigit(lo)) == lo;
      assert s[5..] == rest;
    }
  }

  lemma {:induction false} ParseEscapeString(s: string, rest: string)
    ensures ParseStringBody(EscapeString(s) + "\"" + rest) == Some((s, rest))
    decreases |s|
  {
    if s == [] {
      assert EscapeString(s) + "\"" + rest == ['"'] + rest;
    } else {
      var c := s[0];
      var tail := EscapeString(s[1..]) + "\"" + rest;
      assert EscapeString(s) + "\"" + rest == EscapeChar(c) + tail;
      ParseEscapeString(s[1..], rest);
      if EscapeChar(c) == [c] {
        assert (EscapeChar(c) + tail)[1..] == tail;
      } else {
        UnescapeEscapeChar(c, tail);
        assert (EscapeChar(c) + tail)[1..] == EscapeChar(c)[1..] + tail;
      }
      assert [c] + s[1..] == s;
    }
  }

  lemma {:induction false} DigitRunPrefix(p: string, rest: string)
    requires AllDigits(p)
    requires rest == [] || !IsDigit(rest[0])
    ensures DigitRun(p + rest) == |p|
    decreases |p|
  {
    if p != [] {
      assert (p + rest)[1..] == p[1..] + rest;
      DigitRunPrefix(p[1..], rest);
    }
  }

  lemma ParseNatText(n: nat, rest: string)
    requires rest == [] || !IsDigit(rest[0])
    ensures ParseNat(NatText(n) + rest) == Some((n, rest))
  {
    var d := NatText(n);
    DecimalValueNatText(n);
    if |d| == 1 {
      assert (d + rest)[1..] == rest;
    } else {
      DigitRunPrefix(d, rest);
      assert (d + rest)[..|d|] == d;
      assert (d + rest)[|d|..] == rest;
    }
  }

  lemma {:induction false} ParseValueStringify(v: Json, rest: string)
    requires Delimited(rest)
    ensures ParseValue(Stringify(v) + rest) == Some((v, rest))
    decreases v, 1
  {
    match v
    case JNull => ParseLiteralText("null", JNull, rest);
    case JBool(b) =>
      if b { ParseLiteralText("true", v, rest); } else { ParseLiteralText("false", v, rest); }
    case JInt(n) => ParseIntText(n, rest);
    case JString(str) => ParseStringText(str, rest);
    case JArray(items) => ParseArrayText(items, rest);
    case JObject(ms) => ParseObjectText(ms, rest);
  }

  lemma ParseLiteralText(word: string, v: Json, rest: string)
    requires word == "null" || word == "true" || word == "false"
    requires Stringify(v) == word
    ensures ParseValue(Stringify(v) + rest) == Some((v, rest))
  {
    var s := word + rest;
    assert SkipWs(s) == s;
    assert s[..|word|] == word && s[|word|..] == rest;
  }

  /** A value that starts with a non-blank character is read as a token right there. */
  lemma ValueAtToken(s: string)
    requires s != [] && !IsWs(s[0])
    ensures ParseValue(s) == ParseToken(s)
  {
  }

  lemma TokenNegative(t: string, n: nat, rest: string)
    requires t != [] && t[0] == '-'
    requires ParseNat(t[1..]) == Some((n, rest))
    ensures ParseToken(t) == Some((JInt(-(n as int)), rest))
  {
  }

  lemma TokenNatural(t: string, n: nat, rest: string)
    requires t != [] && IsDigit(t[0])
    requires ParseNat(t) == Some((n, rest))
    ensures ParseToken(t) == Some((JInt(n), rest))
  {
  }

  lemma TokenString(t: string, str: string, rest: string)
    requires t != [] && t[0] == '"'
    requires ParseStringBody(t[1..]) == Some((str, rest))
    ensures ParseToken(t) == Some((JString(str), rest))
  {
  }

  lemma TokenArray(t: string)
    requires t != [] && t[0] == '['
    ensures ParseToken(t) == ParseArray(t[1..])
  {
  }

  lemma TokenObject(t: string)
    requires t != [] && t[0] == '{'
    ensures ParseToken(t) == ParseObject(t[1..])
  {
  }

  lemma ParseIntText(n: int, rest: string)
    requires Delimited(rest)
    ensures ParseValue(Stringify(JInt(n)) + rest) == Some((JInt(n), rest))
  {
    if n < 0 {
      ParseNegativeText(n, rest);
    } else {
      ParseNaturalText(n, rest);
    }
  }

  lemma ParseNegativeText(n: int, rest: string)
    requires n < 0
    requires Delimited(rest)
    ensures ParseValue(IntText(n) + rest) == Some((JInt(n), rest))
  {
    var digits := NatText(-n);
    var s := IntText(n) + rest;
    assert s == "-" + (digits + rest);
    assert s[1..] == digits + rest;
    ParseNatText(-n, rest);
    ValueAtToken(s);
    TokenNegative(s, -n, rest);
  }

  lemma ParseNaturalText(n: nat, rest: string)
    requires Delimited(rest)
    ensures ParseValue(IntText(n) + rest) == Some((JInt(n), rest))
  {
    var digits := NatText(n);
    var s := IntText(n) + rest;
    assert s == digits + rest;
    assert s[0] == digits[0];
    ParseNatText(n, rest);
    ValueAtToken(s);
    TokenNatural(s, n, rest);
  }

  lemma ParseStringText(str: string, rest: string)
    ensures ParseValue(Stringify(JString(str)) + rest) == Some((JString(str), rest))
  {
    var s := Stringify(JString(str)) + rest;
    assert s[1..] == EscapeString(str) + "\"" + rest;
    ParseEscapeString(str, rest);
    ValueAtToken(s);
    TokenString(s, str, rest);
  }

  lemma {:induction false} ParseArrayText(items: seq<Json>, rest: string)
    requires Delimited(rest)
    ensures ParseValue(Stringify(JArray(items)) + rest) == Some((JArray(items), rest))
    decreases JArray(items), 0
  {
    OpenedArray(items, rest);
    if items == [] {
      EmptyArrayText(rest);
    } else {
      ParseItemsText(items, rest);
      FilledArray(items, rest);
    }
  }

  /** Past the opening bracket, a serialised array is read by ParseArray. */
  lemma OpenedArray(items: seq<Json>, rest: string)
    ensures ParseValue(Stringify(JArray(items)) + rest) == ParseArray(ItemsText(items) + "]" + rest)
  {
    var s := Stringify(JArray(items)) + rest;
    var inner := ItemsText(items) + "]" + rest;
    assert s == "[" + inner;
    ValueAtToken(s);
    TokenArray(s);
    assert s[1..] == inner;
  }

  lemma EmptyArrayText(rest: string)
    ensures ParseArray(ItemsText([]) + "]" + rest) == Some((JArray([]), rest))
  {
    var inner := ItemsText([]) + "]" + rest;
    assert inner == "]" + rest;
    assert SkipWs(inner) == inner;
    assert inner[1..] == rest;
  }

  lemma FilledArray(items: seq<Json>, rest: string)
    requires |items| >= 1
    requires ParseElements(ItemsText(items) + "]" + rest) == Some((items, rest))
    ensures ParseArray(ItemsText(items) + "]" + rest) == Some((JArray(items), rest))
  {
    var inner := ItemsText(items) + "]" + rest;
    ItemsTextStart(items);
    StringifyStart(items[0]);
    assert inner[0] == Stringify(items[0])[0];
    assert SkipWs(inner) == inner;
  }

  /** Serialised items start with the first item. */
  lemma ItemsTextStart(items: seq<Json>)
    requires |items| >= 1
    ensures |ItemsText(items)| >= 1 && ItemsText(items)[0] == Stringify(items[0])[0]
  {
  }

  /** No serialised value starts with a closing bracket. */
  lemma StringifyStart(v: Json)
    ensures Stringify(v)[0] != ']'
  {
    match v
    case JInt(n) =>
      if n >= 0 { assert IsDigit(NatText(n)[0]); }
    case _ =>
  }

  lemma {:induction false} ParseObjectText(ms: seq<Member>, rest: string)
    requires Delimited(rest)
    ensures ParseValue(Stringify(JObject(ms)) + rest) == Some((JObject(ms), rest))
    decreases JObject(ms), 0
  {
    OpenedObject(ms, rest);
    if ms == [] {
      EmptyObjectText(rest);
    } else {
      ParseMembersText(ms, rest);
      FilledObject(ms, rest);
    }
  }

  /** Past the opening brace, a serialised object is read by ParseObject. */
  lemma OpenedObject(ms: seq<Member>, rest: string)
    ensures ParseValue(Stringify(JObject(ms)) + rest) == ParseObject(MembersText(ms) + "}" + rest)
  {
    var s := Stringify(JObject(ms)) + rest;
    var inner := MembersText(ms) + "}" + rest;
    assert s == "{" + inner;
    ValueAtToken(s);
    TokenObject(s);
    assert s[1..] == inner;
  }

  lemma EmptyObjectText(rest: string)
    ensures ParseObject(MembersText([]) + "}" + rest) == Some((JObject([]), rest))
  {
    var inner := MembersText([]) + "}" + rest;
    assert inner == "}" + rest;
    assert SkipWs(inner) == inner;
    assert inner[1..] == rest;
  }

  lemma FilledObject(ms: seq<Member>, rest: string)
    requires |ms| >= 1
    requires ParseMembers(MembersText(ms) + "}" + rest) == Some((ms, rest))
    ensures ParseObject(MembersText(ms) + "}" + rest) == Some((JObject(ms), rest))
  {
    var inner := MembersText(ms) + "}" + rest;
    assert inner[0] == '"';
    assert SkipWs(inner) == inner;
  }

  lemma {:induction false} ParseItemsText(items: seq<Json>, rest: string)
    requires |items| >= 1
    requires Delimited(rest)
    ensures ParseElements(ItemsText(items) + "]" + rest) == Some((items, rest))
    decreases items, 1
  {
    if |items| == 1 {
      ParseLastItemText(items, rest);
    } else {
      ParseItemsText(items[1..], rest);
      ParseNextItemText(items, rest);
    }
  }

  lemma ParseLastItemText(items: seq<Json>, rest: string)
    requires |items| == 1
    requires Delimited(rest)
    ensures ParseElements(ItemsText(items) + "]" + rest) == Some((items, rest))
    decreases items, 0
  {
    var v := items[0];
    assert [v] == items;
    var after := "]" + rest;
    assert ItemsText(items) == Stringify(v);
    Assoc3(Stringify(v), "]", rest);
    ParseValueStringify(v, after);
    ParseElementsStep(Stringify(v) + after, v, after);
    assert after[1..] == rest;
  }

  /** The first of several items, then a comma, then the elements already read. */
  lemma ParseNextItemText(items: seq<Json>, rest: string)
    requires |items| > 1
    requires Delimited(rest)
    requires ParseElements(ItemsText(items[1..]) + "]" + rest) == Some((items[1..], rest))
    ensures ParseElements(ItemsText(items) + "]" + rest) == Some((items, rest))
    decreases items, 0
  {
    var v := items[0];
    var tail := ItemsText(items[1..]) + "]" + rest;
    var after := "," + tail;
    assert ItemsText(items) == Stringify(v) + "," + ItemsText(items[1..]);
    Assoc5(Stringify(v), ",", ItemsText(items[1..]), "]", rest);
    ParseValueStringify(v, after);
    ParseElementsStep(Stringify(v) + after, v, after);
    assert after[1..] == tail;
    HeadTail(items);
  }

  /** How ParseElements continues once the first value has been read. */
  lemma ParseElementsStep(s: string, v: Json, after: string)
    requires ParseValue(s) == Some((v, after))
    requires after != [] && !IsWs(after[0])
    ensures after[0] == ']' ==> ParseElements(s) == Some(([v], after[1..]))
    ensures after[0] == ',' ==>
      ParseElements(s) == (match ParseElements(after[1..])
                           case None => None
                           case Some((vs, rest)) => Some(([v] + vs, rest)))
  {
  }

  lemma {:induction false} ParseMemberText(m: Member, after: string)
    requires Delimited(after)
    ensures ParseMember(MemberText(m) + after) == Some((m, after))
    decreases m
  {
    var key := EscapeString(m.key);
    var value := Stringify(m.value);
    var valueText := ":" + (value + after);
    var s := "\"" + (key + "\"" + valueText);
    Assoc6("\"", key, "\"", ":", value, after);
    assert MemberText(m) + after == s;
    ParseEscapeString(m.key, valueText);
    ParseValueStringify(m.value, after);
    ParseMemberStep(key + "\"" + valueText, m.key, value + after, m.value, after);
  }

  /** How ParseMember reads a quoted key, a colon and a value that start right away. */
  lemma ParseMemberStep(body: string, key: string, valueText: string, v: Json, after: string)
    requires ParseStringBody(body) == Some((key, ":" + valueText))
    requires ParseValue(valueText) == Some((v, after))
    ensures ParseMember("\"" + body) == Some((Member(key, v), after))
  {
    var s := "\"" + body;
    assert SkipWs(s) == s;
    assert s[1..] == body;
    var colon := ":" + valueText;
    assert SkipWs(colon) == colon;
    assert colon[1..] == valueText;
  }

  lemma {:induction false} ParseMembersText(ms: seq<Member>, rest: string)
    requires |ms| >= 1
    requires Delimited(rest)
    ensures ParseMembers(MembersText(ms) + "}" + rest) == Some((ms, rest))
    decreases ms, 1
  {
    if |ms| == 1 {
      ParseLastMemberText(ms, rest);
    } else {
      ParseMembersText(ms[1..], rest);
      ParseNextMemberText(ms, rest);
    }
  }

  /** The first of several members, then a comma, then the members already read. */
  lemma ParseNextMemberText(ms: seq<Member>, rest: string)
    requires |ms| > 1
    requires Delimited(rest)
    requires ParseMembers(MembersText(ms[1..]) + "}" + rest) == Some((ms[1..], rest))
    ensures ParseMembers(MembersText(ms) + "}" + rest) == Some((ms, rest))
    decreases ms, 0
  {
    var m := ms[0];
    var tail := MembersText(ms[1..]) + "}" + rest;
    var after := "," + tail;
    assert MembersText(ms) == MemberText(m) + "," + MembersText(ms[1..]);
    Assoc5(MemberText(m), ",", MembersText(ms[1..]), "}", rest);
    ParseMemberText(m, after);
    ParseMembersStep(MemberText(m) + after, m, after);
    assert after[1..] == tail;
    HeadTail(ms);
  }

  lemma ParseLastMemberText(ms: seq<Member>, rest: string)
    requires |ms| == 1
    requires Delimited(rest)
    ensures ParseMembers(MembersText(ms) + "}" + rest) == Some((ms, rest))
    decreases ms, 0
  {
    var m := ms[0];
    assert [m] == ms;
    var after := "}" + rest;
    assert MembersText(ms) == MemberText(m);
    Assoc3(MemberText(m), "}", rest);
    ParseMemberText(m, after);
    ParseMembersStep(MemberText(m) + after, m, after);
    assert after[1..] == rest;
  }

  /** How ParseMembers continues once the first member has been read. */
  lemma ParseMembersStep(s: string, m: Member, after: string)
    requires ParseMember(s) == Some((m, after))
    requires after != [] && !IsWs(after[0])
    ensures after[0] == '}' ==> ParseMembers(s) == Some(([m], after[1..]))
    ensures after[0] == ',' ==>
      ParseMembers(s) == (match ParseMembers(after[1..])
                          case None => None
                          case Some((ms, rest)) => Some(([m] + ms, rest)))
  {
  }

  /** `JSON.parse(JSON.stringify(v))` gives `v` back. */
  lemma ParseStringify(v: Json)
    ensures Parse(Stringify(v)) == Some(v)
  {
    ParseValueStringify(v, "");
    assert Stringify(v) + "" == Stringify(v);
  }
}
