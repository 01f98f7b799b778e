/** JSON as the credential store uses it: `JSON.parse` on the text of a
    file, and `JSON.stringify(obj, null, 2)` on the flat objects of strings
    the writers produce.

    The parser follows the JSON grammar (RFC 8259): objects, arrays, strings
    with every escape, numbers, `true`, `false`, `null`, and the four white
    space characters between tokens. A number keeps its source text, so the
    model never rounds; an object keeps its members in order, duplicates
    included, and property access reads the last one, as `JSON.parse` does.
 */
module Json {
  import opened Wrappers
  import opened Text

  datatype Json =
    | JNull
    | JBool(b: bool)
    | JNum(text: string)
    | JStr(s: string)
    | JArr(items: seq<Json>)
    | JObj(members: seq<Member>)

  datatype Member = Member(key: string, value: Json)

  /** A number is falsy exactly when every digit of its mantissa is zero. */
  predicate MantissaNonZero(t: string) {
    if |t| == 0 then false
    else if t[0] == 'e' || t[0] == 'E' then false
    else ('1' <= t[0] <= '9') || MantissaNonZero(t[1..])
  }

  /** `!!v` for a parsed value. */
  predicate Truthy(v: Json) {
    match v
    case JNull => false
    case JBool(b) => b
    case JNum(t) => MantissaNonZero(t)
    case JStr(s) => s != ""
    case JArr(_) => true
    case JObj(_) => true
  }

  /** `!!obj.key`, where a missing property reads as `undefined`. */
  predicate Present(f: Option<Json>) {
    f.Some? && Truthy(f.value)
  }

  /** The value of the last member named `key`. */
  function Lookup(members: seq<Member>, key: string): (r: Option<Json>)
    ensures r.Some? <==> exists i :: 0 <= i < |members| && members[i].key == key
  {
    if |members| == 0 then None
    else if members[|members| - 1].key == key then Some(members[|members| - 1].value)
    else
      var r := Lookup(members[..|members| - 1], key);
      assert r.Some? ==> exists i :: 0 <= i < |members| && members[i].key == key by {
        if r.Some? {
          var i :| 0 <= i < |members| - 1 && members[..|members| - 1][i].key == key;
          assert members[i].key == key;
        }
      }
      r
  }

  /** The TypeError reading a property of `null` throws. */
  const NullAccess: string := "TypeError: Cannot read properties of null"

  /** Property access `v.key` on a value that is not `null`: only an object
      has members; any other value reads as `undefined`. */
  function Prop(v: Json, key: string): (r: Option<Json>)
    ensures v.JObj? ==> r == Lookup(v.members, key)
    ensures !v.JObj? ==> r == None
  {
    if v.JObj? then Lookup(v.members, key) else None
  }

  /** Property access `v.key` on any value: on `null` it throws. */
  function Get(v: Json, key: string): (r: Result<Option<Json>>)
    ensures r.Err? <==> v.JNull?
    ensures r.Ok? ==> r.value == Prop(v, key)
  {
    if v.JNull? then Err(Thrown(NullAccess)) else Ok(Prop(v, key))
  }

  // ---------------------------------------------------------------------
  // Printing

  function HexDigit(d: nat): (c: char)
    requires d < 16
    ensures IsHexDigit(c)
  {
    if d < 10 then ((('0' as int) + d) as char) else ((('a' as int) + d - 10) as char)
  }

  function HexValue(c: char): (d: nat)
    requires IsHexDigit(c)
    ensures d < 16
  {
    if IsDigit(c) then (c as int) - ('0' as int)
    else if 'a' <= c <= 'f' then (c as int) - ('a' as int) + 10
    else (c as int) - ('A' as int) + 10
  }

  predicate IsHex4(s: string) {
    |s| == 4 && IsHexDigit(s[0]) && IsHexDigit(s[1]) && IsHexDigit(s[2]) && IsHexDigit(s[3])
  }

  function Hex4Value(s: string): (n: nat)
    requires IsHex4(s)
    ensures n < 0x10000
  {
    HexValue(s[0]) * 0x1000 + HexValue(s[1]) * 0x100 + HexValue(s[2]) * 0x10 + HexValue(s[3])
  }

  /** How `JSON.stringify` writes one character inside a string. */
  function QuoteChar(c: char): string {
    if c == '"' then "\\\""
    else if c == '\\' then "\\\\"
    else if c == '\U{0008}' then "\\b"
    else if c == '\U{000C}' then "\\f"
    else if c == '\n' then "\\n"
    else if c == '\r' then "\\r"
    else if c == '\t' then "\\t"
    else if (c as int) < 0x20 then "\\u00" + [HexDigit((c as int) / 16), HexDigit((c as int) % 16)]
    else [c]
  }

  function QuoteBody(s: string): string {
    if |s| == 0 then "" else QuoteChar(s[0]) + QuoteBody(s[1..])
  }

  function Quote(s: string): string {
    "\"" + QuoteBody(s) + "\""
  }

  /** A member of an object the program writes: a name and a string. */
  datatype Field = Field(key: string, value: string)

  function ToMembers(fields: seq<Field>): (ms: seq<Member>)
    ensures |ms| == |fields|
    ensures forall i :: 0 <= i < |fields| ==> ms[i] == Member(fields[i].key, JStr(fields[i].value))
  {
    seq(|fields|, i requires 0 <= i < |fields| => Member(fields[i].key, JStr(fields[i].value)))
  }

  function Entry(f: Field): string {
    Quote(f.key) + ": " + Quote(f.value)
  }

  function Entries(fields: seq<Field>): string
    requires |fields| > 0
  {
    if |fields| == 1 then Entry(fields[0]) else Entry(fields[0]) + (",\n  " + Entries(fields[1..]))
  }

  /** `JSON.stringify(obj, null, 2)` for an object whose values are strings. */
  function Stringify(fields: seq<Field>): string {
    if |fields| == 0 then "{}" else "{\n  " + Entries(fields) + "\n}"
  }

  // ---------------------------------------------------------------------
  // Parsing

  predicate IsWs(c: char) {
    c == ' ' || c == '\t' || c == '\n' || c == '\r'
  }

  function SkipWs(s: string): (r: string)
    ensures |r| <= |s|
    ensures |r| > 0 ==> !IsWs(r[0])
  {
    if |s| > 0 && IsWs(s[0]) then SkipWs(s[1..]) else s
  }

  /** Decodes the escape after a backslash: the character and how many
      characters of `s` it takes. A `\u` escape naming half of a surrogate
      pair must be followed by the other half. */
  function DecodeEscape(s: string): (r: Option<(char, nat)>)
    ensures r.Some? ==> 1 <= r.value.1 <= |s|
  {
    if |s| == 0 then None
    else if s[0] == '"' || s[0] == '\\' || s[0] == '/' then Some((s[0], 1))
    else if s[0] == 'b' then Some(('\U{0008}', 1))
    else if s[0] == 'f' then Some(('\U{000C}', 1))
    else if s[0] == 'n' then Some(('\n', 1))
    else if s[0] == 'r' then Some(('\r', 1))
    else if s[0] == 't' then Some(('\t', 1))
    else if s[0] == 'u' && |s| >= 5 && IsHex4(s[1..5]) then
      var hi := Hex4Value(s[1..5]);
      if hi < 0xD800 || 0xE000 <= hi then Some((hi as char, 5))
      else if hi < 0xDC00 && |s| >= 11 && s[5] == '\\' && s[6] == 'u' && IsHex4(s[7..11])
              && 0xDC00 <= Hex4Value(s[7..11]) < 0xE000 then
        Some(((0x10000 + (hi - 0xD800) * 0x400 + (Hex4Value(s[7..11]) - 0xDC00)) as char, 11))
      else None
    else None
  }

  /** The characters of a string up to its closing quote, and the text after it. */
  function ParseStringBody(s: string): (r: Option<(string, string)>)
    ensures r.Some? ==> |r.value.1| < |s|
    decreases |s|
  {
    if |s| == 0 then None
    else if s[0] == '"' then Some(("", s[1..]))
    else if (s[0] as int) < 0x20 then None
    else if s[0] == '\\' then
      match DecodeEscape(s[1..])
      case None => None
      case Some((c, n)) =>
        match ParseStringBody(s[1 + n..])
        case None => None
        case Some((t, rest)) => Some(([c] + t, rest))
    else
      match ParseStringBody(s[1..])
      case None => None
      case Some((t, rest)) => Some(([s[0]] + t, rest))
  }

  function DigitRun(s: string): (n: nat)
    ensures n <= |s|
  {
    if |s| > 0 && IsDigit(s[0]) then 1 + DigitRun(s[1..]) else 0
  }

  /** Where an optional fraction `.digits` starting at `i` ends. */
  function FractionEnd(s: string, i: nat): (r: Option<nat>)
    requires i <= |s|
    ensures r.Some? ==> i <= r.value <= |s|
  {
    if i < |s| && s[i] == '.' then
      var f := DigitRun(s[i + 1..]);
      if f == 0 then None else Some(i + 1 + f)
    else Some(i)
  }

  /** Where an optional exponent `e[+-]digits` starting at `i` ends. */
  function ExponentEnd(s: string, i: nat): (r: Option<nat>)
    requires i <= |s|
    ensures r.Some? ==> i <= r.value <= |s|
  {
    if i < |s| && (s[i] == 'e' || s[i] == 'E') then
      var j := if i + 1 < |s| && (s[i + 1] == '+' || s[i + 1] == '-') then i + 2 else i + 1;
      var d := DigitRun(s[j..]);
      if d == 0 then None else Some(j + d)
    else Some(i)
  }

  /** The length of the number at the start of `s`. */
  function NumberLength(s: string): (r: Option<nat>)
    ensures r.Some? ==> 0 < r.value <= |s|
  {
    var sign := if |s| > 0 && s[0] == '-' then 1 else 0;
    var digits := DigitRun(s[sign..]);
    if digits == 0 then None
    else
      var intEnd := if s[sign] == '0' then sign + 1 else sign + digits;
      var fracEnd :- FractionEnd(s, intEnd);
      ExponentEnd(s, fracEnd)
  }

  function ParseValue(s: string): (r: Option<(Json, string)>)
    ensures r.Some? ==> |r.value.1| < |s|
    decreases |s|, 1
  {
    if |s| == 0 then None
    else if s[0] == '"' then ParseString(s)
    else if s[0] == '{' then ParseObject(s)
    else if s[0] == '[' then ParseArray(s)
    else ParseScalar(s)
  }

  /** A string value, `s` starting at its opening quote. */
  function ParseString(s: string): (r: Option<(Json, string)>)
    requires |s| > 0
    ensures r.Some? ==> |r.value.1| < |s|
  {
    match ParseStringBody(s[1..])
    case None => None
    case Some((t, rest)) => Some((JStr(t), rest))
  }

  /** An object, `s` starting at its opening brace. */
  function ParseObject(s: string): (r: Option<(Json, string)>)
    requires |s| > 0
    ensures r.Some? ==> |r.value.1| < |s|
    decreases |s|, 0
  {
    var t := SkipWs(s[1..]);
    if |t| > 0 && t[0] == '}' then Some((JObj([]), t[1..]))
    else
      match ParseMembers(t)
      case None => None
      case Some((ms, rest)) => Some((JObj(ms), rest))
  }

  /** An array, `s` starting at its opening bracket. */
  function ParseArray(s: string): (r: Option<(Json, string)>)
    requires |s| > 0
    ensures r.Some? ==> |r.value.1| < |s|
    decreases |s|, 0
  {
    var t := SkipWs(s[1..]);
    if |t| > 0 && t[0] == ']' then Some((JArr([]), t[1..]))
    else
      match ParseElements(t)
      case None => None
      case Some((items, rest)) => Some((JArr(items), rest))
  }

  /** `true`, `false`, `null` or a number. */
  function ParseScalar(s: string): (r: Option<(Json, string)>)
    ensures r.Some? ==> |r.value.1| < |s|
  {
    if StartsWith(s, "true") then Some((JBool(true), s[4..]))
    else if StartsWith(s, "false") then Some((JBool(false), s[5..]))
    else if StartsWith(s, "null") then Some((JNull, s[4..]))
    else
      match NumberLength(s)
      case None => None
      case Some(n) => Some((JNum(s[..n]), s[n..]))
  }

  /** The members of an object, from its first key through its closing brace. */
  function ParseMembers(s: string): (r: Option<(seq<Member>, string)>)
    ensures r.Some? ==> |r.value.1| < |s|
    decreases |s|, 0
  {
    if |s| == 0 || s[0] != '"' then None
    else
      match ParseStringBody(s[1..])
      case None => None
      case Some((key, afterKey)) =>
        var t := SkipWs(afterKey);
        if |t| == 0 || t[0] != ':' then None
        else
          match ParseValue(SkipWs(t[1..]))
          case None => None
          case Some((v, afterValue)) => MoreMembers(Member(key, v), SkipWs(afterValue))
  }

  /** After a member: the closing brace, or a comma and further members. */
  function MoreMembers(m: Member, u: string): (r: Option<(seq<Member>, string)>)
    ensures r.Some? ==> |r.value.1| < |u|
    decreases |u|, 1
  {
    if |u| == 0 then None
    else if u[0] == '}' then Some(([m], u[1..]))
    else if u[0] == ',' then
      match ParseMembers(SkipWs(u[1..]))
      case None => None
      case Some((ms, rest)) => Some(([m] + ms, rest))
    else None
  }

  /** The items of an array, from its first item through its closing bracket. */
  function ParseElements(s: string): (r: Option<(seq<Json>, string)>)
    ensures r.Some? ==> |r.value.1| < |s|
    decreases |s|, 2
  {
    match ParseValue(s)
    case None => None
    case Some((v, afterValue)) => MoreElements(v, SkipWs(afterValue))
  }

  /** After an item: the closing bracket, or a comma and further items. */
  function MoreElements(v: Json, u: string): (r: Option<(seq<Json>, string)>)
    ensures r.Some? ==> |r.value.1| < |u|
    decreases |u|, 3
  {
    if |u| == 0 then None
    else if u[0] == ']' then Some(([v], u[1..]))
    else if u[0] == ',' then
      match ParseElements(SkipWs(u[1..]))
      case None => None
      case Some((items, rest)) => Some(([v] + items, rest))
    else None
  }

  /** `JSON.parse(text)`, with `None` for the texts it throws on. */
  function Parse(text: string): Option<Json> {
    match ParseValue(SkipWs(text))
    case None => None
    case Some((v, rest)) => if SkipWs(rest) == "" then Some(v) else None
  }

  // ---------------------------------------------------------------------
  // What the writers write, the readers read back

  lemma {:induction false} SkipWsPrefix(w: string, s: string)
    requires forall i :: 0 <= i < |w| ==> IsWs(w[i])
    ensures SkipWs(w + s) == SkipWs(s)
    decreases |w|
  {
    if |w| > 0 {
      var ws := w + s;
      assert ws[0] == w[0] && IsWs(ws[0]);
      assert SkipWs(ws) == SkipWs(ws[1..]);
      assert ws[1..] == w[1..] + s;
      SkipWsPrefix(w[1..], s);
    } else {
      assert w + s == s;
    }
  }

  function Prepend(c: char, r: Option<(string, string)>): Option<(string, string)> {
    match r
    case None => None
    case Some((t, rest)) => Some(([c] + t, rest))
  }

  lemma HexDigitValue(d: nat)
    requires d < 16
    ensures HexValue(HexDigit(d)) == d
  {
  }

  /** The characters written as a backslash and one letter. */
  predicate ShortEscaped(c: char) {
    c == '"' || c == '\\' || c == '\U{0008}' || c == '\U{000C}' || c == '\n' || c == '\r' || c == '\t'
  }

  lemma ShortEscapeParses(c: char, t: string)
    requires ShortEscaped(c)
    ensures ParseStringBody(QuoteChar(c) + t) == Prepend(c, ParseStringBody(t))
  {
    var s := QuoteChar(c) + t;
    assert s[0] == '\\' && |QuoteChar(c)| == 2;
    assert s[1..][0] == QuoteChar(c)[1];
    assert DecodeEscape(s[1..]) == Some((c, 1));
    assert s[2..] == t;
  }

  lemma UnicodeEscapeParses(c: char, t: string)
    requires !ShortEscaped(c) && (c as int) < 0x20
    ensures ParseStringBody(QuoteChar(c) + t) == Prepend(c, ParseStringBody(t))
  {
    var s := QuoteChar(c) + t;
    var n := c as int;
    var h := [HexDigit(n / 16), HexDigit(n % 16)];
    assert QuoteChar(c) == "\\u00" + h;
    assert s[0] == '\\';
    var e := s[1..];
    assert e[0] == 'u';
    assert e[1..5] == ['0', '0'] + h;
    HexDigitValue(n / 16);
    HexDigitValue(n % 16);
    assert Hex4Value(e[1..5]) == n;
    assert DecodeEscape(e) == Some((c, 5));
    assert s[6..] == t;
  }

  /** Each character `JSON.stringify` writes decodes back to itself. */
  lemma QuoteCharParses(c: char, t: string)
    ensures ParseStringBody(QuoteChar(c) + t) == Prepend(c, ParseStringBody(t))
  {
    if ShortEscaped(c) {
      ShortEscapeParses(c, t);
    } else if (c as int) < 0x20 {
      UnicodeEscapeParses(c, t);
    } else {
      var s := QuoteChar(c) + t;
      assert s[0] == c && s[1..] == t;
    }
  }

  lemma {:induction false} QuoteBodyParses(x: string, rest: string)
    ensures ParseStringBody(QuoteBody(x) + "\"" + rest) == Some((x, rest))
    decreases |x|
  {
    if |x| == 0 {
      assert QuoteBody(x) + "\"" + rest == "\"" + rest;
    } else {
      var tail := QuoteBody(x[1..]) + "\"" + rest;
      assert QuoteBody(x) + "\"" + rest == QuoteChar(x[0]) + tail;
      QuoteCharParses(x[0], tail);
      QuoteBodyParses(x[1..], rest);
      assert [x[0]] + x[1..] == x;
    }
  }

  lemma StringValueParses(value: string, tail: string)
    ensures ParseValue(Quote(value) + tail) == Some((JStr(value), tail))
  {
    var s := Quote(value) + tail;
    assert s == "\"" + (QuoteBody(value) + "\"" + tail);
    assert s[0] == '"';
    assert s[1..] == QuoteBody(value) + "\"" + tail;
    QuoteBodyParses(value, tail);
  }

  /** How `ParseMembers` takes one member apart. */
  lemma MembersStep(s: string, key: string, afterKey: string, v: Json, afterValue: string)
    requires |s| > 0 && s[0] == '"'
    requires ParseStringBody(s[1..]) == Some((key, afterKey))
    requires SkipWs(afterKey) == afterKey && |afterKey| > 0 && afterKey[0] == ':'
    requires ParseValue(SkipWs(afterKey[1..])) == Some((v, afterValue))
    ensures ParseMembers(s) == MoreMembers(Member(key, v), SkipWs(afterValue))
  {
  }

  lemma KeyParses(key: string, afterKey: string)
    ensures (Quote(key) + afterKey)[0] == '"'
    ensures ParseStringBody((Quote(key) + afterKey)[1..]) == Some((key, afterKey))
  {
    var s := Quote(key) + afterKey;
    assert s == "\"" + (QuoteBody(key) + "\"" + afterKey);
    assert s[1..] == QuoteBody(key) + "\"" + afterKey;
    QuoteBodyParses(key, afterKey);
  }

  /** Text starting with anything but white space is not skipped. */
  lemma NoLeadingWs(s: string)
    requires |s| > 0 && !IsWs(s[0])
    ensures SkipWs(s) == s
  {
  }

  lemma QuoteOpens(value: string, tail: string)
    ensures |Quote(value) + tail| > 0 && (Quote(value) + tail)[0] == '"'
  {
    assert Quote(value) + tail == "\"" + (QuoteBody(value) + "\"" + tail);
  }

  lemma AfterColonParses(value: string, tail: string)
    ensures ParseValue(SkipWs(" " + (Quote(value) + tail))) == Some((JStr(value), tail))
  {
    var afterColon := Quote(value) + tail;
    SkipWsPrefix(" ", afterColon);
    QuoteOpens(value, tail);
    NoLeadingWs(afterColon);
    StringValueParses(value, tail);
  }

  lemma ColonValueParses(value: string, tail: string)
    ensures SkipWs(": " + Quote(value) + tail) == ": " + Quote(value) + tail
    ensures ParseValue(SkipWs((": " + Quote(value) + tail)[1..])) == Some((JStr(value), tail))
  {
    var afterKey := ": " + Quote(value) + tail;
    assert afterKey[0] == ':';
    NoLeadingWs(afterKey);
    assert afterKey[1..] == " " + (Quote(value) + tail);
    AfterColonParses(value, tail);
  }

  /** One member `"key": "value"` parses, and parsing carries on after it. */
  lemma EntryParses(f: Field, tail: string)
    ensures ParseMembers(Entry(f) + tail) == MoreMembers(Member(f.key, JStr(f.value)), SkipWs(tail))
  {
    var afterKey := ": " + Quote(f.value) + tail;
    var s := Quote(f.key) + afterKey;
    assert s == Entry(f) + tail;
    KeyParses(f.key, afterKey);
    ColonValueParses(f.value, tail);
    MembersStep(s, f.key, afterKey, JStr(f.value), tail);
  }

  lemma MoreMembersClose(m: Member, rest: string)
    ensures MoreMembers(m, SkipWs("\n}" + rest)) == Some(([m], rest))
  {
    assert "\n}" + rest == "\n" + ("}" + rest);
    SkipWsPrefix("\n", "}" + rest);
    assert ("}" + rest)[1..] == rest;
  }

  lemma MoreMembersComma(m: Member, next: string, ms: seq<Member>, rest: string)
    requires |next| > 0 && next[0] == '"'
    requires ParseMembers(next) == Some((ms, rest))
    ensures MoreMembers(m, SkipWs(",\n  " + next)) == Some(([m] + ms, rest))
  {
    var tail := ",\n  " + next;
    assert tail[0] == ',';
    NoLeadingWs(tail);
    assert tail[1..] == "\n  " + next;
    SkipWsPrefix("\n  ", next);
    NoLeadingWs(next);
  }

  lemma Assoc4(a: string, b: string, c: string, d: string)
    ensures (a + (b + c)) + d == a + (b + (c + d))
  {
  }

  lemma ToMembersCons(fields: seq<Field>)
    requires |fields| > 0
    ensures ToMembers(fields) == [Member(fields[0].key, JStr(fields[0].value))] + ToMembers(fields[1..])
  {
    var r := [Member(fields[0].key, JStr(fields[0].value))] + ToMembers(fields[1..]);
    assert forall i :: 1 <= i < |fields| ==> r[i] == ToMembers(fields[1..])[i - 1];
  }

  lemma {:induction false} EntriesParse(fields: seq<Field>, rest: string)
    requires |fields| > 0
    ensures ParseMembers(Entries(fields) + ("\n}" + rest)) == Some((ToMembers(fields), rest))
    decreases |fields|
  {
    var f := fields[0];
    var m := Member(f.key, JStr(f.value));
    var close := "\n}" + rest;
    if |fields| == 1 {
      EntryParses(f, close);
      MoreMembersClose(m, rest);
      assert ToMembers(fields) == [m];
    } else {
      var next := Entries(fields[1..]) + close;
      Assoc4(Entry(f), ",\n  ", Entries(fields[1..]), close);
      EntryParses(f, ",\n  " + next);
      assert next[0] == '"' by {
        assert Entries(fields[1..])[0] == Entry(fields[1])[0] == '"';
      }
      EntriesParse(fields[1..], rest);
      MoreMembersComma(m, next, ToMembers(fields[1..]), rest);
      ToMembersCons(fields);
    }
  }

  lemma EmptyObjectParses()
    ensures Parse("{}") == Some(JObj([]))
  {
    var text := "{}";
    NoLeadingWs(text);
    NoLeadingWs(text[1..]);
    assert ParseObject(text) == Some((JObj([]), ""));
  }

  /** After the opening brace and the indent comes the first member's quote. */
  lemma BraceOpens(entries: string)
    requires |entries| > 0 && entries[0] == '"'
    ensures SkipWs(("{\n  " + entries + "\n}")[1..]) == entries + ("\n}" + "")
  {
    var indent := "\n  ";
    var body := entries + ("\n}" + "");
    assert ("{\n  " + entries + "\n}")[1..] == indent + body;
    SkipWsPrefix(indent, body);
    NoLeadingWs(body);
  }

  /** After the opening brace of a written object come its members. */
  lemma ObjectOpens(fields: seq<Field>)
    requires |fields| > 0
    ensures |Stringify(fields)| > 0
    ensures SkipWs(Stringify(fields)[1..]) == Entries(fields) + ("\n}" + "")
  {
    assert Entries(fields)[0] == '"' by {
      assert Entries(fields)[0] == Entry(fields[0])[0] == '"';
    }
    BraceOpens(Entries(fields));
  }

  /** The members of a written object are parsed through its closing brace. */
  lemma ObjectParses(fields: seq<Field>)
    requires |fields| > 0
    ensures ParseValue(Stringify(fields)) == Some((JObj(ToMembers(fields)), ""))
  {
    var text := Stringify(fields);
    ObjectOpens(fields);
    EntriesParse(fields, "");
    assert Entries(fields)[0] == Entry(fields[0])[0] == '"';
    assert text[0] == '{';
    assert ParseObject(text) == Some((JObj(ToMembers(fields)), ""));
  }

  /** Round trip: parsing what the writers stringify gives back the object. */
  lemma StringifyParses(fields: seq<Field>)
    ensures Parse(Stringify(fields)) == Some(JObj(ToMembers(fields)))
  {
    if |fields| == 0 {
      EmptyObjectParses();
    } else {
      var text := Stringify(fields);
      assert text[0] == '{';
      NoLeadingWs(text);
      ObjectParses(fields);
    }
  }

  /** Distinct member names, as in every object the program writes. */
  predicate DistinctKeys(fields: seq<Field>) {
    forall i, j :: 0 <= i < j < |fields| ==> fields[i].key != fields[j].key
  }

  lemma {:induction false} LookupField(fields: seq<Field>, i: nat)
    requires DistinctKeys(fields) && i < |fields|
    ensures Lookup(ToMembers(fields), fields[i].key) == Some(JStr(fields[i].value))
    decreases |fields|
  {
    var ms := ToMembers(fields);
    var n := |fields| - 1;
    if i < n {
      assert ms[..n] == ToMembers(fields[..n]);
      LookupField(fields[..n], i);
    }
  }
}
