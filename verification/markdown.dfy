/** Telegram MarkdownV2 escaping, the `escape` helper defined identically in
    the info command and in the offline-nodes notice: every character of
    `_*[]()~`>#+-=|{}.!\` gets a backslash in front of it, every other
    character is kept.
 */
module Markdown {

  /** One of the characters of the class `[_*[\]()~`>#+\-=|{}.!\\]`. */
  predicate IsSpecial(c: char) {
    || c == '_' || c == '*' || c == '[' || c == ']' || c == '(' || c == ')' || c == '~'
    || c == '`' || c == '>' || c == '#' || c == '+' || c == '-' || c == '=' || c == '|'
    || c == '{' || c == '}' || c == '.' || c == '!' || c == '\\'
  }

  /** A text in which every special character is escaped and every backslash
      escapes a special character: the texts `Escape` produces. */
  predicate WellEscaped(r: string)
    decreases |r|
  {
    if |r| == 0 then true
    else if r[0] == '\\' then |r| >= 2 && IsSpecial(r[1]) && WellEscaped(r[2..])
    else !IsSpecial(r[0]) && WellEscaped(r[1..])
  }

  /** Drops the backslash in front of each escaped character. */
  function Unescape(r: string): string
    decreases |r|
  {
    if |r| == 0 then ""
    else if |r| >= 2 && r[0] == '\\' then [r[1]] + Unescape(r[2..])
    else [r[0]] + Unescape(r[1..])
  }

  function CountSpecials(s: string): nat {
    if |s| == 0 then 0 else (if IsSpecial(s[0]) then 1 else 0) + CountSpecials(s[1..])
  }

  /** `text.replace(/[_*[\]()~`>#+\-=|{}.!\\]/g, '\\$&')` */
  function Escape(s: string): (r: string)
    ensures |r| == |s| + CountSpecials(s)
    ensures WellEscaped(r)
    ensures Unescape(r) == s
  {
    if |s| == 0 then ""
    else
      var head := if IsSpecial(s[0]) then ['\\', s[0]] else [s[0]];
      var tail := Escape(s[1..]);
      assert (head + tail)[|head|..] == tail;
      head + tail
  }

  /** Every well-escaped text is the escape of exactly one text, so `Escape`
      is a bijection between texts and well-escaped texts. */
  lemma {:induction false} EscapeUnescape(r: string)
    requires WellEscaped(r)
    ensures Escape(Unescape(r)) == r
    decreases |r|
  {
    if |r| == 0 {
    } else if r[0] == '\\' {
      EscapeUnescape(r[2..]);
      assert Unescape(r) == [r[1]] + Unescape(r[2..]);
      assert ([r[1]] + Unescape(r[2..]))[1..] == Unescape(r[2..]);
      assert r == ['\\', r[1]] + r[2..];
    } else {
      EscapeUnescape(r[1..]);
      assert ([r[0]] + Unescape(r[1..]))[1..] == Unescape(r[1..]);
      assert r == [r[0]] + r[1..];
    }
  }

  /** Characters outside the special set pass through unchanged. */
  lemma {:induction false} EscapePlain(s: string)
    requires forall i :: 0 <= i < |s| ==> !IsSpecial(s[i])
    ensures Escape(s) == s
    decreases |s|
  {
    if |s| > 0 {
      EscapePlain(s[1..]);
      assert s == [s[0]] + s[1..];
    }
  }

  /** Escaping distributes over concatenation. */
  lemma {:induction false} EscapeAppend(a: string, b: string)
    ensures Escape(a + b) == Escape(a) + Escape(b)
    decreases |a|
  {
    if |a| == 0 {
      assert a + b == b;
    } else {
      var head := if IsSpecial(a[0]) then ['\\', a[0]] else [a[0]];
      assert (a + b)[1..] == a[1..] + b;
      assert (a + b)[0] == a[0];
      calc {
        Escape(a + b);
        head + Escape(a[1..] + b);
        { EscapeAppend(a[1..], b); }
        head + (Escape(a[1..]) + Escape(b));
        (head + Escape(a[1..])) + Escape(b);
        Escape(a) + Escape(b);
      }
    }
  }
}
