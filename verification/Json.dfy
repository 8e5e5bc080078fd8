/** JSON string literals as serde_json writes and reads them. */
module Json {
  import opened Basics

  const QUOTE: char := '\"'
  const BACKSLASH: char := '\\'

  // ---------- writing ----------

  function HexDigit(n: nat): char
    requires n < 16
  {
    if n < 10 then '0' + n as char else 'a' + (n - 10) as char
  }

  function EscapeChar(c: char): string {
    if c == QUOTE then [BACKSLASH, QUOTE]
    else if c == BACKSLASH then [BACKSLASH, BACKSLASH]
    else if c == 8 as char then [BACKSLASH, 'b']
    else if c == 9 as char then [BACKSLASH, 't']
    else if c == 10 as char then [BACKSLASH, 'n']
    else if c == 12 as char then [BACKSLASH, 'f']
    else if c == 13 as char then [BACKSLASH, 'r']
    else if c < ' ' then [BACKSLASH, 'u', '0', '0', HexDigit(c as int / 16), HexDigit(c as int % 16)]
    else [c]
  }

  function Escape(s: string): string { if s == "" then "" else EscapeChar(s[0]) + Escape(s[1..]) }

  function Quoted(s: string): string { [QUOTE] + Escape(s) + [QUOTE] }

  // ---------- reading ----------

  function HexValue(c: char): (r: Option<nat>)
    ensures r.Some? ==> r.value < 16
  {
    if '0' <= c <= '9' then Some(c as int - '0' as int)
    else if 'a' <= c <= 'f' then Some(c as int - 'a' as int + 10)
    else if 'A' <= c <= 'F' then Some(c as int - 'A' as int + 10)
    else None
  }

  /** The four hex digits at the front of `s`. */
  function Hex4(s: string): (r: Option<nat>)
    ensures r.Some? ==> |s| >= 4 && r.value < 0x10000
  {
    if |s| < 4 then None
    else
      var a, b, c, d := HexValue(s[0]), HexValue(s[1]), HexValue(s[2]), HexValue(s[3]);
      if a.Some? && b.Some? && c.Some? && d.Some? then
        Some(4096 * a.value + 256 * b.value + 16 * c.value + d.value)
      else None
  }

  /** After a backslash and `u`: a scalar value, or a surrogate pair. The second
      component is how much of `s` was used. */
  function UnicodeEscape(s: string): (r: Option<(char, nat)>)
    ensures r.Some? ==> 1 <= r.value.1 <= |s|
  {
    var first := Hex4(s);
    if first.None? then None
    else if first.value < 0xD800 || first.value >= 0xE000 then Some((first.value as char, 4))
    else if first.value >= 0xDC00 || |s| < 6 || s[4] != BACKSLASH || s[5] != 'u' then None
    else
      var second := Hex4(s[6..]);
      if second.None? || second.value < 0xDC00 || second.value >= 0xE000 then None
      else Some((((first.value - 0xD800) * 0x400 + (second.value - 0xDC00) + 0x10000) as char, 10))
  }

  function SimpleEscape(c: char): Option<char> {
    if c == QUOTE || c == BACKSLASH || c == '/' then Some(c)
    else if c == 'b' then Some(8 as char)
    else if c == 't' then Some(9 as char)
    else if c == 'n' then Some(10 as char)
    else if c == 'f' then Some(12 as char)
    else if c == 'r' then Some(13 as char)
    else None
  }

  function Prepend(c: char, rest: Option<string>): Option<string> {
    if rest.Some? then Some([c] + rest.value) else None
  }

  /** The value of the text between the quotes of a literal. */
  function Unescape(s: string): Option<string>
    decreases |s|
  {
    if s == "" then Some("")
    else if s[0] == BACKSLASH then
      if |s| < 2 then None
      else if s[1] == 'u' then
        var u := UnicodeEscape(s[2..]);
        if u.None? then None else Prepend(u.value.0, Unescape(s[2 + u.value.1..]))
      else
        var e := SimpleEscape(s[1]);
        if e.None? then None else Prepend(e.value, Unescape(s[2..]))
    else if s[0] == QUOTE || s[0] < ' ' then None
    else Prepend(s[0], Unescape(s[1..]))
  }

  /** Where the first unescaped quote of `s` is. */
  function QuoteEnd(s: string, escaped: bool): (r: Option<nat>)
    ensures r.Some? ==> r.value < |s| && s[r.value] == QUOTE
    decreases |s|
  {
    if s == "" then None
    else if !escaped && s[0] == QUOTE then Some(0)
    else
      var rest := QuoteEnd(s[1..], !escaped && s[0] == BACKSLASH);
      if rest.Some? then Some(rest.value + 1) else None
  }

  // ---------- round trip ----------

  lemma ControlSpells(c: char, u: string)
    requires c < ' ' && u == [BACKSLASH, 'u', '0', '0', HexDigit(c as int / 16), HexDigit(c as int % 16)]
    ensures HexSpelling(u, c as int)
  {
    var h, l := c as int / 16, c as int % 16;
    assert HexValue(HexDigit(h)) == Some(h) && HexValue(HexDigit(l)) == Some(l);
    assert u[2..] == ['0', '0', HexDigit(h), HexDigit(l)];
  }

  /** What is written for a character spells it. */
  lemma EscapeSpells(c: char)
    ensures Spells(EscapeChar(c), c)
  {
    var u := EscapeChar(c);
    if |u| == 2 { ShortIsSimple(u, c); } else if |u| == 6 { ControlSpells(c, u); }
  }

  lemma FrontAndRest(front: string, rest: string)
    ensures front <= front + rest && (front + rest)[|front|..] == rest
  {}

  lemma UnescapeChar(c: char, rest: string)
    ensures Unescape(EscapeChar(c) + rest) == Prepend(c, Unescape(rest))
  {
    EscapeSpells(c);
    FrontAndRest(EscapeChar(c), rest);
    SpellingReads(EscapeChar(c), c, EscapeChar(c) + rest);
  }

  /** Reading back what was written gives the same text. */
  lemma {:induction false} UnescapeEscape(s: string)
    ensures Unescape(Escape(s)) == Some(s)
    decreases |s|
  {
    if s != "" {
      UnescapeChar(s[0], Escape(s[1..]));
      UnescapeEscape(s[1..]);
      assert [s[0]] + s[1..] == s;
    }
  }

  function Shift(r: Option<nat>, n: nat): Option<nat> { if r.Some? then Some(r.value + n) else None }

  predicate Plain(c: char) { c != QUOTE && c != BACKSLASH }

  lemma HexDigitPlain(n: nat)
    requires n < 16
    ensures Plain(HexDigit(n))
  {}

  /** An escaped character is plain, a backslash and one more, or a `u` escape. */
  lemma EscapeShape(c: char)
    ensures var e := EscapeChar(c);
            || (|e| == 1 && Plain(e[0]))
            || (|e| == 2 && e[0] == BACKSLASH)
            || (|e| == 6 && e[0] == BACKSLASH && Plain(e[2]) && Plain(e[3]) && Plain(e[4]) && Plain(e[5]))
  {
    if c < ' ' {
      HexDigitPlain(c as int / 16);
      HexDigitPlain(c as int % 16);
    }
  }

  lemma PairSkips(x: char, rest: string)
    ensures QuoteEnd([BACKSLASH, x] + rest, false) == Shift(QuoteEnd(rest, false), 2)
  {
    var s := [BACKSLASH, x] + rest;
    assert s[1..] == [x] + rest;
    assert ([x] + rest)[1..] == rest;
    assert QuoteEnd([x] + rest, true) == Shift(QuoteEnd(rest, false), 1);
  }

  lemma {:induction false} PlainSkips(plain: string, rest: string)
    requires forall i :: 0 <= i < |plain| ==> Plain(plain[i])
    ensures QuoteEnd(plain + rest, false) == Shift(QuoteEnd(rest, false), |plain|)
    decreases |plain|
  {
    if plain == "" {
      assert plain + rest == rest;
    } else {
      assert (plain + rest)[1..] == plain[1..] + rest;
      PlainSkips(plain[1..], rest);
    }
  }

  lemma QuoteEndSkips(c: char, rest: string)
    ensures QuoteEnd(EscapeChar(c) + rest, false) == Shift(QuoteEnd(rest, false), |EscapeChar(c)|)
  {
    var e := EscapeChar(c);
    EscapeShape(c);
    if |e| == 1 {
      PlainSkips(e, rest);
    } else {
      var tail := e[2..] + rest;
      assert e + rest == [BACKSLASH, e[1]] + tail;
      PairSkips(e[1], tail);
      PlainSkips(e[2..], rest);
    }
  }

  lemma Associate(a: string, b: string, c: string)
    ensures (a + b) + c == a + (b + c)
  {}

  lemma OneMoreEscape(c: char, middle: string, after: string)
    requires QuoteEnd(middle + after, false) == Some(|middle|)
    ensures QuoteEnd((EscapeChar(c) + middle) + after, false) == Some(|EscapeChar(c) + middle|)
  {
    Associate(EscapeChar(c), middle, after);
    QuoteEndSkips(c, middle + after);
  }

  /** The end of a written literal is found, whatever follows it. */
  lemma {:induction false} QuoteEndOfEscaped(s: string, rest: string)
    ensures QuoteEnd(Escape(s) + ([QUOTE] + rest), false) == Some(|Escape(s)|)
    decreases |s|
  {
    if s == "" {
      assert Escape(s) + ([QUOTE] + rest) == [QUOTE] + rest;
    } else {
      QuoteEndOfEscaped(s[1..], rest);
      OneMoreEscape(s[0], Escape(s[1..]), [QUOTE] + rest);
    }
  }

  /** What stands before and after the quote that closes a written literal. */
  lemma LiteralParts(a: string, x: string) returns (p: string)
    ensures Quoted(a) + x == [QUOTE] + p && QuoteEnd(p, false) == Some(|Escape(a)|)
    ensures |p| > |Escape(a)| && p[..|Escape(a)|] == Escape(a) && p[|Escape(a)| + 1..] == x
  {
    p := EnclosedParts(QUOTE, Escape(a), x);
    QuoteEndOfEscaped(a, x);
  }

  lemma EnclosedParts(c: char, e: string, x: string) returns (p: string)
    ensures p == e + ([c] + x) && ([c] + e + [c]) + x == [c] + p
    ensures |p| > |e| && p[..|e|] == e && p[|e| + 1..] == x
  {
    p := e + ([c] + x);
  }

  /** Literals are self-delimiting: a text determines the literal it begins with. */
  lemma QuotedIsPrefixFree(a: string, b: string, x: string, y: string)
    requires Quoted(a) + x == Quoted(b) + y
    ensures a == b && x == y
  {
    var p := LiteralParts(a, x);
    var q := LiteralParts(b, y);
    FrontAndRest([QUOTE], p);
    FrontAndRest([QUOTE], q);
    UnescapeEscape(a);
    UnescapeEscape(b);
  }

  // ---------- exactly the spellings of section 7 of RFC 8259 ----------

  const SHORT: string := [QUOTE, BACKSLASH, '/', 'b', 'f', 'n', 'r', 't']
  const MEANS: string := [QUOTE, BACKSLASH, '/', 8 as char, 12 as char, 10 as char, 13 as char, 9 as char]

  predicate ShortSpelling(u: string, c: char) {
    |u| == 2 && u[0] == BACKSLASH && exists i :: 0 <= i < |SHORT| && u[1] == SHORT[i] && c == MEANS[i]
  }

  predicate HexSpelling(u: string, n: nat) {
    |u| == 6 && u[0] == BACKSLASH && u[1] == 'u' && Hex4(u[2..]) == Some(n)
  }

  predicate PairSpelling(u: string, c: char) {
    && |u| == 12
    && exists high: nat, low: nat ::
         && HexSpelling(u[..6], high) && HexSpelling(u[6..], low)
         && 0xD800 <= high < 0xDC00 && 0xDC00 <= low < 0xE000
         && c as int == 0x10000 + (high - 0xD800) * 0x400 + (low - 0xDC00)
  }

  /** `u` is one way to write the character `c` inside a literal. */
  predicate Spells(u: string, c: char) {
    || (u == [c] && c >= ' ' && Plain(c))
    || ShortSpelling(u, c) || HexSpelling(u, c as int) || PairSpelling(u, c)
  }

  /** `s` spells `v` character by character. */
  ghost predicate Spelled(s: string, v: string)
    decreases |v|
  {
    if v == "" then s == "" else exists u :: u <= s && Spells(u, v[0]) && Spelled(s[|u|..], v[1..])
  }

  lemma ShortIsSimple(u: string, c: char)
    requires |u| == 2 && u[0] == BACKSLASH
    ensures ShortSpelling(u, c) <==> SimpleEscape(u[1]) == Some(c)
  {
    if SimpleEscape(u[1]) == Some(c) {
      var i := if c == QUOTE then 0 else if c == BACKSLASH then 1 else if c == '/' then 2 else if c == 8 as char then 3
               else if c == 12 as char then 4 else if c == 10 as char then 5 else if c == 13 as char then 6 else 7;
      assert u[1] == SHORT[i] && c == MEANS[i];
    }
  }

  /** A hex digit is its position among the sixteen, in either case. */
  lemma HexDigitsRead(c: char, n: nat)
    ensures HexValue(c) == Some(n) <==> n < 16 && (c == "0123456789abcdef"[n] || c == "0123456789ABCDEF"[n])
  {}

  lemma Hex4Front(s: string, t: string)
    requires |s| >= 4 && |t| >= 4 && s[..4] == t[..4]
    ensures Hex4(s) == Hex4(t)
  {
    assert s[0] == s[..4][0] && s[1] == s[..4][1] && s[2] == s[..4][2] && s[3] == s[..4][3];
  }

  lemma UnicodeReads(u: string, c: char, t: string)
    requires HexSpelling(u, c as int) || PairSpelling(u, c)
    requires |t| >= |u| - 2 && t[..|u| - 2] == u[2..]
    ensures UnicodeEscape(t) == Some((c, |u| - 2))
  {
    assert t[..4] == t[..|u| - 2][..4] == u[2..][..4];
    Hex4Front(t, u[2..]);
    if |u| == 12 {
      var high: nat, low: nat :|
        && HexSpelling(u[..6], high) && HexSpelling(u[6..], low)
        && 0xD800 <= high < 0xDC00 && 0xDC00 <= low < 0xE000
        && c as int == 0x10000 + (high - 0xD800) * 0x400 + (low - 0xDC00);
      assert u[..6][2..][..4] == u[2..][..4];
      Hex4Front(u[..6][2..], t);
      assert t[4] == u[2..][4] == u[6..][0] && t[5] == u[2..][5] == u[6..][1];
      assert t[6..][..4] == u[6..][2..][..4] by { assert t[..10][6..] == u[2..][6..]; }
      Hex4Front(t[6..], u[6..][2..]);
    }
  }

  /** Whatever spells a character is read as that character. */
  lemma SpellingReads(u: string, c: char, s: string)
    requires Spells(u, c) && u <= s
    ensures Unescape(s) == Prepend(c, Unescape(s[|u|..]))
  {
    assert forall i :: 0 <= i < |u| ==> s[i] == u[i];
    if |u| == 2 {
      ShortIsSimple(u, c);
    } else if |u| > 2 {
      assert s[2..][..|u| - 2] == u[2..];
      UnicodeReads(u, c, s[2..]);
      assert s[2 + (|u| - 2)..] == s[|u|..];
    }
  }

  lemma UnicodeIsSpelled(s: string)
    requires |s| >= 2 && s[0] == BACKSLASH && s[1] == 'u' && UnicodeEscape(s[2..]).Some?
    ensures var (c, n) := UnicodeEscape(s[2..]).value; n + 2 <= |s| && Spells(s[..n + 2], c)
  {
    var t := s[2..];
    var (c, n) := UnicodeEscape(t).value;
    var u := s[..n + 2];
    assert u[2..] == t[..n];
    assert t[..n][..4] == t[..4];
    Hex4Front(u[2..], t);
    if n == 4 {
      assert HexSpelling(u, c as int);
    } else {
      assert u[..6][2..][..4] == t[..4];
      Hex4Front(u[..6][2..], t);
      assert u[6..][2..][..4] == t[6..][..4];
      Hex4Front(u[6..][2..], t[6..]);
      assert u[6] == t[4] && u[7] == t[5];
      var high, low := Hex4(t).value, Hex4(t[6..]).value;
      assert HexSpelling(u[..6], high) && HexSpelling(u[6..], low);
      assert PairSpelling(u, c);
    }
  }

  /** What is read starts with a spelling of its first character. */
  lemma FirstIsSpelled(s: string) returns (u: string)
    requires s != "" && Unescape(s).Some?
    ensures u <= s && u != "" && Unescape(s).value != "" && Spells(u, Unescape(s).value[0])
    ensures Unescape(s[|u|..]) == Some(Unescape(s).value[1..])
  {
    var v := Unescape(s).value;
    if s[0] != BACKSLASH {
      u := s[..1];
      assert v == [s[0]] + Unescape(s[1..]).value;
    } else if s[1] == 'u' {
      UnicodeIsSpelled(s);
      var (c, n) := UnicodeEscape(s[2..]).value;
      u := s[..n + 2];
      assert v == [c] + Unescape(s[n + 2..]).value;
    } else {
      u := s[..2];
      ShortIsSimple(u, v[0]);
      assert v == [v[0]] + Unescape(s[2..]).value;
    }
  }

  /** A literal is read as `v` if and only if it spells `v`: unpaired surrogates, bare
      control characters and unknown escapes are refused, everything else is read. */
  lemma {:induction false} ReadsExactlySpellings(s: string, v: string)
    ensures Unescape(s) == Some(v) <==> Spelled(s, v)
    decreases |v|
  {
    if Unescape(s) == Some(v) && s != "" {
      var u := FirstIsSpelled(s);
      ReadsExactlySpellings(s[|u|..], v[1..]);
    }
    if Spelled(s, v) && v != "" {
      var u :| u <= s && Spells(u, v[0]) && Spelled(s[|u|..], v[1..]);
      ReadsExactlySpellings(s[|u|..], v[1..]);
      SpellingReads(u, v[0], s);
      assert [v[0]] + v[1..] == v;
    }
  }
}
