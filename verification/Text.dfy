/** The string operations the components share. */
module Text {
  import opened Values

  /** The characters that count as white space when a string is stripped. */
  predicate IsSpace(c: char) {
    var n := c as int;
    || 9 <= n <= 13 || 28 <= n <= 32 || n == 0x85 || n == 0xA0 || n == 0x1680
    || 0x2000 <= n <= 0x200A || n == 0x2028 || n == 0x2029 || n == 0x202F || n == 0x205F || n == 0x3000
  }

  function StripLeft(s: string): string {
    if s != [] && IsSpace(s[0]) then StripLeft(s[1..]) else s
  }

  function StripRight(s: string): string {
    if s != [] && IsSpace(s[|s| - 1]) then StripRight(s[..|s| - 1]) else s
  }

  function Strip(s: string): string {
    StripRight(StripLeft(s))
  }

  /** A string that neither starts nor ends with white space is its own strip. */
  lemma StripIsIdentity(s: string)
    requires s == [] || (!IsSpace(s[0]) && !IsSpace(s[|s| - 1]))
    ensures Strip(s) == s
  {
  }

  /** Blanks, tabs and the ends of lines. */
  predicate IsBlank(s: string) {
    forall i :: 0 <= i < |s| ==> s[i] == ' ' || s[i] == '\t' || s[i] == '\n' || s[i] == '\r'
  }

  /** A visible character of the basic set. */
  predicate IsVisible(c: char) {
    '!' <= c <= '~'
  }

  lemma {:induction false} StripLeftBlank(a: string, rest: string)
    requires IsBlank(a)
    ensures StripLeft(a + rest) == StripLeft(rest)
  {
    if a == "" {
      assert a + rest == rest;
    } else {
      assert (a + rest)[0] == a[0] && (a + rest)[1..] == a[1..] + rest;
      StripLeftBlank(a[1..], rest);
    }
  }

  lemma {:induction false} StripRightBlank(rest: string, b: string)
    requires IsBlank(b)
    ensures StripRight(rest + b) == StripRight(rest)
    decreases |b|
  {
    if b == "" {
      assert rest + b == rest;
    } else {
      var n := |b| - 1;
      assert (rest + b)[|rest + b| - 1] == b[n] && (rest + b)[..|rest + b| - 1] == rest + b[..n];
      StripRightBlank(rest, b[..n]);
    }
  }

  /** Stripping takes off exactly the blanks around a text that starts and ends with visible characters; of a blank text it
      leaves nothing. */
  lemma {:induction false} StripIs(a: string, core: string, b: string)
    requires IsBlank(a) && IsBlank(b)
    requires core == "" || (IsVisible(core[0]) && IsVisible(core[|core| - 1]))
    ensures Strip(a + core + b) == core
  {
    assert a + core + b == a + (core + b);
    StripLeftBlank(a, core + b);
    if core == "" {
      assert core + b == b + "";
      StripLeftBlank(b, "");
    } else {
      assert (core + b)[0] == core[0];
      StripRightBlank(core, b);
    }
  }

  /** A text splits in only one way at its first colon. */
  lemma {:induction false} FirstColonSplits(a: string, x: string, b: string, y: string)
    requires ':' !in a && ':' !in b && a + ":" + x == b + ":" + y
    ensures a == b && x == y
    decreases |a|
  {
    var s, t := a + ":" + x, b + ":" + y;
    assert s[0] == if a == "" then ':' else a[0];
    assert t[0] == if b == "" then ':' else b[0];
    assert a == "" <==> b == "";
    if a == "" {
      assert s[1..] == x && t[1..] == y;
    } else {
      assert s[1..] == a[1..] + ":" + x && t[1..] == b[1..] + ":" + y;
      FirstColonSplits(a[1..], x, b[1..], y);
      assert a == [a[0]] + a[1..] && b == [b[0]] + b[1..];
    }
  }

  // ----- Decimal numerals -----

  predicate IsDigit(c: char) {
    '0' <= c <= '9'
  }

  function DigitChar(d: nat): char
    requires d < 10
  {
    '0' + d as char
  }

  function Digits(n: nat): string {
    if n < 10 then [DigitChar(n)] else Digits(n / 10) + [DigitChar(n % 10)]
  }

  function Numeral(n: int): string {
    if n < 0 then "-" + Digits(-n) else Digits(n)
  }

  predicate IsNumber(s: string) {
    forall i :: 0 <= i < |s| ==> IsDigit(s[i])
  }

  function ValueOf(s: string): nat
    requires IsNumber(s)
  {
    if s == "" then 0 else 10 * ValueOf(s[..|s| - 1]) + (s[|s| - 1] as int - '0' as int)
  }

  /** One or more digits. */
  function ParseNat(s: string): (n: Option<nat>) {
    if s != "" && IsNumber(s) then Some(ValueOf(s)) else None
  }

  /** Digits with an optional minus sign. */
  function ParseInt(s: string): (n: Option<int>) {
    if s != "" && s[0] == '-' then
      var magnitude := ParseNat(s[1..]);
      if magnitude.None? then None
      else
        var m: int := magnitude.value;
        Some(-m)
    else
      var value := ParseNat(s);
      if value.Some? then Some(value.value) else None
  }

  lemma {:induction false} ParseDigits(n: nat)
    ensures ParseNat(Digits(n)) == Some(n)
    ensures IsDigit(Digits(n)[0])
  {
    if n < 10 {
      var s := Digits(n);
      assert |s| == 1 && s[0] as int == '0' as int + n;
      assert s[..|s| - 1] == "" && ValueOf(s) == 10 * ValueOf("") + n;
    } else {
      ParseDigits(n / 10);
      assert Digits(n)[..|Digits(n)| - 1] == Digits(n / 10);
    }
  }

  /** Parsing undoes printing. */
  lemma ParseNumeral(n: int)
    ensures ParseInt(Numeral(n)) == Some(n)
  {
    if n < 0 {
      ParseDigits(-n);
      ParseNegative(n);
    } else {
      ParseDigits(n);
    }
  }

  lemma ParseNegative(n: int)
    requires n < 0 && ParseNat(Digits(-n)) == Some(-n)
    ensures ParseInt("-" + Digits(-n)) == Some(n)
  {
    var s := "-" + Digits(-n);
    assert s[0] == '-' && s[1..] == Digits(-n);
  }

  lemma {:induction false} DigitsArePlain(n: nat)
    ensures |Digits(n)| > 0 && forall i :: 0 <= i < |Digits(n)| ==> IsDigit(Digits(n)[i])
  {
    if n >= 10 {
      DigitsArePlain(n / 10);
    }
  }

  /** A numeral is digits, but perhaps for a minus sign in front. */
  lemma NumeralIsPlain(n: int)
    ensures |Numeral(n)| > 0 && IsDigit(Numeral(n)[|Numeral(n)| - 1])
    ensures forall i :: 0 <= i < |Numeral(n)| ==> IsDigit(Numeral(n)[i]) || Numeral(n)[i] == '-'
  {
    DigitsArePlain(if n < 0 then -n else n);
  }

  // ----- Lines of a text -----

  function Join(parts: seq<string>, separator: string): string {
    if parts == [] then ""
    else if |parts| == 1 then parts[0]
    else parts[0] + separator + Join(parts[1..], separator)
  }

  /** The characters that end a line when a text is split into lines. */
  predicate IsBreak(c: char) {
    var n := c as int;
    10 <= n <= 13 || 28 <= n <= 30 || n == 0x85 || n == 0x2028 || n == 0x2029
  }

  predicate IsOneLine(s: string) {
    forall i :: 0 <= i < |s| ==> !IsBreak(s[i])
  }

  /** The place of the first line break, or the length. */
  function LineEnd(s: string): (n: nat)
    ensures n <= |s| && (n < |s| ==> IsBreak(s[n]))
    ensures forall i :: 0 <= i < n ==> !IsBreak(s[i])
  {
    if s == "" || IsBreak(s[0]) then 0 else 1 + LineEnd(s[1..])
  }

  /** The place after the first line break; a carriage return takes a line feed with it. */
  function NextLine(s: string): (n: nat)
    requires LineEnd(s) < |s|
    ensures LineEnd(s) < n <= |s|
  {
    var n := LineEnd(s);
    if s[n] == '\r' && n + 1 < |s| && s[n + 1] == '\n' then n + 2 else n + 1
  }

  function SplitLines(s: string): seq<string> {
    if s == "" then []
    else if LineEnd(s) == |s| then [s]
    else [s[..LineEnd(s)]] + SplitLines(s[NextLine(s)..])
  }

  lemma {:induction false} LineEndIs(s: string, n: nat)
    requires n < |s| && IsBreak(s[n]) && forall i :: 0 <= i < n ==> !IsBreak(s[i])
    ensures LineEnd(s) == n
  {
  }

  /** Up to its last line feed, a text has the same first line whatever follows. */
  lemma FirstLine(a: string, b: string)
    ensures var s, t := a + "\n", a + "\n" + b;
      && LineEnd(s) < |s| && LineEnd(t) == LineEnd(s) && NextLine(t) == NextLine(s)
      && t[..LineEnd(s)] == s[..LineEnd(s)]
  {
    var s, t := a + "\n", a + "\n" + b;
    assert s[|a|] == '\n';
    LineEndIs(t, LineEnd(s));
  }

  lemma {:induction false} AfterFirstLine(s: string, tail: string)
    requires LineEnd(s) < |s| && s[NextLine(s)..] == tail
    ensures SplitLines(s) == [s[..LineEnd(s)]] + SplitLines(tail)
  {
  }

  lemma Tails(a: string, b: string, m: nat)
    requires m <= |a| + 1
    ensures m <= |a| ==> (a + "\n")[m..] == a[m..] + "\n" && (a + "\n" + b)[m..] == a[m..] + "\n" + b
    ensures m > |a| ==> (a + "\n")[m..] == "" && (a + "\n" + b)[m..] == b
  {
  }

  /** If the rest splits at the line feed, so does the whole. */
  lemma {:induction false} SplitWhole(s: string, t: string, s': string, t': string, b: string)
    requires LineEnd(s) < |s| && LineEnd(t) == LineEnd(s) < |t| && t[..LineEnd(s)] == s[..LineEnd(s)]
    requires s[NextLine(s)..] == s' && t[NextLine(t)..] == t'
    requires SplitLines(t') == SplitLines(s') + SplitLines(b)
    ensures SplitLines(t) == SplitLines(s) + SplitLines(b)
  {
    AfterFirstLine(s, s');
    AfterFirstLine(t, t');
    ConsThen(s[..LineEnd(s)], SplitLines(s'), SplitLines(b));
  }

  lemma ConsThen(first: string, a: seq<string>, b: seq<string>)
    ensures [first] + (a + b) == [first] + a + b
  {
  }

  /** Splitting at a line feed: the lines before and the lines after. */
  lemma {:induction false} SplitAtLineFeed(a: string, b: string)
    ensures SplitLines(a + "\n" + b) == SplitLines(a + "\n") + SplitLines(b)
    decreases |a|
  {
    FirstLine(a, b);
    var m := NextLine(a + "\n");
    Tails(a, b, m);
    if m <= |a| {
      SplitAtLineFeed(a[m..], b);
      SplitWhole(a + "\n", a + "\n" + b, a[m..] + "\n", a[m..] + "\n" + b, b);
    } else {
      SplitWhole(a + "\n", a + "\n" + b, "", b, b);
    }
  }

  /** What ends a line: a line feed, a vertical tab, a form feed, one of the separators, or a carriage return, with the line
      feed after it if there is one. */
  predicate EndsLine(end: string) {
    end in ["\n", "\U{000B}", "\U{000C}", "\U{001C}", "\U{001D}", "\U{001E}", "\U{0085}", "\U{2028}", "\U{2029}", "\r\n"]
  }

  lemma {:induction false} LineThenRest(line: string, end: string, rest: string)
    requires forall i :: 0 <= i < |line| ==> ' ' <= line[i] <= '~'
    requires EndsLine(end) || (end == "\r" && (rest == "" || rest[0] != '\n'))
    ensures SplitLines(line + end + rest) == [line] + SplitLines(rest)
  {
    var s := line + end + rest;
    EndStarts(end);
    assert s[|line|] == end[0];
    LineEndIs(s, |line|);
    assert s[..|line|] == line;
    assert |end| == 2 ==> s[|line| + 1] == end[1];
    assert |end| == 1 && rest != "" ==> s[|line| + 1] == rest[0];
    assert s[|line| + |end|..] == rest;
  }

  lemma EndStarts(end: string)
    requires EndsLine(end) || end == "\r"
    ensures 1 <= |end| <= 2 && IsBreak(end[0]) && (|end| == 2 <==> end == "\r\n")
    ensures |end| == 1 && end[0] == '\r' <==> end == "\r"
  {
  }

  /** The lines of a list of texts, each ended by a line feed. */
  function Broken(parts: seq<string>): seq<string> {
    if parts == [] then [] else SplitLines(parts[0] + "\n") + Broken(parts[1..])
  }

  lemma {:induction false} SplitJoined(parts: seq<string>)
    ensures SplitLines(Join(parts + [""], "\n")) == Broken(parts)
  {
    if parts != [] {
      assert (parts + [""])[1..] == parts[1..] + [""];
      SplitJoined(parts[1..]);
      SplitAtLineFeed(parts[0], Join(parts[1..] + [""], "\n"));
    }
  }

  lemma {:induction false} BrokenConcat(a: seq<string>, b: seq<string>)
    ensures Broken(a + b) == Broken(a) + Broken(b)
  {
    if a == [] {
      assert a + b == b;
    } else {
      assert (a + b)[1..] == a[1..] + b;
      BrokenConcat(a[1..], b);
    }
  }

  lemma {:induction false} OneLineSplits(s: string)
    requires IsOneLine(s)
    ensures SplitLines(s + "\n") == [s]
  {
    var t := s + "\n";
    LineEndIs(t, |s|);
    assert t[..|s|] == s && t[|t|..] == "";
  }

  lemma {:induction false} BrokenLines(parts: seq<string>)
    requires forall i :: 0 <= i < |parts| ==> IsOneLine(parts[i])
    ensures Broken(parts) == parts
  {
    if parts != [] {
      OneLineSplits(parts[0]);
      BrokenLines(parts[1..]);
    }
  }
}
