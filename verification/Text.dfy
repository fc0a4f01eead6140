/** Characters, scanning and lines, as Python's `str` and `re` see them in ASCII text. */
module Text {
  datatype Class = Blank | Digit | Word | Version | NotQuote | NotClose | LineBody

  /** `str.isspace` and the regular expression `\s`. */
  predicate IsBlank(c: char) {
    '\t' <= c <= '\r' || '\U{1c}' <= c <= ' '
  }

  /** Where `str.splitlines` cuts. */
  predicate IsBreak(c: char) {
    '\n' <= c <= '\r' || '\U{1c}' <= c <= '\U{1e}'
  }

  predicate IsDigit(c: char) {
    '0' <= c <= '9'
  }

  predicate IsWord(c: char) {
    IsDigit(c) || 'a' <= c <= 'z' || 'A' <= c <= 'Z' || c == '_'
  }

  predicate In(k: Class, c: char) {
    match k
    case Blank => IsBlank(c)
    case Digit => IsDigit(c)
    case Word => IsWord(c)
    case Version => IsDigit(c) || c == '.'
    case NotQuote => c != '"'
    case NotClose => c != ')'
    case LineBody => !IsBreak(c)
  }

  ghost predicate All(k: Class, s: string) {
    forall i :: 0 <= i < |s| ==> In(k, s[i])
  }

  // ---------------------------------------------------------------- scanning

  /** How many characters of the class `s` starts with. */
  function Span(k: Class, s: string): (n: nat)
    ensures n <= |s| && All(k, s[..n]) && (n < |s| ==> !In(k, s[n]))
  {
    if s == "" || !In(k, s[0]) then 0
    else
      var n := Span(k, s[1..]);
      assert s[..1 + n] == [s[0]] + s[1..][..n];
      1 + n
  }

  /** `s` does not start with a character of the class. */
  predicate Stops(k: Class, s: string) {
    s == "" || !In(k, s[0])
  }

  lemma {:induction false} SpanIs(k: Class, a: string, b: string)
    requires All(k, a) && Stops(k, b)
    ensures Span(k, a + b) == |a|
    decreases |a|
  {
    if a == "" {
      assert a + b == b;
    } else {
      assert (a + b)[0] == a[0] && (a + b)[1..] == a[1..] + b;
      SpanIs(k, a[1..], b);
    }
  }

  /** A match of part of a pattern: what was captured and what follows. */
  datatype Match = NoMatch | Match(got: string, rest: string)

  /** One or more characters of the class, as many as there are. */
  function Many(k: Class, s: string): Match {
    var n := Span(k, s);
    if n == 0 then NoMatch else Match(s[..n], s[n..])
  }

  lemma ManyIs(k: Class, a: string, b: string)
    requires All(k, a) && a != "" && Stops(k, b)
    ensures Many(k, a + b) == Match(a, b)
  {
    SpanIs(k, a, b);
  }

  function Skip(k: Class, s: string): string {
    s[Span(k, s)..]
  }

  lemma SkipIs(k: Class, a: string, b: string)
    requires All(k, a) && Stops(k, b)
    ensures Skip(k, a + b) == b
  {
    SpanIs(k, a, b);
  }

  lemma SkipNothing(k: Class, b: string)
    requires Stops(k, b)
    ensures Skip(k, b) == b
  {
    assert "" + b == b;
    SkipIs(k, "", b);
  }

  function Literal(word: string, s: string): Match {
    if |word| <= |s| && s[..|word|] == word then Match(word, s[|word|..]) else NoMatch
  }

  lemma LiteralIs(word: string, b: string)
    ensures Literal(word, word + b) == Match(word, b)
  {
  }

  // ---------------------------------------------------------------- strip and splitlines

  function StripLeft(s: string): string {
    Skip(Blank, s)
  }

  function StripRight(s: string): string
    decreases |s|
  {
    if s == "" || !IsBlank(s[|s| - 1]) then s else StripRight(s[..|s| - 1])
  }

  function Strip(s: string): string {
    StripRight(StripLeft(s))
  }

  /** Neither end is blank. */
  predicate Trim(s: string) {
    s == "" || (!IsBlank(s[0]) && !IsBlank(s[|s| - 1]))
  }

  lemma StripTrim(s: string)
    requires Trim(s)
    ensures Strip(s) == s
  {
    SkipNothing(Blank, s);
  }

  function SplitLines(s: string): seq<string>
    decreases |s|
  {
    if s == "" then []
    else
      var n := Span(LineBody, s);
      if n == |s| then [s]
      else
        var cut := if s[n] == '\r' && n + 1 < |s| && s[n + 1] == '\n' then 2 else 1;
        [s[..n]] + SplitLines(s[n + cut..])
  }

  /** `sep.join(parts)` */
  function Join(parts: seq<string>, sep: string): string
    decreases |parts|
  {
    if parts == [] then "" else if |parts| == 1 then parts[0] else parts[0] + sep + Join(parts[1..], sep)
  }

  ghost predicate OneLine(s: string) {
    s != "" && All(LineBody, s)
  }

  /** Splitting undoes joining, for lines that are lines. */
  lemma {:induction false} SplitJoin(lines: seq<string>)
    requires forall i :: 0 <= i < |lines| ==> OneLine(lines[i])
    ensures SplitLines(Join(lines, "\n")) == lines
    decreases |lines|
  {
    if |lines| == 1 {
      SpanIs(LineBody, lines[0], "");
      assert lines[0] + "" == lines[0];
    } else if |lines| > 1 {
      var rest := Join(lines[1..], "\n");
      var s := lines[0] + "\n" + rest;
      assert s == lines[0] + ("\n" + rest);
      SpanIs(LineBody, lines[0], "\n" + rest);
      assert s[|lines[0]|] == '\n' && s[|lines[0]| + 1..] == rest && s[..|lines[0]|] == lines[0];
      SplitJoin(lines[1..]);
    }
  }

  lemma {:induction false} JoinEnds(lines: seq<string>)
    requires lines != [] && forall i :: 0 <= i < |lines| ==> lines[i] != ""
    ensures var s := Join(lines, "\n");
            s != "" && s[0] == lines[0][0] && s[|s| - 1] == lines[|lines| - 1][|lines[|lines| - 1]| - 1]
    decreases |lines|
  {
    if |lines| > 1 {
      JoinEnds(lines[1..]);
      var rest := Join(lines[1..], "\n");
      var s := lines[0] + "\n" + rest;
      assert s[|s| - 1] == rest[|rest| - 1];
      assert lines[1..][|lines[1..]| - 1] == lines[|lines| - 1];
    }
  }

  /** The text of some lines, each ended by a newline, strips and splits into those lines. */
  lemma LinesOfText(lines: seq<string>)
    requires lines != [] && forall i :: 0 <= i < |lines| ==> OneLine(lines[i]) && Trim(lines[i])
    ensures SplitLines(Strip(Join(lines, "\n") + "\n")) == lines
  {
    hide Join, SplitLines;
    var s := Join(lines, "\n");
    JoinEnds(lines);
    StripNewline(s);
    SplitJoin(lines);
  }

  lemma StripNewline(s: string)
    requires s != "" && Trim(s)
    ensures Strip(s + "\n") == s
  {
    SkipNothing(Blank, s + "\n");
    assert (s + "\n")[..|s + "\n"| - 1] == s;
    hide Skip;
    assert StripRight(s + "\n") == StripRight(s) == s;
  }

  // ---------------------------------------------------------------- decimal naturals

  function DigitChar(d: nat): char
    requires d < 10
  {
    '0' + d as char
  }

  function DigitValue(c: char): (d: nat)
    requires IsDigit(c)
    ensures d < 10
  {
    (c - '0') as nat
  }

  /** `str(n)` */
  function NatText(n: nat): (s: string)
    ensures s != "" && All(Digit, s)
  {
    if n < 10 then [DigitChar(n)] else NatText(n / 10) + [DigitChar(n % 10)]
  }

  /** `int(s)` for a string of digits. */
  function NatValue(s: string): nat
    requires All(Digit, s)
  {
    if s == "" then 0 else 10 * NatValue(s[..|s| - 1]) + DigitValue(s[|s| - 1])
  }

  lemma {:induction false} NatRoundTrip(n: nat)
    ensures NatValue(NatText(n)) == n
  {
    if n < 10 {
      assert NatText(n)[..0] == "";
    } else {
      NatRoundTrip(n / 10);
      var s := NatText(n);
      assert s[..|s| - 1] == NatText(n / 10) && s[|s| - 1] == DigitChar(n % 10);
    }
  }

  /** A leading zero changes nothing. */
  lemma {:induction false} LeadingZero(s: string)
    requires All(Digit, s)
    ensures All(Digit, "0" + s) && NatValue("0" + s) == NatValue(s)
  {
    var z := "0" + s;
    assert All(Digit, z);
    if s == "" {
      assert z[..0] == "";
    } else {
      LeadingZero(s[..|s| - 1]);
      assert z[..|z| - 1] == "0" + s[..|s| - 1];
    }
  }

  function IntText(n: int): string {
    if n < 0 then "-" + NatText(-n) else NatText(n)
  }
}
