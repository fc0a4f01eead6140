/** Decimal text of floating-point parameters: `format(x, ".15g")` and `float(text)`.

Rounding a double to fifteen significant digits, and a decimal to the nearest
double, stay abstract; everything done to characters is concrete.
*/
module Numbers {
  import opened Prelude
  import opened Text

  /** A decimal in canonical form: `Finite(neg, d, x)` is d[0].d[1..] times ten to the x. */
  datatype Number = Zero(neg: bool) | Finite(neg: bool, digits: string, x: int) | Infinite(neg: bool) | NotANumber

  ghost predicate Canonical(n: Number) {
    n.Finite? ==>
      n.digits != "" && All(Digit, n.digits) && n.digits[0] != '0' && n.digits[|n.digits| - 1] != '0'
  }

  /** Fifteen significant digits at most. */
  ghost predicate Short(n: Number) {
    Canonical(n) && (n.Finite? ==> |n.digits| <= 15)
  }

  /** What `.15g` is asked to write. */
  type Rounded15 = n: Number | Short(n) witness Zero(false)

  // ---------------------------------------------------------------- printing

  function Zeros(n: nat): (s: string)
    ensures |s| == n && forall i :: 0 <= i < n ==> s[i] == '0'
  {
    seq(n, _ => '0')
  }

  function Sign(neg: bool): string {
    if neg then "-" else ""
  }

  /** The exponent of scientific notation: a sign and two digits or more. */
  function ExponentText(x: int): string {
    var m := if x < 0 then -x else x;
    (if x < 0 then "-" else "+") + (if m < 10 then "0" else "") + NatText(m)
  }

  /** Digits before the point, digits after it, and the exponent if one is written. */
  datatype Layout = Layout(whole: string, part: string, exponent: Option<int>)

  /** `.15g`: fixed notation for exponents from -4 to 14, scientific otherwise. */
  function LayoutOf(d: string, x: int): Layout
    requires d != ""
  {
    if -4 <= x < 15 then
      if x < 0 then Layout("0", Zeros(-x - 1) + d, None)
      else if |d| <= x + 1 then Layout(d + Zeros(x + 1 - |d|), "", None)
      else Layout(d[..x + 1], d[x + 1..], None)
    else Layout(d[..1], d[1..], Some(x))
  }

  function LayoutText(l: Layout): string {
    l.whole + (if l.part == "" then "" else "." + l.part)
    + (match l.exponent case None => "" case Some(x) => "e" + ExponentText(x))
  }

  /** `format(value, ".15g")` */
  function Format(n: Number): string
    requires Canonical(n)
  {
    match n
    case Zero(neg) => Sign(neg) + "0"
    case Finite(neg, d, x) => Sign(neg) + LayoutText(LayoutOf(d, x))
    case Infinite(neg) => Sign(neg) + "inf"
    case NotANumber => "nan"
  }

  // ---------------------------------------------------------------- reading

  function Lower(c: char): char {
    if 'A' <= c <= 'Z' then 'a' + (c - 'A') else c
  }

  function Lowered(s: string): (r: string)
    ensures |r| == |s|
  {
    seq(|s|, i requires 0 <= i < |s| => Lower(s[i]))
  }

  /** An underscore stands between two digits. */
  predicate UnderscoresFit(s: string) {
    forall i :: 0 <= i < |s| && s[i] == '_' ==> 0 < i < |s| - 1 && IsDigit(s[i - 1]) && IsDigit(s[i + 1])
  }

  function DropUnderscores(s: string): string
    decreases |s|
  {
    if s == "" then "" else (if s[0] == '_' then "" else [s[0]]) + DropUnderscores(s[1..])
  }

  /** An optional sign. */
  function TakeSign(s: string): (r: (bool, string)) {
    if s != "" && s[0] == '-' then (true, s[1..])
    else if s != "" && s[0] == '+' then (false, s[1..])
    else (false, s)
  }

  /** The exponent, which must reach the end of the text. */
  function ReadExponent(s: string): Option<int> {
    if s == "" then Some(0)
    else if s[0] != 'e' && s[0] != 'E' then None
    else
      var (neg, t) := TakeSign(s[1..]);
      if t != "" && Span(Digit, t) == |t| then
        assert t == t[..|t|];
        var v: int := NatValue(t);
        Some(if neg then -v else v)
      else None
  }

  function TrimZeros(s: string): (r: string)
    ensures |r| <= |s| && r == s[..|r|] && (r != "" ==> r[|r| - 1] != '0')
    decreases |s|
  {
    if s != "" && s[|s| - 1] == '0' then TrimZeros(s[..|s| - 1]) else s
  }

  function LeadingZeros(s: string): (k: nat)
    ensures k <= |s| && (k < |s| ==> s[k] != '0') && forall i :: 0 <= i < k ==> s[i] == '0'
    decreases |s|
  {
    if s != "" && s[0] == '0' then
      var k := LeadingZeros(s[1..]);
      assert s[..1 + k] == [s[0]] + s[1..][..k];
      1 + k
    else 0
  }

  /** The value written as `whole` point `part`, times ten to the `e`. */
  function Canon(neg: bool, whole: string, part: string, e: int): (n: Number)
    requires All(Digit, whole) && All(Digit, part)
    ensures Canonical(n)
  {
    var s := whole + part;
    var k := LeadingZeros(s);
    var d := TrimZeros(s[k..]);
    if d == "" then Zero(neg) else Finite(neg, d, |whole| - k - 1 + e)
  }

  function ReadDecimal(neg: bool, s: string): (r: Option<Number>)
    ensures r.Some? ==> Canonical(r.value)
  {
    var i := Span(Digit, s);
    var t := s[i..];
    var point := t != "" && t[0] == '.';
    var u := if point then t[1..] else "";
    var j := Span(Digit, u);
    var rest := if point then u[j..] else t;
    if i == 0 && j == 0 then None
    else
      match ReadExponent(rest)
      case None => None
      case Some(e) => Some(Canon(neg, s[..i], u[..j], e))
  }

  /** `float(s)` for text already stripped. */
  function ReadFloat(s: string): (r: Option<Number>)
    ensures r.Some? ==> Canonical(r.value)
  {
    if !UnderscoresFit(s) then None
    else
      var (neg, t) := TakeSign(DropUnderscores(s));
      var low := Lowered(t);
      if low == "inf" || low == "infinity" then Some(Infinite(neg))
      else if low == "nan" then Some(NotANumber)
      else ReadDecimal(neg, t)
  }

  // ---------------------------------------------------------------- reading what was printed

  lemma {:induction false} NoUnderscores(s: string)
    requires forall i :: 0 <= i < |s| ==> s[i] != '_'
    ensures UnderscoresFit(s) && DropUnderscores(s) == s
    decreases |s|
  {
    if s != "" { NoUnderscores(s[1..]); }
  }

  lemma ExponentRoundTrip(x: int)
    ensures ReadExponent("e" + ExponentText(x)) == Some(x)
  {
    var m := if x < 0 then -x else x;
    var t := PaddedText(m);
    PaddedReads(m);
    assert ExponentText(x) == [if x < 0 then '-' else '+'] + t by { hide NatText; }
    hide PaddedText, ExponentText, NatValue, Span;
    SignedReads(x < 0, t, m);
  }

  function PaddedText(m: nat): string {
    (if m < 10 then "0" else "") + NatText(m)
  }

  lemma PaddedReads(m: nat)
    ensures var t := PaddedText(m); t != "" && All(Digit, t) && NatValue(t) == m && Span(Digit, t) == |t|
  {
    var t := PaddedText(m);
    NatRoundTrip(m);
    LeadingZero(NatText(m));
    assert t == if m < 10 then "0" + NatText(m) else NatText(m);
    hide PaddedText, NatText, NatValue;
    assert t + "" == t;
    SpanIs(Digit, t, "");
    hide Span;
  }

  lemma SignedReads(neg: bool, t: string, m: nat)
    requires t != "" && All(Digit, t) && NatValue(t) == m && Span(Digit, t) == |t|
    ensures var v: int := m; ReadExponent("e" + ([if neg then '-' else '+'] + t)) == Some(if neg then -v else v)
  {
    hide NatValue, Span;
    var u := [if neg then '-' else '+'] + t;
    assert ("e" + u)[0] == 'e' && ("e" + u)[1..] == u;
    assert u[1..] == t;
    assert TakeSign(u) == (neg, t);
  }

  lemma ReadWhole(neg: bool, whole: string, e: string, v: int)
    requires whole != "" && All(Digit, whole) && Stops(Digit, e) && (e == "" || e[0] != '.')
             && ReadExponent(e) == Some(v)
    ensures ReadDecimal(neg, whole + e) == Some(Canon(neg, whole, "", v))
  {
    SpanIs(Digit, whole, e);
    assert (whole + e)[..|whole|] == whole && (whole + e)[|whole|..] == e;
    assert Span(Digit, "") == 0 && ""[..0] == "";
    hide Canon, ReadExponent, Span;
  }

  lemma ReadPoint(neg: bool, whole: string, part: string, e: string, v: int)
    requires (whole != "" || part != "") && All(Digit, whole) && All(Digit, part)
    requires Stops(Digit, e) && ReadExponent(e) == Some(v)
    ensures ReadDecimal(neg, whole + ("." + (part + e))) == Some(Canon(neg, whole, part, v))
  {
    var u := part + e;
    var s := whole + ("." + u);
    SpanIs(Digit, whole, "." + u);
    SpanIs(Digit, part, e);
    assert s[..|whole|] == whole && s[|whole|..] == "." + u;
    assert ("." + u)[0] == '.' && ("." + u)[1..] == u;
    assert u[..|part|] == part && u[|part|..] == e;
    hide Canon, ReadExponent, Span;
  }

  function ExponentPart(l: Layout): string {
    match l.exponent case None => "" case Some(x) => "e" + ExponentText(x)
  }

  lemma LayoutForms(l: Layout)
    ensures LayoutText(l)
            == if l.part == "" then l.whole + ExponentPart(l) else l.whole + ("." + (l.part + ExponentPart(l)))
  {
    hide ExponentText;
    if l.part == "" {
      assert l.whole + "" + ExponentPart(l) == l.whole + ExponentPart(l);
    }
  }

  function Power(l: Layout): int {
    if l.exponent.Some? then l.exponent.value else 0
  }

  lemma ExponentReads(l: Layout)
    ensures ReadExponent(ExponentPart(l)) == Some(Power(l))
    ensures ExponentPart(l) == "" || ExponentPart(l)[0] == 'e'
  {
    if l.exponent.Some? { ExponentRoundTrip(l.exponent.value); }
    hide ExponentText;
  }

  /** Reading a layout back gives its digits and exponent. */
  lemma LayoutRoundTrip(neg: bool, l: Layout)
    requires l.whole != "" && All(Digit, l.whole) && All(Digit, l.part)
    ensures ReadDecimal(neg, LayoutText(l)) == Some(Canon(neg, l.whole, l.part, Power(l)))
  {
    LayoutForms(l);
    ExponentReads(l);
    hide LayoutText, ExponentPart, ReadExponent, ReadDecimal, Canon, Power;
    if l.part == "" {
      ReadWhole(neg, l.whole, ExponentPart(l), Power(l));
    } else {
      ReadPoint(neg, l.whole, l.part, ExponentPart(l), Power(l));
    }
  }

  lemma {:induction false} TrimPadding(d: string, n: nat)
    requires d != "" && d[|d| - 1] != '0'
    ensures TrimZeros(d + Zeros(n)) == d
    decreases n
  {
    if n == 0 {
      assert d + Zeros(0) == d;
    } else {
      TrimPadding(d, n - 1);
      assert (d + Zeros(n))[..|d| + n - 1] == d + Zeros(n - 1);
    }
  }

  lemma {:induction false} LeadingPadding(d: string, n: nat)
    requires d != "" && d[0] != '0'
    ensures LeadingZeros(Zeros(n) + d) == n
    decreases n
  {
    var s := Zeros(n) + d;
    if n == 0 {
      assert s == d;
    } else {
      assert s[0] == '0' && s[1..] == Zeros(n - 1) + d;
      LeadingPadding(d, n - 1);
    }
  }

  lemma CanonSmall(neg: bool, d: string, n: nat)
    requires Canonical(Finite(neg, d, 0))
    ensures All(Digit, Zeros(n) + d)
    ensures Canon(neg, "0", Zeros(n) + d, 0) == Finite(neg, d, -1 - n)
  {
    var s := "0" + (Zeros(n) + d);
    assert s == Zeros(n + 1) + d;
    LeadingPadding(d, n + 1);
    assert s[n + 1..] == d;
    hide LeadingZeros;
  }

  lemma CanonPadded(neg: bool, d: string, n: nat)
    requires Canonical(Finite(neg, d, 0))
    ensures All(Digit, d + Zeros(n))
    ensures Canon(neg, d + Zeros(n), "", 0) == Finite(neg, d, |d| + n - 1)
  {
    var s := d + Zeros(n);
    assert s + "" == s && s[0] == d[0];
    assert LeadingZeros(s) == 0;
    assert s[0..] == s;
    TrimPadding(d, n);
    hide LeadingZeros, TrimZeros;
  }

  lemma CanonSplit(neg: bool, d: string, k: nat, e: int)
    requires Canonical(Finite(neg, d, 0)) && 0 < k <= |d|
    ensures All(Digit, d[..k]) && All(Digit, d[k..])
    ensures Canon(neg, d[..k], d[k..], e) == Finite(neg, d, k - 1 + e)
  {
    assert d[..k] + d[k..] == d;
    assert LeadingZeros(d) == 0 && TrimZeros(d) == d;
    assert d[0..] == d;
    hide LeadingZeros, TrimZeros;
  }

  /** The canonical form of a layout is the number laid out. */
  lemma CanonOfLayout(neg: bool, d: string, x: int)
    requires Canonical(Finite(neg, d, x))
    ensures var l := LayoutOf(d, x);
            && l.whole != "" && All(Digit, l.whole) && All(Digit, l.part)
            && Canon(neg, l.whole, l.part, Power(l)) == Finite(neg, d, x)
  {
    hide Canon, Zeros;
    if -4 <= x < 0 {
      CanonSmall(neg, d, -x - 1);
    } else if 0 <= x < 15 && |d| <= x + 1 {
      CanonPadded(neg, d, x + 1 - |d|);
    } else if 0 <= x < 15 {
      CanonSplit(neg, d, x + 1, 0);
    } else {
      CanonSplit(neg, d, 1, x);
    }
  }

  /** The characters numbers are written with. */
  predicate Numeric(c: char) {
    IsDigit(c) || c == '.' || c == '-' || c == '+' || c == 'e' || c == 'i' || c == 'n' || c == 'f' || c == 'a'
  }

  ghost predicate AllNumeric(s: string) {
    forall i :: 0 <= i < |s| ==> Numeric(s[i])
  }

  lemma ExponentNumeric(l: Layout)
    ensures AllNumeric(ExponentPart(l))
  {
    if l.exponent.Some? {
      var x := l.exponent.value;
      var m := if x < 0 then -x else x;
      assert AllNumeric(NatText(m));
      assert AllNumeric((if x < 0 then "-" else "+") + (if m < 10 then "0" else ""));
      hide NatText;
    }
  }

  lemma LayoutNumeric(l: Layout)
    requires l.whole != "" && All(Digit, l.whole) && All(Digit, l.part)
    ensures LayoutText(l) != "" && AllNumeric(LayoutText(l)) && IsDigit(LayoutText(l)[0])
  {
    LayoutForms(l);
    ExponentNumeric(l);
    assert AllNumeric(l.whole) && AllNumeric(l.part);
    hide LayoutText, ExponentPart;
    assert AllNumeric("." + (l.part + ExponentPart(l)));
  }

  lemma FormatNumeric(n: Number)
    requires Canonical(n)
    ensures Format(n) != "" && AllNumeric(Format(n))
  {
    if n.Finite? {
      CanonOfLayout(n.neg, n.digits, n.x);
      LayoutNumeric(LayoutOf(n.digits, n.x));
    }
    hide LayoutText, LayoutOf, Canon;
  }

  lemma DigitFirst(t: string)
    requires t != "" && IsDigit(t[0])
    ensures TakeSign(t) == (false, t)
    ensures Lowered(t) != "inf" && Lowered(t) != "infinity" && Lowered(t) != "nan"
  {
    assert Lowered(t)[0] == Lower(t[0]);
  }

  lemma SignedRead(neg: bool, t: string)
    requires t != "" && IsDigit(t[0]) && AllNumeric(t)
    ensures ReadFloat(Sign(neg) + t) == ReadDecimal(neg, t)
  {
    var s := Sign(neg) + t;
    NoUnderscores(s);
    DigitFirst(t);
    if neg {
      assert s[1..] == t;
    } else {
      assert s == t;
    }
  }

  /** `float` reads back exactly the decimal that `.15g` wrote. */
  lemma FormatRoundTrip(n: Number)
    requires Canonical(n)
    ensures ReadFloat(Format(n)) == Some(n)
  {
    match n
    case Zero(neg) => ZeroRoundTrip(neg);
    case Finite(neg, d, x) =>
      var l := LayoutOf(d, x);
      CanonOfLayout(neg, d, x);
      LayoutRoundTrip(neg, l);
      LayoutNumeric(l);
      SignedRead(neg, LayoutText(l));
      hide LayoutText, LayoutOf, Canon, ReadFloat, ReadDecimal;
    case Infinite(neg) => WordRoundTrip(neg, "inf"); hide ReadFloat;
    case NotANumber =>
      assert Sign(false) + "nan" == "nan";
      WordRoundTrip(false, "nan");
      hide ReadFloat;
  }

  lemma LowerAlready(s: string)
    requires forall i :: 0 <= i < |s| ==> 'a' <= s[i] <= 'z'
    ensures Lowered(s) == s
  {
    forall i | 0 <= i < |s| ensures Lowered(s)[i] == s[i] { }
  }

  lemma WordRoundTrip(neg: bool, word: string)
    requires word == "inf" || word == "nan"
    ensures ReadFloat(Sign(neg) + word) == Some(if word == "inf" then Infinite(neg) else NotANumber)
  {
    hide Lowered, DropUnderscores, UnderscoresFit, ReadDecimal;
    var s := Sign(neg) + word;
    LowerAlready(word);
    NoUnderscores(s);
    assert TakeSign(s) == (neg, word) by {
      if neg { assert s[1..] == word; } else { assert s == word && s[0] != '-' && s[0] != '+'; }
    }
  }

  lemma ZeroRoundTrip(neg: bool)
    ensures ReadFloat(Sign(neg) + "0") == Some(Zero(neg))
  {
    var l := Layout("0", "", None);
    LayoutForms(l);
    assert LayoutText(l) == "0" by { assert "0" + "" == "0"; }
    LayoutRoundTrip(neg, l);
    assert Canon(neg, "0", "", 0) == Zero(neg) by {
      assert "0" + "" == "0" && LeadingZeros("0") == 1 && "0"[1..] == "";
    }
    SignedRead(neg, "0");
    hide ReadFloat, ReadDecimal, Canon;
  }

  // ---------------------------------------------------------------- floating point

  /** A floating-point type as far as the conversions use it. */
  datatype Floats<!F> = Floats(
    round15: F -> Rounded15,    // to fifteen significant digits
    nearest: Number -> F,       // the value a literal denotes
    zero: F,
    minusHalfPi: F,
    isClose: F -> bool)         // math.isclose(x, -pi/2, rel_tol=1e-12, abs_tol=1e-12)
  {
    /** The printed value of -pi/2 is close to it. */
    predicate HalfPiSurvives() {
      isClose(nearest(round15(minusHalfPi)))
    }

    /** A parameter after one trip through text. */
    function Rounded(x: F): F {
      nearest(round15(x))
    }

    /** Printing the value that was read back gives the same digits. */
    predicate Steady(x: F) {
      round15(nearest(round15(x))) == round15(x)
    }

    /** The rounded decimal is beyond the largest finite value. */
    predicate Overflows(x: F) {
      !round15(x).Infinite? && round15(nearest(round15(x))).Infinite?
    }
  }

  /** The law of doubles: fifteen significant digits survive the conversion to a
      value and back, unless the rounded decimal overflows. */
  ghost predicate FifteenDigits<F(!new)>(fl: Floats<F>) {
    forall x :: fl.Overflows(x) || fl.Steady(x)
  }
}
