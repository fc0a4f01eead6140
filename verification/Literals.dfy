/** Which texts `float` accepts, and the value they have. */
module Literals {
  import opened Prelude
  import opened Text
  import opened Numbers

  // ---------------------------------------------------------------- the grammar

  /** `s` is digits, or digits around a point with at least one of them, and then `tail`. */
  ghost predicate DecimalParts(s: string, whole: string, part: string, tail: string) {
    && All(Digit, whole) && All(Digit, part) && (whole != "" || part != "")
    && ((part == "" && s == whole + tail) || s == whole + ("." + (part + tail)))
  }

  ghost predicate SignedDigits(tail: string, sign: string, ds: string) {
    && (tail == "e" + (sign + ds) || tail == "E" + (sign + ds))
    && (sign == "" || sign == "+" || sign == "-")
    && ds != "" && All(Digit, ds)
  }

  /** Nothing, or a power of ten. */
  ghost predicate ExponentIs(tail: string, e: int) {
    || (tail == "" && e == 0)
    || exists sign, ds :: SignedDigits(tail, sign, ds) && e == (if sign == "-" then -1 else 1) * NatValue(ds)
  }

  ghost predicate DecimalIs(neg: bool, s: string, v: Number, whole: string, part: string, tail: string, e: int) {
    DecimalParts(s, whole, part, tail) && ExponentIs(tail, e) && v == Canon(neg, whole, part, e)
  }

  /** A sign, if any, and a word or a decimal. */
  ghost predicate NumberIs(body: string, neg: bool, v: Number) {
    || ((Lowered(body) == "inf" || Lowered(body) == "infinity") && v == Infinite(neg))
    || (Lowered(body) == "nan" && v == NotANumber)
    || exists whole, part, tail, e :: DecimalIs(neg, body, v, whole, part, tail, e)
  }

  ghost predicate FloatIs(s: string, v: Number, sign: string) {
    && (sign == "" || sign == "+" || sign == "-")
    && sign <= s && NumberIs(s[|sign|..], sign == "-", v)
  }

  // ---------------------------------------------------------------- the exponent

  lemma SpanAll(k: Class, s: string)
    ensures Span(k, s) == |s| <==> All(k, s)
  {
    assert s[..|s|] == s;
    if All(k, s) {
      assert s + "" == s;
      SpanIs(k, s, "");
    }
    hide Span;
  }

  lemma SignTaken(sign: string, ds: string)
    requires (sign == "" || sign == "+" || sign == "-") && ds != "" && ds[0] != '-' && ds[0] != '+'
    ensures TakeSign(sign + ds) == (sign == "-", ds)
  {
    if sign == "" {
      assert sign + ds == ds;
    } else {
      assert (sign + ds)[0] == sign[0] && (sign + ds)[1..] == ds;
    }
  }

  lemma ExponentsExactly(tail: string, e: int)
    ensures ReadExponent(tail) == Some(e) <==> ExponentIs(tail, e)
  {
    hide NatValue, Span;
    if ReadExponent(tail) == Some(e) && tail != "" {
      var t := tail[1..];
      var (neg, ds) := TakeSign(t);
      var sign := if ds == t then "" else if neg then "-" else "+";
      SpanAll(Digit, ds);
      assert t == sign + ds;
      assert tail == [tail[0]] + t;
      assert SignedDigits(tail, sign, ds);
    }
    if sign, ds :| SignedDigits(tail, sign, ds) && e == (if sign == "-" then -1 else 1) * NatValue(ds) {
      SignTaken(sign, ds);
      SpanAll(Digit, ds);
      assert tail[1..] == sign + ds;
    }
  }

  // ---------------------------------------------------------------- decimals

  lemma ExponentStarts(tail: string, e: int)
    requires ExponentIs(tail, e)
    ensures tail == "" || tail[0] == 'e' || tail[0] == 'E'
  {
    hide NatValue;
  }

  lemma DecimalsExactly(neg: bool, s: string, v: Number)
    ensures ReadDecimal(neg, s) == Some(v)
            <==> exists whole, part, tail, e :: DecimalIs(neg, s, v, whole, part, tail, e)
  {
    if whole, part, tail, e :| DecimalIs(neg, s, v, whole, part, tail, e) {
      DecimalRead(neg, s, whole, part, tail, e);
    }
    if ReadDecimal(neg, s) == Some(v) { var whole, part, tail, e := DecimalFound(neg, s, v); }
    hide ReadDecimal, DecimalIs;
  }

  lemma DecimalRead(neg: bool, s: string, whole: string, part: string, tail: string, e: int)
    requires DecimalParts(s, whole, part, tail) && ExponentIs(tail, e)
    ensures ReadDecimal(neg, s) == Some(Canon(neg, whole, part, e))
  {
    ExponentsExactly(tail, e);
    ExponentStarts(tail, e);
    if part == "" && s == whole + tail {
      ReadWhole(neg, whole, tail, e);
    } else {
      ReadPoint(neg, whole, part, tail, e);
    }
    hide ExponentIs, ReadExponent, Canon, ReadDecimal;
  }

  lemma DecimalFound(neg: bool, s: string, v: Number) returns (whole: string, part: string, tail: string, e: int)
    requires ReadDecimal(neg, s) == Some(v)
    ensures DecimalIs(neg, s, v, whole, part, tail, e)
  {
    hide ReadExponent, Canon, Span, ExponentIs, DecimalParts;
    var i := Span(Digit, s);
    var t := s[i..];
    var point := t != "" && t[0] == '.';
    var u := if point then t[1..] else "";
    var j := Span(Digit, u);
    whole, part, tail := s[..i], u[..j], if point then u[j..] else t;
    e := ReadExponent(tail).value;
    ExponentsExactly(tail, e);
    PartsFound(s, whole, t, part, tail);
  }

  lemma PartsFound(s: string, whole: string, t: string, part: string, tail: string)
    requires s == whole + t && All(Digit, whole) && All(Digit, part) && (whole != "" || part != "")
    requires if t != "" && t[0] == '.' then t[1..] == part + tail else part == "" && tail == t
    ensures DecimalParts(s, whole, part, tail)
  {
    if t != "" && t[0] == '.' { assert t == "." + (part + tail); }
  }

  // ---------------------------------------------------------------- the whole literal

  lemma NoSignInside(body: string, neg: bool, v: Number)
    requires NumberIs(body, neg, v)
    ensures body != "" && body[0] != '-' && body[0] != '+'
  {
    hide Canon, ExponentIs;
    if body != "" { assert Lowered(body)[0] == Lower(body[0]); }
    if whole, part, tail, e :| DecimalIs(neg, body, v, whole, part, tail, e) {
      if whole != "" { assert body[0] == whole[0]; } else { assert body[0] == '.'; }
    }
  }

  lemma UnsignedRead(s: string, v: Number)
    requires forall i :: 0 <= i < |s| ==> s[i] != '_'
    ensures var (neg, t) := TakeSign(s); ReadFloat(s) == Some(v) <==> NumberIs(t, neg, v)
  {
    NoUnderscores(s);
    var (neg, t) := TakeSign(s);
    DecimalsExactly(neg, t, v);
    DecimalIsNoWord(neg, t, v);
    hide ReadDecimal, UnderscoresFit, DropUnderscores, DecimalIs, Lowered, TakeSign;
  }

  lemma SignFound(s: string, sign: string, v: Number)
    requires FloatIs(s, v, sign)
    ensures TakeSign(s) == (sign == "-", s[|sign|..])
  {
    NoSignInside(s[|sign|..], sign == "-", v);
    assert s == sign + s[|sign|..];
    SignTaken(sign, s[|sign|..]);
    hide NumberIs, TakeSign;
  }

  lemma SignGiven(s: string, v: Number) returns (sign: string)
    requires var (neg, t) := TakeSign(s); NumberIs(t, neg, v)
    ensures FloatIs(s, v, sign)
  {
    var (neg, t) := TakeSign(s);
    sign := if t == s then "" else if neg then "-" else "+";
    assert s[|sign|..] == t && sign <= s && (sign == "-" <==> neg);
    hide NumberIs;
  }

  /** Written without underscores, a text is read as a number exactly when it is a
      sign, if any, and an infinity, a nan or a decimal, with that value. */
  lemma LiteralsExactly(s: string, v: Number)
    requires forall i :: 0 <= i < |s| ==> s[i] != '_'
    ensures ReadFloat(s) == Some(v) <==> exists sign :: FloatIs(s, v, sign)
  {
    UnsignedRead(s, v);
    var (neg, t) := TakeSign(s);
    if sign :| FloatIs(s, v, sign) { SignFound(s, sign, v); }
    if NumberIs(t, neg, v) { var sign := SignGiven(s, v); }
    hide ReadFloat, NumberIs, TakeSign;
  }

  lemma DecimalIsNoWord(neg: bool, t: string, v: Number)
    ensures (exists whole, part, tail, e :: DecimalIs(neg, t, v, whole, part, tail, e)) ==>
              Lowered(t) != "inf" && Lowered(t) != "infinity" && Lowered(t) != "nan"
  {
    if whole, part, tail, e :| DecimalIs(neg, t, v, whole, part, tail, e) {
      assert t != "" && (IsDigit(t[0]) || t[0] == '.') by {
        hide Canon, ExponentIs;
        if whole != "" { assert t[0] == whole[0]; }
      }
      hide DecimalIs;
      assert Lowered(t)[0] == Lower(t[0]);
    }
  }

  // ---------------------------------------------------------------- values

  function Pow10(n: nat): (p: nat)
    ensures p >= 1
  {
    if n == 0 then 1 else 10 * Pow10(n - 1)
  }

  lemma {:induction false} TrimKeepsValue(s: string)
    requires All(Digit, s)
    ensures All(Digit, TrimZeros(s)) && NatValue(s) == NatValue(TrimZeros(s)) * Pow10(|s| - |TrimZeros(s)|)
    decreases |s|
  {
    if s != "" && s[|s| - 1] == '0' {
      var r := s[..|s| - 1];
      TrimKeepsValue(r);
      var k := |r| - |TrimZeros(r)|;
      assert Pow10(k + 1) == 10 * Pow10(k);
      assert NatValue(s) == 10 * NatValue(r);
      Tenfold(NatValue(TrimZeros(r)), Pow10(k));
    }
  }

  lemma Tenfold(a: nat, p: nat)
    ensures 10 * (a * p) == a * (10 * p)
  {
  }

  lemma {:induction false} LeadingKeepsValue(s: string)
    requires All(Digit, s)
    ensures NatValue(s) == NatValue(s[LeadingZeros(s)..])
    decreases |s|
  {
    if s != "" && s[0] == '0' {
      LeadingKeepsValue(s[1..]);
      LeadingZero(s[1..]);
      assert s == "0" + s[1..];
      assert s[1..][LeadingZeros(s[1..])..] == s[LeadingZeros(s)..];
    }
  }

  lemma {:induction false} PositiveValue(d: string)
    requires All(Digit, d) && d != "" && d[|d| - 1] != '0'
    ensures NatValue(d) > 0
  {
  }

  /** The digits that count, and the zeros behind them. */
  lemma Significant(s: string) returns (d: string, j: nat)
    requires All(Digit, s)
    ensures var k := LeadingZeros(s);
            && d == TrimZeros(s[k..]) && j == |s| - k - |d|
            && All(Digit, d) && NatValue(s) == NatValue(d) * Pow10(j)
            && (d == "" <==> NatValue(s) == 0)
  {
    var k := LeadingZeros(s);
    d := TrimZeros(s[k..]);
    j := |s| - k - |d|;
    LeadingKeepsValue(s);
    TrimKeepsValue(s[k..]);
    hide LeadingZeros, TrimZeros, Pow10;
    if d == "" {
      EmptyIsZero();
      Nothing(Pow10(j));
    } else {
      PositiveValue(d);
      hide NatValue;
      Grows(NatValue(d), Pow10(j));
    }
  }

  lemma Nothing(p: nat)
    ensures 0 * p == 0
  {
  }

  /** The canonical form of a decimal has its value: the digits written, times ten
      to the exponent less the digits after the point. */
  lemma CanonKeepsValue(neg: bool, whole: string, part: string, e: int)
    requires All(Digit, whole) && All(Digit, part)
    ensures var n, v := NatValue(whole + part), Canon(neg, whole, part, e);
            && (n == 0 <==> v == Zero(neg))
            && (n > 0 ==> v.Finite? && v.neg == neg)
            && (n > 0 ==> exists j: nat ::
                  n == NatValue(v.digits) * Pow10(j) && v.x - (|v.digits| - 1) == e - |part| + j)
  {
    var d, j := Significant(whole + part);
    hide NatValue, LeadingZeros, TrimZeros, Pow10;
    var v := Canon(neg, whole, part, e);
    if d != "" { assert v.digits == d && v.x - (|d| - 1) == e - |part| + j; }
  }

  lemma EmptyIsZero()
    ensures NatValue("") == 0
  {
  }

  lemma Grows(a: nat, p: nat)
    requires a > 0 && p > 0
    ensures a * p > 0
  {
  }

  // ---------------------------------------------------------------- what is printed

  lemma {:induction false} NoLetter(s: string)
    requires All(Digit, s)
    ensures 'e' !in s
  {
  }

  /** Scientific notation is used exactly for exponents below -4 and from 15 on. */
  lemma ScientificExactly(neg: bool, d: string, x: int)
    requires Canonical(Finite(neg, d, x))
    ensures 'e' in Format(Finite(neg, d, x)) <==> x < -4 || x >= 15
  {
    var l := LayoutOf(d, x);
    CanonOfLayout(neg, d, x);
    LayoutForms(l);
    NoLetter(l.whole);
    NoLetter(l.part);
    assert l.exponent.Some? <==> x < -4 || x >= 15 by { hide Zeros; }
    assert l.exponent.Some? ==> ExponentPart(l)[0] == 'e' by { hide ExponentText; }
    hide LayoutText, LayoutOf, ExponentText, Canon;
    var text := LayoutText(l);
    assert 'e' in text <==> 'e' in ExponentPart(l);
    assert 'e' !in Sign(neg);
  }

  lemma FixedText(whole: string, part: string)
    requires part != ""
    ensures LayoutText(Layout(whole, part, None)) == whole + ("." + part)
    ensures LayoutText(Layout(whole, "", None)) == whole
  {
    assert whole + "" + "" == whole;
    assert whole + ("." + part) + "" == whole + ("." + part);
  }

  lemma ScientificText(whole: string, part: string, x: int)
    requires part != ""
    ensures LayoutText(Layout(whole, part, Some(x))) == whole + ("." + (part + ("e" + ExponentText(x))))
    ensures LayoutText(Layout(whole, "", Some(x))) == whole + ("e" + ExponentText(x))
  {
    LayoutForms(Layout(whole, part, Some(x)));
    LayoutForms(Layout(whole, "", Some(x)));
    hide LayoutText, ExponentText;
  }

  /** Fixed notation as `.15g` writes it: no padding but what the point needs. */
  lemma FixedSamples()
    ensures Format(Finite(false, "5", -1)) == "0.5" && Format(Finite(true, "12", 0)) == "-1.2"
    ensures Format(Finite(false, "3", 2)) == "300" && Format(Finite(false, "1", -4)) == "0.0001"
  {
    assert Zeros(0) == "" && Zeros(2) == "00" && Zeros(3) == "000";
    assert "" + "5" == "5" && "3" + "00" == "300" && "000" + "1" == "0001";
    assert LayoutOf("5", -1) == Layout("0", "5", None) && LayoutOf("3", 2) == Layout("300", "", None);
    assert LayoutOf("1", -4) == Layout("0", "0001", None);
    assert "12"[..1] == "1" && "12"[1..] == "2" && LayoutOf("12", 0) == Layout("1", "2", None);
    FixedText("0", "5");
    FixedText("300", "x");
    FixedText("0", "0001");
    FixedText("1", "2");
    hide LayoutOf, LayoutText, Zeros;
  }

  lemma ExponentSamples()
    ensures ExponentText(-5) == "-05" && ExponentText(20) == "+20" && ExponentText(100) == "+100"
  {
    assert NatText(5) == "5" && NatText(2) == "2" && NatText(1) == "1";
    assert NatText(10) == "10" && NatText(20) == "20";
    assert NatText(100) == "100";
  }

  lemma LayoutSamples()
    ensures LayoutOf("1", -5) == Layout("1", "", Some(-5)) && LayoutOf("15", 20) == Layout("1", "5", Some(20))
    ensures LayoutOf("25", 100) == Layout("2", "5", Some(100))
  {
    assert "1"[..1] == "1" && "1"[1..] == "" && "15"[..1] == "1" && "15"[1..] == "5";
    assert "25"[..1] == "2" && "25"[1..] == "5";
  }

  /** Scientific notation: a sign and at least two digits of exponent. */
  lemma ScientificSamples()
    ensures Format(Finite(false, "1", -5)) == "1e-05" && Format(Finite(true, "15", 20)) == "-1.5e+20"
    ensures Format(Finite(false, "25", 100)) == "2.5e+100"
  {
    hide LayoutOf, LayoutText, ExponentText;
    ExponentSamples();
    LayoutSamples();
    ScientificText("1", "5", 20);
    ScientificText("1", "x", -5);
    ScientificText("2", "5", 100);
    Pieces();
    hide Canonical;
  }

  lemma Pieces()
    ensures "1" + ("e" + "-05") == "1e-05" && "1" + ("." + ("5" + ("e" + "+20"))) == "1.5e+20"
    ensures "-" + "1.5e+20" == "-1.5e+20" && "2" + ("." + ("5" + ("e" + "+100"))) == "2.5e+100"
  {
  }

  /** What has no digits. */
  lemma WordSamples()
    ensures Format(Zero(true)) == "-0" && Format(Zero(false)) == "0"
    ensures Format(Infinite(true)) == "-inf" && Format(NotANumber) == "nan"
  {
  }

  // ---------------------------------------------------------------- underscores and letters

  /** Every underscore of the text stands between two digits. */
  ghost predicate BetweenDigits(s: string) {
    forall i :: 0 <= i < |s| && s[i] == '_' ==>
      i > 0 && i + 1 < |s| && '0' <= s[i - 1] <= '9' && '0' <= s[i + 1] <= '9'
  }

  lemma {:induction false} DropsAll(s: string)
    ensures forall i :: 0 <= i < |DropUnderscores(s)| ==> DropUnderscores(s)[i] != '_'
    ensures DropUnderscores(DropUnderscores(s)) == DropUnderscores(s)
    decreases |s|
  {
    if s != "" { DropsAll(s[1..]); }
    NoneDropped(DropUnderscores(s));
  }

  lemma {:induction false} NoneDropped(s: string)
    ensures (forall i :: 0 <= i < |s| ==> s[i] != '_') ==> DropUnderscores(s) == s
    decreases |s|
  {
    if s != "" && forall i :: 0 <= i < |s| ==> s[i] != '_' {
      NoneDropped(s[1..]);
      assert [s[0]] + s[1..] == s;
    }
  }

  /** Underscores are read over between two digits and make any other text no number. */
  lemma UnderscoresExactly(s: string)
    ensures ReadFloat(s) == if BetweenDigits(s) then ReadFloat(DropUnderscores(s)) else None
  {
    DropsAll(s);
    assert UnderscoresFit(s) <==> BetweenDigits(s);
    assert UnderscoresFit(DropUnderscores(s)) by { hide DropUnderscores; }
    hide UnderscoresFit, DropUnderscores, BetweenDigits, TakeSign, Lowered, ReadDecimal;
  }

  /** A word, in whatever case, behind its sign. */
  lemma WordRead(s: string, neg: bool, word: string)
    requires (forall i :: 0 <= i < |s| ==> s[i] != '_') && TakeSign(s) == (neg, word)
    ensures Lowered(word) == "inf" || Lowered(word) == "infinity" ==> ReadFloat(s) == Some(Infinite(neg))
    ensures Lowered(word) == "nan" ==> ReadFloat(s) == Some(NotANumber)
  {
    NoUnderscores(s);
    hide Lowered, DropUnderscores, UnderscoresFit, ReadDecimal, TakeSign;
  }

  lemma InfRead()
    ensures ReadFloat("Inf") == Some(Infinite(false))
  {
    assert Lowered("Inf") == "inf";
    assert TakeSign("Inf") == (false, "Inf");
    hide Lowered, ReadFloat, TakeSign;
    WordRead("Inf", false, "Inf");
  }

  lemma InfinityRead()
    ensures ReadFloat("-INFINITY") == Some(Infinite(true))
  {
    assert "-INFINITY"[1..] == "INFINITY";
    assert TakeSign("-INFINITY") == (true, "INFINITY");
    assert Lowered("INFINITY") == "infinity";
    hide Lowered, ReadFloat, TakeSign;
    WordRead("-INFINITY", true, "INFINITY");
  }

  lemma NanRead()
    ensures ReadFloat("+NaN") == Some(NotANumber)
  {
    assert "+NaN"[1..] == "NaN";
    assert TakeSign("+NaN") == (false, "NaN");
    assert Lowered("NaN") == "nan";
    hide Lowered, ReadFloat, TakeSign;
    WordRead("+NaN", false, "NaN");
  }
}
