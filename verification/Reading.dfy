/** Blank lines, comments and spaces around lines do not change what a text means. */
module Reading {
  import opened Prelude
  import opened Text
  import opened Ir
  import opened Numbers
  import opened Qasm

  // ---------------------------------------------------------------- where lines end

  /** A character in front of the first line. */
  function Joined(c: char, lines: seq<string>): seq<string> {
    if lines == [] then [[c]] else [[c] + lines[0]] + lines[1..]
  }

  lemma SplitBody(c: char, t: string)
    requires !IsBreak(c)
    ensures SplitLines([c] + t) == Joined(c, SplitLines(t))
  {
    assert ([c] + t)[1..] == t;
    var n := Span(LineBody, t);
    assert Span(LineBody, [c] + t) == 1 + n;
    if n < |t| {
      assert ([c] + t)[..1 + n] == [c] + t[..n];
      var cut := if t[n] == '\r' && n + 1 < |t| && t[n + 1] == '\n' then 2 else 1;
      assert ([c] + t)[1 + n + cut..] == t[n + cut..];
    } else {
      assert ([c] + t)[..1 + n] == [c] + t;
    }
  }

  /** `\r\n` is one break. */
  function AfterBreak(c: char, t: string): string {
    if c == '\r' && t != "" && t[0] == '\n' then t[1..] else t
  }

  lemma SplitBreak(c: char, t: string)
    requires IsBreak(c)
    ensures SplitLines([c] + t) == [""] + SplitLines(AfterBreak(c, t))
  {
    var s := [c] + t;
    assert Span(LineBody, s) == 0 && s[..0] == "";
    assert s[1..] == t && (t != "" ==> s[2..] == t[1..]);
  }

  lemma JoinedFirst(x: char, p: seq<string>, q: seq<string>)
    requires p != []
    ensures Joined(x, p + q) == Joined(x, p) + q
  {
  }

  lemma Regroup(x: char, t: string, u: string)
    ensures [x] + (t + u) == ([x] + t) + u
  {
  }

  lemma SplitAtStart(b: string)
    ensures SplitLines("" + ("\n" + b)) == SplitLines("" + "\n") + SplitLines(b)
  {
    SplitBreak('\n', b);
    SplitBreak('\n', "");
    SplitEmpty();
    assert "" + ("\n" + b) == ['\n'] + b && "" + "\n" == ['\n'] + "";
    hide SplitLines;
  }

  /** A text is split on both sides of a newline alike. */
  lemma {:induction false} SplitAt(a: string, b: string)
    ensures SplitLines(a + ("\n" + b)) == SplitLines(a + "\n") + SplitLines(b)
    decreases |a|
  {
    hide SplitLines, Joined, AfterBreak, IsBreak;
    if a == "" {
      SplitAtStart(b);
    } else {
      var x, t := a[0], a[1..];
      var v, w := t + ("\n" + b), t + "\n";
      assert a == [x] + t;
      Regroup(x, t, "\n" + b);
      Regroup(x, t, "\n");
      if !IsBreak(x) {
        SplitAt(t, b);
        SplitBody(x, v);
        SplitBody(x, w);
        SomeLine(t);
        JoinedFirst(x, SplitLines(w), SplitLines(b));
      } else {
        SplitBreak(x, v);
        SplitBreak(x, w);
        var v', w' := AfterBreak(x, v), AfterBreak(x, w);
        assert SplitLines(v') == SplitLines(w') + SplitLines(b) by {
          if x == '\r' && t == "" {
            SplitEmpty();
            AfterReturn(b);
            assert v == "\n" + b && w == "\n";
          } else if x == '\r' && t[0] == '\n' {
            SplitAt(t[1..], b);
            AfterReturnIn(t, "\n" + b);
            AfterReturnIn(t, "\n");
          } else {
            SplitAt(t, b);
            AfterOther(x, t, "\n" + b);
            AfterOther(x, t, "\n");
          }
        }
        assert [""] + (SplitLines(w') + SplitLines(b)) == [""] + SplitLines(w') + SplitLines(b);
      }
    }
  }

  lemma AfterReturn(b: string)
    ensures AfterBreak('\r', "\n" + b) == b && AfterBreak('\r', "\n") == ""
  {
    assert ("\n" + b)[1..] == b && "\n"[1..] == "";
  }

  lemma AfterReturnIn(t: string, u: string)
    requires t != "" && t[0] == '\n'
    ensures AfterBreak('\r', t + u) == t[1..] + u
  {
    assert (t + u)[1..] == t[1..] + u;
  }

  lemma AfterOther(x: char, t: string, u: string)
    requires x != '\r' || (t != "" && t[0] != '\n')
    ensures AfterBreak(x, t + u) == t + u
  {
  }

  lemma SplitEmpty()
    ensures SplitLines("") == []
  {
  }

  lemma SomeLine(t: string)
    ensures SplitLines(t + "\n") != []
  {
  }

  lemma SplitLine(c: string)
    requires All(LineBody, c)
    ensures SplitLines(c + "\n") == [c]
  {
    SpanIs(LineBody, c, "\n");
    assert (c + "\n")[..|c|] == c && (c + "\n")[|c| + 1..] == "";
    SplitEmpty();
  }

  // ---------------------------------------------------------------- blanks around a line

  lemma StripFirst(c: char, l: string)
    requires IsBlank(c)
    ensures Strip([c] + l) == Strip(l)
  {
    assert ([c] + l)[1..] == l;
    hide StripRight;
  }

  lemma {:induction false} SkipLast(l: string, c: char)
    requires IsBlank(c)
    ensures Skip(Blank, l + [c]) == (if Skip(Blank, l) == "" then "" else Skip(Blank, l) + [c])
    decreases |l|
  {
    if l == "" {
      assert l + [c] == [c] && [c][1..] == "";
    } else {
      assert (l + [c])[0] == l[0] && (l + [c])[1..] == l[1..] + [c];
      SkipLast(l[1..], c);
    }
  }

  lemma StripLast(l: string, c: char)
    requires IsBlank(c)
    ensures Strip(l + [c]) == Strip(l)
  {
    SkipLast(l, c);
    var k := Skip(Blank, l);
    assert (k + [c])[..|k|] == k;
    hide Skip;
  }

  // ---------------------------------------------------------------- lines that are skipped

  lemma {:induction false} ReadBoth<F>(
    fl: Floats<F>, target: string, acc: Gathered<F>, xs: seq<string>, ys: seq<string>)
    ensures ReadLines(fl, target, acc, xs + ys) ==
            match ReadLines(fl, target, acc, xs)
            case Ok(next) => ReadLines(fl, target, next, ys)
            case ConversionError => ConversionError
            case Unwrapped => Unwrapped
    decreases |xs|
  {
    hide ReadLine, Strip;
    if xs == [] {
      assert xs + ys == ys;
    } else {
      assert (xs + ys)[0] == xs[0] && (xs + ys)[1..] == xs[1..] + ys;
      var read := ReadLine(fl, target, acc, Strip(xs[0]));
      if read.Ok? { ReadBoth(fl, target, read.value, xs[1..], ys); }
    }
  }

  /** The line is empty or a comment, blanks aside. */
  predicate Skipped(l: string) {
    Strip(l) == "" || (|Strip(l)| >= 2 && Strip(l)[0] == '/' && Strip(l)[1] == '/')
  }

  lemma SkippedIsIgnored(l: string)
    requires Skipped(l)
    ensures Ignored(Strip(l))
  {
    var s := Strip(l);
    if s != "" { assert s[..2] == "//"; }
    hide Strip;
  }

  lemma ReadSkipped<F>(fl: Floats<F>, target: string, acc: Gathered<F>, l: string)
    requires Skipped(l)
    ensures ReadLines(fl, target, acc, [l]) == Ok(acc)
  {
    SkippedIsIgnored(l);
    assert [l][0] == l && [l][1..] == [];
    assert ReadLine(fl, target, acc, Strip(l)) == Ok(acc) by {
      hide Ignored, MatchDecl, MatchMeasure, MatchGate, GateFrom, NatValue, Strip;
    }
    assert ReadLines(fl, target, acc, []) == Ok(acc);
    hide ReadLine, Strip, Skipped;
  }

  lemma BlankIsSkipped(l: string)
    requires All(Blank, l)
    ensures Skipped(l)
  {
    SkipIs(Blank, l, "");
    assert l + "" == l;
    hide Skip;
  }

  // ---------------------------------------------------------------- stripping the whole text

  lemma DropFirst<F>(fl: Floats<F>, target: string, acc: Gathered<F>, c: char, t: string)
    requires IsBlank(c)
    ensures ReadLines(fl, target, acc, SplitLines([c] + t)) == ReadLines(fl, target, acc, SplitLines(t))
  {
    var lines := SplitLines(t);
    hide SplitLines, ReadLine, Strip, Skipped;
    if IsBreak(c) {
      SplitBreak(c, t);
      BlankIsSkipped("");
      ReadSkipped(fl, target, acc, "");
      ReadBoth(fl, target, acc, [""], SplitLines(AfterBreak(c, t)));
      if AfterBreak(c, t) != t {
        SplitBreak('\n', t[1..]);
        assert t == ['\n'] + t[1..] && AfterBreak('\n', t[1..]) == t[1..];
      }
    } else {
      SplitBody(c, t);
      if lines == [] {
        BlankIsSkipped([c]);
        ReadSkipped(fl, target, acc, [c]);
        assert ReadLines(fl, target, acc, lines) == Ok(acc);
      } else {
        StripFirst(c, lines[0]);
        var joined := Joined(c, lines);
        assert joined[0] == [c] + lines[0] && joined[1..] == lines[1..];
      }
    }
  }

  /** How one blank at the end of a text shows in its lines. */
  ghost predicate Padded(c: char, a: seq<string>, b: seq<string>) {
    || a == b
    || a == b + [""]
    || a == b + [[c]]
    || (b != [] && a == b[..|b| - 1] + [b[|b| - 1] + [c]])
  }

  lemma PaddedJoin(x: char, c: char, a: seq<string>, b: seq<string>)
    requires b != [] && Padded(c, a, b)
    ensures Padded(c, Joined(x, a), Joined(x, b))
  {
    var a', b' := Joined(x, a), Joined(x, b);
    if a == b {
    } else if a == b + [""] {
      assert a' == b' + [""];
    } else if a == b + [[c]] {
      assert a' == b' + [[c]];
    } else if |b| == 1 {
      assert [x] + (b[0] + [c]) == ([x] + b[0]) + [c];
      assert a' == b'[..0] + [b'[0] + [c]];
    } else {
      assert a' == b'[..|b'| - 1] + [b'[|b'| - 1] + [c]];
    }
  }

  lemma PaddedAfter(l: string, c: char, a: seq<string>, b: seq<string>)
    requires Padded(c, a, b)
    ensures Padded(c, [l] + a, [l] + b)
  {
    var a', b' := [l] + a, [l] + b;
    if a == b {
    } else if a == b + [""] {
      assert a' == b' + [""];
    } else if a == b + [[c]] {
      assert a' == b' + [[c]];
    } else {
      assert a' == b'[..|b'| - 1] + [b'[|b'| - 1] + [c]];
    }
  }

  lemma {:induction false} SplitLast(t: string, c: char)
    ensures Padded(c, SplitLines(t + [c]), SplitLines(t))
    decreases |t|
  {
    hide Padded;
    if t == "" {
      SplitOneChar(c);
      assert t + [c] == [c];
    } else {
      var x, u := t[0], t[1..];
      assert t == [x] + u && t + [c] == [x] + (u + [c]);
      hide SplitLines;
      if !IsBreak(x) {
        SplitBody(x, u);
        SplitBody(x, u + [c]);
        if u == "" {
          SplitEmpty();
          SplitTwoChars(x, c);
          assert u + [c] == [c];
        } else {
          SplitLast(u, c);
          NotEmpty(u);
          PaddedJoin(x, c, SplitLines(u + [c]), SplitLines(u));
        }
      } else {
        SplitBreak(x, u);
        SplitBreak(x, u + [c]);
        if u == "" {
          SplitEmpty();
          SplitOneChar(c);
          assert u + [c] == [c] && [c][1..] == "";
          AfterEmpty(x, c);
        } else if x == '\r' && u[0] == '\n' {
          assert (u + [c])[1..] == u[1..] + [c];
          SplitLast(u[1..], c);
          PaddedAfter("", c, SplitLines(u[1..] + [c]), SplitLines(u[1..]));
        } else {
          SplitLast(u, c);
          PaddedAfter("", c, SplitLines(u + [c]), SplitLines(u));
        }
      }
    }
  }

  lemma NotEmpty(u: string)
    requires u != ""
    ensures SplitLines(u) != []
  {
  }

  lemma SplitOneChar(c: char)
    ensures SplitLines([c]) == [if IsBreak(c) then "" else [c]]
    ensures Padded(c, SplitLines([c]), SplitLines(""))
  {
    assert [c] == [c] + "";
    SplitEmpty();
    if IsBreak(c) { SplitBreak(c, ""); } else { SplitBody(c, ""); }
  }

  lemma SplitTwoChars(x: char, c: char)
    requires !IsBreak(x)
    ensures Padded(c, Joined(x, SplitLines([c])), Joined(x, SplitLines("")))
  {
    SplitOneChar(c);
    SplitEmpty();
    hide SplitLines;
    assert [[x]][..0] + [[x] + [c]] == [[x] + [c]];
    assert [x] + "" == [x];
  }

  lemma AfterEmpty(x: char, c: char)
    ensures Padded(c, [""] + SplitLines(AfterBreak(x, [c])), [""] + SplitLines(AfterBreak(x, "")))
  {
    SplitOneChar(c);
    SplitEmpty();
    assert [c][1..] == "";
    hide SplitLines;
    assert [""] + [] == [""];
    if AfterBreak(x, [c]) == [c] { PaddedAfter("", c, SplitLines([c]), []); }
  }

  lemma ReadPadded<F>(
    fl: Floats<F>, target: string, acc: Gathered<F>, c: char, a: seq<string>, b: seq<string>)
    requires IsBlank(c) && Padded(c, a, b)
    ensures ReadLines(fl, target, acc, a) == ReadLines(fl, target, acc, b)
  {
    hide ReadLine, ReadLines, Strip, Skipped;
    if a == b + [""] || a == b + [[c]] {
      var l := a[|b|];
      assert a == b + [l];
      BlankIsSkipped(l);
      ReadBoth(fl, target, acc, b, [l]);
      var read := ReadLines(fl, target, acc, b);
      if read.Ok? { ReadSkipped(fl, target, read.value, l); }
    } else if a != b {
      var k, l := b[..|b| - 1], b[|b| - 1];
      assert b == k + [l] && a == k + [l + [c]];
      StripLast(l, c);
      ReadBoth(fl, target, acc, k, [l]);
      ReadBoth(fl, target, acc, k, [l + [c]]);
      forall next: Gathered<F> { SameStrip(fl, target, next, l, l + [c]); }
    }
  }

  lemma SameStrip<F>(fl: Floats<F>, target: string, acc: Gathered<F>, l: string, m: string)
    requires Strip(l) == Strip(m)
    ensures ReadLines(fl, target, acc, [l]) == ReadLines(fl, target, acc, [m])
  {
    assert [l][0] == l && [m][0] == m && [l][1..] == [m][1..];
    hide ReadLine, Strip;
  }

  lemma {:induction false} LeftStripReads<F>(fl: Floats<F>, target: string, acc: Gathered<F>, t: string)
    ensures ReadLines(fl, target, acc, SplitLines(StripLeft(t))) == ReadLines(fl, target, acc, SplitLines(t))
    decreases |t|
  {
    hide SplitLines, ReadLines;
    if t != "" && IsBlank(t[0]) {
      assert t == [t[0]] + t[1..];
      DropFirst(fl, target, acc, t[0], t[1..]);
      LeftStripReads(fl, target, acc, t[1..]);
    }
  }

  lemma {:induction false} RightStripReads<F>(fl: Floats<F>, target: string, acc: Gathered<F>, t: string)
    ensures ReadLines(fl, target, acc, SplitLines(StripRight(t))) == ReadLines(fl, target, acc, SplitLines(t))
    decreases |t|
  {
    hide SplitLines, ReadLines;
    if t != "" && IsBlank(t[|t| - 1]) {
      var u, c := t[..|t| - 1], t[|t| - 1];
      assert t == u + [c];
      SplitLast(u, c);
      ReadPadded(fl, target, acc, c, SplitLines(t), SplitLines(u));
      RightStripReads(fl, target, acc, u);
    }
  }

  /** The lines of a text, gathered. */
  function Gather<F>(fl: Floats<F>, target: string, text: string): Outcome<Gathered<F>> {
    ReadLines(fl, target, Gathered(None, [], []), SplitLines(text))
  }

  /** Stripping the text first makes no difference. */
  lemma ParseGathers<F>(fl: Floats<F>, text: string, target: string, metadata: Metadata)
    ensures Parse(fl, text, target, metadata) ==
            match Gather(fl, target, text)
            case Ok(acc) => Assemble(acc, target, metadata)
            case ConversionError => ConversionError
            case Unwrapped => Unwrapped
  {
    var start: Gathered<F> := Gathered(None, [], []);
    LeftStripReads(fl, target, start, text);
    RightStripReads(fl, target, start, StripLeft(text));
    hide ReadLines, SplitLines, StripLeft, StripRight, Assemble;
  }

  lemma GatherSkipped<F>(fl: Floats<F>, target: string, acc: Gathered<F>, l: string, rest: seq<string>)
    requires Skipped(l)
    ensures ReadLines(fl, target, acc, [l] + rest) == ReadLines(fl, target, acc, rest)
  {
    ReadSkipped(fl, target, acc, l);
    ReadBoth(fl, target, acc, [l], rest);
    hide ReadLines, Skipped;
  }

  /** A skipped line between two others. */
  lemma SkippedBetween<F>(fl: Floats<F>, a: string, l: string, b: string, target: string)
    requires All(LineBody, l) && Skipped(l)
    ensures Gather(fl, target, a + ("\n" + (l + ("\n" + b)))) == Gather(fl, target, a + ("\n" + b))
    ensures Gather(fl, target, l + ("\n" + b)) == Gather(fl, target, b)
  {
    hide SplitLines, ReadLines, Skipped;
    var start: Gathered<F> := Gathered(None, [], []);
    var p, q := SplitLines(a + "\n"), SplitLines(b);
    SplitAt(a, l + ("\n" + b));
    SplitAt(l, b);
    SplitAt(a, b);
    SplitLine(l);
    ReadBoth(fl, target, start, p, [l] + q);
    ReadBoth(fl, target, start, p, q);
    GatherSkipped(fl, target, start, l, q);
    var read := ReadLines(fl, target, start, p);
    if read.Ok? { GatherSkipped(fl, target, read.value, l, q); }
  }

  /** A skipped line at the end. */
  lemma SkippedLast<F>(fl: Floats<F>, a: string, l: string, target: string)
    requires All(LineBody, l) && Skipped(l)
    ensures Gather(fl, target, a + ("\n" + l)) == Gather(fl, target, a)
  {
    hide SplitLines, ReadLines, Skipped, Padded;
    var start: Gathered<F> := Gathered(None, [], []);
    var p := SplitLines(a + "\n");
    SplitAt(a, l);
    SplitLast(a, '\n');
    ReadPadded(fl, target, start, '\n', p, SplitLines(a));
    if l == "" {
      SplitEmpty();
      assert p + [] == p;
    } else {
      OneLineOnly(l);
      ReadBoth(fl, target, start, p, [l]);
      var read := ReadLines(fl, target, start, p);
      if read.Ok? { ReadSkipped(fl, target, read.value, l); }
    }
  }

  lemma OneLineOnly(l: string)
    requires All(LineBody, l) && l != ""
    ensures SplitLines(l) == [l]
  {
    SpanIs(LineBody, l, "");
    assert l + "" == l && l[..|l|] == l;
  }

  /** Inserting an empty line or a comment line between two lines of a text, or
      before its first or after its last, leaves what it means unchanged. */
  lemma SkippedLinesMeanNothing<F>(
    fl: Floats<F>, a: string, l: string, b: string, target: string, metadata: Metadata)
    requires All(LineBody, l) && Skipped(l)
    ensures Parse(fl, a + ("\n" + (l + ("\n" + b))), target, metadata) == Parse(fl, a + ("\n" + b), target, metadata)
    ensures Parse(fl, l + ("\n" + b), target, metadata) == Parse(fl, b, target, metadata)
    ensures Parse(fl, a + ("\n" + l), target, metadata) == Parse(fl, a, target, metadata)
  {
    SkippedBetween(fl, a, l, b, target);
    SkippedLast(fl, a, l, target);
    ParseGathers(fl, a + ("\n" + (l + ("\n" + b))), target, metadata);
    ParseGathers(fl, a + ("\n" + b), target, metadata);
    ParseGathers(fl, l + ("\n" + b), target, metadata);
    ParseGathers(fl, b, target, metadata);
    ParseGathers(fl, a + ("\n" + l), target, metadata);
    ParseGathers(fl, a, target, metadata);
    hide Parse, Gather, Assemble, Skipped;
  }

  /** Which lines these are: blanks only, or blanks, two slashes and anything. */
  lemma BlanksAndComments(pad: string, note: string)
    requires All(Blank, pad) && All(LineBody, pad) && All(LineBody, note)
    ensures All(LineBody, pad) && Skipped(pad)
    ensures var l := pad + ("//" + note); All(LineBody, l) && Skipped(l)
  {
    BlankIsSkipped(pad);
    SkipIs(Blank, pad, "//" + note);
    RightStripKeeps("//" + note);
    hide Skip, StripRight;
  }

  lemma {:induction false} RightStripKeeps(s: string)
    requires |s| >= 2 && !IsBlank(s[1])
    ensures |StripRight(s)| >= 2 && StripRight(s)[..2] == s[..2]
    decreases |s|
  {
    if IsBlank(s[|s| - 1]) {
      assert |s| > 2;
      RightStripKeeps(s[..|s| - 1]);
    }
  }
}
