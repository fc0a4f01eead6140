/** Each recogniser accepts exactly the lines its pattern describes. */
module Recognised {
  import opened Prelude
  import opened Text
  import opened Qasm
  import opened Patterns

  // ---------------------------------------------------------------- scanning them

  /** One step of the scan. */
  function Scanned(a: Atom, p: Pattern, s: string): Scan {
    match a
    case Lit(w) =>
      (match Literal(w, s)
       case NoMatch => Stuck
       case Match(_, t) => Greedy(p, t))
    case _ =>
      var n := Span(Class0(a), s);
      if n == 0 && !MayBeEmpty(a) then Stuck
      else
        match Greedy(p, s[n..])
        case Stuck => Stuck
        case Got(caps, rest) => Got((if Captures(a) then [s[..n]] else []) + caps, rest)
  }

  lemma Cons(a: Atom, p: Pattern)
    ensures forall s :: Greedy([a] + p, s) == Scanned(a, p, s)
  {
    assert ([a] + p)[0] == a && ([a] + p)[1..] == p;
  }

  lemma EndScan(s: string)
    ensures AtEnd(s) <==> Greedy(END, s).Got?
    ensures Greedy(END, s).Got? ==> Greedy(END, s).caps == []
  {
    Cons(Lit(";"), []);
    Cons(Star(Blank), [Lit(";")]);
    assert END == [Star(Blank)] + [Lit(";")] && [Lit(";")] == [Lit(";")] + [];
  }

  lemma HeaderScan(s: string)
    ensures MatchHeader(s) <==> Greedy(HEADER_RE, s).Got?
    ensures Greedy(HEADER_RE, s).Got? ==> Greedy(HEADER_RE, s).caps == []
  {
    hide Greedy, AtEnd, Literal, Span;
    forall t ensures AtEnd(t) <==> Greedy(END, t).Got?
      ensures Greedy(END, t).Got? ==> Greedy(END, t).caps == []
    {
      EndScan(t);
    }
    Cons(Plus(Version), END);
    Cons(Plus(Blank), [Plus(Version)] + END);
    Cons(Lit("OPENQASM"), [Plus(Blank)] + ([Plus(Version)] + END));
    assert HEADER_RE == [Lit("OPENQASM")] + ([Plus(Blank)] + ([Plus(Version)] + END));
  }

  lemma IncludeScan(s: string)
    ensures MatchInclude(s) <==> Greedy(INCLUDE_RE, s).Got?
    ensures Greedy(INCLUDE_RE, s).Got? ==> Greedy(INCLUDE_RE, s).caps == []
  {
    hide Greedy, AtEnd, Literal, Span;
    forall t ensures AtEnd(t) <==> Greedy(END, t).Got?
      ensures Greedy(END, t).Got? ==> Greedy(END, t).caps == []
    {
      EndScan(t);
    }
    var p1 := [Lit("\"")] + END;
    var p2 := [Plus(NotQuote)] + p1;
    var p3 := [Lit("\"")] + p2;
    var p4 := [Plus(Blank)] + p3;
    Cons(Lit("\""), END);
    Cons(Plus(NotQuote), p1);
    Cons(Lit("\""), p2);
    Cons(Plus(Blank), p3);
    Cons(Lit("include"), p4);
    assert INCLUDE_RE == [Lit("include")] + p4;
  }

  lemma DeclScan(head: string, s: string)
    ensures MatchDecl(head, s).Some? <==> Greedy(DeclRe(head), s).Got?
    ensures Greedy(DeclRe(head), s).Got? ==> Greedy(DeclRe(head), s).caps == [MatchDecl(head, s).value]
  {
    hide Greedy, AtEnd, Literal, Span;
    forall t ensures AtEnd(t) <==> Greedy(END, t).Got?
      ensures Greedy(END, t).Got? ==> Greedy(END, t).caps == []
    {
      EndScan(t);
    }
    var p1 := [Plus(Word)] + END;
    var p2 := [Plus(Blank)] + p1;
    var p3 := [Lit("]")] + p2;
    var p4 := [Cap(Digit)] + p3;
    Cons(Plus(Word), END);
    Cons(Plus(Blank), p1);
    Cons(Lit("]"), p2);
    Cons(Cap(Digit), p3);
    Cons(Lit(head), p4);
    assert DeclRe(head) == [Lit(head)] + p4;
  }

  /** The scan of an operand and of what follows. */
  function RefScanned(p: Pattern, s: string): Scan {
    match MatchRef(s)
    case NoMatch => Stuck
    case Match(d, t) =>
      match Greedy(p, t)
      case Stuck => Stuck
      case Got(caps, rest) => Got([d] + caps, rest)
  }

  lemma RefScan(p: Pattern)
    ensures forall s :: Greedy([Plus(Word), Lit("["), Cap(Digit), Lit("]")] + p, s) == RefScanned(p, s)
  {
    var p1 := [Lit("]")] + p;
    var p2 := [Cap(Digit)] + p1;
    var p3 := [Lit("[")] + p2;
    Cons(Lit("]"), p);
    Cons(Cap(Digit), p1);
    Cons(Lit("["), p2);
    Cons(Plus(Word), p3);
    assert [Plus(Word), Lit("["), Cap(Digit), Lit("]")] + p == [Plus(Word)] + p3;
    hide Greedy, Literal, Span;
    assert forall caps: seq<string> :: [] + caps == caps;
  }

  const MEASURED_RE: Pattern :=
    [Lit("measure"), Plus(Blank), Plus(Word), Lit("["), Cap(Digit), Lit("]"), Star(Blank), Lit(";")]

  /** The right-hand side of a measurement. */
  function Measured(s: string): Option<string> {
    match Literal("measure", s)
    case NoMatch => None
    case Match(_, c) =>
      match Many(Blank, c)
      case NoMatch => None
      case Match(_, d) =>
        match MatchRef(d)
        case NoMatch => None
        case Match(q, e) => if AtEnd(e) then Some(q) else None
  }

  lemma MeasuredScan(s: string)
    ensures Measured(s).Some? <==> Greedy(MEASURED_RE, s).Got?
    ensures Greedy(MEASURED_RE, s).Got? ==> Greedy(MEASURED_RE, s).caps == [Measured(s).value]
  {
    hide Greedy, AtEnd, Literal, Span, MatchRef;
    forall t ensures AtEnd(t) <==> Greedy(END, t).Got?
      ensures Greedy(END, t).Got? ==> Greedy(END, t).caps == []
    {
      EndScan(t);
    }
    var p1 := [Plus(Word), Lit("["), Cap(Digit), Lit("]")] + END;
    var p2 := [Plus(Blank)] + p1;
    RefScan(END);
    Cons(Plus(Blank), p1);
    Cons(Lit("measure"), p2);
    assert MEASURED_RE == [Lit("measure")] + p2;
    hide Greedy;
  }

  const ASSIGNED_RE: Pattern :=
    [Star(Blank), Lit("="), Star(Blank), Lit("measure"), Plus(Blank), Plus(Word), Lit("["), Cap(Digit), Lit("]"),
     Star(Blank), Lit(";")]

  /** What follows the bit a measurement is assigned to. */
  function Assigned(s: string): Option<string> {
    match Literal("=", Skip(Blank, s))
    case NoMatch => None
    case Match(_, b) => Measured(Skip(Blank, b))
  }

  lemma AssignedScan(s: string)
    ensures Assigned(s).Some? <==> Greedy(ASSIGNED_RE, s).Got?
    ensures Greedy(ASSIGNED_RE, s).Got? ==> Greedy(ASSIGNED_RE, s).caps == [Assigned(s).value]
  {
    hide Greedy, Measured, Literal, Span;
    var p4 := [Star(Blank)] + MEASURED_RE;
    var p5 := [Lit("=")] + p4;
    Cons(Star(Blank), MEASURED_RE);
    Cons(Lit("="), p4);
    Cons(Star(Blank), p5);
    assert ASSIGNED_RE == [Star(Blank)] + p5;
    forall t ensures Measured(t).Some? <==> Greedy(MEASURED_RE, t).Got?
      ensures Greedy(MEASURED_RE, t).Got? ==> Greedy(MEASURED_RE, t).caps == [Measured(t).value]
    {
      MeasuredScan(t);
    }
  }

  lemma MeasureParts(s: string)
    ensures MatchMeasure(s) == match MatchRef(s) case NoMatch => None case Match(_, a) => Assigned(a)
  {
    hide AtEnd, Literal, Many, Skip, MatchRef;
  }

  lemma MeasureScan(s: string)
    ensures MatchMeasure(s).Some? <==> Greedy(MEASURE_RE, s).Got?
    ensures Greedy(MEASURE_RE, s).Got? ==>
              MatchRef(s).Match? && Greedy(MEASURE_RE, s).caps == [MatchRef(s).got, MatchMeasure(s).value]
  {
    hide Greedy, MatchMeasure, MatchRef, Assigned;
    MeasureParts(s);
    RefScan(ASSIGNED_RE);
    assert MEASURE_RE == [Plus(Word), Lit("["), Cap(Digit), Lit("]")] + ASSIGNED_RE;
    if MatchRef(s).Match? { AssignedScan(MatchRef(s).rest); }
  }

  lemma NotBoth(s: string)
    requires AtEnd(s)
    ensures MoreRefs(s) == ([], s)
  {
    var t := Skip(Blank, s);
    assert t[..1] == ";" && t[..1] != ",";
    hide Skip;
  }

  /** `MoreRefs` takes exactly as many operands as the pattern must have. */
  lemma {:induction false} TailScan(n: nat, s: string)
    ensures Greedy(TailRe(n), s).Got? <==> |MoreRefs(s).0| == n && AtEnd(MoreRefs(s).1)
    ensures Greedy(TailRe(n), s).Got? ==> Greedy(TailRe(n), s).caps == MoreRefs(s).0
    decreases n
  {
    hide AtEnd, Literal, Span, MatchRef;
    if n == 0 {
      EndScan(s);
      if AtEnd(s) { NotBoth(s); }
    } else {
      var p1 := [Plus(Word), Lit("["), Cap(Digit), Lit("]")] + TailRe(n - 1);
      var p2 := [Star(Blank)] + p1;
      var p3 := [Lit(",")] + p2;
      RefScan(TailRe(n - 1));
      Cons(Star(Blank), p1);
      Cons(Lit(","), p2);
      Cons(Star(Blank), p3);
      assert TailRe(n) == [Star(Blank)] + p3;
      forall t ensures Greedy(TailRe(n - 1), t).Got? <==> |MoreRefs(t).0| == n - 1 && AtEnd(MoreRefs(t).1)
        ensures Greedy(TailRe(n - 1), t).Got? ==> Greedy(TailRe(n - 1), t).caps == MoreRefs(t).0
      {
        TailScan(n - 1, t);
      }
      hide Greedy, TailRe;
    }
  }

  /** The scan of the arguments and of what follows. */
  function ArgsScanned(p: Pattern, s: string): Scan {
    match MatchArgs(s)
    case None => Stuck
    case Some(ab) =>
      if ab.0.None? then Stuck
      else
        match Greedy(p, ab.1)
        case Stuck => Stuck
        case Got(caps, rest) => Got([ab.0.value] + caps, rest)
  }

  lemma ArgsScan(p: Pattern)
    ensures forall s :: Greedy([Lit("("), CapStar(NotClose), Lit(")")] + p, s) == ArgsScanned(p, s)
  {
    var p1 := [Lit(")")] + p;
    var p2 := [CapStar(NotClose)] + p1;
    Cons(Lit(")"), p);
    Cons(CapStar(NotClose), p1);
    Cons(Lit("("), p2);
    assert [Lit("("), CapStar(NotClose), Lit(")")] + p == [Lit("(")] + p2;
    hide Greedy, Literal, Span;
    assert forall caps: seq<string> :: [] + caps == caps;
  }

  /** What follows the name and the arguments of a gate. */
  function Operands(c: string): Option<seq<string>> {
    match Many(Blank, c)
    case NoMatch => None
    case Match(_, d) =>
      match MatchRef(d)
      case NoMatch => None
      case Match(q, e) => if AtEnd(MoreRefs(e).1) then Some([q] + MoreRefs(e).0) else None
  }

  function OperandsRe(n: nat): Pattern {
    [Plus(Blank), Plus(Word), Lit("["), Cap(Digit), Lit("]")] + TailRe(n)
  }

  lemma OperandsScan(n: nat, s: string)
    ensures Greedy(OperandsRe(n), s).Got? <==> Operands(s).Some? && |Operands(s).value| == n + 1
    ensures Greedy(OperandsRe(n), s).Got? ==> Greedy(OperandsRe(n), s).caps == Operands(s).value
  {
    hide Greedy, AtEnd, Literal, Span, MatchRef, MoreRefs, TailRe;
    var p := [Plus(Word), Lit("["), Cap(Digit), Lit("]")] + TailRe(n);
    RefScan(TailRe(n));
    Cons(Plus(Blank), p);
    assert OperandsRe(n) == [Plus(Blank)] + p;
    forall t ensures Greedy(TailRe(n), t).Got? <==> |MoreRefs(t).0| == n && AtEnd(MoreRefs(t).1)
      ensures Greedy(TailRe(n), t).Got? ==> Greedy(TailRe(n), t).caps == MoreRefs(t).0
    {
      TailScan(n, t);
    }
  }

  lemma GateParts(s: string)
    ensures MatchGate(s) ==
            match Many(Word, s)
            case NoMatch => None
            case Match(name, a) =>
              match MatchArgs(a)
              case None => None
              case Some(ab) =>
                match Operands(ab.1)
                case None => None
                case Some(refs) => Some(GateText(name, ab.0, refs))
  {
    hide AtEnd, Literal, Many, MatchRef, MoreRefs, MatchArgs;
  }

  lemma GateScan(args: bool, n: nat, s: string)
    ensures var g := MatchGate(s);
            && (Greedy(GateRe(args, n), s).Got? <==> g.Some? && g.value.args.Some? == args && |g.value.refs| == n + 1)
            && (Greedy(GateRe(args, n), s).Got? ==> Greedy(GateRe(args, n), s).caps == GateCaps(g.value))
  {
    hide Greedy, MatchGate, MatchArgs, Operands, Span, OperandsRe, TailRe;
    GateParts(s);
    var p := OperandsRe(n);
    forall t ensures Greedy(p, t).Got? <==> Operands(t).Some? && |Operands(t).value| == n + 1
      ensures Greedy(p, t).Got? ==> Greedy(p, t).caps == Operands(t).value
    {
      OperandsScan(n, t);
    }
    if args {
      ArgsScan(p);
      Cons(Cap(Word), [Lit("("), CapStar(NotClose), Lit(")")] + p);
      GateReIs(args, n);
    } else {
      forall t ensures Operands(t).Some? ==> MatchArgs(t) == Some((None, t)) { BlankNoArgs(t); }
      forall t ensures MatchArgs(t).Some? && MatchArgs(t).value.0.None? ==> MatchArgs(t).value.1 == t { NoneIsAll(t); }
      Cons(Cap(Word), p);
      GateReIs(args, n);
    }
  }

  lemma GateReIs(args: bool, n: nat)
    ensures GateRe(args, n)
         == [Cap(Word)] + (if args then [Lit("("), CapStar(NotClose), Lit(")")] + OperandsRe(n) else OperandsRe(n))
  {
    hide TailRe;
  }

  lemma NoneIsAll(t: string)
    ensures MatchArgs(t).Some? && MatchArgs(t).value.0.None? ==> MatchArgs(t).value.1 == t
  {
  }

  /** A text that goes on with a blank has no arguments. */
  lemma BlankNoArgs(t: string)
    ensures Operands(t).Some? ==> MatchArgs(t) == Some((None, t))
  {
    if Operands(t).Some? {
      assert In(Blank, t[0]) by { hide MatchRef, MoreRefs, AtEnd; }
      assert t[..1] != "(" by { assert t[..1][0] == t[0]; }
    }
    hide MatchRef, MoreRefs, AtEnd;
  }

  // ---------------------------------------------------------------- no pattern needs backtracking

  lemma ClassesApart()
    ensures Disjoint(Blank, Word) && Disjoint(Word, Blank) && Disjoint(Blank, Version) && Disjoint(Version, Blank)
  {
  }

  lemma DeterminedCons(a: Atom, p: Pattern)
    requires Determined(p) && (a.Lit? || Excludes(Class0(a), p))
    ensures Determined([a] + p)
  {
    assert ([a] + p)[0] == a && ([a] + p)[1..] == p;
  }

  /** The class is not continued by a literal, by another class, or by blanks before one of them. */
  lemma ExcludesBy(k: Class, p: Pattern)
    requires p != []
    requires (p[0].Lit? && p[0].word != "" && !In(k, p[0].word[0]))
             || ((p[0].Plus? || p[0].Cap?) && Disjoint(k, p[0].k))
             || (MayBeEmpty(p[0]) && Disjoint(k, Class0(p[0])) && Excludes(k, p[1..]))
    ensures Excludes(k, p)
  {
    hide Disjoint;
  }

  lemma EndDetermined()
    ensures Determined(END) && (forall k :: k in {Version, Word, Blank, Digit} ==> Excludes(k, [Lit(";")]))
    ensures Excludes(Version, END) && Excludes(Word, END)
  {
    ClassesApart();
    assert END[1..] == [Lit(";")] && [Lit(";")][1..] == [];
    hide Disjoint;
    assert Disjoint(Blank, Word);
  }

  lemma RefDetermined(p: Pattern)
    requires Determined(p)
    ensures Determined([Plus(Word), Lit("["), Cap(Digit), Lit("]")] + p)
    ensures Excludes(Blank, [Plus(Word), Lit("["), Cap(Digit), Lit("]")] + p)
  {
    ClassesApart();
    var p1 := [Lit("]")] + p;
    var p2 := [Cap(Digit)] + p1;
    var p3 := [Lit("[")] + p2;
    hide Determined, Disjoint, Excludes;
    ExcludesBy(Digit, p1);
    ExcludesBy(Word, p3);
    DeterminedCons(Lit("]"), p);
    DeterminedCons(Cap(Digit), p1);
    DeterminedCons(Lit("["), p2);
    DeterminedCons(Plus(Word), p3);
    assert [Plus(Word), Lit("["), Cap(Digit), Lit("]")] + p == [Plus(Word)] + p3;
    ExcludesBy(Blank, [Plus(Word)] + p3);
  }

  lemma {:induction false} TailDetermined(n: nat)
    ensures Determined(TailRe(n))
    decreases n
  {
    hide Determined, Excludes, Disjoint;
    if n == 0 {
      EndDetermined();
    } else {
      TailDetermined(n - 1);
      RefDetermined(TailRe(n - 1));
      var p1 := [Plus(Word), Lit("["), Cap(Digit), Lit("]")] + TailRe(n - 1);
      var p2 := [Star(Blank)] + p1;
      var p3 := [Lit(",")] + p2;
      assert TailRe(n) == [Star(Blank)] + p3;
      hide TailRe;
      DeterminedCons(Star(Blank), p1);
      DeterminedCons(Lit(","), p2);
      ExcludesBy(Blank, p3);
      DeterminedCons(Star(Blank), p3);
    }
  }

  lemma GateDetermined(args: bool, n: nat)
    ensures Determined(GateRe(args, n))
  {
    hide Determined, Excludes, Disjoint, TailRe;
    TailDetermined(n);
    RefDetermined(TailRe(n));
    ClassesApart();
    GateReIs(args, n);
    var p0 := [Plus(Word), Lit("["), Cap(Digit), Lit("]")] + TailRe(n);
    var p := OperandsRe(n);
    assert p == [Plus(Blank)] + p0;
    DeterminedCons(Plus(Blank), p0);
    if args {
      var p1 := [Lit(")")] + p;
      var p2 := [CapStar(NotClose)] + p1;
      var p3 := [Lit("(")] + p2;
      ExcludesBy(NotClose, p1);
      ExcludesBy(Word, p3);
      DeterminedCons(Lit(")"), p);
      DeterminedCons(CapStar(NotClose), p1);
      DeterminedCons(Lit("("), p2);
      DeterminedCons(Cap(Word), p3);
      assert GateRe(args, n) == [Cap(Word)] + p3;
    } else {
      ExcludesBy(Word, p);
      DeterminedCons(Cap(Word), p);
      assert GateRe(args, n) == [Cap(Word)] + p;
    }
  }

  lemma HeaderDetermined()
    ensures Determined(HEADER_RE)
  {
    hide Determined, Excludes, Disjoint;
    EndDetermined();
    ClassesApart();
    var p1 := [Plus(Version)] + END;
    var p2 := [Plus(Blank)] + p1;
    ExcludesBy(Blank, p1);
    DeterminedCons(Plus(Version), END);
    DeterminedCons(Plus(Blank), p1);
    DeterminedCons(Lit("OPENQASM"), p2);
    assert HEADER_RE == [Lit("OPENQASM")] + p2;
  }

  lemma IncludeDetermined()
    ensures Determined(INCLUDE_RE)
  {
    hide Determined, Excludes, Disjoint;
    EndDetermined();
    var p1 := [Lit("\"")] + END;
    var p2 := [Plus(NotQuote)] + p1;
    var p3 := [Lit("\"")] + p2;
    var p4 := [Plus(Blank)] + p3;
    ExcludesBy(NotQuote, p1);
    ExcludesBy(Blank, p3);
    DeterminedCons(Lit("\""), END);
    DeterminedCons(Plus(NotQuote), p1);
    DeterminedCons(Lit("\""), p2);
    DeterminedCons(Plus(Blank), p3);
    DeterminedCons(Lit("include"), p4);
    assert INCLUDE_RE == [Lit("include")] + p4;
  }

  lemma DeclDetermined(head: string)
    ensures Determined(DeclRe(head))
  {
    hide Determined, Excludes, Disjoint;
    EndDetermined();
    ClassesApart();
    var p1 := [Plus(Word)] + END;
    var p2 := [Plus(Blank)] + p1;
    var p3 := [Lit("]")] + p2;
    var p4 := [Cap(Digit)] + p3;
    ExcludesBy(Blank, p1);
    ExcludesBy(Digit, p3);
    DeterminedCons(Plus(Word), END);
    DeterminedCons(Plus(Blank), p1);
    DeterminedCons(Lit("]"), p2);
    DeterminedCons(Cap(Digit), p3);
    DeterminedCons(Lit(head), p4);
    assert DeclRe(head) == [Lit(head)] + p4;
  }

  lemma MeasureDetermined()
    ensures Determined(MEASURE_RE)
  {
    hide Determined, Excludes, Disjoint;
    EndDetermined();
    RefDetermined(END);
    var p1 := [Plus(Word), Lit("["), Cap(Digit), Lit("]")] + END;
    var p2 := [Plus(Blank)] + p1;
    var p3 := [Lit("measure")] + p2;
    var p4 := [Star(Blank)] + p3;
    var p5 := [Lit("=")] + p4;
    var p6 := [Star(Blank)] + p5;
    DeterminedCons(Plus(Blank), p1);
    DeterminedCons(Lit("measure"), p2);
    ExcludesBy(Blank, p3);
    DeterminedCons(Star(Blank), p3);
    DeterminedCons(Lit("="), p4);
    ExcludesBy(Blank, p5);
    DeterminedCons(Star(Blank), p5);
    RefDetermined(p6);
    assert MEASURE_RE == [Plus(Word), Lit("["), Cap(Digit), Lit("]")] + p6;
  }

  // ---------------------------------------------------------------- what is recognised

  /** A line matches the pattern, with these captures. */
  ghost predicate Matches(p: Pattern, line: string, caps: seq<string>) {
    exists rest :: Spells(p, line, caps, rest)
  }

  lemma MatchesIsGreedy(p: Pattern, line: string, caps: seq<string>)
    requires Determined(p)
    ensures Matches(p, line, caps) <==> Greedy(p, line).Got? && Greedy(p, line).caps == caps
  {
    hide Determined, Spells, Greedy;
    if rest :| Spells(p, line, caps, rest) { GreedyIsExact(p, line, caps, rest); }
    if Greedy(p, line).Got? { GreedyIsExact(p, line, Greedy(p, line).caps, Greedy(p, line).rest); }
  }

  lemma CommentsExactly(line: string)
    ensures Accepts(Comment, line) <==> |line| >= 2 && line[0] == '/' && line[1] == '/'
  {
    if |line| >= 2 { assert line[..2] == [line[0], line[1]]; }
  }

  lemma HeadersExactly(line: string)
    ensures Accepts(Header, line) <==> Matches(HEADER_RE, line, [])
  {
    hide MatchHeader, Determined, Greedy, Matches;
    HeaderDetermined();
    HeaderScan(line);
    MatchesIsGreedy(HEADER_RE, line, []);
  }

  lemma IncludesExactly(line: string)
    ensures Accepts(Include, line) <==> Matches(INCLUDE_RE, line, [])
  {
    hide MatchInclude, Determined, Greedy, Matches;
    IncludeDetermined();
    IncludeScan(line);
    MatchesIsGreedy(INCLUDE_RE, line, []);
  }

  /** `qubit[3] q;` or `bit[3] c;` in any spelling declares three. */
  lemma DeclarationsExactly(head: string, line: string, d: string)
    ensures MatchDecl(head, line) == Some(d) <==> Matches(DeclRe(head), line, [d])
  {
    hide MatchDecl, Determined, Greedy, Matches;
    DeclDetermined(head);
    DeclScan(head, line);
    MatchesIsGreedy(DeclRe(head), line, [d]);
  }

  lemma MeasurementsExactly(line: string, q: string)
    ensures MatchMeasure(line) == Some(q) <==> exists c :: Matches(MEASURE_RE, line, [c, q])
  {
    hide MatchMeasure, Determined, Greedy, Matches;
    MeasureDetermined();
    MeasureScan(line);
    forall c { MatchesIsGreedy(MEASURE_RE, line, [c, q]); }
  }

  /** A line is read as a gate call exactly when the gate pattern describes it so,
      and then with the name, the arguments and the operands it captures. */
  lemma GateCallsExactly(line: string, g: GateText)
    requires g.refs != []
    ensures MatchGate(line) == Some(g) <==> Matches(GateRe(g.args.Some?, |g.refs| - 1), line, GateCaps(g))
  {
    hide MatchGate, Determined, Greedy, Matches, GateRe;
    var n := |g.refs| - 1;
    GateDetermined(g.args.Some?, n);
    GateScan(g.args.Some?, n, line);
    MatchesIsGreedy(GateRe(g.args.Some?, n), line, GateCaps(g));
    if Matches(GateRe(g.args.Some?, n), line, GateCaps(g)) { CapsTell(MatchGate(line).value, g); }
  }

  lemma CapsTell(g: GateText, h: GateText)
    requires g.args.Some? == h.args.Some? && GateCaps(g) == GateCaps(h)
    ensures g == h
  {
    var a, b := GateCaps(g), GateCaps(h);
    assert a[0] == g.name && b[0] == h.name;
    var k := if g.args.Some? then 2 else 1;
    if g.args.Some? { assert a[1] == g.args.value && b[1] == h.args.value; }
    assert a[k..] == g.refs && b[k..] == h.refs;
  }

  lemma GatesHaveOperands(line: string)
    ensures MatchGate(line).Some? ==> MatchGate(line).value.refs != []
  {
    hide MatchArgs, MatchRef, MoreRefs, AtEnd;
  }
}
