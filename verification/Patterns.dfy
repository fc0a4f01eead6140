/** The line patterns of the source as data, and what it means for a line to match one.

`Spells` is the meaning of a regular expression: some way of cutting the text
fits. The recognisers scan once from left to right; `GreedyIsExact` says why
that is the same.
*/
module Patterns {
  import opened Prelude
  import opened Text
  import opened Qasm

  /** A literal, one or more characters of a class, or any number of them; captured or not. */
  datatype Atom = Lit(word: string) | Plus(k: Class) | Star(k: Class) | Cap(k: Class) | CapStar(k: Class)

  type Pattern = seq<Atom>

  predicate Captures(a: Atom) {
    a.Cap? || a.CapStar?
  }

  ghost predicate Fits(a: Atom, x: string) {
    match a
    case Lit(w) => x == w
    case Plus(k) => x != "" && All(k, x)
    case Star(k) => All(k, x)
    case Cap(k) => x != "" && All(k, x)
    case CapStar(k) => All(k, x)
  }

  /** The first `n` characters fit the atom. */
  ghost predicate FitsTo(a: Atom, s: string, n: int) {
    0 <= n <= |s| && Fits(a, s[..n])
  }

  /** `s` is a match of the pattern with these captures, followed by `rest`. */
  ghost predicate Spells(p: Pattern, s: string, caps: seq<string>, rest: string)
    decreases |p|
  {
    if p == [] then caps == [] && rest == s
    else
      exists n :: FitsTo(p[0], s, n) && SpellsOn(p, s, caps, rest, n)
  }

  ghost predicate SpellsOn(p: Pattern, s: string, caps: seq<string>, rest: string, n: int)
    requires p != [] && 0 <= n <= |s|
    decreases |p|, 0
  {
    if Captures(p[0]) then caps != [] && caps[0] == s[..n] && Spells(p[1..], s[n..], caps[1..], rest)
    else Spells(p[1..], s[n..], caps, rest)
  }

  // ---------------------------------------------------------------- scanning once

  function Class0(a: Atom): Class
    requires !a.Lit?
  {
    match a case Plus(k) => k case Star(k) => k case Cap(k) => k case CapStar(k) => k
  }

  predicate MayBeEmpty(a: Atom) {
    a.Star? || a.CapStar?
  }

  datatype Scan = Stuck | Got(caps: seq<string>, rest: string)

  /** From left to right, each atom as far as it goes. */
  function Greedy(p: Pattern, s: string): Scan
    decreases |p|
  {
    if p == [] then Got([], s)
    else
      match p[0]
      case Lit(w) =>
        (match Literal(w, s)
         case NoMatch => Stuck
         case Match(_, t) => Greedy(p[1..], t))
      case _ =>
        var n := Span(Class0(p[0]), s);
        if n == 0 && !MayBeEmpty(p[0]) then Stuck
        else
          match Greedy(p[1..], s[n..])
          case Stuck => Stuck
          case Got(caps, rest) => Got((if Captures(p[0]) then [s[..n]] else []) + caps, rest)
  }

  ghost predicate Disjoint(k: Class, j: Class) {
    forall c :: In(k, c) ==> !In(j, c)
  }

  /** Nothing that matches the pattern starts with a character of the class. */
  ghost predicate Excludes(k: Class, p: Pattern)
    decreases |p|
  {
    && p != []
    && match p[0]
       case Lit(w) => w != "" && !In(k, w[0])
       case _ => Disjoint(k, Class0(p[0])) && (MayBeEmpty(p[0]) ==> Excludes(k, p[1..]))
  }

  /** No class of the pattern can run into what follows it. */
  ghost predicate Determined(p: Pattern)
    decreases |p|
  {
    p != [] ==> (!p[0].Lit? ==> Excludes(Class0(p[0]), p[1..])) && Determined(p[1..])
  }

  lemma {:induction false} ExcludedStart(k: Class, p: Pattern, s: string, caps: seq<string>, rest: string)
    requires Excludes(k, p) && Spells(p, s, caps, rest)
    ensures s != "" && Stops(k, s)
    decreases |p|
  {
    var n :| FitsTo(p[0], s, n) && SpellsOn(p, s, caps, rest, n);
    if n == 0 {
      assert s[n..] == s;
      ExcludedStart(k, p[1..], s, if Captures(p[0]) then caps[1..] else caps, rest);
    } else {
      assert s[..n][0] == s[0];
      if p[0].Lit? { assert s[0] == p[0].word[0]; } else { assert In(Class0(p[0]), s[0]); }
    }
  }

  lemma SpellsBy(p: Pattern, s: string, caps: seq<string>, rest: string, n: int)
    requires p != [] && FitsTo(p[0], s, n) && SpellsOn(p, s, caps, rest, n)
    ensures Spells(p, s, caps, rest)
  {
  }

  /** A determined pattern is matched by scanning once, and in no other way. */
  lemma {:induction false} GreedyIsExact(p: Pattern, s: string, caps: seq<string>, rest: string)
    requires Determined(p)
    ensures Spells(p, s, caps, rest) <==> Greedy(p, s) == Got(caps, rest)
    decreases |p|
  {
    if p != [] {
      if Spells(p, s, caps, rest) {
        var n :| FitsTo(p[0], s, n) && SpellsOn(p, s, caps, rest, n);
        FitIsSpan(p, s, caps, rest, n);
        GreedyIsExact(p[1..], s[n..], if Captures(p[0]) then caps[1..] else caps, rest);
        if Captures(p[0]) { assert caps == [s[..n]] + caps[1..]; } else { assert [] + caps == caps; }
      }
      if Greedy(p, s) == Got(caps, rest) {
        var n := if p[0].Lit? then |p[0].word| else Span(Class0(p[0]), s);
        GreedyIsExact(p[1..], s[n..], if Captures(p[0]) then caps[1..] else caps, rest);
        SpellsBy(p, s, caps, rest, n);
      }
    }
  }

  lemma FitIsSpan(p: Pattern, s: string, caps: seq<string>, rest: string, n: int)
    requires p != [] && Determined(p) && FitsTo(p[0], s, n) && SpellsOn(p, s, caps, rest, n)
    ensures if p[0].Lit? then Literal(p[0].word, s) == Match(p[0].word, s[n..]) else Span(Class0(p[0]), s) == n
  {
    assert s == s[..n] + s[n..];
    if !p[0].Lit? {
      ExcludedStart(Class0(p[0]), p[1..], s[n..], if Captures(p[0]) then caps[1..] else caps, rest);
      SpanIs(Class0(p[0]), s[..n], s[n..]);
    }
  }

  // ---------------------------------------------------------------- the patterns of the source

  const END: Pattern := [Star(Blank), Lit(";")]

  /** `OPENQASM\s+[\d.]+\s*;` */
  const HEADER_RE: Pattern := [Lit("OPENQASM"), Plus(Blank), Plus(Version), Star(Blank), Lit(";")]

  /** `include\s+"[^"]+"\s*;` */
  const INCLUDE_RE: Pattern :=
    [Lit("include"), Plus(Blank), Lit("\""), Plus(NotQuote), Lit("\""), Star(Blank), Lit(";")]

  /** `qubit\[(\d+)]\s+\w+\s*;` with "qubit[", and the same with "bit[". */
  function DeclRe(head: string): Pattern {
    [Lit(head), Cap(Digit), Lit("]"), Plus(Blank), Plus(Word), Star(Blank), Lit(";")]
  }

  /** `\w+\[(\d+)]\s*=\s*measure\s+\w+\[(\d+)]\s*;` */
  const MEASURE_RE: Pattern :=
    [Plus(Word), Lit("["), Cap(Digit), Lit("]"), Star(Blank), Lit("="), Star(Blank), Lit("measure"), Plus(Blank),
     Plus(Word), Lit("["), Cap(Digit), Lit("]"), Star(Blank), Lit(";")]

  /** `n` times `\s*,\s*\w+\[(\d+)]`, then `\s*;` */
  function TailRe(n: nat): Pattern {
    if n == 0 then [Star(Blank), Lit(";")]
    else
      [Star(Blank), Lit(","), Star(Blank), Plus(Word), Lit("["), Cap(Digit), Lit("]")] + TailRe(n - 1)
  }

  /** The gate pattern with or without arguments, for `n` operands after the first:
      `(\w+)`, perhaps `\(([^)]*)\)`, then `\s+\w+\[(\d+)]` and the tail. */
  function GateRe(args: bool, n: nat): Pattern {
    [Cap(Word)] + (if args then [Lit("("), CapStar(NotClose), Lit(")")] else [])
    + [Plus(Blank), Plus(Word), Lit("["), Cap(Digit), Lit("]")] + TailRe(n)
  }

  /** The captures of a gate: its name, its arguments if it has any, its operands. */
  function GateCaps(g: GateText): seq<string> {
    [g.name] + (if g.args.Some? then [g.args.value] else []) + g.refs
  }
}
