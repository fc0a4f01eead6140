/** Recovery makes progress: a pass acknowledges everything it lists. */
module Recovery {
  import opened Prelude
  import opened Webhook
  import opened Consumer
  import opened Effects
  import opened Ledger
  import opened Flight

  /** The consume loop is inside `recover_pending`. */
  predicate InPass(m: Main) {
    m.Listing? || m.Fetching? || (m.Processing? && m.k.Recovering?)
  }

  /** Redis answers and the process is left alone. Flags, new messages, the
      executor and the callback are free to do what they like. */
  predicate Healthy(l: Label) {
    (l.Resume? ==> l.io.Fine?) && !l.ForceCancel? && !l.Crash?
  }

  /** The run `ls` stays inside the pass and ends with it. */
  ghost predicate Pass(s: State, ls: seq<Label>)
    decreases |ls|
  {
    if !InPass(s.main) then ls == [] else ls != [] && Healthy(ls[0]) && Pass(Step(s, ls[0]), ls[1..])
  }

  function Listed(pel: seq<Id>): (n: nat)
    ensures n <= |pel|
  {
    Min(100, |pel|)
  }

  /** The pass that listed the head of `pel` has acknowledged exactly what it is done with. */
  ghost predicate Underway(pel: seq<Id>, s: State) {
    var n := Listed(pel);
    && s.delivery.None?
    && match s.main
       case Listing(_) => s.w.redis.pel == pel
       case Fetching(rest, _, count) => count < n && rest == pel[count..n] && s.w.redis.pel == pel[count..]
       case Processing(f, rest, k) =>
         && k.Recovering? && 1 <= k.count <= n
         && f.id == pel[k.count - 1] && rest == pel[k.count..n] && s.w.redis.pel == pel[k.count - 1..]
         && (f.pc.FinalAck? ==> f.pc.escape.NoEscape?)
       case _ => false
  }

  /** The pass is over: what it listed is gone from the pending list and counted. */
  ghost predicate Cleared(pel: seq<Id>, s: State) {
    && !InPass(s.main)
    && s.w.redis.pel == pel[Listed(pel)..]
    && s.w.log != [] && s.w.log[|s.w.log| - 1] == Recovered(Listed(pel))
  }

  ghost predicate OnTrack(pel: seq<Id>, s: State) {
    if InPass(s.main) then Underway(pel, s) else Cleared(pel, s)
  }

  lemma NextOnTrack(pel: seq<Id>, s: State, boot: bool, count: nat)
    requires count <= Listed(pel) && s.delivery.None? && s.w.redis.pel == pel[count..]
    ensures OnTrack(pel, NextMessage(s, pel[count..Listed(pel)], Recovering(boot, count)))
  {
    hide Malformed;
  }

  /** With Redis answering, a processing leaves exactly when it acknowledges, and without an exception. */
  lemma LeavesByAck(r: Redis, f: Frame, reply: Reply, parsable: bool, call: Option<CallState>)
    requires f.pc.FinalAck? ==> f.pc.escape.NoEscape?
    ensures var op := MsgOp(r, f);
            var mv := MsgNext(f.pc, Ask(r, op, Fine, reply), parsable, call);
            if mv.Go? then !op.AckMessage? && (mv.pc.FinalAck? ==> mv.pc.escape.NoEscape?)
            else op == AckMessage(f.id) && mv.escape.NoEscape?
  {
    hide JobOf, Terminal;
  }

  lemma PelAfter(w: World, op: Op, reply: Reply)
    ensures Do(w, op, Fine, reply).redis.pel == if op.AckMessage? then Without(w.redis.pel, op.id) else w.redis.pel
  {
    hide Without;
  }

  lemma AckHead(pel: seq<Id>, count: nat)
    requires Ascending(pel) && 1 <= count <= |pel|
    ensures Without(pel[count - 1..], pel[count - 1]) == pel[count..]
  {
    assert pel[count - 1..] == [pel[count - 1]] + pel[count..];
    WithoutHead(pel[count..], pel[count - 1]);
  }

  /** The pending list loses the message of the processing exactly as it leaves. */
  lemma PelMoves(pel: seq<Id>, s: State, reply: Reply)
    requires Ascending(pel) && Underway(pel, s) && s.main.Processing?
    ensures var mv := MsgMove(s, s.main.f, Fine, reply);
            && Do(s.w, MsgOp(s.w.redis, s.main.f), Fine, reply).redis.pel
               == (if mv.Go? then s.w.redis.pel else pel[s.main.k.count..])
            && (if mv.Go? then mv.pc.FinalAck? ==> mv.pc.escape.NoEscape? else mv.escape.NoEscape?)
  {
    var f := s.main.f;
    LeavesByAck(s.w.redis, f, reply, FieldsOf(s.w.redis, f.id).work.Some?, LastCall(s.calls));
    PelAfter(s.w, MsgOp(s.w.redis, f), reply);
    AckHead(pel, s.main.k.count);
    hide MsgOp, MsgNext, Ask, Do, FieldsOf, JobOf, Without, Ascending, LastCall;
  }

  lemma MessageOnTrack(pel: seq<Id>, s: State, reply: Reply)
    requires Ascending(pel) && Underway(pel, s) && s.main.Processing?
    ensures OnTrack(pel, MsgAdvance(s, s.main.f, s.main.rest, s.main.k, Fine, reply))
  {
    var f, rest, k, r := s.main.f, s.main.rest, s.main.k, s.w.redis;
    var op := MsgOp(r, f);
    var a := Ask(r, op, Fine, reply);
    var work := FieldsOf(r, f.id).work;
    var mv := MsgMove(s, f, Fine, reply);
    var s1 := s.(
      w := Noted(Do(s.w, op, Fine, reply), MsgNotes(f.id, JobOf(r, f.id), work, f.pc, a, mv)),
      p := MsgLocal(s.p, JobOf(r, f.id), f.pc, mv),
      calls := MsgCalls(s.calls, work, f.pc, a));
    PelMoves(pel, s, reply);
    hide MsgOp, MsgNext, MsgNotes, MsgLocal, MsgCalls, Ask, Do, FieldsOf, JobOf, NextMessage, Ascending, LastCall;
    if mv.Leave? { NextOnTrack(pel, s1, k.boot, k.count); }
  }

  lemma OtherOnTrack(pel: seq<Id>, s: State, l: Label)
    requires Underway(pel, s) && Healthy(l) && !l.Resume?
    ensures Underway(pel, Step(s, l))
  {
    match l
    case DrainTimeout => hide Advance, StopAll;
    case _ => hide Advance;
  }

  lemma StepOnTrack(pel: seq<Id>, s: State, l: Label)
    requires Ascending(pel) && Underway(pel, s) && Healthy(l)
    ensures OnTrack(pel, Step(s, l))
  {
    if l.Resume? {
      match s.main
      case Listing(boot) =>
        assert s.w.redis.pel == pel[0..];
        assert s.w.redis.pel[..Listed(pel)] == pel[0..Listed(pel)];
        NextOnTrack(pel, s, boot, 0);
        hide NextMessage;
      case Fetching(rest, boot, count) => FetchOnTrack(pel, s, l.reply, l.alt); hide Advance;
      case Processing(_, _, _) => MessageOnTrack(pel, s, l.reply); hide MsgAdvance;
      case _ =>
    } else {
      OtherOnTrack(pel, s, l);
      hide Step;
    }
  }

  lemma FetchOnTrack(pel: seq<Id>, s: State, reply: Reply, alt: bool)
    requires Underway(pel, s) && s.main.Fetching?
    ensures OnTrack(pel, Advance(s, Fine, reply, alt))
  {
    var m := s.main;
    assert m.rest[0] == pel[m.count] && m.rest[1..] == pel[m.count + 1..Listed(pel)];
    hide Malformed;
  }

  lemma {:induction false} PassOnTrack(pel: seq<Id>, s: State, ls: seq<Label>)
    requires Ascending(pel) && OnTrack(pel, s) && Pass(s, ls)
    ensures Cleared(pel, Run(s, ls))
    decreases |ls|
  {
    if InPass(s.main) {
      StepOnTrack(pel, s, ls[0]);
      PassOnTrack(pel, Step(s, ls[0]), ls[1..]);
    }
    hide Step, Underway;
  }

  /** A pass acknowledges the first hundred pending messages and nothing else, in
      whatever state their jobs are, whatever the executor and the callback do,
      and returns their number. */
  lemma PassClears(s: State, ls: seq<Label>)
    requires Balanced(s) && s.main.Listing? && s.delivery.None? && Pass(s, ls)
    ensures Cleared(s.w.redis.pel, Run(s, ls))
  {
    PassOnTrack(s.w.redis.pel, s, ls);
    hide Step, Run, Pass;
  }

  // ---------------------------------------------------------------- several passes

  datatype Attempt = Attempt(start: State, run: seq<Label>)

  function After(a: Attempt): State { Run(a.start, a.run) }

  /** Passes in a row, with no read in between. */
  ghost predicate Chain(ps: seq<Attempt>) {
    && (forall i :: 0 <= i < |ps| ==>
          Balanced(ps[i].start) && ps[i].start.main.Listing? && ps[i].start.delivery.None?
            && Pass(ps[i].start, ps[i].run))
    && (forall i :: 0 < i < |ps| ==> ps[i].start.w.redis.pel == After(ps[i - 1]).w.redis.pel)
  }

  /** What `recover_pending` returned last. */
  function LastCount(log: seq<Event>): nat {
    if log == [] then 0
    else match log[|log| - 1] case Recovered(n) => n case _ => LastCount(log[..|log| - 1])
  }

  function Counted(ps: seq<Attempt>): nat {
    if ps == [] then 0 else Counted(ps[..|ps| - 1]) + LastCount(After(ps[|ps| - 1]).w.log)
  }

  function Left(pel: seq<Id>, k: nat): seq<Id> {
    if |pel| <= 100 * k then [] else pel[100 * k..]
  }

  /** After k passes max(0, n - 100k) of n messages are pending, the rest are
      acknowledged, and the returned counts add up to their number. */
  lemma {:induction false} RecoveryProgress(ps: seq<Attempt>, pel: seq<Id>)
    requires Chain(ps) && (ps != [] ==> ps[0].start.w.redis.pel == pel)
    ensures ps != [] ==> After(ps[|ps| - 1]).w.redis.pel == Left(pel, |ps|)
    ensures Counted(ps) == |pel| - |Left(pel, |ps|)|
    decreases |ps|
  {
    if ps != [] {
      hide Run, Pass, Step, Balanced, Listed, Left, LastCount, After;
      var k := |ps| - 1;
      var a := ps[k];
      LeftStep(pel, k);
      ChainPrefix(ps);
      RecoveryProgress(ps[..k], pel);
      assert a.start.w.redis.pel == Left(pel, k) by {
        if k > 0 { assert ps[..k][k - 1] == ps[k - 1]; }
      }
      AttemptClears(a);
    }
  }

  lemma ChainPrefix(ps: seq<Attempt>)
    requires ps != [] && Chain(ps)
    ensures Chain(ps[..|ps| - 1])
  {
    hide Run, Pass, Step, Balanced, After;
  }

  /** One pass more: what is left, and what was counted. */
  lemma LeftStep(pel: seq<Id>, k: nat)
    ensures Left(pel, 0) == pel
    ensures var l := Left(pel, k); Left(pel, k + 1) == l[Listed(l)..] && Listed(l) == |l| - |Left(pel, k + 1)|
  {
  }

  lemma AttemptClears(a: Attempt)
    requires Balanced(a.start) && a.start.main.Listing? && a.start.delivery.None? && Pass(a.start, a.run)
    ensures var pel := a.start.w.redis.pel;
            After(a).w.redis.pel == pel[Listed(pel)..] && LastCount(After(a).w.log) == Listed(pel)
  {
    PassClears(a.start, a.run);
    hide Run, Pass, Step, Balanced, Listed;
  }
}
