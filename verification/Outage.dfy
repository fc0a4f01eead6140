/** Health and backoff of the consume loop during Redis outages. */
module Outage {
  import opened Prelude
  import opened Webhook
  import opened Consumer
  import opened Effects
  import opened Flight
  import opened Witness

  /** Seconds slept by an outage of `k` consecutive failures. */
  function Slept(k: nat): (t: nat) {
    if k == 0 then 0 else Slept(k - 1) + Delay(k)
  }

  /** The delays double up to a minute and then stay there. */
  lemma {:induction false} SleptInClosedForm(k: nat)
    ensures Slept(k) == if k <= 6 then Pow2(k) - 1 else 63 + 60 * (k - 6)
  {
    if k > 0 {
      SleptInClosedForm(k - 1);
      if k == 7 { assert Pow2(6) == 64 by { assert Pow2(3) == 8; } }
    }
  }

  ghost predicate BackoffFits(s: State) {
    && (s.p.healthy <==> s.p.failures == 0)
    && (s.p.failures <= BACKOFF_LIMIT ==> s.p.slept == Slept(s.p.failures))
    && (s.p.failures > BACKOFF_LIMIT ==> s.main.Ended?)
  }

  predicate SameHealth(p: Local, p': Local) {
    p'.healthy == p.healthy && p'.failures == p.failures && p'.slept == p.slept
  }

  /** The step answers a read for new messages, whatever it brings. */
  predicate Answers(s: State, l: Label) {
    l.Resume? && s.main.Reading? && l.io.Fine?
  }

  /** The step raises a connection error that the loop catches: a read that is lost,
      other than inside a `try` or during the startup recovery, an error left over
      from the error handler of a message, or the one a delivery raised. */
  predicate Catches(s: State, l: Label) {
    && l.Resume?
    && match s.main
       case Reading => l.io.Lost?
       case Listing(boot) => !boot && l.io.Lost?
       case Fetching(rest, boot, _) => rest != [] && !boot && l.io.Lost?
       case Processing(f, _, k) =>
         && !(k.Recovering? && k.boot)
         && (((f.pc.ReadStatus? || f.pc.CheckQueued?) && l.io.Lost?) || f.pc == FinalAck(ConnEscape))
       case Triage(_, _, tpc, _, _, _) => (tpc.TReadStatus? || tpc.TCheck?) && l.io.Lost?
       case Joining(_) => s.delivery.Some? && s.delivery.value.phase == Failing(true)
       case _ => false
  }

  /** Connection errors caught since the last answered read or the last start. */
  function CaughtSince(s: State, ls: seq<Label>): (n: nat)
    decreases |ls|
  {
    if ls == [] then 0
    else
      var before, l := ls[..|ls| - 1], ls[|ls| - 1];
      if l.Crash? || Answers(Run(s, before), l) then 0
      else CaughtSince(s, before) + (if Catches(Run(s, before), l) then 1 else 0)
  }

  /** A step starts afresh, counts one more failure, or leaves the health alone. */
  ghost predicate Lapses(s: State, l: Label, s': State) {
    if l.Crash? || Answers(s, l) then s'.p.healthy && s'.p.failures == 0 && s'.p.slept == 0
    else if Catches(s, l) then SameHealth(Backoff(s).p, s'.p) && s'.main == Backoff(s).main
    else SameHealth(s.p, s'.p) && (s.main.Ended? ==> s'.main.Ended?)
  }

  lemma NextHealth(s: State, rest: seq<Id>, k: Loop)
    ensures NextMessage(s, rest, k).p == s.p
  {
    hide Malformed;
  }

  /** A processing passes a connection error on exactly where it is caught. */
  lemma FrameCatches(r: Redis, f: Frame, io: Io, reply: Reply, parsable: bool, call: Option<CallState>)
    ensures var mv := MsgNext(f.pc, Ask(r, MsgOp(r, f), io, reply), parsable, call);
            mv == Leave(ConnEscape) <==>
              ((f.pc.ReadStatus? || f.pc.CheckQueued?) && io.Lost?) || f.pc == FinalAck(ConnEscape)
  {
    hide JobOf, Terminal;
  }

  lemma LeavingLapses(s: State, rest: seq<Id>, k: Loop, e: Escape)
    ensures var s' := Leaving(s, rest, k, e);
            if e.ConnEscape? && !(k.Recovering? && k.boot) then s'.p == Backoff(s).p && s'.main == Backoff(s).main
            else s'.p == s.p
  {
    NextHealth(s, rest, k);
    hide NextMessage, Delay;
  }

  lemma BackoffHealth(s: State, s1: State)
    requires SameHealth(s.p, s1.p)
    ensures SameHealth(Backoff(s).p, Backoff(s1).p) && Backoff(s).main == Backoff(s1).main
  {
    hide Delay;
  }

  lemma MessageLapses(s: State, io: Io, reply: Reply, alt: bool)
    requires s.main.Processing?
    ensures Lapses(s, Resume(io, reply, alt), MsgAdvance(s, s.main.f, s.main.rest, s.main.k, io, reply))
  {
    var f, rest, k := s.main.f, s.main.rest, s.main.k;
    var op := MsgOp(s.w.redis, f);
    var a := Ask(s.w.redis, op, io, reply);
    var work := FieldsOf(s.w.redis, f.id).work;
    var mv := MsgMove(s, f, io, reply);
    var s1 := s.(
      w := Noted(Do(s.w, op, io, reply), MsgNotes(f.id, JobOf(s.w.redis, f.id), work, f.pc, a, mv)),
      p := MsgLocal(s.p, JobOf(s.w.redis, f.id), f.pc, mv),
      calls := MsgCalls(s.calls, work, f.pc, a));
    assert SameHealth(s.p, s1.p);
    FrameCatches(s.w.redis, f, io, reply, work.Some?, LastCall(s.calls));
    BackoffHealth(s, s1);
    if mv.Leave? { LeavingLapses(s1, rest, k, mv.escape); }
    hide MsgNext, MsgNotes, MsgLocal, MsgCalls, MsgOp, Ask, Do, FieldsOf, JobOf, Leaving, Backoff, LastCall;
  }

  lemma TriageLapses(s: State, io: Io, reply: Reply, alt: bool)
    requires s.main.Triage?
    ensures Lapses(s, Resume(io, reply, alt), TriageAdvance(s, s.main, io))
  {
    assert TriageMoveOf(s, io).TEscaped? <==> Catches(s, Resume(io, reply, alt)) by { hide JobOf, FieldsOf, Terminal; }
    hide TriageOp, TriageStep, TriageNotes, Ask, Do, FieldsOf, Delay, Malformed;
  }

  lemma DispatchHealth(s: State, batch: seq<Id>, due: bool)
    ensures SameHealth(s.p, Dispatch(s, batch, due).p)
  {
    DispatchLanded(s, batch, due);
    hide Dispatch;
  }

  lemma ReadLapses(s: State, io: Io, reply: Reply, alt: bool)
    requires s.main.Reading?
    ensures Lapses(s, Resume(io, reply, alt), ReadAdvance(s, io, alt))
  {
    var n := Available(s.w.redis, s.canBatch);
    var s1 := s.(w := s.w.(redis := ReadGroup(s.w.redis, n)));
    DispatchHealth(s1.(p := s1.p.(healthy := true, failures := 0, slept := 0)), Interval(s.w.redis.cursor, n), alt);
    hide Dispatch, Available, Interval, Delay, ReadGroup;
  }

  lemma JoinLapses(s: State, batch: seq<Id>, io: Io, reply: Reply, alt: bool)
    requires s.main == Joining(batch)
    ensures Lapses(s, Resume(io, reply, alt), JoinAdvance(s, batch, alt))
  {
    DispatchHealth(s, batch, alt);
    DispatchHealth(
      s.(delivery := None, drain := if s.drain.WaitDelivery? then Drained(true) else s.drain), batch, alt);
    hide Dispatch, Delay;
  }

  lemma ResumeLapses(s: State, io: Io, reply: Reply, alt: bool)
    ensures Lapses(s, Resume(io, reply, alt), Advance(s, io, reply, alt))
  {
    match s.main
    case Processing(_, _, _) => MessageLapses(s, io, reply, alt); hide MsgAdvance;
    case Triage(_, _, _, _, _, _) => TriageLapses(s, io, reply, alt); hide TriageAdvance;
    case Reading => ReadLapses(s, io, reply, alt); hide ReadAdvance;
    case Joining(batch) => JoinLapses(s, batch, io, reply, alt); hide JoinAdvance;
    case Marking(_, _, _, _) => hide Do, Works, Jobs, Malformed, Delay;
    case Running(batch, _) => NextHealth(s, batch, FallingBack); hide NextMessage, Delay;
    case _ => hide Malformed, Delay;
  }

  lemma StepLapses(s: State, l: Label)
    ensures Lapses(s, l, Step(s, l))
  {
    match l
    case Resume(io, reply, alt) => ResumeLapses(s, io, reply, alt); hide Advance;
    case ResumeChild(_, _, _) => hide Advance, ChildOp, ChildNext, Ask, Do, Delay;
    case Gather => hide Advance, Children, AnyBroken, AllFinished, Delay;
    case _ => hide Advance, StopAll, CancelLast, Delay;
  }

  lemma BackoffFitsStep(s: State, l: Label)
    requires BackoffFits(s)
    ensures BackoffFits(Step(s, l))
  {
    StepLapses(s, l);
    hide Step, Delay;
  }

  lemma {:induction false} BackoffFitsRun(s: State, ls: seq<Label>)
    requires BackoffFits(s)
    ensures BackoffFits(Run(s, ls))
    decreases |ls|
  {
    if ls != [] {
      BackoffFitsStep(s, ls[0]);
      BackoffFitsRun(Step(s, ls[0]), ls[1..]);
    }
    hide Step, BackoffFits;
  }

  lemma {:induction false} FailuresRun(s: State, ls: seq<Label>)
    requires s.p.failures == 0
    ensures Run(s, ls).p.failures == CaughtSince(s, ls)
    decreases |ls|
  {
    if ls != [] {
      var before, l := ls[..|ls| - 1], ls[|ls| - 1];
      assert ls == before + [l];
      FailuresRun(s, before);
      RunLast(s, before, l);
      StepLapses(Run(s, before), l);
    }
    hide Step, Run, Catches, Answers, Delay;
  }

  /** At every moment of every run the failures counted are the connection errors
      caught since the last answered read, be it empty, or since the last start;
      the node reports Redis healthy exactly when there is none, and while the loop
      is alive the outage so far has slept 2^k - 1 seconds for k failures up to
      six, 60 seconds each beyond. */
  lemma OutageWaits(r: Redis, canBatch: bool, ls: seq<Label>)
    ensures var s := Run(Init(r, canBatch), ls);
            var k := CaughtSince(Init(r, canBatch), ls);
            && s.p.failures == k
            && (s.p.healthy <==> k == 0)
            && (!s.main.Ended? ==> s.p.slept == if k <= 6 then Pow2(k) - 1 else 63 + 60 * (k - 6))
  {
    FailuresRun(Init(r, canBatch), ls);
    BackoffFitsRun(Init(r, canBatch), ls);
    SleptInClosedForm(Run(Init(r, canBatch), ls).p.failures);
    hide Step, Run, Slept, Pow2, CaughtSince;
  }

  /** The step raises a connection error before the loop proper has begun: while setting
      up, or in the startup recovery. */
  predicate RaisesAtStart(s: State, l: Label) {
    && l.Resume?
    && match s.main
       case Booting => l.io.Lost?
       case Listing(boot) => boot && l.io.Lost?
       case Fetching(rest, boot, _) => rest != [] && boot && l.io.Lost?
       case Processing(f, _, k) =>
         && k.Recovering? && k.boot
         && (((f.pc.ReadStatus? || f.pc.CheckQueued?) && l.io.Lost?) || f.pc == FinalAck(ConnEscape))
       case _ => false
  }

  /** Nothing catches a connection error there: it ends the loop, and no failure is counted. */
  lemma StartupErrorsEndTheLoop(s: State, l: Label)
    requires RaisesAtStart(s, l)
    ensures Step(s, l).main.Ended? && SameHealth(s.p, Step(s, l).p)
  {
    match s.main
    case Processing(f, rest, k) =>
      var op := MsgOp(s.w.redis, f);
      var a := Ask(s.w.redis, op, l.io, l.reply);
      var work := FieldsOf(s.w.redis, f.id).work;
      var mv := MsgMove(s, f, l.io, l.reply);
      FrameCatches(s.w.redis, f, l.io, l.reply, work.Some?, LastCall(s.calls));
      hide MsgNext, MsgNotes, MsgCalls, MsgOp, Ask, Do, FieldsOf, JobOf, LastCall, NextMessage, Backoff;
    case _ => hide Delay, Malformed;
  }

  // ---------------------------------------------------------------- how long an outage may last

  const FAIL: Label := Resume(Lost(false), Unreachable, false)

  /** `n` failed reads in a row, each followed by its sleep. */
  function Failures(n: nat): seq<Label> {
    if n == 0 then [] else [FAIL, FAIL] + Failures(n - 1)
  }

  lemma FailOnce(s: State)
    requires s.main.Reading? && s.p.running
    ensures var s' := Step(Step(s, FAIL), FAIL);
            && s'.p.failures == s.p.failures + 1 && s'.p.running
            && s'.main == if s.p.failures + 1 <= BACKOFF_LIMIT then Reading else Ended
  {
    hide Dispatch, Available, Interval, Delay, ReadGroup;
  }

  lemma {:induction false} OutageRun(s: State, n: nat)
    requires (s.main.Reading? && s.p.running) || s.main.Ended?
    ensures var s' := Run(s, Failures(n));
            if s.main.Ended? then s'.main.Ended?
            else s'.main == if s.p.failures + n <= BACKOFF_LIMIT || n == 0 then Reading else Ended
    decreases n
  {
    if n > 0 {
      var ls := Failures(n);
      var s1 := Step(s, FAIL);
      var s2 := Step(s1, FAIL);
      assert ls[0] == FAIL && ls[1..] == [FAIL] + Failures(n - 1);
      assert ls[1..][0] == FAIL && ls[1..][1..] == Failures(n - 1);
      assert Run(s, ls) == Run(s1, ls[1..]) == Run(s2, Failures(n - 1)) by { hide Step; }
      if s.main.Reading? { FailOnce(s); }
      if s.main.Ended? { assert s1.main.Ended? && s2.main.Ended?; }
      hide Step;
      OutageRun(s2, n - 1);
    }
  }

  /** The loop outlives an outage of n failed reads if and only if n is at most
      1024: the next one overflows the delay and ends the consume loop for good. */
  lemma OutageLimit(s: State, n: nat)
    requires s.main.Reading? && s.p.running && s.p.failures == 0
    ensures Run(s, Failures(n)).main.Ended? <==> n > BACKOFF_LIMIT
  {
    OutageRun(s, n);
    hide Step, Run;
  }
}
