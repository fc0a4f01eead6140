/** A delivery that raised stops the worker until it is restarted. */
module Poisoned {
  import opened Prelude
  import opened Webhook
  import opened Consumer
  import opened Effects
  import opened Flight
  import opened Witness

  /** The stored delivery has raised. */
  predicate Stuck(s: State) {
    s.delivery.Some? && s.delivery.value.phase.Failing?
  }

  lemma ResumeStuck(s: State, io: Io, reply: Reply, alt: bool)
    requires Parked(s.main) && Stuck(s)
    ensures Stuck(Advance(s, io, reply, alt))
  {
    match s.main
    case Reading => ReadLanded(s, io, alt); hide ReadAdvance;
    case Joining(batch) => JoinLanded(s, batch, alt); hide JoinAdvance;
    case _ => hide Delay, Malformed;
  }

  lemma StepStuck(s: State, l: Label)
    requires Parked(s.main) && Stuck(s) && !l.Crash?
    ensures Stuck(Step(s, l))
  {
    match l
    case Resume(io, reply, alt) => ResumeStuck(s, io, reply, alt); hide Advance;
    case ResumeChild(_, _, _) => hide Advance, ChildOp, ChildNext, Ask, Do;
    case Gather => hide Advance, Children, AnyBroken, AllFinished;
    case _ => hide Advance, StopAll, CancelLast;
  }

  /** Nothing after position `n` of the history starts the executor. */
  ghost predicate NothingStarted(log: seq<Event>, n: nat) {
    forall k :: n <= k < |log| ==> !log[k].Started?
  }

  lemma NoStartWhileParked(s: State, l: Label)
    requires Parked(s.main)
    ensures s.w.log <= Step(s, l).w.log && NothingStarted(Step(s, l).w.log, |s.w.log|)
  {
    LogStep(s, l);
    LogGrows(s, l);
    DoNotes(s.w, OpOf(s, l), IoOf(l), ReplyOf(s, l));
    assert forall jobs :: !StartsNow(s, l, jobs);
    hide Step, OpOf, Do, StartsNow;
  }

  lemma DoNotes(w: World, op: Op, io: Io, reply: Reply)
    ensures var log := Do(w, op, io, reply).log; w.log <= log && NothingStarted(log, |w.log|)
  {
    hide Without;
  }

  lemma {:induction false} StuckRun(s: State, ls: seq<Label>)
    requires IdleFits(s) && Stuck(s) && forall i :: 0 <= i < |ls| ==> !ls[i].Crash?
    ensures IdleFits(Run(s, ls)) && Stuck(Run(s, ls))
    ensures s.w.log <= Run(s, ls).w.log && NothingStarted(Run(s, ls).w.log, |s.w.log|)
    decreases |ls|
  {
    if ls != [] {
      var s1 := Step(s, ls[0]);
      StepStuck(s, ls[0]);
      IdleFitsStep(s, ls[0]);
      NoStartWhileParked(s, ls[0]);
      hide Step, IdleFits;
      StuckRun(s1, ls[1..]);
      var log := Run(s1, ls[1..]).w.log;
      forall k | |s.w.log| <= k < |log| ensures !log[k].Started? {
        if k < |s1.w.log| { assert log[k] == s1.w.log[k]; }
      }
    }
  }

  /** A stored delivery that raised is never cleared: as long as the process lives,
      the consume loop dispatches no message and starts no executor call again,
      whatever arrives and however often Redis is read. */
  lemma RaisedDeliveryStopsDispatch(r: Redis, canBatch: bool, ls: seq<Label>, more: seq<Label>)
    requires Stuck(Run(Init(r, canBatch), ls)) && forall i :: 0 <= i < |more| ==> !more[i].Crash?
    ensures var s := Run(Init(r, canBatch), ls);
            var s' := Run(s, more);
            Stuck(s') && Parked(s'.main) && NothingStarted(s'.w.log, |s.w.log|)
  {
    FlightRun(Init(r, canBatch), ls);
    StuckRun(Run(Init(r, canBatch), ls), more);
    hide Run, Step, CallsFit;
  }

  /** A raised delivery does not end the loop: it is raised again at the join, the loop
      sleeps and reads on, until 1024 connection errors in a row. A cancelled one
      ends the loop with the first join. */
  lemma JoinRaisesAgain(s: State, l: Label, l': Label)
    requires s.main.Joining? && s.delivery.Some? && l.Resume? && l'.Resume?
    requires s.delivery.value.phase.Failing? || s.delivery.value.phase.Aborted?
    ensures var s' := Step(Step(s, l), l');
            var conn := s.delivery.value.phase == Failing(true);
            && s'.delivery == s.delivery && s'.w == s.w && s'.calls == s.calls
            && (s'.main == if s.delivery.value.phase.Failing? && s.p.running && !(conn && s.p.failures >= 1024)
                           then Reading else Ended)
            && s'.p.failures == s.p.failures + if conn then 1 else 0
  {
    hide Dispatch, Delay;
  }

  lemma RaisesWhileActive(s: State)
    requires s.delivery.Some? && s.delivery.value.phase.Gathering? && |s.delivery.value.tasks| == 2
    requires s.delivery.value.tasks[0].pc.Broken? && Active(s.delivery.value.tasks[1].pc)
    ensures Step(s, Gather).p.idle && Straggling(Step(s, Gather))
  {
    var s' := Step(s, Gather);
    assert AnyBroken(s.delivery.value.tasks);
    hide Advance, Children, AllFinished;
    assert Active(s'.delivery.value.tasks[1].pc);
  }

  /** The case the idle claim excludes does happen: from a fresh start, a batch of two
      is executed, the flag read of one delivery is lost, the delivery task raises
      and reports idle, and the other delivery has not even begun. */
  lemma RaisingReportsIdleTooEarly(res: ExecutionResult)
    ensures var s := Run(Init(Queue([A, B]), true), TO_BATCH + ToStraggler(res) + [Gather]);
            s.p.idle && Straggling(s) && !Quiet(s)
  {
    var s0 := Init(Queue([A, B]), true);
    var ls := TO_BATCH + ToStraggler(res);
    ReachesStraggler(res);
    RaisesWhileActive(Run(s0, ls));
    RunLast(s0, ls, Gather);
    hide Run, Step, Straggling, Quiet, ToStraggler;
    IdleMeansQuiet(Queue([A, B]), true, ls + [Gather]);
  }
}
