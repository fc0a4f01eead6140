/** What runs at the same time: executor calls, the idle flag, drain. */
module Flight {
  import opened Prelude
  import opened Webhook
  import opened Consumer
  import opened Effects

  // ---------------------------------------------------------------- executor calls

  /** The consume loop is inside `_run_job_with_cancellation` or `batch_run`. */
  predicate Flying(m: Main) {
    || m.Running?
    || (m.Processing? && (m.f.pc.Waiting? || m.f.pc.CheckPolling? || m.f.pc.CancelHook?))
  }

  /** The result a processing is about to report, if it has one. */
  function ResultAt(pc: MsgPc): Option<ExecutionResult> {
    match pc
    case CheckFinished(r) => Some(r)
    case CheckResult(r) => Some(r)
    case WriteCompleted(r) => Some(r)
    case CheckCompleted(r) => Some(r)
    case SendResult(r, _) => Some(r)
    case _ => None
  }

  ghost predicate CallsFit(calls: seq<Call>, m: Main) {
    && (forall i :: 0 <= i < |calls| && calls[i].st.Live? ==> i == |calls| - 1 && Flying(m))
    && (m.Processing? && (Flying(m) || m.f.pc.JoinCancelled?) ==> calls != [])
    && (m.Processing? && ResultAt(m.f.pc).Some? ==> LastCall(calls) == Some(Over(Returned([ResultAt(m.f.pc).value]))))
  }

  /** Between two pieces of work: nothing is running and nothing has been looked at. */
  predicate Landed(m: Main) {
    !m.Running? && (m.Processing? ==> m.f.pc.AckMalformed? || m.f.pc.ReadStatus?)
  }

  lemma NextLanded(s: State, rest: seq<Id>, k: Loop)
    ensures var s' := NextMessage(s, rest, k);
            && Landed(s'.main) && !s'.main.Marking? && !s'.main.Joining?
            && s'.calls == s.calls && s'.delivery == s.delivery && s'.p == s.p && s'.drain == s.drain
  {
    hide Malformed;
  }

  lemma TriageNextLanded(s: State, todo: seq<Id>, batch: seq<Id>, parsed: seq<Id>, act: nat)
    ensures var s' := TriageNext(s, todo, batch, parsed, act);
            && Landed(s'.main) && !s'.main.Joining?
            && s'.calls == s.calls && s'.delivery == s.delivery && s'.drain == s.drain
            && s'.p == (if s'.main.Marking? then s.p.(idle := false) else s.p)
  {
    hide Malformed;
  }

  lemma DispatchLanded(s: State, batch: seq<Id>, due: bool)
    ensures var s' := Dispatch(s, batch, due);
            && Landed(s'.main) && !s'.main.Joining?
            && s'.calls == s.calls && s'.delivery == s.delivery && s'.drain == s.drain
            && s'.p == (if s'.main.Marking? then s.p.(idle := false) else s.p)
  {
    NextLanded(s, batch, Dispatching);
    TriageNextLanded(s.(w := s.w.(acts := s.w.acts + 1)), batch, batch, [], s.w.acts);
    hide NextMessage, TriageNext;
  }

  lemma LeavingLanded(s: State, rest: seq<Id>, k: Loop, e: Escape)
    ensures var s' := Leaving(s, rest, k, e);
            && Landed(s'.main) && !s'.main.Marking? && !s'.main.Joining?
            && s'.calls == s.calls && s'.delivery == s.delivery && s'.drain == s.drain
            && s'.p.idle == s.p.idle && s'.p.current == s.p.current
  {
    NextLanded(s, rest, k);
    hide NextMessage, Delay;
  }

  lemma MessageCallsFit(s: State, io: Io, reply: Reply)
    requires s.main.Processing? && CallsFit(s.calls, s.main)
    ensures var s' := MsgAdvance(s, s.main.f, s.main.rest, s.main.k, io, reply);
            CallsFit(s'.calls, s'.main)
  {
    var f, rest, k := s.main.f, s.main.rest, s.main.k;
    var op := MsgOp(s.w.redis, f);
    var a := Ask(s.w.redis, op, io, reply);
    var work := FieldsOf(s.w.redis, f.id).work;
    var mv := MsgMove(s, f, io, reply);
    var calls' := MsgCalls(s.calls, work, f.pc, a);
    var s1 := s.(
      w := Noted(Do(s.w, op, io, reply), MsgNotes(f.id, JobOf(s.w.redis, f.id), work, f.pc, a, mv)),
      p := MsgLocal(s.p, JobOf(s.w.redis, f.id), f.pc, mv),
      calls := calls');
    FrameCallsFit(s.calls, s.main, a, work, mv);
    if mv.Leave? { LeavingLanded(s1, rest, k, mv.escape); }
    hide MsgNext, MsgNotes, MsgLocal, MsgCalls, MsgOp, Ask, Do, FieldsOf, JobOf, Leaving;
  }

  lemma FrameCallsFit(calls: seq<Call>, m: Main, a: Answer, work: Option<Work>, mv: Move)
    requires m.Processing? && CallsFit(calls, m)
    requires mv == MsgNext(m.f.pc, a, work.Some?, LastCall(calls))
    ensures var calls' := MsgCalls(calls, work, m.f.pc, a);
            if mv.Go? then CallsFit(calls', m.(f := m.f.(pc := mv.pc)))
            else forall i :: 0 <= i < |calls'| ==> !calls'[i].st.Live?
  {
    var calls' := MsgCalls(calls, work, m.f.pc, a);
    if m.f.pc.WriteExecuting? && work.Some? {
      assert forall i :: 0 <= i < |calls| ==> calls'[i] == calls[i];
    }
    match m.f.pc
    case Waiting =>
      if mv.Go? && mv.pc.CheckFinished? {
        var st := calls[|calls| - 1].st;
        assert st.end.results == [mv.pc.r];
      }
    case _ =>
  }

  lemma OtherCallsFit(s: State, l: Label)
    requires CallsFit(s.calls, s.main) && !(l.Resume? && s.main.Processing?)
    ensures CallsFit(Step(s, l).calls, Step(s, l).main)
  {
    match l
    case Resume(io, reply, alt) => ResumeCallsFit(s, io, reply, alt); hide Advance;
    case ResumeChild(i, io, reply) => hide ChildOp, ChildNext, Ask, Do, Advance;
    case Gather => hide Advance, Children, AnyBroken, AllFinished;
    case DrainTimeout => hide Advance, StopAll;
    case ForceCancel => hide Advance, StopAll;
    case _ => hide Advance;
  }

  lemma TriageAdvanceLanded(s: State, io: Io)
    requires s.main.Triage?
    ensures var s' := TriageAdvance(s, s.main, io);
            && Landed(s'.main) && !s'.main.Joining?
            && s'.calls == s.calls && s'.delivery == s.delivery && s'.drain == s.drain
            && s'.p.idle == (s.p.idle && !s'.main.Marking?) && s'.p.current == s.p.current
  {
    var m := s.main;
    var op := TriageOp(s.w.redis, m);
    var a := Ask(s.w.redis, op, io, Accepted);
    var s1 := s.(w := Noted(Do(s.w, op, io, Accepted), TriageNotes(m.id, a, TriageMoveOf(s, io))));
    TriageNextLanded(s1, m.todo, m.batch, m.parsed, m.tact);
    TriageNextLanded(s1, m.todo, m.batch, m.parsed + [m.id], m.tact);
    hide TriageOp, TriageStep, TriageNotes, Ask, Do, FieldsOf, Delay, TriageNext;
  }

  lemma ReadLanded(s: State, io: Io, alt: bool)
    ensures var s' := ReadAdvance(s, io, alt);
            && Landed(s'.main) && (s.delivery.Some? ==> s'.main.Joining? || s'.main.Sleeping? || s'.main.Ended?)
            && s'.calls == s.calls && s'.delivery == s.delivery && s'.drain == s.drain
            && s'.p.idle == (s.p.idle && !s'.main.Marking?) && s'.p.current == s.p.current
  {
    var n := Available(s.w.redis, s.canBatch);
    var s1 := s.(w := s.w.(redis := ReadGroup(s.w.redis, n)));
    DispatchLanded(s1.(p := s1.p.(healthy := true, failures := 0, slept := 0)), Interval(s.w.redis.cursor, n), alt);
    hide Dispatch, Available, Interval, Delay, ReadGroup;
  }

  lemma JoinLanded(s: State, batch: seq<Id>, alt: bool)
    requires s.main == Joining(batch)
    ensures var s' := JoinAdvance(s, batch, alt);
            && Landed(s'.main)
            && s'.calls == s.calls
            && s'.delivery == (if s.delivery.Some? && s.delivery.value.phase.Done? then None else s.delivery)
            && (s'.delivery.Some? ==> s'.main.Joining? || s'.main.Sleeping? || s'.main.Ended?)
            && s'.p.idle == (s.p.idle && !s'.main.Marking?) && s'.p.current == s.p.current
  {
    DispatchLanded(s, batch, alt);
    DispatchLanded(
      s.(delivery := None, drain := if s.drain.WaitDelivery? then Drained(true) else s.drain), batch, alt);
    hide Dispatch, Delay;
  }

  lemma ResumeCallsFit(s: State, io: Io, reply: Reply, alt: bool)
    requires CallsFit(s.calls, s.main) && !s.main.Processing?
    ensures CallsFit(Advance(s, io, reply, alt).calls, Advance(s, io, reply, alt).main)
  {
    match s.main
    case Triage(_, _, _, _, _, _) => TriageAdvanceLanded(s, io); hide TriageAdvance;
    case Marking(_, _, _, _) => MarkCallsFit(s, io, alt); hide MarkAdvance;
    case Reading => ReadLanded(s, io, alt); hide ReadAdvance;
    case Joining(batch) => JoinLanded(s, batch, alt); hide JoinAdvance;
    case Running(batch, _) => NextLanded(s, batch, FallingBack); hide NextMessage;
    case Listing(boot) =>
      NextLanded(s, s.w.redis.pel[..Min(RECOVERY_COUNT, |s.w.redis.pel|)], Recovering(boot, 0));
      hide NextMessage, Delay;
    case _ => hide Delay, Malformed;
  }

  lemma MarkCallsFit(s: State, io: Io, alt: bool)
    requires s.main.Marking? && CallsFit(s.calls, s.main)
    ensures var s' := MarkAdvance(s, s.main.todo, s.main.batch, s.main.parsed, s.main.tact, io, alt);
            CallsFit(s'.calls, s'.main)
  {
    var m := s.main;
    if m.todo != [] {
      NextLanded(s.(w := Do(s.w, SetStatus(m.tact, JobOf(s.w.redis, m.todo[0]), Executing), io, Accepted)),
                 m.batch, FallingBack);
      hide NextMessage, Do, JobOf, Works;
    }
  }

  lemma CallsFitStep(s: State, l: Label)
    requires CallsFit(s.calls, s.main)
    ensures CallsFit(Step(s, l).calls, Step(s, l).main)
  {
    if l.Resume? && s.main.Processing? {
      MessageCallsFit(s, l.io, l.reply);
      hide MsgAdvance;
    } else {
      OtherCallsFit(s, l);
      hide Step;
    }
  }

  // ---------------------------------------------------------------- the idle flag

  /** A job or a batch is being worked on. */
  predicate Busy(m: Main) {
    || m.Marking?
    || m.Running?
    || (m.Processing? && (m.f.pc.WriteExecuting? || !BeforeTry(m.f.pc)))
  }

  /** The consume loop works on nothing new until the delivery is settled. */
  predicate Parked(m: Main) {
    m.Reading? || m.Joining? || m.Sleeping? || m.Ended?
  }

  ghost predicate PhaseFits(d: Delivery) {
    && (d.phase.Created? ==> d.tasks == [])
    && (d.phase.Done? ==> AllFinished(d.tasks))
    && (d.phase.Aborted? ==> forall i :: 0 <= i < |d.tasks| ==> d.tasks[i].pc.Stopped?)
    && (d.phase == Failing(false) ==> d.tasks == [])
  }

  ghost predicate IdleFits(s: State) {
    && (Busy(s.main) ==> !s.p.idle)
    && (Outstanding(s) ==> !s.p.idle)
    && (s.delivery.Some? ==> Parked(s.main) && PhaseFits(s.delivery.value))
    && (s.p.current.Some? ==>
          && !s.p.idle
          && s.delivery.None?
          && ((s.main.Processing? && Busy(s.main)) || s.main.Ended?))
  }

  lemma LogGrows(s: State, l: Label)
    ensures s.w.log <= Step(s, l).w.log
  {
    WorldStep(s, l);
    hide Step, OpOf, Without, Available;
  }

  lemma MessageIdleFits(s: State, io: Io, reply: Reply)
    requires s.main.Processing? && IdleFits(s)
    ensures IdleFits(MsgAdvance(s, s.main.f, s.main.rest, s.main.k, io, reply))
  {
    var f, rest, k := s.main.f, s.main.rest, s.main.k;
    var op := MsgOp(s.w.redis, f);
    var a := Ask(s.w.redis, op, io, reply);
    var work := FieldsOf(s.w.redis, f.id).work;
    var mv := MsgMove(s, f, io, reply);
    var p' := MsgLocal(s.p, JobOf(s.w.redis, f.id), f.pc, mv);
    var s1 := s.(
      w := Noted(Do(s.w, op, io, reply), MsgNotes(f.id, JobOf(s.w.redis, f.id), work, f.pc, a, mv)),
      p := p',
      calls := MsgCalls(s.calls, work, f.pc, a));
    FrameIdle(s.p, s.main, a, work, LastCall(s.calls), JobOf(s.w.redis, f.id));
    if mv.Leave? { LeavingLanded(s1, rest, k, mv.escape); }
    hide MsgNext, MsgNotes, MsgLocal, MsgCalls, MsgOp, Ask, Do, FieldsOf, JobOf, Leaving;
  }

  /** Work starts with the idle flag cleared and ends with it set. */
  lemma FrameIdle(p: Local, m: Main, a: Answer, work: Option<Work>, call: Option<CallState>, job: string)
    requires m.Processing? && (Busy(m) ==> !p.idle)
    ensures var mv := MsgNext(m.f.pc, a, work.Some?, call);
            var p' := MsgLocal(p, job, m.f.pc, mv);
            if mv.Go? then
              var m' := m.(f := m.f.(pc := mv.pc));
              && (Busy(m) ==> Busy(m'))
              && (Busy(m') ==> !p'.idle)
              && (p'.current == p.current || Busy(m'))
            else p'.current == None || (!Busy(m) && p' == p)
  {
  }

  lemma MarkIdleFits(s: State, io: Io, alt: bool)
    requires s.main.Marking? && IdleFits(s)
    ensures IdleFits(MarkAdvance(s, s.main.todo, s.main.batch, s.main.parsed, s.main.tact, io, alt))
  {
    var m := s.main;
    if m.todo != [] {
      NextLanded(s.(w := Do(s.w, SetStatus(m.tact, JobOf(s.w.redis, m.todo[0]), Executing), io, Accepted)),
                 m.batch, FallingBack);
      hide NextMessage, Do, JobOf, Works;
    }
  }

  lemma RestIdleFits(s: State, io: Io, reply: Reply, alt: bool)
    requires !(s.main.Processing? || s.main.Triage? || s.main.Marking? || s.main.Reading? || s.main.Joining?)
    requires IdleFits(s)
    ensures IdleFits(Advance(s, io, reply, alt))
  {
    match s.main
    case Running(batch, _) => NextLanded(s, batch, FallingBack); hide NextMessage;
    case Listing(boot) =>
      NextLanded(s, s.w.redis.pel[..Min(RECOVERY_COUNT, |s.w.redis.pel|)], Recovering(boot, 0));
      hide NextMessage, Delay;
    case _ => hide Delay, Malformed;
  }

  lemma ResumeIdleFits(s: State, io: Io, reply: Reply, alt: bool)
    requires !s.main.Processing? && IdleFits(s)
    ensures IdleFits(Advance(s, io, reply, alt))
  {
    match s.main
    case Triage(_, _, _, _, _, _) => TriageAdvanceLanded(s, io); hide TriageAdvance;
    case Marking(_, _, _, _) => MarkIdleFits(s, io, alt); hide MarkAdvance, IdleFits;
    case Reading => ReadLanded(s, io, alt); hide ReadAdvance;
    case Joining(batch) => JoinLanded(s, batch, alt); hide JoinAdvance;
    case _ => RestIdleFits(s, io, reply, alt); hide Advance, IdleFits;
  }

  lemma ForceIdleFits(s: State, l: Label)
    requires (l.ForceCancel? || l.DrainTimeout? || l.DrainResume?) && IdleFits(s)
    ensures IdleFits(Step(s, l))
  {
    hide Advance, ChildAdvance, GatherAdvance, CancelLast;
  }

  lemma OtherIdleFits(s: State, l: Label)
    requires !l.Resume? && IdleFits(s)
    ensures IdleFits(Step(s, l))
  {
    match l
    case ResumeChild(i, io, reply) => hide ChildOp, Ask, Do, Advance;
    case Gather => hide Advance, AnyBroken;
    case ForceCancel => ForceIdleFits(s, l); hide Step;
    case DrainTimeout => ForceIdleFits(s, l); hide Step;
    case DrainResume => ForceIdleFits(s, l); hide Step;
    case _ => hide Advance;
  }

  lemma IdleFitsStep(s: State, l: Label)
    requires IdleFits(s)
    ensures IdleFits(Step(s, l))
  {
    if l.Resume? && s.main.Processing? {
      MessageIdleFits(s, l.io, l.reply);
      hide MsgAdvance;
    } else if l.Resume? {
      ResumeIdleFits(s, l.io, l.reply, l.alt);
      hide Advance;
    } else {
      OtherIdleFits(s, l);
      hide Step;
    }
  }

  lemma {:induction false} FlightRun(s: State, ls: seq<Label>)
    requires CallsFit(s.calls, s.main) && IdleFits(s)
    ensures var s' := Run(s, ls); CallsFit(s'.calls, s'.main) && IdleFits(s')
    decreases |ls|
  {
    if ls != [] {
      CallsFitStep(s, ls[0]);
      IdleFitsStep(s, ls[0]);
      FlightRun(Step(s, ls[0]), ls[1..]);
    }
    hide Step;
  }

  /** At any moment of any run at most one executor call is neither finished nor
      cancelled, and then the consume loop is still waiting for it: every way
      out of the polling loop has finished or cancelled its run task. */
  lemma SingleFlight(r: Redis, canBatch: bool, ls: seq<Label>, i: nat, j: nat)
    ensures var s := Run(Init(r, canBatch), ls);
            i < |s.calls| && j < |s.calls| && s.calls[i].st.Live? && s.calls[j].st.Live? ==> i == j && Flying(s.main)
  {
    FlightRun(Init(r, canBatch), ls);
  }

  /** `_run_job_with_cancellation` returns a result only after the run task
      returned it and a later flag read, answered by Redis, found no flag. */
  lemma ResultsAreChecked(r: Redis, canBatch: bool, ls: seq<Label>, l: Label, res: ExecutionResult)
    requires var s := Run(Init(r, canBatch), ls);
             && s.main.Processing? && Step(s, l).main.Processing?
             && !s.main.f.pc.CheckResult? && Step(s, l).main.f.pc == CheckResult(res)
    ensures var s := Run(Init(r, canBatch), ls);
            && s.main.f.pc == CheckFinished(res)
            && l.Resume? && l.io.Fine? && JobOf(s.w.redis, s.main.f.id) !in s.w.redis.flags
            && LastCall(s.calls) == Some(Over(Returned([res])))
  {
    FlightRun(Init(r, canBatch), ls);
    var s := Run(Init(r, canBatch), ls);
    MainStep(s, l);
    if l.Resume? { LeadsToResult(s, s.main.f, l.io, l.reply); }
    hide Step, Run, MsgMove, TriageMoveOf, Malformed, IdleFits;
  }

  lemma LeadsToResult(s: State, f: Frame, io: Io, reply: Reply)
    ensures var mv := MsgMove(s, f, io, reply);
            mv.Go? && mv.pc.CheckResult? ==>
              f.pc == CheckFinished(mv.pc.r) && io.Fine? && JobOf(s.w.redis, f.id) !in s.w.redis.flags
  {
    hide JobOf, FieldsOf, Terminal;
  }

  /** A delivery that has neither finished, raised nor been stopped. */
  predicate Active(pc: ChildPc) {
    !pc.Finished? && !pc.Broken? && !pc.Stopped?
  }

  /** Nothing is being worked on. */
  ghost predicate Quiet(s: State) {
    && s.p.current.None?
    && !Busy(s.main)
    && (forall i :: 0 <= i < |s.calls| ==> !s.calls[i].st.Live?)
    && (s.delivery.Some? ==>
          var ts := s.delivery.value.tasks;
          forall i :: 0 <= i < |ts| ==> !Active(ts[i].pc))
    && !Outstanding(s)
  }

  /** The delivery task has raised while another delivery of its batch goes on. */
  ghost predicate Straggling(s: State) {
    && s.delivery.Some?
    && s.delivery.value.phase.Failing?
    && var ts := s.delivery.value.tasks;
       exists i :: 0 <= i < |ts| && Active(ts[i].pc)
  }

  /** At every moment of every run, whatever was cancelled or raised before, an
      idle flag that is set means that nothing is in flight if and only if no
      delivery is left over from a batch whose delivery task raised. */
  lemma IdleMeansQuiet(r: Redis, canBatch: bool, ls: seq<Label>)
    requires Run(Init(r, canBatch), ls).p.idle
    ensures var s := Run(Init(r, canBatch), ls); Quiet(s) <==> !Straggling(s)
  {
    FlightRun(Init(r, canBatch), ls);
    var s := Run(Init(r, canBatch), ls);
    IdleIsQuiet(s);
    hide Run, Step, Quiet, Straggling, IdleFits, CallsFit;
  }

  lemma IdleIsQuiet(s: State)
    requires CallsFit(s.calls, s.main) && IdleFits(s) && s.p.idle
    ensures Quiet(s) <==> !Straggling(s)
  {
    assert !Busy(s.main) && !Flying(s.main);
    if s.delivery.Some? {
      var d := s.delivery.value;
      assert d.phase.Done? || d.phase.Aborted? ==> forall i :: 0 <= i < |d.tasks| ==> !Active(d.tasks[i].pc);
    }
  }

  /** The step by which `drain` finds the node idle happens with nothing in flight
      unless deliveries straggle behind a raised one, and `drain` answers True
      only with nothing in flight, or once the delivery it went on to wait for
      has finished. */
  lemma DrainIsSound(r: Redis, canBatch: bool, ls: seq<Label>, l: Label)
    ensures var s := Run(Init(r, canBatch), ls);
            var s' := Step(s, l);
            && (s.drain == WaitIdle && s'.drain == WaitDelivery ==> (Quiet(s) <==> !Straggling(s)))
            && (s.drain != Drained(true) && s'.drain == Drained(true) ==>
                  || (s.drain == WaitIdle && Quiet(s))
                  || (s.drain == WaitDelivery && s.delivery.None?)
                  || (s.drain == WaitDelivery
                      && s.delivery.value.phase.Done? && AllFinished(s.delivery.value.tasks)))
  {
    FlightRun(Init(r, canBatch), ls);
    var s := Run(Init(r, canBatch), ls);
    DrainSteps(s, l);
    if s.p.idle { IdleMeansQuiet(r, canBatch, ls); }
    hide Step, Run, Quiet;
  }

  lemma DrainSteps(s: State, l: Label)
    ensures var s' := Step(s, l);
            || s'.drain == s.drain
            || s'.drain == NotDraining
            || (s.drain == NotDraining && s'.drain == WaitIdle)
            || (s.drain == WaitIdle && s'.drain == Drained(false))
            || (s.drain == WaitIdle && s.p.idle && (s'.drain == Drained(true) ==> s.delivery.None?))
            || (s.drain == WaitDelivery && s'.drain == Drained(true)
                && (s.delivery.None? || s.delivery.value.phase.Done?))
            || (s.drain == WaitDelivery && s'.drain != Drained(true))
  {
    match l
    case Resume(io, reply, alt) => ResumeDrain(s, io, reply, alt); hide Advance;
    case ResumeChild(_, _, _) => hide Advance, ChildOp, ChildNext, Ask, Do;
    case Gather => hide Advance, Children, AnyBroken, AllFinished;
    case _ => hide Advance, StopAll, CancelLast;
  }

  lemma ResumeDrain(s: State, io: Io, reply: Reply, alt: bool)
    ensures var s' := Advance(s, io, reply, alt);
            || s'.drain == s.drain
            || (s.drain == WaitDelivery && s'.drain == Drained(true)
                && (s.delivery.None? || s.delivery.value.phase.Done?))
  {
    match s.main
    case Processing(f, rest, k) => MessageDrain(s, f, rest, k, io, reply); hide MsgAdvance;
    case Triage(_, _, _, _, _, _) => TriageAdvanceLanded(s, io); hide TriageAdvance;
    case Reading => ReadLanded(s, io, alt); hide ReadAdvance;
    case Joining(batch) =>
      DispatchLanded(s, batch, alt);
      DispatchLanded(
        s.(delivery := None, drain := if s.drain.WaitDelivery? then Drained(true) else s.drain), batch, alt);
      hide Dispatch, Delay;
    case _ => hide Malformed, Delay, Works;
  }

  lemma MessageDrain(s: State, f: Frame, rest: seq<Id>, k: Loop, io: Io, reply: Reply)
    ensures MsgAdvance(s, f, rest, k, io, reply).drain == s.drain
  {
    hide MsgOp, MsgNext, MsgNotes, MsgLocal, MsgCalls, Ask, Do, FieldsOf, JobOf, Delay, Malformed;
  }
}
