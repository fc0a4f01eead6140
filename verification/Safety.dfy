/** What stays true of one job for the rest of every run. */
module Safety {
  import opened Prelude
  import opened Webhook
  import opened Consumer
  import opened Effects
  import opened Ledger
  import opened Justification
  import opened Flight

  predicate About(r: Redis, id: Id, job: string) {
    JobOf(r, id) == job
  }

  ghost predicate NoneAbout(r: Redis, ids: seq<Id>, job: string) {
    forall i :: 0 <= i < |ids| ==> !About(r, ids[i], job)
  }

  lemma JobFixed(w: World, w': World, id: Id, job: string)
    requires Grows(w, w') && id < |w.redis.stream|
    ensures About(w.redis, id, job) == About(w'.redis, id, job)
  {
    ReasonStays(w, w', id);
  }

  lemma NoneFixed(w: World, w': World, ids: seq<Id>, job: string)
    requires Grows(w, w') && Below(ids, |w.redis.stream|) && NoneAbout(w.redis, ids, job)
    ensures NoneAbout(w'.redis, ids, job)
  {
    forall i | 0 <= i < |ids| ensures !About(w'.redis, ids[i], job) { JobFixed(w, w', ids[i], job); }
  }

  // ---------------------------------------------------------------- no re-execution

  /** Places from which a processing can neither start the executor nor write a
      status other than `cancelled`, given that the status is terminal. */
  predicate Harmless(pc: MsgPc) {
    pc.AckMalformed? || pc.ReadStatus? || pc.AckTerminal? || pc.MarkQueued? || pc.AckQueued? || pc.MarkCancelled?
    || pc.FinalAck?
  }

  ghost predicate MainSettled(r: Redis, m: Main, job: string) {
    match m
    case Processing(f, _, _) => About(r, f.id, job) ==> Harmless(f.pc)
    case Triage(id, _, tpc, _, parsed, _) => (About(r, id, job) ==> !tpc.TCheck?) && NoneAbout(r, parsed, job)
    case Marking(todo, _, parsed, _) => NoneAbout(r, todo, job) && NoneAbout(r, parsed, job)
    case Running(_, parsed) => NoneAbout(r, parsed, job)
    case _ => true
  }

  /** The job is finished and the consume loop is not working on it. */
  ghost predicate Settled(s: State, job: string) {
    Terminal(s.w.redis, job) && MainSettled(s.w.redis, s.main, job)
  }

  lemma OpSettled(s: State, l: Label, job: string)
    requires Settled(s, job)
    ensures var op := OpOf(s, l);
            op.SetStatus? && op.job == job ==> op.st == Completed || op.st == Cancelled
  {
    hide Malformed;
  }

  lemma StatusSettled(s: State, l: Label, job: string)
    requires Settled(s, job)
    ensures Terminal(Step(s, l).w.redis, job)
  {
    OpSettled(s, l, job);
    WorldStep(s, l);
    hide Step, OpOf, Without, Available;
  }

  /** A settled job's frame reads the terminal status and stays harmless. */
  lemma FrameSettled(s: State, io: Io, reply: Reply, job: string)
    requires s.main.Processing? && Settled(s, job) && About(s.w.redis, s.main.f.id, job)
    ensures var mv := MsgMove(s, s.main.f, io, reply); mv.Go? ==> Harmless(mv.pc)
  {
  }

  lemma EntrySettled(r: Redis, m: Main, job: string)
    requires Entry(r, m) && !m.Triage? && !m.Marking? && !m.Running?
    ensures MainSettled(r, m, job)
  {
  }

  lemma TriageNextSettled(s: State, todo: seq<Id>, batch: seq<Id>, parsed: seq<Id>, act: nat, job: string)
    requires NoneAbout(s.w.redis, parsed, job)
    ensures MainSettled(s.w.redis, TriageNext(s, todo, batch, parsed, act).main, job)
  {
    hide Malformed;
  }

  lemma DispatchSettled(s: State, batch: seq<Id>, due: bool, job: string)
    ensures MainSettled(s.w.redis, Dispatch(s, batch, due).main, job)
  {
    TriageNextSettled(s.(w := s.w.(acts := s.w.acts + 1)), batch, batch, [], s.w.acts, job);
    NextEntry(s, batch, Dispatching);
    NextLanded(s, batch, Dispatching);
    if batch != [] && !(s.canBatch && |batch| > 1) {
      NextNotTriage(s, batch, Dispatching);
      EntrySettled(s.w.redis, NextMessage(s, batch, Dispatching).main, job);
    }
    hide NextMessage, TriageNext;
  }

  lemma NextNotTriage(s: State, rest: seq<Id>, k: Loop)
    ensures !NextMessage(s, rest, k).main.Triage?
  {
    hide Malformed;
  }

  lemma NextSettled(s: State, rest: seq<Id>, k: Loop, job: string)
    ensures MainSettled(s.w.redis, NextMessage(s, rest, k).main, job)
  {
    NextEntry(s, rest, k);
    NextLanded(s, rest, k);
    NextNotTriage(s, rest, k);
    EntrySettled(s.w.redis, NextMessage(s, rest, k).main, job);
  }

  /** `MainSettled` looks only at the stream. */
  lemma SettledStable(r: Redis, r': Redis, m: Main, job: string)
    requires r.stream == r'.stream && MainSettled(r, m, job)
    ensures MainSettled(r', m, job)
  {
    assert forall id :: About(r, id, job) == About(r', id, job);
  }

  lemma MessageSettled(s: State, io: Io, reply: Reply, job: string)
    requires s.main.Processing? && Settled(s, job)
    ensures MainSettled(s.w.redis, MsgAdvance(s, s.main.f, s.main.rest, s.main.k, io, reply).main, job)
  {
    var f, rest, k := s.main.f, s.main.rest, s.main.k;
    var op := MsgOp(s.w.redis, f);
    var a := Ask(s.w.redis, op, io, reply);
    var work := FieldsOf(s.w.redis, f.id).work;
    var mv := MsgMove(s, f, io, reply);
    var s1 := s.(
      w := Noted(Do(s.w, op, io, reply), MsgNotes(f.id, JobOf(s.w.redis, f.id), work, f.pc, a, mv)),
      p := MsgLocal(s.p, JobOf(s.w.redis, f.id), f.pc, mv),
      calls := MsgCalls(s.calls, work, f.pc, a));
    if About(s.w.redis, f.id, job) { FrameSettled(s, io, reply, job); }
    NextSettled(s1, rest, k, job);
    DoStream(s.w, op, io, reply);
    SettledStable(s1.w.redis, s.w.redis, NextMessage(s1, rest, k).main, job);
    hide MsgOp, MsgNext, MsgNotes, MsgLocal, MsgCalls, Ask, Do, NextMessage, FieldsOf, JobOf, Delay, About;
  }

  lemma TriageSettled(s: State, io: Io, job: string)
    requires s.main.Triage? && Settled(s, job)
    ensures MainSettled(s.w.redis, TriageAdvance(s, s.main, io).main, job)
  {
    var m := s.main;
    var op := TriageOp(s.w.redis, m);
    var a := Ask(s.w.redis, op, io, Accepted);
    var mv := TriageMoveOf(s, io);
    var s1 := s.(w := Noted(Do(s.w, op, io, Accepted), TriageNotes(m.id, a, mv)));
    DoStream(s.w, op, io, Accepted);
    assert forall id :: About(s.w.redis, id, job) == About(s1.w.redis, id, job);
    TriageNextSettled(s1, m.todo, m.batch, m.parsed, m.tact, job);
    SettledStable(s1.w.redis, s.w.redis, TriageNext(s1, m.todo, m.batch, m.parsed, m.tact).main, job);
    if About(s.w.redis, m.id, job) {
      assert mv.TGo? ==> !mv.tpc.TCheck?;
      assert !mv.TKept?;
    } else {
      TriageNextSettled(s1, m.todo, m.batch, m.parsed + [m.id], m.tact, job);
      SettledStable(s1.w.redis, s.w.redis, TriageNext(s1, m.todo, m.batch, m.parsed + [m.id], m.tact).main, job);
    }
    hide TriageOp, TriageStep, TriageNotes, Ask, Do, TriageNext, FieldsOf, Delay, About;
  }

  lemma MarkSettled(s: State, io: Io, alt: bool, job: string)
    requires s.main.Marking? && Settled(s, job)
    ensures MainSettled(
              s.w.redis, MarkAdvance(s, s.main.todo, s.main.batch, s.main.parsed, s.main.tact, io, alt).main, job)
  {
    var m := s.main;
    if m.todo != [] {
      var op := SetStatus(m.tact, JobOf(s.w.redis, m.todo[0]), Executing);
      var s1 := s.(w := Do(s.w, op, io, Accepted));
      NextSettled(s1, m.batch, FallingBack, job);
      DoStream(s.w, op, io, Accepted);
      SettledStable(s1.w.redis, s.w.redis, NextMessage(s1, m.batch, FallingBack).main, job);
      hide NextMessage, Do, JobOf, Works, About;
    }
  }

  lemma ReadSettled(s: State, io: Io, alt: bool, job: string)
    requires s.main.Reading?
    ensures MainSettled(s.w.redis, ReadAdvance(s, io, alt).main, job)
  {
    var n := Available(s.w.redis, s.canBatch);
    var s1 := s.(w := s.w.(redis := ReadGroup(s.w.redis, n)));
    var s2 := s1.(p := s1.p.(healthy := true, failures := 0, slept := 0));
    var batch := Interval(s.w.redis.cursor, n);
    DispatchSettled(s2, batch, alt, job);
    SettledStable(s2.w.redis, s.w.redis, Dispatch(s2, batch, alt).main, job);
    hide Dispatch, Available, Interval, Delay, ReadGroup, About, Harmless, NoneAbout;
  }

  lemma JoinSettled(s: State, batch: seq<Id>, alt: bool, job: string)
    requires s.main == Joining(batch)
    ensures MainSettled(s.w.redis, JoinAdvance(s, batch, alt).main, job)
  {
    DispatchSettled(s, batch, alt, job);
    DispatchSettled(
      s.(delivery := None, drain := if s.drain.WaitDelivery? then Drained(true) else s.drain), batch, alt, job);
    hide Dispatch, Delay, About, Harmless, NoneAbout;
  }

  lemma RestSettled(s: State, io: Io, reply: Reply, alt: bool, job: string)
    requires !(s.main.Processing? || s.main.Triage? || s.main.Marking? || s.main.Reading? || s.main.Joining?)
    requires Settled(s, job)
    ensures MainSettled(s.w.redis, Advance(s, io, reply, alt).main, job)
  {
    match s.main
    case Running(batch, _) => NextSettled(s, batch, FallingBack, job); hide NextMessage, About, Harmless, NoneAbout;
    case Listing(boot) =>
      NextSettled(s, s.w.redis.pel[..Min(RECOVERY_COUNT, |s.w.redis.pel|)], Recovering(boot, 0), job);
      hide NextMessage, Delay, About, Harmless, NoneAbout;
    case _ => hide Delay, Malformed, About, NoneAbout;
  }

  lemma ResumeSettled(s: State, io: Io, reply: Reply, alt: bool, job: string)
    requires Settled(s, job)
    ensures MainSettled(s.w.redis, Advance(s, io, reply, alt).main, job)
  {
    match s.main
    case Processing(_, _, _) => MessageSettled(s, io, reply, job); hide MsgAdvance;
    case Triage(_, _, _, _, _, _) => TriageSettled(s, io, job); hide TriageAdvance;
    case Marking(_, _, _, _) => MarkSettled(s, io, alt, job); hide MarkAdvance;
    case Reading => ReadSettled(s, io, alt, job); hide ReadAdvance;
    case Joining(batch) => JoinSettled(s, batch, alt, job); hide JoinAdvance;
    case _ => RestSettled(s, io, reply, alt, job); hide Advance;
  }

  lemma MainStaysSettled(w: World, w': World, m: Main, job: string)
    requires Grows(w, w') && MainBelow(m, |w.redis.stream|) && MainSettled(w.redis, m, job)
    ensures MainSettled(w'.redis, m, job)
  {
    match m
    case Processing(f, _, _) => JobFixed(w, w', f.id, job);
    case Triage(id, _, _, _, parsed, _) => JobFixed(w, w', id, job); NoneFixed(w, w', parsed, job);
    case Marking(todo, _, parsed, _) => NoneFixed(w, w', todo, job); NoneFixed(w, w', parsed, job);
    case Running(_, parsed) => NoneFixed(w, w', parsed, job);
    case _ =>
  }

  lemma SettledStep(s: State, l: Label, job: string)
    requires Balanced(s) && Settled(s, job)
    ensures Settled(Step(s, l), job)
  {
    var s' := Step(s, l);
    StatusSettled(s, l, job);
    WorldGrows(s, l);
    CursorBelow(s);
    MainStaysSettled(s.w, s'.w, s.main, job);
    if l.Resume? {
      ResumeSettled(s, l.io, l.reply, l.alt, job);
      StreamFixed(s, l);
      SettledStable(s.w.redis, s'.w.redis, s'.main, job);
      hide Advance;
    } else {
      MainStep(s, l);
      OtherMain(s, l);
      hide Step;
    }
  }

  lemma OtherMain(s: State, l: Label)
    requires !l.Resume?
    ensures var m' := Step(s, l).main; m' == s.main || m'.Ended? || m'.Booting? || ThrownOut(s, l)
  {
    match l
    case ResumeChild(i, io, reply) => ChildMain(s, i, io, reply); hide Advance, ChildAdvance;
    case Gather => DrainMain(s); hide Advance, GatherAdvance;
    case DrainResume => DrainMain(s); hide Advance, DrainAdvance;
    case DrainTimeout => DrainMain(s); hide Advance, DrainGiveUp;
    case ForceCancel => AbortMain(s.(w := Noted(s.w, [Forced]))); hide Advance, CancelLast, Abort;
    case _ => hide Advance;
  }

  /** No executor call for `job` in the part of the history from `n` on. */
  ghost predicate NeverStarted(log: seq<Event>, n: nat, job: string) {
    forall k :: n <= k < |log| && log[k].Started? ==> job !in log[k].jobs
  }

  lemma NoStart(s: State, l: Label, job: string)
    requires Settled(s, job)
    ensures NeverStarted(Step(s, l).w.log, |s.w.log|, job)
  {
    LogStep(s, l);
    DoLog(s.w, OpOf(s, l), IoOf(l), ReplyOf(s, l));
    forall jobs | StartsNow(s, l, jobs) ensures job !in jobs {
      hide Step, OpOf;
    }
    hide Step, OpOf, Do, StartsNow;
  }

  lemma DoLog(w: World, op: Op, io: Io, reply: Reply)
    ensures Do(w, op, io, reply).log == w.log
            || (op.SetStatus? && Do(w, op, io, reply).log == w.log + [Wrote(op.act, op.job, op.st)])
  {
    hide Without;
  }

  lemma {:induction false} SettledRun(s: State, ls: seq<Label>, job: string)
    requires Balanced(s) && Settled(s, job)
    ensures Settled(Run(s, ls), job)
    ensures s.w.log <= Run(s, ls).w.log && NeverStarted(Run(s, ls).w.log, |s.w.log|, job)
    decreases |ls|
  {
    if ls != [] {
      var s1 := Step(s, ls[0]);
      BalancedStep(s, ls[0]);
      SettledStep(s, ls[0], job);
      NoStart(s, ls[0], job);
      WorldGrows(s, ls[0]);
      SettledRun(s1, ls[1..], job);
      hide Step, Settled, Balanced;
      var log := Run(s1, ls[1..]).w.log;
      forall k | |s.w.log| <= k < |log| && log[k].Started? ensures job !in log[k].jobs {
        if k < |s1.w.log| { assert log[k] == s1.w.log[k]; }
      }
    }
  }

  /** Once a job is `completed` or `cancelled` and the consume loop is not
      working on it, no redelivery, recovery pass, restart or batch ever starts
      the executor for it again, whatever else happens. */
  lemma NoReExecution(r: Redis, canBatch: bool, ls: seq<Label>, more: seq<Label>, job: string)
    requires NewGroup(r) && Settled(Run(Init(r, canBatch), ls), job)
    ensures var s := Run(Init(r, canBatch), ls);
            var s' := Run(s, more);
            Terminal(s'.w.redis, job) && NeverStarted(s'.w.log, |s.w.log|, job)
  {
    BalancedRun(Init(r, canBatch), ls);
    SettledRun(Run(Init(r, canBatch), ls), more, job);
  }
}
