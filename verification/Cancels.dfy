/** What a raised cancel flag brings about once it has been read. */
module Cancels {
  import opened Prelude
  import opened Webhook
  import opened Consumer
  import opened Effects
  import opened Ledger
  import opened Flight
  import opened Outcomes
  import opened Leftover
  import opened Witness

  // ---------------------------------------------------------------- the flag is obeyed

  /** Places a processing passes only on its way out: it runs nothing, reports nothing. */
  predicate Yielding(pc: MsgPc) {
    pc.MarkQueued? || pc.AckQueued? || pc.CancelHook? || pc.JoinCancelled? || pc.MarkCancelled? || pc.FinalAck?
  }

  /** From position `n` of the history on, a flag read for the message found the flag. */
  ghost predicate Found(log: seq<Event>, n: nat, id: Id) {
    exists k :: n <= k < |log| && log[k] == SawFlag(id)
  }

  lemma Yields(r: Redis, f: Frame, io: Io, reply: Reply, parsable: bool, call: Option<CallState>)
    ensures var a := Ask(r, MsgOp(r, f), io, reply);
            var mv := MsgNext(f.pc, a, parsable, call);
            mv.Go? && (Yielding(f.pc) || a == Flag(true)) ==> Yielding(mv.pc)
  {
    hide JobOf, Terminal;
  }

  lemma NotesFound(id: Id, job: string, w: Option<Work>, pc: MsgPc, a: Answer, mv: Move, e: Event)
    requires e in MsgNotes(id, job, w, pc, a, mv) && e.SawFlag?
    ensures a == Flag(true)
  {
  }

  /** While a processing goes on, the history gets its call and its notes. */
  lemma GoLog(s: State, io: Io, reply: Reply)
    requires s.main.Processing? && MsgMove(s, s.main.f, io, reply).Go?
    ensures var f, op := s.main.f, MsgOp(s.w.redis, s.main.f);
            var a := Ask(s.w.redis, op, io, reply);
            var work := FieldsOf(s.w.redis, f.id).work;
            MsgAdvance(s, f, s.main.rest, s.main.k, io, reply).w.log
            == Do(s.w, op, io, reply).log
               + MsgNotes(f.id, JobOf(s.w.redis, f.id), work, f.pc, a, MsgMove(s, f, io, reply))
  {
    hide MsgOp, MsgNext, MsgNotes, MsgLocal, MsgCalls, Ask, Do, FieldsOf, JobOf;
  }

  lemma DoFinds(w: World, op: Op, io: Io, reply: Reply)
    ensures var log := Do(w, op, io, reply).log;
            w.log <= log && forall k :: |w.log| <= k < |log| ==> log[k].Wrote?
  {
    hide Without;
  }

  /** The stretch that began at position `n` of the history has left the processing `act`, or obeys. */
  ghost predicate Obeys(s: State, n: nat, act: nat, id: Id) {
    && n <= |s.w.log| && act < s.w.acts
    && (ActOf(s.main) == Some(act) ==>
          s.main.Processing? && s.main.f.id == id && (Found(s.w.log, n, id) ==> Yielding(s.main.f.pc)))
  }

  lemma ObeysHere(s: State, l: Label, n: nat)
    requires IdleFits(s) && Numbered(s) && s.main.Processing? && Obeys(s, n, s.main.f.act, s.main.f.id)
    requires l.Resume? && Handling(Step(s, l), s.main.f.act)
    ensures Obeys(Step(s, l), n, s.main.f.act, s.main.f.id)
  {
    var f, s' := s.main.f, Step(s, l);
    var a := Ask(s.w.redis, MsgOp(s.w.redis, f), l.io, l.reply);
    var work := FieldsOf(s.w.redis, f.id).work;
    var mv := MsgMove(s, f, l.io, l.reply);
    ActsGrow(s, l);
    LogGrows(s, l);
    SameFrame(s, l);
    GoLog(s, l.io, l.reply);
    DoFinds(s.w, MsgOp(s.w.redis, f), l.io, l.reply);
    Yields(s.w.redis, f, l.io, l.reply, work.Some?, LastCall(s.calls));
    hide MsgNext, MsgNotes, MsgOp, Ask, FieldsOf, JobOf, LastCall, IdleFits, Numbered, Do, MsgAdvance, Yielding;
    if k :| n <= k < |s'.w.log| && s'.w.log[k] == SawFlag(f.id) && !Found(s.w.log, n, f.id) {
      NotesFound(f.id, JobOf(s.w.redis, f.id), work, f.pc, a, mv, s'.w.log[k]);
    }
  }

  lemma OthersFind(s: State, l: Label)
    requires s.delivery.None? && !l.Resume?
    ensures var log := Step(s, l).w.log;
            s.w.log <= log && forall k :: |s.w.log| <= k < |log| ==> !log[k].SawFlag?
  {
    hide Advance, CancelLast;
  }

  lemma OthersYield(s: State, l: Label)
    requires s.main.Processing? && !l.Resume? && !l.Crash?
    ensures var m := Step(s, l).main;
            m == s.main || m.Ended? || (m.Processing? && m.f.id == s.main.f.id && Yielding(m.f.pc))
  {
    match l
    case ResumeChild(i, io, reply) => ChildMain(s, i, io, reply); hide Advance, ChildAdvance;
    case Gather => DrainMain(s); hide Advance, GatherAdvance;
    case DrainResume => DrainMain(s); hide Advance, DrainAdvance;
    case DrainTimeout => hide Advance, StopAll;
    case _ => hide Advance;
  }

  lemma ObeysStep(s: State, l: Label, n: nat, act: nat, id: Id)
    requires IdleFits(s) && Numbered(s) && Obeys(s, n, act, id)
    ensures Obeys(Step(s, l), n, act, id)
  {
    var s' := Step(s, l);
    ActsGrow(s, l);
    LogGrows(s, l);
    MainNumbered(s, l);
    if ActOf(s'.main) == Some(act) {
      assert s.main.Processing? && s.main.f.act == act && s.main.f.id == id;
      if l.Resume? {
        SameFrame(s, l);
        ObeysHere(s, l, n);
      } else {
        OthersFind(s, l);
        OthersYield(s, l);
        NothingFound(s.w.log, s'.w.log, n, id);
      }
    }
    hide Step, Yielding, IdleFits, Numbered, Found;
  }

  lemma NothingFound(before: seq<Event>, after: seq<Event>, n: nat, id: Id)
    requires n <= |before| && before <= after
    requires forall k :: |before| <= k < |after| ==> !after[k].SawFlag?
    ensures Found(after, n, id) ==> Found(before, n, id)
  {
    if k :| n <= k < |after| && after[k] == SawFlag(id) { assert before[k] == SawFlag(id); }
  }

  lemma {:induction false} ObeysRun(s: State, ls: seq<Label>, n: nat, act: nat, id: Id)
    requires IdleFits(s) && Numbered(s) && Obeys(s, n, act, id)
    ensures Obeys(Run(s, ls), n, act, id)
    decreases |ls|
  {
    if ls != [] {
      ObeysStep(s, ls[0], n, act, id);
      IdleFitsStep(s, ls[0]);
      NumberedStep(s, ls[0]);
      ObeysRun(Step(s, ls[0]), ls[1..], n, act, id);
    }
    hide Step, IdleFits, Numbered, Obeys;
  }

  /** In every run: from the moment a flag read of a processing under way found the
      flag, that processing is never again waiting for the executor, checking or
      recording a result or sending anything, however the run goes on. */
  lemma FoundFlagIsObeyed(r: Redis, canBatch: bool, before: seq<Label>, ls: seq<Label>)
    requires Run(Init(r, canBatch), before).main.Processing?
    ensures var s := Run(Init(r, canBatch), before);
            var s' := Run(s, ls);
            Handling(s', s.main.f.act) && Found(s'.w.log, |s.w.log|, s.main.f.id) ==> Yielding(s'.main.f.pc)
  {
    var s := Run(Init(r, canBatch), before);
    OutcomesRun(Init(r, canBatch), before);
    assert Obeys(s, |s.w.log|, s.main.f.act, s.main.f.id);
    hide Run, Step, IdleFits, Numbered, OutcomesFit;
    ObeysRun(s, ls, |s.w.log|, s.main.f.act, s.main.f.id);
  }

  // ---------------------------------------------------------------- the executor call is cancelled

  ghost predicate Released(calls: seq<Call>, i: nat) {
    i < |calls| && !calls[i].st.Live?
  }

  /** Calls stay where they are; what was cancelled stays so, what has ended stays as it ended. */
  ghost predicate CallsKept(calls: seq<Call>, calls': seq<Call>) {
    && |calls| <= |calls'|
    && forall i :: 0 <= i < |calls| ==>
         (!calls[i].st.Live? ==> !calls'[i].st.Live?) && (calls[i].st.Over? ==> calls'[i] == calls[i])
  }

  lemma CallsKeep(s: State, l: Label)
    requires !l.Crash?
    ensures CallsKept(s.calls, Step(s, l).calls)
  {
    match l
    case Resume(io, reply, alt) => ResumeKeeps(s, io, reply, alt); hide Advance;
    case ResumeChild(_, _, _) => hide Advance, ChildOp, ChildNext, Ask, Do;
    case Gather => hide Advance, Children, AnyBroken, AllFinished;
    case _ => hide Advance, StopAll;
  }

  lemma ResumeKeeps(s: State, io: Io, reply: Reply, alt: bool)
    ensures CallsKept(s.calls, Advance(s, io, reply, alt).calls)
  {
    match s.main
    case Processing(f, _, _) => MessageKeeps(s, io, reply); hide MsgAdvance;
    case Triage(_, _, _, _, _, _) => TriageAdvanceLanded(s, io); hide TriageAdvance;
    case Marking(_, _, _, _) => MarkKeeps(s, io, alt); hide MarkAdvance;
    case Reading => ReadLanded(s, io, alt); hide ReadAdvance;
    case Joining(batch) => JoinLanded(s, batch, alt); hide JoinAdvance;
    case _ => RestKeeps(s, io, reply, alt); hide Advance;
  }

  lemma MarkKeeps(s: State, io: Io, alt: bool)
    requires s.main.Marking?
    ensures CallsKept(s.calls,
                      MarkAdvance(s, s.main.todo, s.main.batch, s.main.parsed, s.main.tact, io, alt).calls)
  {
    var m := s.main;
    if m.todo != [] {
      NextLanded(s.(w := Do(s.w, SetStatus(m.tact, JobOf(s.w.redis, m.todo[0]), Executing), io, Accepted)),
                 m.batch, FallingBack);
    }
    hide NextMessage, Do, JobOf, Works;
  }

  lemma RestKeeps(s: State, io: Io, reply: Reply, alt: bool)
    requires !(s.main.Processing? || s.main.Triage? || s.main.Marking? || s.main.Reading? || s.main.Joining?)
    ensures CallsKept(s.calls, Advance(s, io, reply, alt).calls)
  {
    match s.main
    case Running(batch, _) => NextLanded(s, batch, FallingBack); hide NextMessage;
    case Listing(boot) =>
      NextLanded(s, s.w.redis.pel[..Min(RECOVERY_COUNT, |s.w.redis.pel|)], Recovering(boot, 0));
      hide NextMessage, Delay;
    case _ => hide Delay, Malformed;
  }

  lemma MessageKeeps(s: State, io: Io, reply: Reply)
    requires s.main.Processing?
    ensures CallsKept(s.calls, MsgAdvance(s, s.main.f, s.main.rest, s.main.k, io, reply).calls)
  {
    MessageCalls(s, io, reply);
    hide MsgAdvance, FieldsOf, Ask, MsgOp;
  }

  lemma ReleasedStays(s: State, l: Label, i: nat)
    requires Released(s.calls, i) && !l.Crash?
    ensures Released(Step(s, l).calls, i)
  {
    CallsKeep(s, l);
    hide Step;
  }

  lemma MessageCalls(s: State, io: Io, reply: Reply)
    requires s.main.Processing?
    ensures var f := s.main.f;
            MsgAdvance(s, f, s.main.rest, s.main.k, io, reply).calls
            == MsgCalls(s.calls, FieldsOf(s.w.redis, f.id).work, f.pc, Ask(s.w.redis, MsgOp(s.w.redis, f), io, reply))
  {
    var f, rest, k := s.main.f, s.main.rest, s.main.k;
    var op := MsgOp(s.w.redis, f);
    var a := Ask(s.w.redis, op, io, reply);
    var work := FieldsOf(s.w.redis, f.id).work;
    var mv := MsgMove(s, f, io, reply);
    var s1 := s.(
      w := Noted(Do(s.w, op, io, reply), MsgNotes(f.id, JobOf(s.w.redis, f.id), work, f.pc, a, mv)),
      p := MsgLocal(s.p, JobOf(s.w.redis, f.id), f.pc, mv),
      calls := MsgCalls(s.calls, work, f.pc, a));
    if mv.Leave? { LeavingLanded(s1, rest, k, mv.escape); }
    hide MsgOp, MsgNext, MsgNotes, MsgLocal, MsgCalls, Ask, Do, FieldsOf, JobOf, Leaving;
  }

  /** The call at `i` is released, or the next step of the loop releases it. */
  ghost predicate Releasing(s: State, i: nat) {
    Released(s.calls, i) || (s.main.Processing? && s.main.f.pc.CancelHook? && i == |s.calls| - 1)
  }

  lemma ReleasingStep(s: State, l: Label, i: nat)
    requires Releasing(s, i) && !l.Crash?
    ensures Releasing(Step(s, l), i)
    ensures l.Resume? ==> Released(Step(s, l).calls, i)
  {
    if Released(s.calls, i) {
      ReleasedStays(s, l, i);
      hide Step;
    } else if l.Resume? {
      MessageCalls(s, l.io, l.reply);
      hide MsgAdvance, Ask, MsgOp, FieldsOf;
    } else {
      HookStays(s, l);
      hide Step;
    }
  }

  lemma HookStays(s: State, l: Label)
    requires s.main.Processing? && s.main.f.pc.CancelHook? && s.calls != [] && !l.Resume? && !l.Crash?
    ensures var s', i := Step(s, l), |s.calls| - 1;
            Released(s'.calls, i) || (s'.main == s.main && |s'.calls| == |s.calls|)
  {
    match l
    case ForceCancel => hide Advance;
    case DrainTimeout => hide Advance, StopAll;
    case _ => OthersKeepProcessing(s, l); hide Advance;
  }

  lemma {:induction false} ReleasingRun(s: State, ls: seq<Label>, i: nat)
    requires Releasing(s, i) && forall k :: 0 <= k < |ls| ==> !ls[k].Crash?
    ensures Releasing(Run(s, ls), i)
    ensures Released(s.calls, i) || (exists k :: 0 <= k < |ls| && ls[k].Resume?) ==> Released(Run(s, ls).calls, i)
    decreases |ls|
  {
    if ls != [] {
      var s' := Step(s, ls[0]);
      ReleasingStep(s, ls[0], i);
      if Released(s.calls, i) { ReleasedStays(s, ls[0], i); }
      ReleasingRun(s', ls[1..], i);
      if k :| 0 <= k < |ls| && ls[k].Resume? {
        if k > 0 { assert ls[1..][k - 1].Resume?; }
      }
    }
    hide Step, Releasing, Released;
  }

  /** In every run: when the polling loop reads the flag and finds it, its executor
      call is cancelled by the second step of the loop from there, whether or not
      the executor has ended or ever ends, and it stays so. */
  lemma FoundFlagCancelsTheCall(r: Redis, canBatch: bool, before: seq<Label>, l: Label, ls: seq<Label>)
    requires var s := Run(Init(r, canBatch), before);
             && s.main.Processing? && s.main.f.pc.CheckPolling?
             && JobOf(s.w.redis, s.main.f.id) in s.w.redis.flags
    requires l.Resume? && l.io.Fine?
    requires (forall k :: 0 <= k < |ls| ==> !ls[k].Crash?) && exists k :: 0 <= k < |ls| && ls[k].Resume?
    ensures var s := Run(Init(r, canBatch), before);
            var s' := Run(Step(s, l), ls);
            0 < |s.calls| <= |s'.calls| && !s'.calls[|s.calls| - 1].st.Live?
  {
    var s := Run(Init(r, canBatch), before);
    FlightRun(Init(r, canBatch), before);
    assert s.calls != [];
    HookNext(s, l);
    hide Run, Step, IdleFits, CallsFit;
    ReleasingRun(Step(s, l), ls, |s.calls| - 1);
  }

  lemma HookNext(s: State, l: Label)
    requires s.main.Processing? && s.main.f.pc.CheckPolling? && l.Resume? && l.io.Fine?
    requires s.calls != [] && JobOf(s.w.redis, s.main.f.id) in s.w.redis.flags
    ensures Releasing(Step(s, l), |s.calls| - 1)
  {
    var f := s.main.f;
    MessageCalls(s, l.io, l.reply);
    MessageControl(s, f, s.main.rest, s.main.k, l.io, l.reply);
    hide MsgAdvance, FieldsOf, JobOf, LastCall, Malformed;
  }

  // ---------------------------------------------------------------- the executor is waited for

  /** The loop is still at `m`, waiting for the call at `i`, or the call has ended, or
      the processing is over. */
  ghost predicate Awaits(s: State, m: Main, i: nat)
    requires m.Processing?
  {
    && m.f.act < s.w.acts && i < |s.calls|
    && (ActOf(s.main) == Some(m.f.act) ==> s.calls[i].st.Over? || (s.main == m && i == |s.calls| - 1))
  }

  lemma JoinStays(s: State, l: Label)
    requires s.main.Processing? && s.main.f.pc.JoinCancelled? && s.calls != [] && !l.Crash?
    ensures var s', i := Step(s, l), |s.calls| - 1;
            s'.calls[i].st.Over? || (s'.main == s.main && |s'.calls| == |s.calls|) || s'.main.Ended?
  {
    CallsKeep(s, l);
    match l
    case Resume(io, reply, _) =>
      MessageCalls(s, io, reply);
      MessageControl(s, s.main.f, s.main.rest, s.main.k, io, reply);
      hide MsgAdvance, FieldsOf, JobOf, Malformed;
    case ForceCancel => hide Advance;
    case DrainTimeout => hide Advance, StopAll;
    case _ => OthersKeepProcessing(s, l); hide Advance;
  }

  lemma AwaitsStep(s: State, l: Label, m: Main, i: nat)
    requires m.Processing? && m.f.pc.JoinCancelled? && Numbered(s) && Awaits(s, m, i) && !l.Crash?
    ensures Awaits(Step(s, l), m, i)
  {
    CallsKeep(s, l);
    ActsGrow(s, l);
    MainNumbered(s, l);
    if ActOf(Step(s, l).main) == Some(m.f.act) && !s.calls[i].st.Over? { JoinStays(s, l); }
    hide Step, Numbered;
  }

  lemma {:induction false} AwaitsRun(s: State, ls: seq<Label>, m: Main, i: nat)
    requires m.Processing? && m.f.pc.JoinCancelled? && Numbered(s) && Awaits(s, m, i)
    requires forall k :: 0 <= k < |ls| ==> !ls[k].Crash?
    ensures Awaits(Run(s, ls), m, i)
    decreases |ls|
  {
    if ls != [] {
      AwaitsStep(s, ls[0], m, i);
      NumberedStep(s, ls[0]);
      AwaitsRun(Step(s, ls[0]), ls[1..], m, i);
    }
    hide Step, Numbered, Awaits;
  }

  /** In every run: a processing that has cancelled its executor call waits for it. It
      goes no further, so writes nothing, before that call has ended. */
  lemma CancelledCallIsAwaited(r: Redis, canBatch: bool, before: seq<Label>, ls: seq<Label>)
    requires var s := Run(Init(r, canBatch), before); s.main.Processing? && s.main.f.pc.JoinCancelled?
    requires forall k :: 0 <= k < |ls| ==> !ls[k].Crash?
    ensures var s := Run(Init(r, canBatch), before);
            var s' := Run(s, ls);
            && 0 < |s.calls| <= |s'.calls|
            && (Handling(s', s.main.f.act) && !s'.calls[|s.calls| - 1].st.Over? ==> s'.main == s.main)
  {
    var s := Run(Init(r, canBatch), before);
    FlightRun(Init(r, canBatch), before);
    OutcomesRun(Init(r, canBatch), before);
    hide Run, Step, IdleFits, OutcomesFit;
    assert s.calls != [];
    assert Awaits(s, s.main, |s.calls| - 1);
    hide Numbered, CallsFit, Awaits;
    AwaitsRun(s, ls, s.main, |s.calls| - 1);
    AwaitsMeans(Run(s, ls), s.main, |s.calls| - 1);
  }

  lemma AwaitsMeans(s: State, m: Main, i: nat)
    requires m.Processing? && Awaits(s, m, i)
    ensures i < |s.calls| && (Handling(s, m.f.act) && !s.calls[i].st.Over? ==> s.main == m)
  {
  }

  // ---------------------------------------------------------------- the whole way out

  /** Three steps of the loop: the poll that finds the flag, the hook, the wait for the executor. */
  lemma PollToJoin(s: State)
    requires s.main.Processing? && s.main.f.pc.CheckPolling? && s.calls != []
    requires JobOf(s.w.redis, s.main.f.id) in s.w.redis.flags
    ensures var s' := Step(Step(s, OK), OK);
            && s'.main == s.main.(f := s.main.f.(pc := JoinCancelled))
            && s'.w.redis == s.w.redis && s'.w.posts == s.w.posts && s'.w.acked == s.w.acked
            && |s'.calls| == |s.calls|
  {
    var s1 := Step(s, OK);
    assert s1.main == s.main.(f := s.main.f.(pc := CancelHook)) && s1.w.redis == s.w.redis && s1.calls == s.calls
           && s1.w.posts == s.w.posts && s1.w.acked == s.w.acked by {
      hide FieldsOf, JobOf, LastCall;
    }
    hide FieldsOf, JobOf, LastCall;
  }

  lemma JoinToMark(s: State, end: CallEnd)
    requires s.main.Processing? && s.main.f.pc.JoinCancelled? && s.calls != []
    ensures var s' := Step(Step(s, Finish(|s.calls| - 1, end)), OK);
            && s'.main == s.main.(f := s.main.f.(pc := MarkCancelled))
            && s'.w.redis == s.w.redis && s'.w.posts == s.w.posts && s'.w.acked == s.w.acked
  {
    var s1 := Step(s, Finish(|s.calls| - 1, end));
    assert s1.main == s.main && s1.w == s.w && LastCall(s1.calls).Some? && LastCall(s1.calls).value.Over? by {
      hide Advance;
    }
    hide FieldsOf, JobOf, LastCall;
  }

  /** `s'` follows `s` with the job of the processing in `s` cancelled and nothing reported. */
  ghost predicate CancelledSince(s: State, s': State)
    requires s.main.Processing?
  {
    var f := s.main.f;
    && s'.w.redis.status == s.w.redis.status[JobOf(s.w.redis, f.id) := Cancelled]
    && s'.w.redis.pel == Without(s.w.redis.pel, f.id) && f.id in s'.w.acked
    && s'.w.posts == s.w.posts && s'.p.idle && s'.p.current.None?
  }

  lemma MarksCancelled(s: State)
    requires s.main.Processing? && s.main.f.pc.MarkCancelled?
    ensures var s1, f := Step(s, OK), s.main.f;
            && s1.main == s.main.(f := f.(pc := FinalAck(NoEscape)))
            && s1.w.posts == s.w.posts
            && s1.w.redis == s.w.redis.(status := s.w.redis.status[JobOf(s.w.redis, f.id) := Cancelled])
  {
    hide FieldsOf, LastCall, JobOf;
  }

  lemma FinallyAcks(s: State)
    requires s.main.Processing? && s.main.f.pc == FinalAck(NoEscape)
    ensures var s' := Step(s, OK);
            && s'.w.redis == s.w.redis.(pel := Without(s.w.redis.pel, s.main.f.id))
            && s.main.f.id in s'.w.acked && s'.w.posts == s.w.posts
  {
    MessageCarries(s, s.main.f, s.main.rest, s.main.k, Fine, Accepted);
    hide FieldsOf, LastCall, JobOf, Without, MsgAdvance;
  }

  lemma MarkToLeave(s: State)
    requires s.main.Processing? && s.main.f.pc.MarkCancelled?
    ensures CancelledSince(s, Step(Step(s, OK), OK))
  {
    MarksCancelled(s);
    FinallyAcks(Step(s, OK));
    LeavingSets(Step(s, OK));
    hide Step, JobOf, Without;
  }

  lemma LeavingSets(s: State)
    requires s.main.Processing? && s.main.f.pc == FinalAck(NoEscape)
    ensures Step(s, OK).p.idle && Step(s, OK).p.current.None?
  {
    NextLanded(s, s.main.rest, s.main.k);
    hide FieldsOf, LastCall, JobOf, Without, Malformed, Do;
  }

  /** The poll that finds the flag, the hook, the end of the executor in whatever way,
      and the two writes. */
  function WayOut(s: State, end: CallEnd): seq<Label>
    requires s.calls != []
  {
    [OK, OK] + [Finish(|s.calls| - 1, end), OK] + [OK, OK]
  }

  lemma WayOutSteps(s: State, end: CallEnd)
    requires s.calls != []
    ensures Run(s, WayOut(s, end))
         == Step(Step(Step(Step(Step(Step(s, OK), OK), Finish(|s.calls| - 1, end)), OK), OK), OK)
  {
    var last := Finish(|s.calls| - 1, end);
    RunTwo(s, OK, OK);
    RunTwo(Run(s, [OK, OK]), last, OK);
    RunTwo(Run(Run(s, [OK, OK]), [last, OK]), OK, OK);
    RunJoins(s, [OK, OK], [last, OK]);
    RunJoins(s, [OK, OK] + [last, OK], [OK, OK]);
    hide Run, Step;
  }

  lemma CancelledSinceBefore(s: State, s4: State, s': State)
    requires s.main.Processing? && s4.main.Processing? && s4.main.f.id == s.main.f.id && CancelledSince(s4, s')
    requires s4.w.redis == s.w.redis && s4.w.posts == s.w.posts
    ensures CancelledSince(s, s')
  {
    hide JobOf, Without;
  }

  lemma PolledJobEnds(s: State, end: CallEnd)
    requires s.main.Processing? && s.main.f.pc.CheckPolling? && s.calls != []
    requires JobOf(s.w.redis, s.main.f.id) in s.w.redis.flags
    ensures CancelledSince(s, Run(s, WayOut(s, end)))
  {
    hide *;
    var s2 := Step(Step(s, OK), OK);
    PollToJoin(s);
    var s4 := Step(Step(s2, Finish(|s.calls| - 1, end)), OK);
    JoinToMark(s2, end);
    MarkToLeave(s4);
    CancelledSinceBefore(s, s4, Step(Step(s4, OK), OK));
    WayOutSteps(s, end);
  }

  /** In every run: a job whose flag is up when it is polled ends `cancelled` and
      acknowledged with nothing posted, as soon as its executor call ends. */
  lemma CancelledJobEnds(r: Redis, canBatch: bool, before: seq<Label>, end: CallEnd)
    requires var s := Run(Init(r, canBatch), before);
             && s.main.Processing? && s.main.f.pc.CheckPolling?
             && JobOf(s.w.redis, s.main.f.id) in s.w.redis.flags
    ensures var s := Run(Init(r, canBatch), before);
            s.calls != [] && CancelledSince(s, Run(s, WayOut(s, end)))
  {
    var s := Run(Init(r, canBatch), before);
    FlightRun(Init(r, canBatch), before);
    assert s.calls != [];
    hide IdleFits, CallsFit, Run, Step, CancelledSince;
    PolledJobEnds(s, end);
  }
}
