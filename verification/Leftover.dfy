/** Which messages a processing or a triage leaves pending. */
module Leftover {
  import opened Prelude
  import opened Webhook
  import opened Consumer
  import opened Effects
  import opened Ledger
  import opened Flight
  import opened Safety
  import opened Outcomes
  import opened Routing

  // ---------------------------------------------------------------- what a stretch of a run did

  ghost predicate XackTried(s: State, ls: seq<Label>, id: Id)
    decreases |ls|
  {
    ls != [] && (OpOf(s, ls[0]) == AckMessage(id) || XackTried(Step(s, ls[0]), ls[1..], id))
  }

  ghost predicate XackLanded(s: State, ls: seq<Label>, id: Id)
    decreases |ls|
  {
    && ls != []
    && ((OpOf(s, ls[0]) == AckMessage(id) && Lands(IoOf(ls[0]))) || XackLanded(Step(s, ls[0]), ls[1..], id))
  }

  /** The reads before the `try` of `_process_message`. */
  predicate EarlyRead(pc: MsgPc) {
    pc.ReadStatus? || pc.CheckQueued?
  }

  predicate LosesRead(s: State, l: Label) {
    l.Resume? && l.io.Lost? && s.main.Processing? && EarlyRead(s.main.f.pc)
  }

  ghost predicate ReadLost(s: State, ls: seq<Label>)
    decreases |ls|
  {
    ls != [] && (LosesRead(s, ls[0]) || ReadLost(Step(s, ls[0]), ls[1..]))
  }

  /** A message leaves the pending list exactly by an XACK that lands. */
  lemma PendingStep(s: State, l: Label, id: Id)
    requires !Reads(s, l)
    ensures id in Step(s, l).w.redis.pel <==>
            id in s.w.redis.pel && !(OpOf(s, l) == AckMessage(id) && Lands(IoOf(l)))
  {
    WorldStep(s, l);
    ReadsNothing(s, l);
    hide Step, OpOf, Available;
  }

  // ---------------------------------------------------------------- one processing

  predicate Handling(s: State, act: nat) {
    s.main.Processing? && s.main.f.act == act
  }

  /** The run stays in the processing `act` until it is left, with neither a crash
      nor a cancellation of the consumer. */
  ghost predicate HandledBy(s: State, ls: seq<Label>, act: nat)
    decreases |ls|
  {
    if !Handling(s, act) then ls == []
    else ls != [] && !ls[0].Crash? && !ls[0].ForceCancel? && HandledBy(Step(s, ls[0]), ls[1..], act)
  }

  /** A processing is left by acknowledging, or by a lost early read and nothing else. */
  lemma LeavesExactly(r: Redis, f: Frame, io: Io, reply: Reply, parsable: bool, call: Option<CallState>)
    ensures var op := MsgOp(r, f);
            var mv := MsgNext(f.pc, Ask(r, op, io, reply), parsable, call);
            var lost := EarlyRead(f.pc) && io.Lost?;
            && (op.AckMessage? ==> op.id == f.id)
            && (mv.Go? ==> !op.AckMessage? && !lost)
            && (mv.Leave? ==> (op.AckMessage? <==> !lost))
  {
    hide JobOf, Terminal;
  }

  lemma OthersKeepProcessing(s: State, l: Label)
    requires s.main.Processing? && !l.Resume? && !l.Crash? && !l.ForceCancel?
    ensures Step(s, l).main == s.main
  {
    match l
    case ResumeChild(i, io, reply) => ChildMain(s, i, io, reply); hide Advance, ChildAdvance;
    case Gather => DrainMain(s); hide Advance, GatherAdvance;
    case DrainResume => DrainMain(s); hide Advance, DrainAdvance;
    case DrainTimeout => hide Advance, StopAll;
    case _ => hide Advance;
  }

  /** One step of a processing: it goes on, or it is left and done with. */
  lemma HandlingStep(s: State, l: Label)
    requires IdleFits(s) && Numbered(s) && s.main.Processing? && !l.Crash? && !l.ForceCancel?
    ensures var f, s' := s.main.f, Step(s, l);
            if Handling(s', f.act) then s'.main.f.id == f.id && !OpOf(s, l).AckMessage? && !LosesRead(s, l)
            else (OpOf(s, l) == AckMessage(f.id) <==> !LosesRead(s, l))
  {
    var f := s.main.f;
    if l.Resume? {
      LeavesExactly(s.w.redis, f, l.io, l.reply, FieldsOf(s.w.redis, f.id).work.Some?, LastCall(s.calls));
      MessageControl(s, f, s.main.rest, s.main.k, l.io, l.reply);
      if Handling(Step(s, l), f.act) { SameFrame(s, l); }
      hide MsgAdvance, MsgNext, MsgOp, Ask, FieldsOf, LastCall, Malformed, IdleFits;
    } else {
      OthersKeepProcessing(s, l);
      OnlyItself(s, l);
      hide Step, OpOf;
    }
  }

  lemma {:induction false} HandledRun(s: State, ls: seq<Label>, act: nat)
    requires IdleFits(s) && Numbered(s) && Handling(s, act) && HandledBy(s, ls, act)
    ensures var id := s.main.f.id;
            && (XackTried(s, ls, id) <==> !ReadLost(s, ls))
            && (id in Run(s, ls).w.redis.pel <==> id in s.w.redis.pel && !XackLanded(s, ls, id))
    decreases |ls|
  {
    var l, s', id := ls[0], Step(s, ls[0]), s.main.f.id;
    HandlingStep(s, l);
    PendingStep(s, l, id);
    if Handling(s', act) {
      IdleFitsStep(s, l);
      NumberedStep(s, l);
      HandledRun(s', ls[1..], act);
    } else {
      assert ls[1..] == [];
    }
    hide Step, OpOf, IdleFits, Numbered, LosesRead;
  }

  /** In every run: a processing that is left, other than by a crash or a
      cancellation of the consumer, had its XACK attempted if and only if neither
      its status read nor its first flag read was lost, and its message is out of
      the pending list if and only if that XACK landed, unless it was out before. */
  lemma AckedUnlessReadLost(r: Redis, canBatch: bool, before: seq<Label>, ls: seq<Label>)
    requires var s := Run(Init(r, canBatch), before); s.main.Processing? && HandledBy(s, ls, s.main.f.act)
    ensures var s := Run(Init(r, canBatch), before);
            var id := s.main.f.id;
            && (XackTried(s, ls, id) <==> !ReadLost(s, ls))
            && (id in Run(s, ls).w.redis.pel <==> id in s.w.redis.pel && !XackLanded(s, ls, id))
  {
    var s := Run(Init(r, canBatch), before);
    OutcomesRun(Init(r, canBatch), before);
    HandledRun(s, ls, s.main.f.act);
    hide Run, Step, IdleFits, Numbered, OutcomesFit;
  }

  // ---------------------------------------------------------------- triage

  /** The messages of the batch that triage has not acknowledged: kept ones, the
      one it looks at, and those it has not looked at. */
  function Remaining(m: Main): seq<Id>
    requires m.Triage?
  {
    m.parsed + [m.id] + m.todo
  }

  ghost predicate AllPending(ids: seq<Id>, pel: seq<Id>) {
    forall i :: 0 <= i < |ids| ==> ids[i] in pel
  }

  /** No delivery under way is about one of the messages. */
  ghost predicate Apart(ids: seq<Id>, d: Option<Delivery>) {
    d.Some? ==>
      && (forall i, j :: 0 <= i < |ids| && 0 <= j < |d.value.parsed| ==> ids[i] != d.value.parsed[j])
      && (forall i, j :: 0 <= i < |ids| && 0 <= j < |d.value.tasks| ==> ids[i] != d.value.tasks[j].id)
  }

  /** What the loop has read but not dealt with is in order and pending. */
  ghost predicate ReadAhead(s: State) {
    match s.main
    case Joining(batch) => Ascending(batch) && AllPending(batch, s.w.redis.pel) && Apart(batch, s.delivery)
    case Triage(_, _, _, _, _, _) => Ascending(Remaining(s.main)) && AllPending(Remaining(s.main), s.w.redis.pel)
    case _ => true
  }

  lemma AscendingTail(parsed: seq<Id>, id: Id, todo: seq<Id>)
    requires Ascending(parsed + [id] + todo)
    ensures Ascending(parsed + todo)
    ensures id !in parsed && id !in todo
  {
    var all := parsed + [id] + todo;
    var n := |parsed|;
    assert all[n] == id;
    forall i | 0 <= i < |parsed| ensures parsed[i] != id { assert all[i] == parsed[i]; }
    forall i | 0 <= i < |todo| ensures todo[i] != id { assert all[n + 1 + i] == todo[i]; }
    var rest := parsed + todo;
    forall i, j | 0 <= i < j < |rest| ensures rest[i] < rest[j] {
      var i', j' := if i < n then i else i + 1, if j < n then j else j + 1;
      assert all[i'] == rest[i] && all[j'] == rest[j];
    }
  }

  lemma TriageNextAhead(s: State, todo: seq<Id>, batch: seq<Id>, parsed: seq<Id>, act: nat)
    requires Ascending(parsed + todo) && AllPending(parsed + todo, s.w.redis.pel)
    ensures ReadAhead(TriageNext(s, todo, batch, parsed, act))
  {
    if todo != [] { assert parsed + [todo[0]] + todo[1..] == parsed + todo; }
    hide Malformed;
  }

  lemma DispatchAhead(s: State, batch: seq<Id>, due: bool)
    requires Ascending(batch) && AllPending(batch, s.w.redis.pel)
    ensures ReadAhead(Dispatch(s, batch, due))
  {
    var s1 := s.(w := s.w.(acts := s.w.acts + 1));
    assert [] + batch == batch;
    TriageNextAhead(s1, batch, batch, [], s.w.acts);
    NextNotTriage(s, batch, Dispatching);
    NextLanded(s, batch, Dispatching);
    hide TriageNext, NextMessage;
  }

  /** A fresh read is above everything a delivery can be about. */
  lemma IntervalAhead(r: Redis, n: nat, d: Option<Delivery>)
    requires DeliveryBelow(d, r.cursor)
    ensures var batch := Interval(r.cursor, n);
            Ascending(batch) && AllPending(batch, ReadGroup(r, n).pel) && Apart(batch, d)
  {
    var batch := Interval(r.cursor, n);
    forall i | 0 <= i < n ensures batch[i] in ReadGroup(r, n).pel {
      assert ReadGroup(r, n).pel[|r.pel| + i] == batch[i];
    }
  }

  lemma ReadingAhead(s: State, io: Io, alt: bool)
    requires Balanced(s) && s.main.Reading?
    ensures ReadAhead(ReadAdvance(s, io, alt))
  {
    var n := Available(s.w.redis, s.canBatch);
    var batch := Interval(s.w.redis.cursor, n);
    var s1 := s.(w := s.w.(redis := ReadGroup(s.w.redis, n)));
    var s2 := s1.(p := s1.p.(healthy := true, failures := 0, slept := 0));
    IntervalAhead(s.w.redis, n, s.delivery);
    DispatchAhead(s2, batch, alt);
    hide Dispatch, Available, Interval, ReadGroup, Delay, RedisBalanced, Apart, AllPending;
  }

  lemma JoiningAhead(s: State, batch: seq<Id>, alt: bool)
    requires ReadAhead(s) && s.main == Joining(batch)
    ensures ReadAhead(JoinAdvance(s, batch, alt))
  {
    var s1 := s.(delivery := None, drain := if s.drain.WaitDelivery? then Drained(true) else s.drain);
    DispatchAhead(s, batch, alt);
    DispatchAhead(s1, batch, alt);
    hide Dispatch, Delay;
  }

  /** Triage acknowledges only the message it looks at, and only when it is done with it. */
  lemma TriageStepAcks(s: State, io: Io)
    requires s.main.Triage?
    ensures var op, mv := TriageOp(s.w.redis, s.main), TriageMoveOf(s, io);
            && (op.AckMessage? ==> op.id == s.main.id)
            && (mv.TDropped? <==> op.AckMessage?)
            && (mv.TEscaped? <==> (s.main.tpc.TReadStatus? || s.main.tpc.TCheck?) && io.Lost?)
  {
    hide JobOf, FieldsOf, Terminal;
  }

  lemma TriageAhead(s: State, io: Io)
    requires ReadAhead(s) && s.main.Triage?
    ensures ReadAhead(TriageAdvance(s, s.main, io))
  {
    var m := s.main;
    var op := TriageOp(s.w.redis, m);
    var a := Ask(s.w.redis, op, io, Accepted);
    var mv := TriageMoveOf(s, io);
    var s1 := s.(w := Noted(Do(s.w, op, io, Accepted), TriageNotes(m.id, a, mv)));
    TriageStepAcks(s, io);
    AscendingTail(m.parsed, m.id, m.todo);
    DoPel(s.w, op, io);
    assert forall i :: 0 <= i < |m.parsed| ==> Remaining(m)[i] == m.parsed[i];
    assert forall i :: 0 <= i < |m.todo| ==> Remaining(m)[|m.parsed| + 1 + i] == m.todo[i];
    if mv.TDropped? {
      assert AllPending(m.parsed + m.todo, s1.w.redis.pel);
      TriageNextAhead(s1, m.todo, m.batch, m.parsed, m.tact);
    } else if mv.TKept? {
      TriageNextAhead(s1, m.todo, m.batch, m.parsed + [m.id], m.tact);
    }
    hide TriageOp, TriageStep, TriageNotes, Ask, Do, TriageNext, FieldsOf, Delay, Ascending;
  }

  lemma DoPel(w: World, op: Op, io: Io)
    ensures var pel := Do(w, op, io, Accepted).redis.pel;
            && (!op.AckMessage? ==> pel == w.redis.pel)
            && (op.AckMessage? ==> forall x :: x in w.redis.pel && x != op.id ==> x in pel)
  {
  }

  lemma RestAhead(s: State, io: Io, reply: Reply, alt: bool)
    requires s.main.Booting? || s.main.Listing? || s.main.Fetching? || s.main.Running? || s.main.Sleeping?
             || s.main.Ended?
    ensures var m' := Advance(s, io, reply, alt).main; !m'.Joining? && !m'.Triage?
  {
    match s.main
    case Running(batch, _) =>
      NextNotTriage(s, batch, FallingBack);
      NextLanded(s, batch, FallingBack);
      hide NextMessage;
    case Listing(boot) =>
      var ids := s.w.redis.pel[..Min(RECOVERY_COUNT, |s.w.redis.pel|)];
      NextNotTriage(s, ids, Recovering(boot, 0));
      NextLanded(s, ids, Recovering(boot, 0));
      hide NextMessage, Delay;
    case _ => hide Malformed, Delay;
  }

  lemma MessageAhead(s: State, io: Io, reply: Reply)
    requires s.main.Processing?
    ensures var m' := MsgAdvance(s, s.main.f, s.main.rest, s.main.k, io, reply).main; !m'.Joining? && !m'.Triage?
  {
    var f, rest, k := s.main.f, s.main.rest, s.main.k;
    var op := MsgOp(s.w.redis, f);
    var a := Ask(s.w.redis, op, io, reply);
    var work := FieldsOf(s.w.redis, f.id).work;
    var mv := MsgMove(s, f, io, reply);
    var s1 := s.(
      w := Noted(Do(s.w, op, io, reply), MsgNotes(f.id, JobOf(s.w.redis, f.id), work, f.pc, a, mv)),
      p := MsgLocal(s.p, JobOf(s.w.redis, f.id), f.pc, mv),
      calls := MsgCalls(s.calls, work, f.pc, a));
    NextNotTriage(s1, rest, k);
    NextLanded(s1, rest, k);
    hide MsgNext, MsgNotes, MsgLocal, MsgCalls, MsgOp, Ask, Do, FieldsOf, JobOf, NextMessage, Delay;
  }

  lemma MarkAhead(s: State, io: Io, alt: bool)
    requires s.main.Marking?
    ensures var m' := MarkAdvance(s, s.main.todo, s.main.batch, s.main.parsed, s.main.tact, io, alt).main;
            !m'.Joining? && !m'.Triage?
  {
    hide Do, Works, Jobs, JobOf, Malformed;
  }

  lemma ResumeAhead(s: State, io: Io, reply: Reply, alt: bool)
    requires Balanced(s) && ReadAhead(s)
    ensures ReadAhead(Advance(s, io, reply, alt))
  {
    match s.main
    case Reading => ReadingAhead(s, io, alt); hide ReadAdvance, ReadAhead;
    case Joining(batch) => JoiningAhead(s, batch, alt); hide JoinAdvance, ReadAhead;
    case Triage(_, _, _, _, _, _) => TriageAhead(s, io); hide TriageAdvance, ReadAhead;
    case Processing(_, _, _) => MessageAhead(s, io, reply); hide MsgAdvance;
    case Marking(_, _, _, _) => MarkAhead(s, io, alt); hide MarkAdvance;
    case _ => RestAhead(s, io, reply, alt); hide Advance;
  }

  lemma OthersAhead(s: State, l: Label)
    requires Balanced(s) && IdleFits(s) && ReadAhead(s) && !l.Resume?
    ensures ReadAhead(Step(s, l))
  {
    var s' := Step(s, l);
    OtherMain(s, l);
    if s'.main == s.main && s.main.Joining? {
      var batch := s.main.batch;
      forall i | 0 <= i < |batch| ensures batch[i] in s'.w.redis.pel {
        PendingStep(s, l, batch[i]);
        ActsApart(s, l, batch, i);
      }
      DeliverySource(s, l);
      hide Step, OpOf, Ascending;
    } else if s'.main == s.main && s.main.Triage? {
      OpQuiet(s, l);
      var ids := Remaining(s.main);
      forall i | 0 <= i < |ids| ensures ids[i] in s'.w.redis.pel { PendingStep(s, l, ids[i]); }
      hide Step, OpOf, Ascending;
    }
    hide Step;
  }

  lemma ActsApart(s: State, l: Label, batch: seq<Id>, i: nat)
    requires Apart(batch, s.delivery) && i < |batch| && !l.Resume?
    ensures OpOf(s, l) != AckMessage(batch[i])
  {
    hide JobOf;
  }

  lemma OpQuiet(s: State, l: Label)
    requires IdleFits(s) && s.main.Triage? && !l.Resume?
    ensures OpOf(s, l).Nothing?
  {
  }

  lemma AheadStep(s: State, l: Label)
    requires Balanced(s) && IdleFits(s) && ReadAhead(s)
    ensures ReadAhead(Step(s, l))
  {
    if l.Resume? {
      ResumeAhead(s, l.io, l.reply, l.alt);
      hide Advance, ReadAhead;
    } else {
      OthersAhead(s, l);
      hide Step, ReadAhead;
    }
  }

  lemma {:induction false} AheadRun(s: State, ls: seq<Label>)
    requires Balanced(s) && IdleFits(s) && ReadAhead(s)
    ensures ReadAhead(Run(s, ls))
    decreases |ls|
  {
    if ls != [] {
      BalancedStep(s, ls[0]);
      IdleFitsStep(s, ls[0]);
      AheadStep(s, ls[0]);
      AheadRun(Step(s, ls[0]), ls[1..]);
    }
    hide Step, Balanced, IdleFits, ReadAhead;
  }

  /** In every run: triage is left early if and only if its status or flag read is
      lost, and then every message it has not acknowledged stays pending, the
      ones it had decided to keep included, and nothing of the batch is run. */
  lemma LostTriageReadLeavesRest(r: Redis, canBatch: bool, before: seq<Label>, l: Label, x: Id)
    requires NewGroup(r) && l.Resume? && Run(Init(r, canBatch), before).main.Triage?
    ensures var s := Run(Init(r, canBatch), before);
            var s' := Step(s, l);
            var lost := (s.main.tpc.TReadStatus? || s.main.tpc.TCheck?) && l.io.Lost?;
            && (lost <==> s'.main.Sleeping? || (s'.main.Ended? && s'.p.failures > s.p.failures))
            && (lost && x in Remaining(s.main) ==> x in s'.w.redis.pel)
            && (lost ==> s'.w.redis == s.w.redis && s'.calls == s.calls)
  {
    var s := Run(Init(r, canBatch), before);
    BalancedRun(Init(r, canBatch), before);
    FlightRun(Init(r, canBatch), before);
    AheadRun(Init(r, canBatch), before);
    TriageStepAcks(s, l.io);
    EscapeEffect(s, l.io);
    if x in Remaining(s.main) {
      var i :| 0 <= i < |Remaining(s.main)| && Remaining(s.main)[i] == x;
    }
    hide Run, TriageAdvance, Balanced, IdleFits, CallsFit, TriageOp, TriageMoveOf, Ascending;
  }

  lemma EscapeEffect(s: State, io: Io)
    requires s.main.Triage?
    ensures var s' := TriageAdvance(s, s.main, io);
            && (TriageMoveOf(s, io).TEscaped? <==>
                  s'.main.Sleeping? || (s'.main.Ended? && s'.p.failures > s.p.failures))
            && (TriageMoveOf(s, io).TEscaped? ==> s'.w.redis == s.w.redis && s'.calls == s.calls)
  {
    assert TriageMoveOf(s, io).TEscaped? ==> !TriageOp(s.w.redis, s.main).AckMessage?
                                             && !TriageOp(s.w.redis, s.main).SetStatus? by {
      hide JobOf, FieldsOf, Terminal;
    }
    hide TriageOp, TriageStep, TriageNotes, Ask, FieldsOf, Delay, Malformed, Without;
  }

  /** The run stays inside one triage. */
  ghost predicate InTriage(s: State, ls: seq<Label>)
    decreases |ls|
  {
    s.main.Triage? && (ls == [] || InTriage(Step(s, ls[0]), ls[1..]))
  }

  lemma TriageRemaining(s: State, io: Io, x: Id)
    requires s.main.Triage? && ReadAhead(s) && TriageAdvance(s, s.main, io).main.Triage?
    ensures x in Remaining(TriageAdvance(s, s.main, io).main) <==>
            x in Remaining(s.main) && TriageOp(s.w.redis, s.main) != AckMessage(x)
  {
    var m := s.main;
    TriageStepAcks(s, io);
    AscendingTail(m.parsed, m.id, m.todo);
    if m.todo != [] {
      assert m.todo == [m.todo[0]] + m.todo[1..];
      assert m.parsed + [m.todo[0]] + m.todo[1..] == m.parsed + m.todo;
      assert (m.parsed + [m.id]) + [m.todo[0]] + m.todo[1..] == m.parsed + [m.id] + m.todo;
    }
    hide TriageOp, TriageStep, TriageNotes, Ask, Do, FieldsOf, Delay, Malformed, Ascending;
  }

  lemma TriageStepRemaining(s: State, l: Label, x: Id)
    requires IdleFits(s) && ReadAhead(s) && s.main.Triage? && Step(s, l).main.Triage?
    ensures x in Remaining(Step(s, l).main) <==> x in Remaining(s.main) && OpOf(s, l) != AckMessage(x)
  {
    if l.Resume? {
      TriageRemaining(s, l.io, x);
      hide TriageAdvance, TriageOp, ReadAhead;
    } else {
      OtherMain(s, l);
      OpQuiet(s, l);
      hide Step, OpOf;
    }
  }

  lemma {:induction false} TriagedRun(s: State, ls: seq<Label>, x: Id)
    requires Balanced(s) && IdleFits(s) && ReadAhead(s) && InTriage(s, ls)
    ensures var s' := Run(s, ls);
            && s'.main.Triage?
            && (x in Remaining(s'.main) <==> x in Remaining(s.main) && !XackTried(s, ls, x))
            && (x in s'.w.redis.pel <==> x in s.w.redis.pel && !XackLanded(s, ls, x))
    decreases |ls|
  {
    if ls != [] {
      var l, s' := ls[0], Step(s, ls[0]);
      TriageStepRemaining(s, l, x);
      PendingStep(s, l, x);
      BalancedStep(s, l);
      IdleFitsStep(s, l);
      AheadStep(s, l);
      hide Step, OpOf, Balanced, IdleFits, ReadAhead, Remaining;
      TriagedRun(s', ls[1..], x);
    }
  }

  /** Inside one triage a message of the batch is dealt with exactly by an attempted
      XACK, and leaves the pending list exactly by one that lands. */
  lemma TriageAcksExactly(r: Redis, canBatch: bool, before: seq<Label>, ls: seq<Label>, x: Id)
    requires NewGroup(r) && InTriage(Run(Init(r, canBatch), before), ls)
    ensures var s := Run(Init(r, canBatch), before);
            var s' := Run(s, ls);
            && s'.main.Triage?
            && (x in Remaining(s'.main) <==> x in Remaining(s.main) && !XackTried(s, ls, x))
            && (x in s'.w.redis.pel <==> x in s.w.redis.pel && !XackLanded(s, ls, x))
  {
    BalancedRun(Init(r, canBatch), before);
    FlightRun(Init(r, canBatch), before);
    AheadRun(Init(r, canBatch), before);
    TriagedRun(Run(Init(r, canBatch), before), ls, x);
    hide Run, Step, Balanced, IdleFits, CallsFit, ReadAhead, InTriage;
  }
}
