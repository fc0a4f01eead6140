/** Every acknowledgement has a reason. */
module Justification {
  import opened Prelude
  import opened Webhook
  import opened Consumer
  import opened Effects
  import opened Ledger

  ghost predicate Attempted(posts: seq<Post>, id: Id) {
    exists i :: 0 <= i < |posts| && posts[i].id == id
  }

  /** A flag read made for the message was answered, and the flag was up. */
  predicate Observed(w: World, id: Id) {
    SawFlag(id) in w.log && JobOf(w.redis, id) in w.redis.flags
  }

  /** Why a message may be acknowledged. The last two name the places where
      `finally` acknowledges although nothing was decided. */
  ghost predicate Justified(w: World, id: Id) {
    || Malformed(w.redis, id)
    || SawTerminal(id) in w.log
    || Observed(w, id)
    || Attempted(w.posts, id)
    || FoundUnparsable(id) in w.log
    || HandlerBlind(id) in w.log
    || ForcedOut(id) in w.log
  }

  ghost predicate FrameJustified(w: World, f: Frame) {
    match f.pc
    case AckMalformed => Malformed(w.redis, f.id)
    case AckTerminal => SawTerminal(f.id) in w.log
    case MarkQueued => Observed(w, f.id)
    case AckQueued => Observed(w, f.id)
    case CancelHook => Observed(w, f.id)
    case JoinCancelled => Observed(w, f.id)
    case MarkCancelled => Observed(w, f.id)
    case FinalAck(_) => Justified(w, f.id)
    case _ => true
  }

  ghost predicate TriageJustified(w: World, m: Main)
    requires m.Triage?
  {
    match m.tpc
    case TAckMalformed => Malformed(w.redis, m.id)
    case TAckTerminal => SawTerminal(m.id) in w.log
    case TMark => Observed(w, m.id)
    case TAckMarked => Observed(w, m.id)
    case TAckUnparsable => FoundUnparsable(m.id) in w.log
    case _ => true
  }

  ghost predicate ChildJustified(w: World, c: Child) {
    match c.pc
    case Mark => Observed(w, c.id)
    case Ack => Justified(w, c.id)
    case _ => true
  }

  ghost predicate MainJustified(w: World, m: Main) {
    match m
    case Processing(f, _, _) => FrameJustified(w, f)
    case Triage(_, _, _, _, _, _) => TriageJustified(w, m)
    case _ => true
  }

  ghost predicate ChildrenJustified(w: World, d: Option<Delivery>) {
    d.Some? ==> forall i :: 0 <= i < |d.value.tasks| ==> ChildJustified(w, d.value.tasks[i])
  }

  ghost predicate AllJustified(s: State) {
    && (forall id :: id in s.w.acked ==> Justified(s.w, id))
    && MainJustified(s.w, s.main)
    && ChildrenJustified(s.w, s.delivery)
  }

  // ---------------------------------------------------------------- reasons never go away

  ghost predicate Grows(w: World, w': World) {
    && w.redis.stream <= w'.redis.stream
    && w.redis.flags <= w'.redis.flags
    && w.log <= w'.log
    && w.posts <= w'.posts
  }

  lemma WorldGrows(s: State, l: Label)
    ensures Grows(s.w, Step(s, l).w)
  {
    WorldStep(s, l);
    hide Step, OpOf, Without, Available;
  }

  lemma ReasonStays(w: World, w': World, id: Id)
    requires Grows(w, w') && id < |w.redis.stream|
    ensures FieldsOf(w'.redis, id) == FieldsOf(w.redis, id)
    ensures Justified(w, id) ==> Justified(w', id)
    ensures Observed(w, id) ==> Observed(w', id)
  {
    assert w'.redis.stream[id] == w.redis.stream[id];
    if Attempted(w.posts, id) {
      var i :| 0 <= i < |w.posts| && w.posts[i].id == id;
      assert w'.posts[i].id == id;
    }
  }

  lemma FrameStays(w: World, w': World, f: Frame)
    requires Grows(w, w') && f.id < |w.redis.stream| && FrameJustified(w, f)
    ensures FrameJustified(w', f)
  {
    ReasonStays(w, w', f.id);
  }

  lemma MainStays(w: World, w': World, m: Main)
    requires Grows(w, w') && MainBelow(m, |w.redis.stream|) && MainJustified(w, m)
    ensures MainJustified(w', m)
  {
    match m
    case Processing(f, _, _) => FrameStays(w, w', f);
    case Triage(id, _, _, _, _, _) => ReasonStays(w, w', id);
    case _ =>
  }

  lemma ChildrenStay(w: World, w': World, d: Option<Delivery>)
    requires Grows(w, w') && DeliveryBelow(d, |w.redis.stream|) && ChildrenJustified(w, d)
    ensures ChildrenJustified(w', d)
  {
    if d.Some? {
      forall i | 0 <= i < |d.value.tasks| ensures ChildJustified(w', d.value.tasks[i]) {
        ReasonStays(w, w', d.value.tasks[i].id);
      }
    }
  }

  // ---------------------------------------------------------------- one step of each coroutine

  /** Places a processing reaches only with the cancel flag seen. */
  predicate Cancelling(pc: MsgPc) {
    pc.MarkQueued? || pc.AckQueued? || pc.CancelHook? || pc.JoinCancelled? || pc.MarkCancelled?
  }

  /** The answer that leads to each place that needs a reason. */
  lemma MoveReason(pc: MsgPc, a: Answer, parsable: bool, call: Option<CallState>)
    ensures var mv := MsgNext(pc, a, parsable, call);
            mv.Go? ==>
              && !mv.pc.AckMalformed?
              && (mv.pc.AckTerminal? ==> pc.ReadStatus? && a == Status(true))
              && (Cancelling(mv.pc) ==> a == Flag(true) || Cancelling(pc))
              && (mv.pc.FinalAck? ==>
                    || pc.SendResult? || pc.SendError? || pc.MarkCancelled?
                    || (pc.CheckHandler? && a.Broke?))
  {
  }

  /** What the answers mean. */
  lemma AnswerReason(w: World, f: Frame, io: Io, reply: Reply)
    ensures var a := Ask(w.redis, MsgOp(w.redis, f), io, reply);
            && (a == Flag(true) ==> JobOf(w.redis, f.id) in w.redis.flags)
            && (MsgOp(w.redis, f).PostOutcome? <==> f.pc.SendResult? || f.pc.SendError?)
            && (MsgOp(w.redis, f).PostOutcome? ==> MsgOp(w.redis, f).id == f.id)
  {
    hide Terminal, JobOf;
  }

  /** The next pc of a processing is justified by the answer that led to it. */
  lemma FrameStep(w: World, f: Frame, io: Io, reply: Reply, call: Option<CallState>, w': World)
    requires FrameJustified(w, f) && f.id < |w.redis.stream| && Grows(w, w')
    requires var op := MsgOp(w.redis, f);
             var a := Ask(w.redis, op, io, reply);
             var work := FieldsOf(w.redis, f.id).work;
             && Carried(w, w', op, io, reply)
             && Do(w, op, io, reply).log
                  + MsgNotes(f.id, JobOf(w.redis, f.id), work, f.pc, a, MsgNext(f.pc, a, work.Some?, call)) <= w'.log
    ensures var a := Ask(w.redis, MsgOp(w.redis, f), io, reply);
            var mv := MsgNext(f.pc, a, FieldsOf(w.redis, f.id).work.Some?, call);
            mv.Go? ==> FrameJustified(w', f.(pc := mv.pc))
  {
    var op := MsgOp(w.redis, f);
    var a := Ask(w.redis, op, io, reply);
    var work := FieldsOf(w.redis, f.id).work;
    var mv := MsgNext(f.pc, a, work.Some?, call);
    var es := MsgNotes(f.id, JobOf(w.redis, f.id), work, f.pc, a, mv);
    ReasonStays(w, w', f.id);
    MoveReason(f.pc, a, work.Some?, call);
    AnswerReason(w, f, io, reply);
    assert forall e :: e in es ==> e in Do(w, op, io, reply).log + es;
    assert forall e :: e in es ==> e in w'.log;
    assert op.PostOutcome? ==> Attempted(w'.posts, f.id) by {
      if op.PostOutcome? { assert w'.posts[|w.posts|].id == f.id; }
      hide MsgOp, Ask, MsgNotes, MsgNext;
    }
    assert a == Status(true) ==> SawTerminal(f.id) in w'.log by { hide Ask, MsgOp, MsgNext, Do; }
    assert a == Flag(true) ==> Observed(w', f.id) by { hide Ask, MsgOp, MsgNext, Do; }
    assert f.pc.CheckHandler? && a.Broke? ==> HandlerBlind(f.id) in w'.log by { hide Ask, MsgOp, MsgNext, Do; }
    assert Cancelling(f.pc) ==> Observed(w, f.id) by { hide Ask, MsgOp, MsgNext, Do, MsgNotes; }
    hide Without, MsgNext, MsgOp, Ask, Do, MsgNotes, Malformed, Observed;
  }

  lemma TriageStepJustified(s: State, io: Io, w': World)
    requires s.main.Triage? && TriageJustified(s.w, s.main) && s.main.id < |s.w.redis.stream|
    requires Grows(s.w, w')
    requires var a := Ask(s.w.redis, TriageOp(s.w.redis, s.main), io, Accepted);
             Do(s.w, TriageOp(s.w.redis, s.main), io, Accepted).log
                 + TriageNotes(s.main.id, a, TriageMoveOf(s, io)) <= w'.log
    ensures TriageMoveOf(s, io).TGo? ==> TriageJustified(w', s.main.(tpc := TriageMoveOf(s, io).tpc))
  {
    var op := TriageOp(s.w.redis, s.main);
    var es := TriageNotes(s.main.id, Ask(s.w.redis, op, io, Accepted), TriageMoveOf(s, io));
    ReasonStays(s.w, w', s.main.id);
    assert forall e :: e in es ==> e in Do(s.w, op, io, Accepted).log + es;
    assert forall e :: e in es ==> e in w'.log;
    hide Without;
  }

  lemma ChildNoted(s: State, l: Label)
    requires ChildActs(s, l)
    ensures var c := s.delivery.value.tasks[l.i];
            Ask(s.w.redis, ChildOp(s.w.redis, c), l.cio, l.creply) == Flag(true) ==>
              SawFlag(c.id) in Step(s, l).w.log && JobOf(s.w.redis, c.id) in s.w.redis.flags
  {
    var c := s.delivery.value.tasks[l.i];
    var op := ChildOp(s.w.redis, c);
    var a := Ask(s.w.redis, op, l.cio, l.creply);
    var log := Do(s.w, op, l.cio, l.creply).log;
    assert a == Flag(true) ==> Step(s, l).w.log == log + [SawFlag(c.id)] by { hide Ask, ChildOp, Do, Advance; }
    assert (log + [SawFlag(c.id)])[|log|] == SawFlag(c.id);
    assert a == Flag(true) ==> op == GetFlag(JobOf(s.w.redis, c.id)) by { hide JobOf, Do; }
    hide Step, Do, ChildOp, JobOf;
  }

  lemma ChildStepJustified(s: State, l: Label)
    requires ChildActs(s, l) && ChildJustified(s.w, s.delivery.value.tasks[l.i])
    requires s.delivery.value.tasks[l.i].id < |s.w.redis.stream|
    ensures ChildJustified(Step(s, l).w, ChildAfter(s, l))
  {
    WorldStep(s, l);
    WorldGrows(s, l);
    var c := s.delivery.value.tasks[l.i];
    var w' := Step(s, l).w;
    ReasonStays(s.w, w', c.id);
    ChildNoted(s, l);
    if c.pc.Send? {
      assert w'.posts[|s.w.posts|].id == c.id;
      assert Attempted(w'.posts, c.id);
    }
    hide Step, Without;
  }

  lemma StreamFixed(s: State, l: Label)
    requires !l.Append?
    ensures Step(s, l).w.redis.stream == s.w.redis.stream
  {
    WorldStep(s, l);
    hide Step, OpOf, Without, Available;
  }

  lemma MainStepJustified(s: State, l: Label)
    requires Balanced(s) && AllJustified(s)
    ensures MainJustified(Step(s, l).w, Step(s, l).main)
  {
    var s' := Step(s, l);
    WorldGrows(s, l);
    MainStep(s, l);
    assert MainBelow(s.main, |s.w.redis.stream|) by { CursorBelow(s); }
    if l.Resume? && s.main.Processing? {
      MessageCarries(s, s.main.f, s.main.rest, s.main.k, l.io, l.reply);
      FrameStep(s.w, s.main.f, l.io, l.reply, LastCall(s.calls), s'.w);
    }
    if l.Resume? && s.main.Triage? {
      TriageCarries(s, l.io);
      TriageStepJustified(s, l.io, s'.w);
    }
    if !l.Append? { StreamFixed(s, l); }
    hide MsgAdvance, TriageAdvance, MarkAdvance, ReadAdvance, JoinAdvance, BatchReturn, NextMessage, Begin,
      ConnError, Backoff, ChildAdvance, GatherAdvance, DrainAdvance, DrainGiveUp, Force, MsgNext, TriageStep, MsgOp,
      TriageOp, Do, Without, Ask, MsgNotes, TriageNotes;
    MainStays(s.w, s'.w, s.main);
    if s'.main != s.main && !ThrownOut(s, l) && Entry(s.w.redis, s'.main) {
      EntryJustified(s.w.redis, s'.w, s'.main);
    }
  }

  lemma EntryJustified(r: Redis, w: World, m: Main)
    requires Entry(r, m) && r.stream == w.redis.stream
    ensures MainJustified(w, m)
  {
  }

  lemma CursorBelow(s: State)
    requires Balanced(s)
    ensures MainBelow(s.main, |s.w.redis.stream|) && DeliveryBelow(s.delivery, |s.w.redis.stream|)
  {
    HeldGrows(s, s.w.redis.cursor, |s.w.redis.stream|);
  }

  lemma ChildrenStepJustified(s: State, l: Label)
    requires Balanced(s) && AllJustified(s)
    ensures ChildrenJustified(Step(s, l).w, Step(s, l).delivery)
  {
    var s' := Step(s, l);
    WorldGrows(s, l);
    DeliveryStep(s, l);
    CursorBelow(s);
    ChildrenStay(s.w, s'.w, s.delivery);
    if ChildActs(s, l) { ChildStepJustified(s, l); }
    hide Step, ChildAfter, Justified, Observed;
  }

  lemma AckedStepJustified(s: State, l: Label, id: Id)
    requires Balanced(s) && AllJustified(s) && id in Step(s, l).w.acked
    ensures Justified(Step(s, l).w, id)
  {
    WorldStep(s, l);
    WorldGrows(s, l);
    OpHeld(s, l);
    assert Justified(s.w, id) && id < |s.w.redis.stream| by {
      if id !in s.w.acked { AckOpJustified(s, l); }
      hide Step, OpOf, Without, Available, Justified;
    }
    ReasonStays(s.w, Step(s, l).w, id);
  }

  lemma AckOpJustified(s: State, l: Label)
    requires AllJustified(s) && OpOf(s, l).AckMessage?
    ensures Justified(s.w, OpOf(s, l).id)
  {
    hide Malformed;
  }

  lemma JustifiedStep(s: State, l: Label)
    requires Balanced(s) && AllJustified(s)
    ensures AllJustified(Step(s, l))
  {
    MainStepJustified(s, l);
    ChildrenStepJustified(s, l);
    forall id | id in Step(s, l).w.acked ensures Justified(Step(s, l).w, id) {
      AckedStepJustified(s, l, id);
    }
    hide Step, Justified, MainJustified, ChildrenJustified;
  }

  lemma {:induction false} JustifiedRun(s: State, ls: seq<Label>)
    requires Balanced(s) && AllJustified(s)
    ensures AllJustified(Run(s, ls))
    decreases |ls|
  {
    if ls != [] {
      BalancedStep(s, ls[0]);
      JustifiedStep(s, ls[0]);
      JustifiedRun(Step(s, ls[0]), ls[1..]);
    }
    hide Step;
  }

  /** Every message acknowledged in any run lacked a required field, was seen in
      a terminal state, had its cancel flag read as raised, had an outcome POST attempted,
      or was found unparsable by batch triage, unless its processing was
      cancelled from outside or could not read the flag in its error handler. */
  lemma AcksAreJustified(r: Redis, canBatch: bool, ls: seq<Label>, id: Id)
    requires NewGroup(r) && id in Run(Init(r, canBatch), ls).w.acked
    ensures Justified(Run(Init(r, canBatch), ls).w, id)
  {
    JustifiedRun(Init(r, canBatch), ls);
  }
}
