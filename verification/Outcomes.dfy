/** Each processing reports at most one outcome, the one it recorded last. */
module Outcomes {
  import opened Prelude
  import opened Webhook
  import opened Consumer
  import opened Effects
  import opened Ledger
  import opened Justification
  import opened Flight
  import opened Safety
  import opened Cancellation

  // ---------------------------------------------------------------- who acts

  /** The number of the processing the consume loop is in, if it is in one. */
  function ActOf(m: Main): Option<nat> {
    match m
    case Processing(f, _, _) => Some(f.act)
    case Triage(_, _, _, _, _, tact) => Some(tact)
    case Marking(_, _, _, tact) => Some(tact)
    case _ => None
  }

  /** Processings are numbered apart. */
  ghost predicate Numbered(s: State) {
    && (ActOf(s.main).Some? ==> ActOf(s.main).value < s.w.acts)
    && (s.delivery.Some? ==>
          var ts := s.delivery.value.tasks;
          && (forall i :: 0 <= i < |ts| ==> ts[i].act < s.w.acts)
          && (forall i, j :: 0 <= i < j < |ts| ==> ts[i].act != ts[j].act))
  }

  lemma ActsGrow(s: State, l: Label)
    ensures s.w.acts <= Step(s, l).w.acts
  {
    WorldStep(s, l);
    hide Step, OpOf, Do, Available;
  }

  /** The consume loop keeps its number or takes a fresh one. */
  ghost predicate Renumbered(s: State, s': State) {
    ActOf(s'.main).Some? ==> ActOf(s'.main) == ActOf(s.main) || s.w.acts <= ActOf(s'.main).value < s'.w.acts
  }

  lemma NextNumbered(s: State, rest: seq<Id>, k: Loop)
    ensures Renumbered(s.(main := Ended), NextMessage(s, rest, k))
    ensures s.w.acts <= NextMessage(s, rest, k).w.acts
  {
    hide Malformed;
  }

  lemma DispatchNumbered(s: State, batch: seq<Id>, due: bool)
    ensures Renumbered(s.(main := Ended), Dispatch(s, batch, due))
    ensures s.w.acts <= Dispatch(s, batch, due).w.acts
  {
    NextNumbered(s, batch, Dispatching);
    hide NextMessage, Malformed;
  }

  lemma MessageNumbered(s: State, io: Io, reply: Reply)
    requires s.main.Processing?
    ensures Renumbered(s, MsgAdvance(s, s.main.f, s.main.rest, s.main.k, io, reply))
  {
    var f, rest, k := s.main.f, s.main.rest, s.main.k;
    var op := MsgOp(s.w.redis, f);
    var a := Ask(s.w.redis, op, io, reply);
    var work := FieldsOf(s.w.redis, f.id).work;
    var mv := MsgMove(s, f, io, reply);
    var s1 := s.(
      w := Noted(Do(s.w, op, io, reply), MsgNotes(f.id, JobOf(s.w.redis, f.id), work, f.pc, a, mv)),
      p := MsgLocal(s.p, JobOf(s.w.redis, f.id), f.pc, mv),
      calls := MsgCalls(s.calls, work, f.pc, a));
    NextNumbered(s1, rest, k);
    DoStream(s.w, op, io, reply);
    hide MsgOp, MsgNext, MsgNotes, MsgLocal, MsgCalls, Ask, Do, NextMessage, FieldsOf, JobOf, Delay;
  }

  lemma TriageNumbered(s: State, io: Io)
    requires s.main.Triage?
    ensures Renumbered(s, TriageAdvance(s, s.main, io))
  {
    hide TriageOp, TriageStep, TriageNotes, Ask, Do, FieldsOf, Delay, Malformed;
  }

  lemma MarkNumbered(s: State, io: Io, alt: bool)
    requires s.main.Marking?
    ensures Renumbered(s, MarkAdvance(s, s.main.todo, s.main.batch, s.main.parsed, s.main.tact, io, alt))
  {
    var m := s.main;
    if m.todo != [] {
      var op := SetStatus(m.tact, JobOf(s.w.redis, m.todo[0]), Executing);
      NextNumbered(s.(w := Do(s.w, op, io, Accepted)), m.batch, FallingBack);
      DoStream(s.w, op, io, Accepted);
      hide NextMessage, Do, JobOf, Works, Jobs;
    }
  }

  lemma ReadNumbered(s: State, io: Io, alt: bool)
    ensures Renumbered(s.(main := Ended), ReadAdvance(s, io, alt))
  {
    var n := Available(s.w.redis, s.canBatch);
    var s1 := s.(w := s.w.(redis := ReadGroup(s.w.redis, n)));
    DispatchNumbered(s1.(p := s1.p.(healthy := true, failures := 0, slept := 0)), Interval(s.w.redis.cursor, n), alt);
    hide Dispatch, Available, Interval, Delay, ReadGroup;
  }

  lemma JoinNumbered(s: State, batch: seq<Id>, alt: bool)
    requires s.main == Joining(batch)
    ensures Renumbered(s.(main := Ended), JoinAdvance(s, batch, alt))
  {
    DispatchNumbered(s, batch, alt);
    DispatchNumbered(
      s.(delivery := None, drain := if s.drain.WaitDelivery? then Drained(true) else s.drain), batch, alt);
    hide Dispatch, Delay;
  }

  lemma RestNumbered(s: State, io: Io, reply: Reply, alt: bool)
    requires !(s.main.Processing? || s.main.Triage? || s.main.Marking? || s.main.Reading? || s.main.Joining?)
    ensures Renumbered(s, Advance(s, io, reply, alt))
  {
    match s.main
    case Running(batch, _) => NextNumbered(s, batch, FallingBack); hide NextMessage;
    case Listing(boot) =>
      NextNumbered(s, s.w.redis.pel[..Min(RECOVERY_COUNT, |s.w.redis.pel|)], Recovering(boot, 0));
      hide NextMessage, Delay;
    case _ => hide Delay, Malformed;
  }

  lemma MainNumbered(s: State, l: Label)
    ensures Renumbered(s, Step(s, l))
  {
    if !l.Resume? {
      OtherMain(s, l);
      hide Step;
    } else {
      match s.main
      case Processing(_, _, _) => MessageNumbered(s, l.io, l.reply); hide MsgAdvance;
      case Triage(_, _, _, _, _, _) => TriageNumbered(s, l.io); hide TriageAdvance;
      case Marking(_, _, _, _) => MarkNumbered(s, l.io, l.alt); hide MarkAdvance;
      case Reading => ReadNumbered(s, l.io, l.alt); hide ReadAdvance;
      case Joining(batch) => JoinNumbered(s, batch, l.alt); hide JoinAdvance;
      case _ => RestNumbered(s, l.io, l.reply, l.alt); hide Advance;
    }
  }

  /** Children keep their numbers or take fresh ones. */
  ghost predicate TasksRenumbered(s: State, s': State) {
    s'.delivery.Some? ==>
      var ts' := s'.delivery.value.tasks;
      || (s.delivery.Some? && |ts'| == |s.delivery.value.tasks|
          && forall i :: 0 <= i < |ts'| ==> ts'[i].act == s.delivery.value.tasks[i].act)
      || (s'.w.acts == s.w.acts + |ts'| && forall i :: 0 <= i < |ts'| ==> ts'[i].act == s.w.acts + i)
      || ts' == []
  }

  lemma ResumeTasks(s: State, io: Io, reply: Reply, alt: bool)
    ensures var d' := Advance(s, io, reply, alt).delivery;
            d' == s.delivery || d'.None? || d'.value.tasks == []
  {
    if s.main.Processing? {
      MessageControl(s, s.main.f, s.main.rest, s.main.k, io, reply);
    } else if s.main.Triage? {
      TriageControl(s, io);
    } else if s.main.Marking? {
      MarkControl(s, io, alt);
    } else if s.main.Reading? {
      ReadControl(s, io, alt);
    } else if s.main.Joining? {
      JoinControl(s, s.main.batch, alt);
    } else {
      RestDelivery(s, io, reply, alt);
    }
    hide MsgAdvance, TriageAdvance, MarkAdvance, ReadAdvance, JoinAdvance, BatchReturn, NextMessage, Begin,
      ConnError, Backoff, Entry;
  }

  lemma TasksNumbered(s: State, l: Label)
    ensures TasksRenumbered(s, Step(s, l))
  {
    match l
    case Resume(io, reply, alt) => ResumeTasks(s, io, reply, alt); hide Advance;
    case ResumeChild(_, _, _) => hide Advance, ChildOp, ChildNext, Ask, Do;
    case Gather => hide Advance, AnyBroken, AllFinished;
    case _ => hide Advance;
  }

  lemma NumberedStep(s: State, l: Label)
    requires Numbered(s)
    ensures Numbered(Step(s, l))
  {
    MainNumbered(s, l);
    TasksNumbered(s, l);
    ActsGrow(s, l);
    hide Step, ActOf;
  }

  // ---------------------------------------------------------------- outcomes

  /** The cloud acknowledged an outcome of this processing. */
  ghost predicate Won(posts: seq<Post>, act: nat) {
    exists i :: 0 <= i < |posts| && posts[i].act == act && posts[i].reply.Accepted?
  }

  function Verdict(p: Payload): JobState {
    if p.Success? then Completed else Failed
  }

  /** What a processing has written last when it gets to `pc`. */
  predicate WrittenAt(pc: MsgPc, last: Option<JobState>) {
    && (pc.CheckCompleted? || pc.SendResult? ==> last == Some(Completed))
    && (pc.SendError? ==> last == Some(Failed))
    && (pc.AckQueued? ==> last == Some(Cancelled))
  }

  predicate ChildWrittenAt(pc: ChildPc, last: Option<JobState>) {
    pc.CheckSecond? || pc.Send? ==> last == Some(Completed)
  }

  predicate ChildPast(pc: ChildPc) {
    pc.Ack? || pc.Finished? || pc.Stopped?
  }

  ghost predicate MainOutcome(w: World, m: Main) {
    match m
    case Processing(f, _, _) => (Won(w.posts, f.act) ==> f.pc.FinalAck?) && WrittenAt(f.pc, LastWrite(w.log, f.act))
    case Triage(_, _, _, _, _, tact) => !Won(w.posts, tact)
    case Marking(_, _, _, tact) => !Won(w.posts, tact)
    case _ => true
  }

  ghost predicate ChildOutcome(w: World, c: Child) {
    (Won(w.posts, c.act) ==> ChildPast(c.pc)) && ChildWrittenAt(c.pc, LastWrite(w.log, c.act))
  }

  ghost predicate PostsFit(w: World) {
    && (forall i :: 0 <= i < |w.posts| ==> w.posts[i].act < w.acts)
    && (forall i, j :: 0 <= i < j < |w.posts| && w.posts[i].reply.Accepted? && w.posts[j].reply.Accepted? ==>
          w.posts[i].act != w.posts[j].act)
    && (forall i :: 0 <= i < |w.posts| && w.posts[i].reply.Accepted? ==>
          LastWrite(w.log, w.posts[i].act) == Some(Verdict(w.posts[i].payload)))
  }

  ghost predicate ChildrenOutcome(w: World, d: Option<Delivery>) {
    d.Some? ==> forall i :: 0 <= i < |d.value.tasks| ==> ChildOutcome(w, d.value.tasks[i])
  }

  ghost predicate OutcomesFit(s: State) {
    PostsFit(s.w) && MainOutcome(s.w, s.main) && ChildrenOutcome(s.w, s.delivery)
  }

  function OpAct(op: Op): Option<nat> {
    match op
    case SetStatus(act, _, _) => Some(act)
    case PostOutcome(act, _, _, _) => Some(act)
    case _ => None
  }

  /** Whoever writes or posts has not won yet; whoever posts has written what it reports. */
  lemma ActorFits(s: State, l: Label)
    requires OutcomesFit(s) && Numbered(s)
    ensures var op := OpOf(s, l);
            && (OpAct(op).Some? ==> OpAct(op).value < s.w.acts && !Won(s.w.posts, OpAct(op).value))
            && (op.PostOutcome? ==> LastWrite(s.w.log, op.act) == Some(Verdict(op.payload)))
  {
    hide Won, LastWrite, PostsFit;
  }

  lemma PostsStep(s: State, l: Label)
    requires OutcomesFit(s) && Numbered(s)
    ensures PostsFit(Step(s, l).w)
  {
    var s' := Step(s, l);
    var op := OpOf(s, l);
    ActorFits(s, l);
    PostsAfter(s, l);
    ActsGrow(s, l);
    forall i | 0 <= i < |s.w.posts| && s.w.posts[i].reply.Accepted?
      ensures LastWrite(s'.w.log, s.w.posts[i].act) == LastWrite(s.w.log, s.w.posts[i].act)
    {
      assert Won(s.w.posts, s.w.posts[i].act);
      LastWriteStep(s, l, s.w.posts[i].act);
    }
    if op.PostOutcome? { LastWriteStep(s, l, op.act); }
    hide Step, OpOf, LastWrite;
  }

  /** A step posts exactly when its call is a POST. */
  lemma PostsAfter(s: State, l: Label)
    ensures var op := OpOf(s, l);
            Step(s, l).w.posts ==
            if op.PostOutcome? then s.w.posts + [Post(op.act, op.id, op.job, op.payload, ReplyOf(s, l))] else s.w.posts
  {
    WorldStep(s, l);
    ReadsNothing(s, l);
    hide Step, OpOf, Without, Available;
  }

  lemma ReadsNothing(s: State, l: Label)
    ensures Reads(s, l) || l.RaiseFlag? || l.Append? ==> OpOf(s, l).Nothing?
  {
  }

  lemma WonAfter(s: State, l: Label, act: nat)
    ensures Won(Step(s, l).w.posts, act) <==>
            Won(s.w.posts, act) || (OpOf(s, l).PostOutcome? && OpOf(s, l).act == act && ReplyOf(s, l).Accepted?)
  {
    PostsAfter(s, l);
    var posts, posts' := s.w.posts, Step(s, l).w.posts;
    if Won(posts, act) {
      var i :| 0 <= i < |posts| && posts[i].act == act && posts[i].reply.Accepted?;
      assert posts'[i] == posts[i];
    }
    if OpOf(s, l).PostOutcome? { assert posts'[|posts|].act == OpOf(s, l).act; }
    hide Step, OpOf;
  }

  lemma FreshNeverWon(w: World, act: nat)
    requires PostsFit(w) && w.acts <= act
    ensures !Won(w.posts, act)
  {
  }

  /** A processing that goes on has recorded what its place says. */
  lemma FrameWritten(r: Redis, f: Frame, io: Io, reply: Reply, parsable: bool, call: Option<CallState>,
                     last: Option<JobState>, won: bool)
    requires WrittenAt(f.pc, last) && (won ==> f.pc.FinalAck?)
    ensures var op := MsgOp(r, f);
            var mv := MsgNext(f.pc, Ask(r, op, io, reply), parsable, call);
            mv.Go? ==>
              && WrittenAt(mv.pc, if op.SetStatus? && op.act == f.act then Some(op.st) else last)
              && (won || (op.PostOutcome? && op.act == f.act && reply.Accepted?) ==> mv.pc.FinalAck?)
  {
    hide JobOf, Terminal;
  }

  lemma FrameOutcome(s: State, l: Label)
    requires l.Resume? && s.main.Processing? && MainOutcome(s.w, s.main)
    requires MsgMove(s, s.main.f, l.io, l.reply).Go?
    ensures MainOutcome(Step(s, l).w, s.main.(f := s.main.f.(pc := MsgMove(s, s.main.f, l.io, l.reply).pc)))
  {
    var f := s.main.f;
    LastWriteStep(s, l, f.act);
    WonAfter(s, l, f.act);
    FrameWritten(s.w.redis, f, l.io, l.reply, FieldsOf(s.w.redis, f.id).work.Some?, LastCall(s.calls),
                 LastWrite(s.w.log, f.act), Won(s.w.posts, f.act));
    hide Step, LastWrite, Won, MsgOp, MsgNext, Ask, WrittenAt, FieldsOf, LastCall;
  }

  /** Nobody else acts under the number of the current processing. */
  lemma OnlyItself(s: State, l: Label)
    requires IdleFits(s) && Numbered(s) && ActOf(s.main).Some? && !l.Resume?
    ensures OpOf(s, l).Nothing?
  {
  }

  lemma MainOutcomeStep(s: State, l: Label)
    requires IdleFits(s) && Numbered(s) && OutcomesFit(s)
    ensures MainOutcome(Step(s, l).w, Step(s, l).main)
  {
    var s' := Step(s, l);
    MainStep(s, l);
    MainNumbered(s, l);
    PostsStep(s, l);
    if ActOf(s'.main).Some? {
      var act := ActOf(s'.main).value;
      WonAfter(s, l, act);
      LastWriteStep(s, l, act);
      if act >= s.w.acts {
        FreshNeverWon(s.w, act);
        ActorFits(s, l);
        FreshOutcome(s, l);
      } else if l.Resume? && s.main.Processing? {
        if MsgMove(s, s.main.f, l.io, l.reply).Go? { FrameOutcome(s, l); }
        SameFrame(s, l);
      } else if !l.Resume? {
        OnlyItself(s, l);
        OtherMain(s, l);
      } else {
        TriageKeeps(s, l);
      }
    }
    hide Step, OpOf, LastWrite, Won, MsgMove, TriageMoveOf;
  }

  lemma FreshOutcome(s: State, l: Label)
    requires IdleFits(s) && Numbered(s) && OutcomesFit(s)
    requires ActOf(Step(s, l).main).Some? && ActOf(Step(s, l).main).value >= s.w.acts
    ensures var m' := Step(s, l).main; m'.Processing? ==> m'.f.pc.AckMalformed? || m'.f.pc.ReadStatus?
  {
    MainStep(s, l);
    hide Step, MsgMove, TriageMoveOf, Malformed;
  }

  lemma SameFrame(s: State, l: Label)
    requires Numbered(s) && l.Resume? && s.main.Processing?
    requires var m' := Step(s, l).main; ActOf(m').Some? && ActOf(m').value < s.w.acts
    ensures var mv := MsgMove(s, s.main.f, l.io, l.reply);
            mv.Go? && Step(s, l).main == s.main.(f := s.main.f.(pc := mv.pc))
  {
    var f, rest, k, io, reply := s.main.f, s.main.rest, s.main.k, l.io, l.reply;
    var op := MsgOp(s.w.redis, f);
    var a := Ask(s.w.redis, op, io, reply);
    var work := FieldsOf(s.w.redis, f.id).work;
    var mv := MsgMove(s, f, io, reply);
    var s1 := s.(
      w := Noted(Do(s.w, op, io, reply), MsgNotes(f.id, JobOf(s.w.redis, f.id), work, f.pc, a, mv)),
      p := MsgLocal(s.p, JobOf(s.w.redis, f.id), f.pc, mv),
      calls := MsgCalls(s.calls, work, f.pc, a));
    NextNumbered(s1, rest, k);
    DoStream(s.w, op, io, reply);
    hide MsgOp, MsgNext, MsgNotes, MsgLocal, MsgCalls, Ask, Do, NextMessage, FieldsOf, JobOf, Delay;
  }

  /** Triage and marking write but never post. */
  lemma TriageKeeps(s: State, l: Label)
    requires Numbered(s) && l.Resume? && !s.main.Processing?
    requires var m' := Step(s, l).main; ActOf(m').Some? && ActOf(m').value < s.w.acts
    ensures !Step(s, l).main.Processing? && (s.main.Triage? || s.main.Marking?) && !OpOf(s, l).PostOutcome?
    ensures ActOf(Step(s, l).main) == ActOf(s.main)
  {
    MainNumbered(s, l);
    assert ActOf(s.main).Some? by { hide Step; }
    if s.main.Triage? {
      TriageAdvanceNotMessage(s, l.io);
      hide TriageAdvance;
    } else {
      MarkNumbered(s, l.io, l.alt);
      MarkFresh(s, l.io, l.alt);
      hide MarkAdvance;
    }
  }

  lemma TriageAdvanceNotMessage(s: State, io: Io)
    requires s.main.Triage?
    ensures !TriageAdvance(s, s.main, io).main.Processing?
  {
    hide TriageOp, TriageStep, TriageNotes, Ask, Do, FieldsOf, Delay, Malformed;
  }

  lemma MarkFresh(s: State, io: Io, alt: bool)
    requires s.main.Marking?
    ensures var s' := MarkAdvance(s, s.main.todo, s.main.batch, s.main.parsed, s.main.tact, io, alt);
            s'.main.Processing? ==> s'.main.f.act == s.w.acts
  {
    hide Malformed, Works, Jobs, JobOf;
  }

  // ---------------------------------------------------------------- deliveries

  lemma ChildOutcomeStep(s: State, l: Label)
    requires ChildActs(s, l) && ChildOutcome(s.w, s.delivery.value.tasks[l.i])
    ensures ChildOutcome(Step(s, l).w, ChildAfter(s, l))
  {
    var c := s.delivery.value.tasks[l.i];
    LastWriteStep(s, l, c.act);
    WonAfter(s, l, c.act);
    hide Step, LastWrite, Won;
  }

  /** A child that does not act is not affected by whoever does. */
  lemma BystanderOutcome(s: State, l: Label, i: nat)
    requires IdleFits(s) && Numbered(s) && s.delivery.Some? && i < |s.delivery.value.tasks|
    requires ChildOutcome(s.w, s.delivery.value.tasks[i])
    requires ChildActs(s, l) ==> l.i != i
    ensures ChildOutcome(Step(s, l).w, s.delivery.value.tasks[i])
  {
    var c := s.delivery.value.tasks[i];
    LastWriteStep(s, l, c.act);
    WonAfter(s, l, c.act);
    assert OpAct(OpOf(s, l)) != Some(c.act) by { hide LastWrite, Won; }
    hide Step, LastWrite, Won, OpOf;
  }

  lemma NewChildOutcome(w: World, c: Child)
    requires PostsFit(w) && (c.pc.CheckFirst? || c.pc.Stopped?)
    requires c.pc.CheckFirst? ==> !Won(w.posts, c.act)
    ensures ChildOutcome(w, c)
  {
  }

  lemma ChildrenOutcomeStep(s: State, l: Label)
    requires IdleFits(s) && Numbered(s) && OutcomesFit(s)
    ensures ChildrenOutcome(Step(s, l).w, Step(s, l).delivery)
  {
    var s' := Step(s, l);
    DeliveryStep(s, l);
    TasksNumbered(s, l);
    PostsStep(s, l);
    if s'.delivery.Some? {
      forall i | 0 <= i < |s'.delivery.value.tasks| ensures ChildOutcome(s'.w, s'.delivery.value.tasks[i]) {
        var c' := s'.delivery.value.tasks[i];
        hide Step, ChildOutcome, Won, LastWrite, PostsFit;
        if ChildActs(s, l) {
          if l.i == i { ChildOutcomeStep(s, l); } else { BystanderOutcome(s, l, i); }
        } else if s.delivery.Some? && i < |s.delivery.value.tasks| && c' == s.delivery.value.tasks[i] {
          BystanderOutcome(s, l, i);
        } else {
          NewTask(s, l, i);
          NewChildOutcome(s'.w, c');
        }
      }
    }
  }

  lemma NewTask(s: State, l: Label, i: nat)
    requires IdleFits(s) && Numbered(s) && OutcomesFit(s)
    requires Step(s, l).delivery.Some? && i < |Step(s, l).delivery.value.tasks| && !ChildActs(s, l)
    requires var c' := Step(s, l).delivery.value.tasks[i];
             !(s.delivery.Some? && i < |s.delivery.value.tasks| && c' == s.delivery.value.tasks[i])
    ensures var c' := Step(s, l).delivery.value.tasks[i];
            && (c'.pc.CheckFirst? || c'.pc.Stopped?)
            && (c'.pc.CheckFirst? ==> !Won(Step(s, l).w.posts, c'.act))
  {
    var s' := Step(s, l);
    var c' := s'.delivery.value.tasks[i];
    DeliveryStep(s, l);
    if c'.pc.CheckFirst? {
      FreshTask(s, l, i);
      FreshNeverWon(s.w, c'.act);
      WonAfter(s, l, c'.act);
      ActorFits(s, l);
    }
    hide Step, OpOf, Won, PostsFit, LastWrite;
  }

  lemma FreshTask(s: State, l: Label, i: nat)
    requires Step(s, l).delivery.Some? && i < |Step(s, l).delivery.value.tasks| && !ChildActs(s, l)
    requires var c' := Step(s, l).delivery.value.tasks[i];
             && c'.pc.CheckFirst?
             && !(s.delivery.Some? && i < |s.delivery.value.tasks| && c' == s.delivery.value.tasks[i])
    ensures Step(s, l).delivery.value.tasks[i].act >= s.w.acts
  {
    match l
    case Resume(io, reply, alt) => ResumeTasks(s, io, reply, alt); hide Advance;
    case Gather => hide Advance, AnyBroken, AllFinished;
    case _ => hide Advance;
  }

  lemma OutcomesStep(s: State, l: Label)
    requires IdleFits(s) && Numbered(s) && OutcomesFit(s)
    ensures OutcomesFit(Step(s, l))
  {
    PostsStep(s, l);
    MainOutcomeStep(s, l);
    ChildrenOutcomeStep(s, l);
    hide Step, PostsFit, MainOutcome, ChildrenOutcome;
  }

  lemma {:induction false} OutcomesRun(s: State, ls: seq<Label>)
    requires IdleFits(s) && Numbered(s) && OutcomesFit(s)
    ensures var s' := Run(s, ls); IdleFits(s') && Numbered(s') && OutcomesFit(s')
    decreases |ls|
  {
    if ls != [] {
      IdleFitsStep(s, ls[0]);
      NumberedStep(s, ls[0]);
      OutcomesStep(s, ls[0]);
      OutcomesRun(Step(s, ls[0]), ls[1..]);
    }
    hide Step, IdleFits, Numbered, OutcomesFit;
  }

  /** Across all retries, of results and of errors, one processing has at most
      one POST acknowledged, so never a completed and a failed one; and the
      last status it tried to write is the one it reported. */
  lemma AtMostOneOutcome(r: Redis, canBatch: bool, ls: seq<Label>, i: nat, j: nat)
    ensures var w := Run(Init(r, canBatch), ls).w;
            && (i < |w.posts| && j < |w.posts| && w.posts[i].reply.Accepted? && w.posts[j].reply.Accepted? ==>
                  w.posts[i].act == w.posts[j].act ==> i == j)
            && (i < |w.posts| && w.posts[i].reply.Accepted? ==>
                  LastWrite(w.log, w.posts[i].act) == Some(Verdict(w.posts[i].payload)))
  {
    OutcomesRun(Init(r, canBatch), ls);
  }
}
