/** How often one processing sends: retries happen exactly when they are due. */
module Resends {
  import opened Prelude
  import opened Webhook
  import opened Consumer
  import opened Effects
  import opened Flight
  import opened Safety
  import opened Outcomes

  /** POSTs of one kind, results or errors, by one processing. */
  function Sends(posts: seq<Post>, act: nat, success: bool): (n: nat)
    decreases |posts|
  {
    if posts == [] then 0
    else
      var p := posts[|posts| - 1];
      Sends(posts[..|posts| - 1], act, success) + (if p.act == act && p.payload.Success? == success then 1 else 0)
  }

  lemma {:induction false} NeverSent(posts: seq<Post>, act: nat, success: bool)
    requires forall i :: 0 <= i < |posts| ==> posts[i].act != act
    ensures Sends(posts, act, success) == 0
    decreases |posts|
  {
    if posts != [] { NeverSent(posts[..|posts| - 1], act, success); }
  }

  lemma SendsAfter(s: State, l: Label, act: nat, success: bool)
    ensures var op := OpOf(s, l);
            Sends(Step(s, l).w.posts, act, success) == Sends(s.w.posts, act, success)
            + (if op.PostOutcome? && op.act == act && op.payload.Success? == success then 1 else 0)
  {
    PostsAfter(s, l);
    var op := OpOf(s, l);
    if op.PostOutcome? {
      var p := Post(op.act, op.id, op.job, op.payload, ReplyOf(s, l));
      assert (s.w.posts + [p])[..|s.w.posts|] == s.w.posts;
    }
    hide Step, OpOf;
  }

  // ---------------------------------------------------------------- attempts are counted

  /** No result has been sent yet. */
  predicate BeforeResult(pc: MsgPc) {
    && !pc.SendResult? && !pc.CheckHandler? && !pc.WriteFailed? && !pc.SendError?
    && !pc.MarkCancelled? && !pc.FinalAck?
  }

  /** The attempt a processing is at is one more than what it has sent. */
  predicate SentAt(pc: MsgPc, results: nat, errors: nat) {
    && (BeforeResult(pc) ==> results == 0)
    && (pc.SendResult? ==> pc.attempt == results + 1 <= MAX_RETRIES)
    && (!pc.SendError? && !pc.FinalAck? ==> errors == 0)
    && (pc.SendError? ==> pc.attempt == errors + 1 <= MAX_RETRIES)
  }

  predicate ChildSentAt(pc: ChildPc, results: nat) {
    && (pc.CheckFirst? || pc.Write? || pc.CheckSecond? ==> results == 0)
    && (pc.Send? ==> pc.attempt == results + 1 <= MAX_RETRIES)
  }

  ghost predicate MainSends(w: World, m: Main) {
    m.Processing? ==> SentAt(m.f.pc, Sends(w.posts, m.f.act, true), Sends(w.posts, m.f.act, false))
  }

  ghost predicate ChildSends(w: World, c: Child) {
    ChildSentAt(c.pc, Sends(w.posts, c.act, true))
  }

  ghost predicate ChildrenSend(w: World, d: Option<Delivery>) {
    d.Some? ==> forall i :: 0 <= i < |d.value.tasks| ==> ChildSends(w, d.value.tasks[i])
  }

  ghost predicate Limited(w: World) {
    forall act, success :: Sends(w.posts, act, success) <= MAX_RETRIES
  }

  ghost predicate SendsFit(s: State) {
    && Limited(s.w) && MainSends(s.w, s.main) && ChildrenSend(s.w, s.delivery)
    && (forall i :: 0 <= i < |s.w.posts| ==> s.w.posts[i].act < s.w.acts)
  }

  lemma FrameSends(r: Redis, f: Frame, io: Io, reply: Reply, parsable: bool, call: Option<CallState>,
                   results: nat, errors: nat)
    requires SentAt(f.pc, results, errors)
    ensures var op := MsgOp(r, f);
            var mv := MsgNext(f.pc, Ask(r, op, io, reply), parsable, call);
            mv.Go? ==>
              SentAt(mv.pc, results + (if op.PostOutcome? && op.payload.Success? then 1 else 0),
                     errors + (if op.PostOutcome? && !op.payload.Success? then 1 else 0))
  {
    hide JobOf, Terminal;
  }

  lemma ActorSends(s: State, l: Label)
    requires SendsFit(s) && Numbered(s)
    ensures var op := OpOf(s, l);
            op.PostOutcome? ==> op.act < s.w.acts && Sends(s.w.posts, op.act, op.payload.Success?) < MAX_RETRIES
  {
    hide Sends, Limited;
  }

  lemma LimitedStep(s: State, l: Label)
    requires SendsFit(s) && Numbered(s)
    ensures Limited(Step(s, l).w)
    ensures var w' := Step(s, l).w; forall i :: 0 <= i < |w'.posts| ==> w'.posts[i].act < w'.acts
  {
    ActorSends(s, l);
    ActsGrow(s, l);
    PostsAfter(s, l);
    forall act, success ensures Sends(Step(s, l).w.posts, act, success) <= MAX_RETRIES {
      SendsAfter(s, l, act, success);
    }
    hide Step, OpOf, Sends;
  }

  lemma FrameSendsStep(s: State, l: Label)
    requires l.Resume? && s.main.Processing? && MainSends(s.w, s.main)
    requires MsgMove(s, s.main.f, l.io, l.reply).Go?
    ensures MainSends(Step(s, l).w, s.main.(f := s.main.f.(pc := MsgMove(s, s.main.f, l.io, l.reply).pc)))
  {
    var f := s.main.f;
    SendsAfter(s, l, f.act, true);
    SendsAfter(s, l, f.act, false);
    FrameSends(s.w.redis, f, l.io, l.reply, FieldsOf(s.w.redis, f.id).work.Some?, LastCall(s.calls),
               Sends(s.w.posts, f.act, true), Sends(s.w.posts, f.act, false));
    ItsOwn(s, l);
    hide Step, Sends, MsgOp, MsgNext, Ask, SentAt, FieldsOf, LastCall;
  }

  lemma ItsOwn(s: State, l: Label)
    requires l.Resume? && s.main.Processing?
    ensures OpOf(s, l) == MsgOp(s.w.redis, s.main.f)
    ensures OpOf(s, l).PostOutcome? ==> OpOf(s, l).act == s.main.f.act
  {
    hide JobOf;
  }

  lemma FreshSends(s: State, l: Label, act: nat, success: bool)
    requires SendsFit(s) && Numbered(s) && s.w.acts <= act
    ensures Sends(Step(s, l).w.posts, act, success) == 0
  {
    NeverSent(s.w.posts, act, success);
    SendsAfter(s, l, act, success);
    ActorSends(s, l);
    hide Step, OpOf, Sends, Limited;
  }

  lemma ForcedSends(s: State, l: Label)
    requires !l.Resume? && s.main.Processing? && MainSends(s.w, s.main)
    requires IdleFits(s) && Numbered(s)
    ensures MainSends(Step(s, l).w, Step(s, l).main)
  {
    OtherMain(s, l);
    OnlyItself(s, l);
    SendsAfter(s, l, s.main.f.act, true);
    SendsAfter(s, l, s.main.f.act, false);
    if Step(s, l).main.Processing? { OthersFrame(s, l); }
    hide Step, OpOf, Sends;
  }

  lemma OthersFrame(s: State, l: Label)
    requires !l.Resume? && s.main.Processing? && Step(s, l).main.Processing?
    ensures var m' := Step(s, l).main; m' == s.main || (m'.f.act == s.main.f.act && m'.f.pc.FinalAck?)
  {
    match l
    case ResumeChild(i, io, reply) => ChildMain(s, i, io, reply); hide Advance, ChildAdvance;
    case Gather => DrainMain(s); hide Advance, GatherAdvance;
    case DrainResume => DrainMain(s); hide Advance, DrainAdvance;
    case DrainTimeout => hide Advance, StopAll;
    case _ => hide Advance;
  }

  lemma MainSendsStep(s: State, l: Label)
    requires IdleFits(s) && Numbered(s) && SendsFit(s)
    ensures MainSends(Step(s, l).w, Step(s, l).main)
  {
    var s' := Step(s, l);
    MainNumbered(s, l);
    if s'.main.Processing? {
      var act := s'.main.f.act;
      if act >= s.w.acts {
        FreshSends(s, l, act, true);
        FreshSends(s, l, act, false);
        FreshFrame(s, l);
      } else if l.Resume? && s.main.Processing? {
        SameFrame(s, l);
        FrameSendsStep(s, l);
      } else if !l.Resume? {
        assert s.main.Processing? by { OtherMain(s, l); }
        ForcedSends(s, l);
      } else {
        TriageKeeps(s, l);
      }
    }
    hide Step, OpOf, Sends, MsgMove, Limited;
  }

  lemma FreshFrame(s: State, l: Label)
    requires Numbered(s) && Step(s, l).main.Processing? && Step(s, l).main.f.act >= s.w.acts
    ensures var pc := Step(s, l).main.f.pc; pc.AckMalformed? || pc.ReadStatus?
  {
    MainStep(s, l);
    hide Step, MsgMove, TriageMoveOf, Malformed;
  }

  // ---------------------------------------------------------------- deliveries

  lemma ChildSendsStep(s: State, l: Label)
    requires ChildActs(s, l) && ChildSends(s.w, s.delivery.value.tasks[l.i])
    ensures ChildSends(Step(s, l).w, ChildAfter(s, l))
  {
    SendsAfter(s, l, s.delivery.value.tasks[l.i].act, true);
    hide Step, Sends, JobOf;
  }

  lemma BystanderSends(s: State, l: Label, i: nat)
    requires IdleFits(s) && Numbered(s) && s.delivery.Some? && i < |s.delivery.value.tasks|
    requires ChildSends(s.w, s.delivery.value.tasks[i])
    requires ChildActs(s, l) ==> l.i != i
    ensures ChildSends(Step(s, l).w, s.delivery.value.tasks[i])
  {
    var c := s.delivery.value.tasks[i];
    SendsAfter(s, l, c.act, true);
    assert OpAct(OpOf(s, l)) != Some(c.act) by { hide Sends; }
    hide Step, Sends, OpOf;
  }

  lemma ChildrenSendStep(s: State, l: Label)
    requires IdleFits(s) && Numbered(s) && SendsFit(s)
    ensures ChildrenSend(Step(s, l).w, Step(s, l).delivery)
  {
    var s' := Step(s, l);
    DeliveryStep(s, l);
    if s'.delivery.Some? {
      forall i | 0 <= i < |s'.delivery.value.tasks| ensures ChildSends(s'.w, s'.delivery.value.tasks[i]) {
        var c' := s'.delivery.value.tasks[i];
        hide Step, ChildSends, Sends, Limited, MainSends;
        if ChildActs(s, l) {
          if l.i == i { ChildSendsStep(s, l); } else { BystanderSends(s, l, i); }
        } else if s.delivery.Some? && i < |s.delivery.value.tasks| && c' == s.delivery.value.tasks[i] {
          BystanderSends(s, l, i);
        } else {
          NewTaskSends(s, l, i);
        }
      }
    }
  }

  lemma NewTaskSends(s: State, l: Label, i: nat)
    requires IdleFits(s) && Numbered(s) && SendsFit(s)
    requires Step(s, l).delivery.Some? && i < |Step(s, l).delivery.value.tasks| && !ChildActs(s, l)
    requires var c' := Step(s, l).delivery.value.tasks[i];
             !(s.delivery.Some? && i < |s.delivery.value.tasks| && c' == s.delivery.value.tasks[i])
    ensures ChildSends(Step(s, l).w, Step(s, l).delivery.value.tasks[i])
  {
    var c' := Step(s, l).delivery.value.tasks[i];
    DeliveryStep(s, l);
    if c'.pc.CheckFirst? {
      FreshTask(s, l, i);
      FreshSends(s, l, c'.act, true);
    }
    hide Step, Sends, Limited, MainSends, ChildrenSend;
  }

  lemma {:induction false} SendsRun(s: State, ls: seq<Label>)
    requires IdleFits(s) && Numbered(s) && SendsFit(s)
    ensures var s' := Run(s, ls); IdleFits(s') && Numbered(s') && SendsFit(s')
    decreases |ls|
  {
    if ls != [] {
      IdleFitsStep(s, ls[0]);
      NumberedStep(s, ls[0]);
      LimitedStep(s, ls[0]);
      MainSendsStep(s, ls[0]);
      ChildrenSendStep(s, ls[0]);
      hide Step, IdleFits, Numbered, Limited, MainSends, ChildrenSend;
      SendsRun(Step(s, ls[0]), ls[1..]);
    }
  }

  // ---------------------------------------------------------------- retries

  /** The next step of the same coroutine. */
  predicate SameCoroutine(l: Label, l': Label) {
    (l.Resume? && l'.Resume?) || (l.ResumeChild? && l'.ResumeChild? && l.i == l'.i)
  }

  lemma PostsAgain(s: State, l: Label, l': Label)
    requires OpOf(s, l).PostOutcome? && SameCoroutine(l, l')
    ensures var op := OpOf(s, l);
            var n := if l.Resume? then s.main.f.pc.attempt else s.delivery.value.tasks[l.i].pc.attempt;
            OpOf(Step(s, l), l') == op <==> ReplyOf(s, l).Unreachable? && n < MAX_RETRIES
  {
    if l.Resume? {
      MessagePostsAgain(s, l, l');
    } else {
      ChildPostsAgain(s, l, l');
    }
    hide Step, OpOf;
  }

  lemma MessagePostsAgain(s: State, l: Label, l': Label)
    requires l.Resume? && l'.Resume? && OpOf(s, l).PostOutcome?
    ensures OpOf(Step(s, l), l') == OpOf(s, l) <==> l.reply.Unreachable? && s.main.f.pc.attempt < MAX_RETRIES
  {
    var f := s.main.f;
    MessageControl(s, f, s.main.rest, s.main.k, l.io, l.reply);
    DoStream(s.w, MsgOp(s.w.redis, f), l.io, l.reply);
    WorldStep(s, l);
    assert Step(s, l) == MsgAdvance(s, f, s.main.rest, s.main.k, l.io, l.reply) by { hide MsgAdvance; }
    hide MsgAdvance, FieldsOf, LastCall, Malformed, Step;
  }

  lemma ChildPostsAgain(s: State, l: Label, l': Label)
    requires l.ResumeChild? && l'.ResumeChild? && l.i == l'.i && OpOf(s, l).PostOutcome?
    ensures OpOf(Step(s, l), l') == OpOf(s, l) <==>
            l.creply.Unreachable? && s.delivery.value.tasks[l.i].pc.attempt < MAX_RETRIES
  {
    hide FieldsOf;
  }

  /** In every run, for results and errors of single messages and for deliveries: a
      POST that was answered neither with success nor with a refusal is followed by
      another of the same outcome by the same processing, until there were three;
      after any other answer, or the third, it is not. */
  lemma RetriesExactly(r: Redis, canBatch: bool, before: seq<Label>, l: Label, l': Label)
    requires OpOf(Run(Init(r, canBatch), before), l).PostOutcome? && SameCoroutine(l, l')
    ensures var s := Run(Init(r, canBatch), before);
            var op := OpOf(s, l);
            var n := Sends(s.w.posts, op.act, op.payload.Success?);
            && n < 3
            && (OpOf(Step(s, l), l') == op <==> ReplyOf(s, l).Unreachable? && n < 2)
  {
    var s := Run(Init(r, canBatch), before);
    assert SendsFit(Init(r, canBatch));
    SendsRun(Init(r, canBatch), before);
    PostsAgain(s, l, l');
    AttemptIs(s, l);
    hide Run, Step, OpOf, IdleFits, Numbered, SendsFit, Sends;
  }

  lemma AttemptIs(s: State, l: Label)
    requires SendsFit(s) && OpOf(s, l).PostOutcome?
    ensures var op := OpOf(s, l);
            var n := if l.Resume? then s.main.f.pc.attempt else s.delivery.value.tasks[l.i].pc.attempt;
            n == Sends(s.w.posts, op.act, op.payload.Success?) + 1 <= MAX_RETRIES
  {
    hide Sends, Limited, JobOf;
  }

  /** No processing ever sends more than three results and three errors. */
  lemma AtMostThreeSends(r: Redis, canBatch: bool, ls: seq<Label>, act: nat, success: bool)
    ensures Sends(Run(Init(r, canBatch), ls).w.posts, act, success) <= 3
  {
    assert SendsFit(Init(r, canBatch));
    SendsRun(Init(r, canBatch), ls);
    hide Run, Sends, IdleFits, Numbered;
  }
}
