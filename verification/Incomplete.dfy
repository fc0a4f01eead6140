/** Messages without a job or a callback are never worked on. */
module Incomplete {
  import opened Prelude
  import opened Webhook
  import opened Consumer
  import opened Effects
  import opened Flight
  import opened Outcomes

  /** The message names its job and its callback. */
  predicate Whole(r: Redis, id: Id) {
    id < |r.stream| && r.stream[id].jobId.Some? && r.stream[id].callbackUrl.Some?
  }

  ghost predicate AllWhole(r: Redis, ids: seq<Id>) {
    forall i :: 0 <= i < |ids| ==> Whole(r, ids[i])
  }

  ghost predicate MainWhole(r: Redis, m: Main) {
    match m
    case Processing(f, _, _) => f.pc.AckMalformed? || Whole(r, f.id)
    case Triage(id, _, tpc, _, parsed, _) => (tpc.TAckMalformed? || Whole(r, id)) && AllWhole(r, parsed)
    case Marking(_, _, parsed, _) => AllWhole(r, parsed)
    case Running(_, parsed) => AllWhole(r, parsed)
    case _ => true
  }

  ghost predicate DeliveryWhole(r: Redis, d: Option<Delivery>) {
    d.Some? ==>
      AllWhole(r, d.value.parsed) && forall i :: 0 <= i < |d.value.tasks| ==> Whole(r, d.value.tasks[i].id)
  }

  ghost predicate PostsWhole(w: World) {
    forall i :: 0 <= i < |w.posts| ==> Whole(w.redis, w.posts[i].id)
  }

  ghost predicate WholeFits(s: State) {
    MainWhole(s.w.redis, s.main) && DeliveryWhole(s.w.redis, s.delivery) && PostsWhole(s.w)
  }

  /** Messages are never changed. */
  lemma StreamGrows(s: State, l: Label)
    ensures s.w.redis.stream <= Step(s, l).w.redis.stream
  {
    WorldStep(s, l);
    DoStream(s.w, OpOf(s, l), IoOf(l), ReplyOf(s, l));
    hide Step, OpOf, Do, Available;
  }

  lemma StaysWhole(r: Redis, r': Redis, id: Id)
    requires r.stream <= r'.stream && Whole(r, id)
    ensures Whole(r', id)
  {
  }

  lemma MainStaysWhole(r: Redis, r': Redis, m: Main)
    requires r.stream <= r'.stream && MainWhole(r, m)
    ensures MainWhole(r', m)
  {
    forall id | Whole(r, id) ensures Whole(r', id) { StaysWhole(r, r', id); }
    hide Whole;
  }

  lemma NotMalformed(r: Redis, id: Id)
    ensures Malformed(r, id) <==> !Whole(r, id)
  {
  }

  // ---------------------------------------------------------------- the consume loop

  lemma NextWhole(s: State, rest: seq<Id>, k: Loop)
    ensures MainWhole(s.w.redis, NextMessage(s, rest, k).main)
    ensures NextMessage(s, rest, k).w.redis == s.w.redis && NextMessage(s, rest, k).delivery == s.delivery
  {
    if rest != [] { NotMalformed(s.w.redis, rest[0]); }
    hide Whole, Malformed;
  }

  lemma TriageNextWhole(s: State, todo: seq<Id>, batch: seq<Id>, parsed: seq<Id>, act: nat)
    requires AllWhole(s.w.redis, parsed)
    ensures MainWhole(s.w.redis, TriageNext(s, todo, batch, parsed, act).main)
  {
    if todo != [] { NotMalformed(s.w.redis, todo[0]); }
    hide Whole, Malformed;
  }

  lemma DispatchWhole(s: State, batch: seq<Id>, due: bool)
    ensures MainWhole(s.w.redis, Dispatch(s, batch, due).main)
  {
    NextWhole(s, batch, Dispatching);
    TriageNextWhole(s.(w := s.w.(acts := s.w.acts + 1)), batch, batch, [], s.w.acts);
    hide NextMessage, TriageNext, Whole;
  }

  lemma MessageWhole(s: State, io: Io, reply: Reply)
    requires s.main.Processing? && MainWhole(s.w.redis, s.main)
    ensures MainWhole(s.w.redis, MsgAdvance(s, s.main.f, s.main.rest, s.main.k, io, reply).main)
  {
    var f, s' := s.main.f, MsgAdvance(s, s.main.f, s.main.rest, s.main.k, io, reply);
    MessageControl(s, f, s.main.rest, s.main.k, io, reply);
    MessageNeverTriages(s, io, reply);
    assert f.pc.AckMalformed? ==> MsgMove(s, f, io, reply).Leave? by { hide MsgOp, Ask, FieldsOf, LastCall; }
    if MsgMove(s, f, io, reply).Leave? && s'.main.Processing? { NotMalformed(s.w.redis, s'.main.f.id); }
    hide MsgAdvance, MsgMove, Malformed, Whole;
  }

  lemma MessageNeverTriages(s: State, io: Io, reply: Reply)
    requires s.main.Processing?
    ensures var m' := MsgAdvance(s, s.main.f, s.main.rest, s.main.k, io, reply).main;
            !m'.Triage? && !m'.Marking? && !m'.Running?
  {
    hide MsgOp, MsgNext, MsgNotes, MsgLocal, MsgCalls, Ask, Do, FieldsOf, JobOf, Malformed, Delay;
  }

  lemma TriageWhole(s: State, io: Io)
    requires s.main.Triage? && MainWhole(s.w.redis, s.main)
    ensures MainWhole(s.w.redis, TriageAdvance(s, s.main, io).main)
  {
    var m := s.main;
    var op := TriageOp(s.w.redis, m);
    var a := Ask(s.w.redis, op, io, Accepted);
    var mv := TriageMoveOf(s, io);
    var s1 := s.(w := Noted(Do(s.w, op, io, Accepted), TriageNotes(m.id, a, mv)));
    DoStream(s.w, op, io, Accepted);
    assert mv.TKept? || mv.TGo? ==> !m.tpc.TAckMalformed? by { hide TriageOp, Ask, FieldsOf; }
    assert mv.TGo? ==> !mv.tpc.TAckMalformed? by { hide TriageOp, Ask, FieldsOf; }
    TriageKeepsWhole(s1, s, m, if mv.TKept? then m.parsed + [m.id] else m.parsed);
    hide TriageOp, TriageMoveOf, TriageStep, TriageNotes, Ask, Do, FieldsOf, Delay, TriageNext, Whole;
  }

  lemma TriageKeepsWhole(s1: State, s: State, m: Main, parsed: seq<Id>)
    requires s1.w.redis.stream == s.w.redis.stream && m.Triage?
    ensures AllWhole(s.w.redis, parsed) ==>
              MainWhole(s.w.redis, TriageNext(s1, m.todo, m.batch, parsed, m.tact).main)
  {
    if AllWhole(s.w.redis, parsed) {
      TriageNextWhole(s1, m.todo, m.batch, parsed, m.tact);
      MainStaysWhole(s1.w.redis, s.w.redis, TriageNext(s1, m.todo, m.batch, parsed, m.tact).main);
    }
    hide TriageNext, MainWhole;
  }

  lemma MarkWhole(s: State, io: Io, alt: bool)
    requires s.main.Marking? && MainWhole(s.w.redis, s.main)
    ensures var s' := MarkAdvance(s, s.main.todo, s.main.batch, s.main.parsed, s.main.tact, io, alt);
            MainWhole(s.w.redis, s'.main)
  {
    var m := s.main;
    if m.todo != [] {
      var op := SetStatus(m.tact, JobOf(s.w.redis, m.todo[0]), Executing);
      var s1 := s.(w := Do(s.w, op, io, Accepted));
      DoStream(s.w, op, io, Accepted);
      NextWhole(s1, m.batch, FallingBack);
      MainStaysWhole(s1.w.redis, s.w.redis, NextMessage(s1, m.batch, FallingBack).main);
      hide NextMessage, Do, JobOf, Works, Whole;
    }
  }

  lemma ReadWhole(s: State, io: Io, alt: bool)
    ensures MainWhole(s.w.redis, ReadAdvance(s, io, alt).main)
  {
    var n := Available(s.w.redis, s.canBatch);
    var s1 := s.(w := s.w.(redis := ReadGroup(s.w.redis, n)));
    var s2 := s1.(p := s1.p.(healthy := true, failures := 0, slept := 0));
    var batch := Interval(s.w.redis.cursor, n);
    DispatchWhole(s2, batch, alt);
    MainStaysWhole(s2.w.redis, s.w.redis, Dispatch(s2, batch, alt).main);
    hide Dispatch, Available, Interval, Delay, Whole;
  }

  lemma JoinWhole(s: State, batch: seq<Id>, alt: bool)
    requires s.main == Joining(batch)
    ensures MainWhole(s.w.redis, JoinAdvance(s, batch, alt).main)
  {
    DispatchWhole(s, batch, alt);
    DispatchWhole(
      s.(delivery := None, drain := if s.drain.WaitDelivery? then Drained(true) else s.drain), batch, alt);
    hide Dispatch, Delay, Whole;
  }

  lemma RestWhole(s: State, io: Io, reply: Reply, alt: bool)
    requires !(s.main.Processing? || s.main.Triage? || s.main.Marking? || s.main.Reading?)
    requires MainWhole(s.w.redis, s.main)
    ensures MainWhole(s.w.redis, Advance(s, io, reply, alt).main)
  {
    match s.main
    case Running(batch, _) => NextWhole(s, batch, FallingBack); hide NextMessage, Whole;
    case Joining(batch) => JoinWhole(s, batch, alt); hide JoinAdvance, Whole;
    case Listing(boot) =>
      NextWhole(s, s.w.redis.pel[..Min(RECOVERY_COUNT, |s.w.redis.pel|)], Recovering(boot, 0));
      hide NextMessage, Delay, Whole;
    case Fetching(rest, _, _) =>
      if rest != [] { NotMalformed(s.w.redis, rest[0]); }
      hide Malformed, Delay, Whole;
    case _ => hide Delay, Whole;
  }

  lemma MainWholeStep(s: State, l: Label)
    requires MainWhole(s.w.redis, s.main)
    ensures MainWhole(s.w.redis, Step(s, l).main)
  {
    if !l.Resume? {
      OthersMain(s, l);
      hide Step, Whole;
    } else {
      match s.main
      case Processing(_, _, _) => MessageWhole(s, l.io, l.reply); hide MsgAdvance, MainWhole;
      case Triage(_, _, _, _, _, _) => TriageWhole(s, l.io); hide TriageAdvance, MainWhole;
      case Marking(_, _, _, _) => MarkWhole(s, l.io, l.alt); hide MarkAdvance, MainWhole;
      case Reading => ReadWhole(s, l.io, l.alt); hide ReadAdvance, MainWhole;
      case _ => RestWhole(s, l.io, l.reply, l.alt); hide Advance, MainWhole;
    }
  }

  lemma OthersMain(s: State, l: Label)
    requires !l.Resume?
    ensures var m' := Step(s, l).main;
            || m' == s.main || m'.Ended? || m'.Booting?
            || (s.main.Processing? && !s.main.f.pc.AckMalformed? && m'.Processing? && m'.f.id == s.main.f.id)
  {
    match l
    case ResumeChild(i, io, reply) => ChildMain(s, i, io, reply); hide Advance, ChildAdvance;
    case Gather => DrainMain(s); hide Advance, GatherAdvance;
    case DrainResume => DrainMain(s); hide Advance, DrainAdvance;
    case DrainTimeout => DrainMain(s); hide Advance, DrainGiveUp;
    case _ => hide Advance, StopAll;
  }

  // ---------------------------------------------------------------- deliveries and posts

  lemma DeliveryWholeStep(s: State, l: Label)
    requires MainWhole(s.w.redis, s.main) && DeliveryWhole(s.w.redis, s.delivery)
    ensures DeliveryWhole(s.w.redis, Step(s, l).delivery)
  {
    match l
    case Resume(io, reply, alt) => ResumeDeliveryWhole(s, io, reply, alt); hide Advance;
    case ResumeChild(_, _, _) => hide Advance, ChildOp, ChildNext, Ask, Do, Whole;
    case Gather => hide Advance, AnyBroken, AllFinished, Whole;
    case _ => hide Advance, Whole;
  }

  lemma ResumeDeliveryWhole(s: State, io: Io, reply: Reply, alt: bool)
    requires MainWhole(s.w.redis, s.main) && DeliveryWhole(s.w.redis, s.delivery)
    ensures DeliveryWhole(s.w.redis, Advance(s, io, reply, alt).delivery)
  {
    match s.main
    case Processing(f, rest, k) => MessageControl(s, f, rest, k, io, reply); hide MsgAdvance, Whole;
    case Triage(_, _, _, _, _, _) => TriageControl(s, io); hide TriageAdvance, Whole;
    case Marking(_, _, _, _) => MarkControl(s, io, alt); hide MarkAdvance, Whole;
    case Reading => ReadControl(s, io, alt); hide ReadAdvance, Whole;
    case Joining(batch) => JoinControl(s, batch, alt); hide JoinAdvance, Whole;
    case Running(batch, _) => NextWhole(s, batch, FallingBack); hide NextMessage, Whole;
    case _ => hide Malformed, Delay, Whole;
  }

  /** Whoever posts posts about a whole message. */
  lemma PostsAboutWhole(s: State, l: Label)
    requires MainWhole(s.w.redis, s.main) && DeliveryWhole(s.w.redis, s.delivery)
    ensures OpOf(s, l).PostOutcome? ==> Whole(s.w.redis, OpOf(s, l).id)
    ensures OpOf(s, l).PostOutcome? ==> OpOf(s, l).job == JobOf(s.w.redis, OpOf(s, l).id)
  {
    hide Whole, JobOf;
  }

  lemma WholeStep(s: State, l: Label)
    requires WholeFits(s)
    ensures WholeFits(Step(s, l))
  {
    var r, s' := s.w.redis, Step(s, l);
    StreamGrows(s, l);
    MainWholeStep(s, l);
    MainStaysWhole(r, s'.w.redis, s'.main);
    DeliveryWholeStep(s, l);
    PostsAfter(s, l);
    PostsAboutWhole(s, l);
    forall id | Whole(r, id) ensures Whole(s'.w.redis, id) { StaysWhole(r, s'.w.redis, id); }
    hide Step, OpOf, Whole, MainWhole;
  }

  lemma {:induction false} WholeRun(s: State, ls: seq<Label>)
    requires WholeFits(s)
    ensures WholeFits(Run(s, ls))
    decreases |ls|
  {
    if ls != [] {
      WholeStep(s, ls[0]);
      WholeRun(Step(s, ls[0]), ls[1..]);
    }
    hide Step, WholeFits;
  }

  /** In every run: nothing is ever posted for a message that does not name both its
      job and its callback, no executor call is made for one, and a processing of one
      only acknowledges it. */
  lemma IncompleteIsOnlyAcknowledged(r: Redis, canBatch: bool, ls: seq<Label>)
    ensures var s := Run(Init(r, canBatch), ls);
            && (forall i :: 0 <= i < |s.w.posts| ==> Whole(s.w.redis, s.w.posts[i].id))
            && (s.main.Processing? && !Whole(s.w.redis, s.main.f.id) ==> s.main.f.pc.AckMalformed?)
            && (s.main.Triage? && !Whole(s.w.redis, s.main.id) ==> s.main.tpc.TAckMalformed?)
            && (s.main.Running? ==> AllWhole(s.w.redis, s.main.parsed))
  {
    assert WholeFits(Init(r, canBatch));
    WholeRun(Init(r, canBatch), ls);
    hide Run, Whole;
  }
}
