/** What one step does to the world outside the process, as a single call.

Every later proof about Redis, the POSTs or the history uses these facts
instead of the program text.
*/
module Effects {
  import opened Prelude
  import opened Webhook
  import opened Consumer

  /** The call a step carries out. */
  function OpOf(s: State, l: Label): Op {
    match l
    case Resume(_, _, _) => (
      match s.main
      case Processing(f, _, _) => MsgOp(s.w.redis, f)
      case Triage(_, _, _, _, _, _) => TriageOp(s.w.redis, s.main)
      case Marking(todo, _, _, tact) =>
        if todo == [] then Nothing else SetStatus(tact, JobOf(s.w.redis, todo[0]), Executing)
      case _ => Nothing)
    case ResumeChild(i, _, _) =>
      if s.delivery.Some? && i < |s.delivery.value.tasks| then ChildOp(s.w.redis, s.delivery.value.tasks[i])
      else Nothing
    case _ => Nothing
  }

  function IoOf(l: Label): Io {
    match l case Resume(io, _, _) => io case ResumeChild(_, io, _) => io case _ => Fine
  }

  function ReplyOf(s: State, l: Label): Reply {
    match l
    case Resume(_, reply, _) => if s.main.Processing? then reply else Accepted
    case ResumeChild(_, _, reply) => reply
    case _ => Accepted
  }

  predicate Reads(s: State, l: Label) {
    l.Resume? && s.main.Reading?
  }

  /** Apart from notes in the history, `w'` is `w` after one call. */
  ghost predicate Carried(w: World, w': World, op: Op, io: Io, reply: Reply) {
    var d := Do(w, op, io, reply);
    && w'.redis == d.redis
    && w'.acked == d.acked
    && w'.posts == d.posts
    && d.log <= w'.log
    && w.acts <= w'.acts
  }

  lemma NextCarries(s: State, rest: seq<Id>, k: Loop)
    ensures Carried(s.w, NextMessage(s, rest, k).w, Nothing, Fine, Accepted)
  {
    hide Malformed;
  }

  lemma TriageNextCarries(s: State, todo: seq<Id>, batch: seq<Id>, parsed: seq<Id>, act: nat)
    ensures Carried(s.w, TriageNext(s, todo, batch, parsed, act).w, Nothing, Fine, Accepted)
  {
    hide Malformed;
  }

  lemma DispatchCarries(s: State, batch: seq<Id>, due: bool)
    ensures Carried(s.w, Dispatch(s, batch, due).w, Nothing, Fine, Accepted)
  {
    NextCarries(s, batch, Dispatching);
    TriageNextCarries(s.(w := s.w.(acts := s.w.acts + 1)), batch, batch, [], s.w.acts);
    hide NextMessage, TriageNext;
  }

  lemma Carries(w: World, op: Op, io: Io, reply: Reply, es: seq<Event>, w': World)
    requires Carried(Noted(Do(w, op, io, reply), es), w', Nothing, Fine, Accepted)
    ensures Carried(w, w', op, io, reply)
    ensures Do(w, op, io, reply).log + es <= w'.log
  {
  }

  lemma MessageCarries(s: State, f: Frame, rest: seq<Id>, k: Loop, io: Io, reply: Reply)
    ensures Carried(s.w, MsgAdvance(s, f, rest, k, io, reply).w, MsgOp(s.w.redis, f), io, reply)
    ensures var op := MsgOp(s.w.redis, f);
            var a := Ask(s.w.redis, op, io, reply);
            var work := FieldsOf(s.w.redis, f.id).work;
            Do(s.w, op, io, reply).log
              + MsgNotes(f.id, JobOf(s.w.redis, f.id), work, f.pc, a, MsgNext(f.pc, a, work.Some?, LastCall(s.calls)))
            <= MsgAdvance(s, f, rest, k, io, reply).w.log
  {
    var op := MsgOp(s.w.redis, f);
    var a := Ask(s.w.redis, op, io, reply);
    var work := FieldsOf(s.w.redis, f.id).work;
    var mv := MsgNext(f.pc, a, work.Some?, LastCall(s.calls));
    var es := MsgNotes(f.id, JobOf(s.w.redis, f.id), work, f.pc, a, mv);
    var s1 := s.(
      w := Noted(Do(s.w, op, io, reply), es),
      p := MsgLocal(s.p, JobOf(s.w.redis, f.id), f.pc, mv),
      calls := MsgCalls(s.calls, work, f.pc, a));
    NextCarries(s1, rest, k);
    hide MsgOp, MsgNext, MsgNotes, MsgLocal, MsgCalls, Ask, Do, NextMessage, FieldsOf, JobOf, Delay;
    assert Carried(s1.w, MsgAdvance(s, f, rest, k, io, reply).w, Nothing, Fine, Accepted) by {
      DoNothing(s1.w);
    }
    Carries(s.w, op, io, reply, es, MsgAdvance(s, f, rest, k, io, reply).w);
  }

  lemma DoNothing(w: World)
    ensures Do(w, Nothing, Fine, Accepted) == w
  {
  }

  lemma TriageCarries(s: State, io: Io)
    requires s.main.Triage?
    ensures Carried(s.w, TriageAdvance(s, s.main, io).w, TriageOp(s.w.redis, s.main), io, Accepted)
    ensures var a := Ask(s.w.redis, TriageOp(s.w.redis, s.main), io, Accepted);
            Do(s.w, TriageOp(s.w.redis, s.main), io, Accepted).log
              + TriageNotes(s.main.id, a, TriageStep(s.main.tpc, a, FieldsOf(s.w.redis, s.main.id).work.Some?))
            <= TriageAdvance(s, s.main, io).w.log
  {
    var m := s.main;
    var op := TriageOp(s.w.redis, m);
    var a := Ask(s.w.redis, op, io, Accepted);
    var mv := TriageStep(m.tpc, a, FieldsOf(s.w.redis, m.id).work.Some?);
    var es := TriageNotes(m.id, a, mv);
    var s1 := s.(w := Noted(Do(s.w, op, io, Accepted), es));
    TriageNextCarries(s1, m.todo, m.batch, m.parsed, m.tact);
    TriageNextCarries(s1, m.todo, m.batch, m.parsed + [m.id], m.tact);
    DoNothing(s1.w);
    hide TriageOp, TriageStep, TriageNotes, Ask, Do, TriageNext, FieldsOf, Delay;
    Carries(s.w, op, io, Accepted, es, TriageAdvance(s, m, io).w);
  }

  lemma MarkCarries(s: State, io: Io, alt: bool)
    requires s.main.Marking?
    ensures Carried(s.w, Advance(s, io, Accepted, alt).w, OpOf(s, Resume(io, Accepted, alt)), io, Accepted)
  {
    var m := s.main;
    if m.todo != [] {
      var op := SetStatus(m.tact, JobOf(s.w.redis, m.todo[0]), Executing);
      var s1 := s.(w := Do(s.w, op, io, Accepted));
      NextCarries(s1, m.batch, FallingBack);
      DoNothing(s1.w);
      hide NextMessage, Do, JobOf, Works, Jobs;
      Carries(s.w, op, io, Accepted, [], MarkAdvance(s, m.todo, m.batch, m.parsed, m.tact, io, alt).w);
    }
  }

  lemma ReadingCarries(s: State, io: Io, alt: bool)
    requires s.main.Reading?
    ensures var w' := Advance(s, io, Accepted, alt).w;
            && w'.redis == (if Lands(io) then ReadGroup(s.w.redis, Available(s.w.redis, s.canBatch)) else s.w.redis)
            && w'.acked == s.w.acked && w'.posts == s.w.posts && s.w.log <= w'.log && s.w.acts <= w'.acts
  {
    var n := Available(s.w.redis, s.canBatch);
    var s1 := if Lands(io) then s.(w := s.w.(redis := ReadGroup(s.w.redis, n))) else s;
    var s2 := s1.(p := s1.p.(healthy := true, failures := 0, slept := 0));
    DispatchCarries(s2, Interval(s.w.redis.cursor, n), alt);
    DoNothing(s2.w);
    hide Dispatch, Available, ReadGroup, Interval, Do, Delay;
  }

  lemma JoiningCarries(s: State, batch: seq<Id>, alt: bool)
    ensures Carried(s.w, JoinAdvance(s, batch, alt).w, Nothing, Fine, Accepted)
  {
    DispatchCarries(s, batch, alt);
    DispatchCarries(
      s.(delivery := None, drain := if s.drain.WaitDelivery? then Drained(true) else s.drain), batch, alt);
    hide Dispatch, Delay;
  }

  lemma RestCarries(s: State, io: Io, reply: Reply, alt: bool)
    requires !(s.main.Processing? || s.main.Triage? || s.main.Marking? || s.main.Reading?)
    ensures Carried(s.w, Advance(s, io, reply, alt).w, Nothing, io, reply)
  {
    match s.main
    case Running(batch, _) => NextCarries(s, batch, FallingBack); hide NextMessage;
    case Joining(batch) => JoiningCarries(s, batch, alt); hide JoinAdvance;
    case Listing(boot) => ListingCarries(s, io, reply, alt); hide Advance;
    case _ => OtherCarries(s, io, reply, alt); hide Advance;
  }

  lemma ListingCarries(s: State, io: Io, reply: Reply, alt: bool)
    requires s.main.Listing?
    ensures Carried(s.w, Advance(s, io, reply, alt).w, Nothing, io, reply)
  {
    NextCarries(s, s.w.redis.pel[..Min(RECOVERY_COUNT, |s.w.redis.pel|)], Recovering(s.main.boot, 0));
    hide NextMessage, Delay;
  }

  lemma OtherCarries(s: State, io: Io, reply: Reply, alt: bool)
    requires s.main.Booting? || s.main.Fetching? || s.main.Sleeping? || s.main.Ended?
    ensures Carried(s.w, Advance(s, io, reply, alt).w, Nothing, io, reply)
  {
    hide Malformed, Delay;
  }

  lemma ChildCarries(s: State, i: nat, io: Io, reply: Reply)
    ensures Carried(s.w, ChildAdvance(s, i, io, reply).w, OpOf(s, ResumeChild(i, io, reply)), io, reply)
  {
    hide ChildOp, ChildNext, Ask, JobOf;
  }

  lemma OthersCarry(s: State, l: Label)
    requires !l.Resume? && !l.ResumeChild? && !l.RaiseFlag? && !l.Append?
    ensures Carried(s.w, Step(s, l).w, Nothing, Fine, Accepted)
  {
    hide Advance, ChildAdvance, StopAll, Children;
  }

  /** The effect of any step on Redis, the acknowledgements, the POSTs and the history. */
  lemma WorldStep(s: State, l: Label)
    ensures var w' := Step(s, l).w;
            if l.RaiseFlag? then w' == s.w.(redis := s.w.redis.(flags := s.w.redis.flags + {l.job}))
            else if l.Append? then w' == s.w.(redis := s.w.redis.(stream := s.w.redis.stream + [l.fields]))
            else if Reads(s, l) then
              && w'.redis
                   == (if Lands(IoOf(l)) then ReadGroup(s.w.redis, Available(s.w.redis, s.canBatch)) else s.w.redis)
              && w'.acked == s.w.acked && w'.posts == s.w.posts && s.w.log <= w'.log && s.w.acts <= w'.acts
            else Carried(s.w, w', OpOf(s, l), IoOf(l), ReplyOf(s, l))
  {
    hide MsgAdvance, TriageAdvance, ChildAdvance, MsgOp, TriageOp, ChildOp, Do, Ask, GatherAdvance, DrainAdvance,
      DrainGiveUp, Force, MarkAdvance, BatchReturn, JoinAdvance, ReadAdvance, NextMessage, Begin, ConnError,
      ReadGroup;
    DoNothing(s.w);
    match l
    case Resume(io, reply, alt) =>
      if s.main.Processing? {
        MessageCarries(s, s.main.f, s.main.rest, s.main.k, io, reply);
      } else if s.main.Triage? {
        TriageCarries(s, io);
      } else if s.main.Marking? {
        MarkCarries(s, io, alt);
      } else if s.main.Reading? {
        ReadingCarries(s, io, alt);
      } else {
        RestCarries(s, io, reply, alt);
        DoesNothing(s.w, io, reply);
        DoesNothing(s.w, io, Accepted);
      }
    case ResumeChild(i, io, reply) => ChildCarries(s, i, io, reply);
    case RaiseFlag(_) =>
    case Append(_) =>
    case _ => OthersCarry(s, l);
  }

  lemma DoesNothing(w: World, io: Io, reply: Reply)
    ensures Do(w, Nothing, io, reply) == w
  {
  }

  // ---------------------------------------------------------------- control

  /** `m` is a place where no message has been looked at yet. */
  predicate Entry(r: Redis, m: Main) {
    match m
    case Processing(f, _, _) => f.pc == if Malformed(r, f.id) then AckMalformed else ReadStatus
    case Triage(id, _, tpc, _, _, _) => tpc == if Malformed(r, id) then TAckMalformed else TReadStatus
    case _ => true
  }

  function MsgMove(s: State, f: Frame, io: Io, reply: Reply): Move {
    MsgNext(f.pc, Ask(s.w.redis, MsgOp(s.w.redis, f), io, reply),
            FieldsOf(s.w.redis, f.id).work.Some?, LastCall(s.calls))
  }

  function TriageMoveOf(s: State, io: Io): TriageMove
    requires s.main.Triage?
  {
    TriageStep(s.main.tpc, Ask(s.w.redis, TriageOp(s.w.redis, s.main), io, Accepted),
               FieldsOf(s.w.redis, s.main.id).work.Some?)
  }

  lemma NextEntry(s: State, rest: seq<Id>, k: Loop)
    ensures Entry(s.w.redis, NextMessage(s, rest, k).main)
  {
    hide Malformed;
  }

  lemma TriageNextEntry(s: State, todo: seq<Id>, batch: seq<Id>, parsed: seq<Id>, act: nat)
    ensures Entry(s.w.redis, TriageNext(s, todo, batch, parsed, act).main)
  {
    hide Malformed;
  }

  lemma DispatchEntry(s: State, batch: seq<Id>, due: bool)
    ensures Entry(s.w.redis, Dispatch(s, batch, due).main)
  {
    NextEntry(s, batch, Dispatching);
    TriageNextEntry(s.(w := s.w.(acts := s.w.acts + 1)), batch, batch, [], s.w.acts);
    hide NextMessage, TriageNext, Malformed;
  }

  /** Entries look only at the stream. */
  lemma EntryStable(r: Redis, r': Redis, m: Main)
    requires Entry(r, m) && r'.stream == r.stream
    ensures Entry(r', m)
  {
  }

  lemma DoStream(w: World, op: Op, io: Io, reply: Reply)
    ensures Do(w, op, io, reply).redis.stream == w.redis.stream
    ensures Do(w, op, io, reply).redis.flags == w.redis.flags
    ensures Do(w, op, io, reply).acts == w.acts
  {
    hide Without;
  }

  lemma MessageControl(s: State, f: Frame, rest: seq<Id>, k: Loop, io: Io, reply: Reply)
    ensures var mv := MsgMove(s, f, io, reply);
            var s' := MsgAdvance(s, f, rest, k, io, reply);
            if mv.Go? then s'.main == Processing(f.(pc := mv.pc), rest, k) else Entry(s.w.redis, s'.main)
    ensures MsgAdvance(s, f, rest, k, io, reply).delivery == s.delivery
  {
    var op := MsgOp(s.w.redis, f);
    var a := Ask(s.w.redis, op, io, reply);
    var work := FieldsOf(s.w.redis, f.id).work;
    var mv := MsgMove(s, f, io, reply);
    var s1 := s.(
      w := Noted(Do(s.w, op, io, reply), MsgNotes(f.id, JobOf(s.w.redis, f.id), work, f.pc, a, mv)),
      p := MsgLocal(s.p, JobOf(s.w.redis, f.id), f.pc, mv),
      calls := MsgCalls(s.calls, work, f.pc, a));
    NextEntry(s1, rest, k);
    DoStream(s.w, op, io, reply);
    EntryStable(s1.w.redis, s.w.redis, NextMessage(s1, rest, k).main);
    assert NextMessage(s1, rest, k).delivery == s.delivery;
    hide MsgOp, MsgNext, MsgNotes, MsgLocal, MsgCalls, Ask, Do, NextMessage, FieldsOf, JobOf, Delay, Malformed;
  }

  lemma TriageControl(s: State, io: Io)
    requires s.main.Triage?
    ensures var mv := TriageMoveOf(s, io);
            var s' := TriageAdvance(s, s.main, io);
            if mv.TGo? then s'.main == s.main.(tpc := mv.tpc) else Entry(s.w.redis, s'.main)
    ensures TriageAdvance(s, s.main, io).delivery == s.delivery
  {
    var m := s.main;
    var op := TriageOp(s.w.redis, m);
    var a := Ask(s.w.redis, op, io, Accepted);
    var s1 := s.(w := Noted(Do(s.w, op, io, Accepted), TriageNotes(m.id, a, TriageMoveOf(s, io))));
    TriageNextEntry(s1, m.todo, m.batch, m.parsed, m.tact);
    TriageNextEntry(s1, m.todo, m.batch, m.parsed + [m.id], m.tact);
    DoStream(s.w, op, io, Accepted);
    EntryStable(s1.w.redis, s.w.redis, TriageNext(s1, m.todo, m.batch, m.parsed, m.tact).main);
    EntryStable(s1.w.redis, s.w.redis, TriageNext(s1, m.todo, m.batch, m.parsed + [m.id], m.tact).main);
    assert TriageNext(s1, m.todo, m.batch, m.parsed, m.tact).delivery == s.delivery;
    assert TriageNext(s1, m.todo, m.batch, m.parsed + [m.id], m.tact).delivery == s.delivery;
    hide TriageOp, TriageStep, TriageNotes, Ask, Do, TriageNext, FieldsOf, Delay, Malformed;
  }

  lemma MarkControl(s: State, io: Io, alt: bool)
    requires s.main.Marking?
    ensures var s' := MarkAdvance(s, s.main.todo, s.main.batch, s.main.parsed, s.main.tact, io, alt);
            && Entry(s.w.redis, s'.main)
            && s'.delivery == s.delivery
  {
    var m := s.main;
    if m.todo != [] {
      var op := SetStatus(m.tact, JobOf(s.w.redis, m.todo[0]), Executing);
      var s1 := s.(w := Do(s.w, op, io, Accepted));
      NextEntry(s1, m.batch, FallingBack);
      DoStream(s.w, op, io, Accepted);
      EntryStable(s1.w.redis, s.w.redis, NextMessage(s1, m.batch, FallingBack).main);
      assert NextMessage(s1, m.batch, FallingBack).delivery == s.delivery;
      hide NextMessage, Do, JobOf, Works, Malformed;
    }
  }

  lemma ReadControl(s: State, io: Io, alt: bool)
    ensures Entry(s.w.redis, ReadAdvance(s, io, alt).main)
    ensures ReadAdvance(s, io, alt).delivery == s.delivery
  {
    var n := Available(s.w.redis, s.canBatch);
    var s1 := if Lands(io) then s.(w := s.w.(redis := ReadGroup(s.w.redis, n))) else s;
    var s2 := s1.(p := s1.p.(healthy := true, failures := 0, slept := 0));
    var batch := Interval(s.w.redis.cursor, n);
    DispatchEntry(s2, batch, alt);
    EntryStable(s2.w.redis, s.w.redis, Dispatch(s2, batch, alt).main);
    assert Dispatch(s2, batch, alt).delivery == s.delivery by { hide Malformed; }
    hide Dispatch, Available, Interval, Delay, Malformed;
  }

  lemma JoinControl(s: State, batch: seq<Id>, alt: bool)
    requires s.main == Joining(batch)
    ensures Entry(s.w.redis, JoinAdvance(s, batch, alt).main)
    ensures JoinAdvance(s, batch, alt).delivery == s.delivery || JoinAdvance(s, batch, alt).delivery == None
  {
    var s1 := s.(delivery := None, drain := if s.drain.WaitDelivery? then Drained(true) else s.drain);
    DispatchEntry(s, batch, alt);
    DispatchEntry(s1, batch, alt);
    assert Dispatch(s, batch, alt).delivery == s.delivery by { hide Malformed; }
    assert Dispatch(s1, batch, alt).delivery == None by { hide Malformed; }
    hide Dispatch, Delay, Malformed;
  }

  /** Cancelling the task inside the `try` leads to `finally` and is on record. */
  ghost predicate ThrownOut(s: State, l: Label) {
    && l.ForceCancel?
    && s.main.Processing?
    && !BeforeTry(s.main.f.pc)
    && Step(s, l).main == s.main.(f := s.main.f.(pc := FinalAck(ForcedEscape)))
    && ForcedOut(s.main.f.id) in Step(s, l).w.log
  }

  /** Where the consume loop is after a step. */
  ghost predicate MainMoved(s: State, l: Label) {
    var m' := Step(s, l).main;
    || (l.Resume? && s.main.Processing? && MsgMove(s, s.main.f, l.io, l.reply).Go?
        && m' == s.main.(f := s.main.f.(pc := MsgMove(s, s.main.f, l.io, l.reply).pc)))
    || (l.Resume? && s.main.Triage? && TriageMoveOf(s, l.io).TGo? && m' == s.main.(tpc := TriageMoveOf(s, l.io).tpc))
    || Entry(s.w.redis, m')
    || (!l.Resume? && m' == s.main)
    || ThrownOut(s, l)
  }

  lemma RestControl(s: State, io: Io, reply: Reply, alt: bool)
    requires !(s.main.Processing? || s.main.Triage? || s.main.Marking? || s.main.Reading? || s.main.Joining?)
    ensures Entry(s.w.redis, Advance(s, io, reply, alt).main)
  {
    match s.main
    case Running(batch, _) => NextEntry(s, batch, FallingBack); hide NextMessage, Malformed;
    case Listing(boot) =>
      NextEntry(s, s.w.redis.pel[..Min(RECOVERY_COUNT, |s.w.redis.pel|)], Recovering(boot, 0));
      hide NextMessage, Delay, Malformed;
    case _ => hide Malformed, Delay;
  }

  lemma MainStep(s: State, l: Label)
    ensures MainMoved(s, l)
  {
    hide MsgAdvance, TriageAdvance, MarkAdvance, ReadAdvance, JoinAdvance, BatchReturn, NextMessage, Begin,
      ConnError, Backoff, ChildAdvance, GatherAdvance, DrainAdvance, DrainGiveUp, Malformed, MsgMove, TriageMoveOf,
      CancelLast;
    match l
    case Resume(io, reply, alt) =>
      if s.main.Processing? {
        MessageControl(s, s.main.f, s.main.rest, s.main.k, io, reply);
      } else if s.main.Triage? {
        TriageControl(s, io);
      } else if s.main.Marking? {
        MarkControl(s, io, alt);
      } else if s.main.Reading? {
        ReadControl(s, io, alt);
      } else if s.main.Joining? {
        JoinControl(s, s.main.batch, alt);
      } else {
        RestControl(s, io, reply, alt);
      }
    case DrainTimeout => DrainMain(s);
    case DrainResume => DrainMain(s);
    case Gather => DrainMain(s);
    case ResumeChild(i, io, reply) =>
      assert ChildAdvance(s, i, io, reply).main == s.main by { ChildMain(s, i, io, reply); }
    case ForceCancel => AbortMain(s.(w := Noted(s.w, [Forced])));
    case _ =>
  }

  lemma AbortMain(s: State)
    ensures Abort(s).main == s.main && Abort(s).w == s.w
  {
  }

  lemma ChildMain(s: State, i: nat, io: Io, reply: Reply)
    ensures ChildAdvance(s, i, io, reply).main == s.main
  {
    hide ChildOp, ChildNext, Ask, Do;
  }

  lemma DrainMain(s: State)
    ensures DrainGiveUp(s).main == s.main || DrainGiveUp(s).main == Ended
    ensures DrainAdvance(s).main == s.main
    ensures GatherAdvance(s).main == s.main
  {
    hide StopAll, Children, AnyBroken, AllFinished;
  }

  /** Children are new, stopped, or as they were. */
  ghost predicate TasksFrom(d: Option<Delivery>, d': Delivery) {
    forall i :: 0 <= i < |d'.tasks| ==>
      d'.tasks[i].pc.CheckFirst? || d'.tasks[i].pc.Stopped?
      || (d.Some? && i < |d.value.tasks| && d'.tasks[i] == d.value.tasks[i])
  }

  predicate ChildActs(s: State, l: Label) {
    l.ResumeChild? && s.delivery.Some? && l.i < |s.delivery.value.tasks|
  }

  function ChildAfter(s: State, l: Label): Child
    requires ChildActs(s, l)
  {
    var c := s.delivery.value.tasks[l.i];
    c.(pc := ChildNext(c.pc, Ask(s.w.redis, ChildOp(s.w.redis, c), l.cio, l.creply)))
  }

  ghost predicate DeliveryMoved(s: State, l: Label) {
    var d' := Step(s, l).delivery;
    if ChildActs(s, l) then
      d' == Some(s.delivery.value.(tasks := s.delivery.value.tasks[l.i := ChildAfter(s, l)]))
    else d'.Some? ==> TasksFrom(s.delivery, d'.value)
  }

  lemma RestDelivery(s: State, io: Io, reply: Reply, alt: bool)
    requires !(s.main.Processing? || s.main.Triage? || s.main.Marking? || s.main.Reading? || s.main.Joining?)
    ensures var d' := Advance(s, io, reply, alt).delivery;
            d' == s.delivery || (d'.Some? && d'.value.tasks == [])
  {
    hide Malformed, Delay;
  }

  lemma DeliveryStep(s: State, l: Label)
    ensures DeliveryMoved(s, l)
  {
    hide MsgAdvance, TriageAdvance, MarkAdvance, ReadAdvance, JoinAdvance, BatchReturn, NextMessage, Begin,
      ConnError, Backoff, Malformed, MsgMove, TriageMoveOf, CancelLast, ChildOp, ChildNext, Ask, Do, AnyBroken,
      AllFinished;
    match l
    case Resume(io, reply, alt) =>
      if s.main.Processing? {
        MessageControl(s, s.main.f, s.main.rest, s.main.k, io, reply);
      } else if s.main.Triage? {
        TriageControl(s, io);
      } else if s.main.Marking? {
        MarkControl(s, io, alt);
      } else if s.main.Reading? {
        ReadControl(s, io, alt);
      } else if s.main.Joining? {
        JoinControl(s, s.main.batch, alt);
      } else {
        RestDelivery(s, io, reply, alt);
      }
    case _ =>
  }

  // ---------------------------------------------------------------- history

  /** The executor call a step starts is for these jobs. */
  predicate StartsNow(s: State, l: Label, jobs: seq<string>) {
    l.Resume? && ((s.main.Processing? && s.main.f.pc.WriteExecuting? && jobs == [JobOf(s.w.redis, s.main.f.id)])
                  || (s.main.Marking? && jobs == Jobs(s.w.redis, s.main.parsed)))
  }

  predicate NoteFits(s: State, l: Label, e: Event) {
    !e.Wrote? && (e.Started? ==> StartsNow(s, l, e.jobs))
  }

  /** Beyond the effect of its call a step only adds notes. */
  ghost predicate Annotated(s: State, l: Label, before: seq<Event>, after: seq<Event>) {
    before <= after && forall k :: |before| <= k < |after| ==> NoteFits(s, l, after[k])
  }

  /** Loop bookkeeping adds at most the count of a finished recovery. */
  ghost predicate Bookkept(before: seq<Event>, after: seq<Event>) {
    after == before || exists n :: after == before + [Recovered(n)]
  }

  lemma NextPlain(s: State, rest: seq<Id>, k: Loop)
    ensures Bookkept(s.w.log, NextMessage(s, rest, k).w.log)
  {
    hide Malformed;
    if rest == [] && k.Recovering? { assert NextMessage(s, rest, k).w.log == s.w.log + [Recovered(k.count)]; }
  }

  lemma DispatchPlain(s: State, batch: seq<Id>, due: bool)
    ensures Bookkept(s.w.log, Dispatch(s, batch, due).w.log)
  {
    NextPlain(s, batch, Dispatching);
    hide Malformed, NextMessage;
  }

  lemma MessageNotes(s: State, l: Label)
    requires l.Resume? && s.main.Processing?
    ensures Annotated(s, l, Do(s.w, OpOf(s, l), l.io, l.reply).log, Step(s, l).w.log)
  {
    var f, rest, k, io, reply := s.main.f, s.main.rest, s.main.k, l.io, l.reply;
    var op := MsgOp(s.w.redis, f);
    var a := Ask(s.w.redis, op, io, reply);
    var work := FieldsOf(s.w.redis, f.id).work;
    var mv := MsgMove(s, f, io, reply);
    var es := MsgNotes(f.id, JobOf(s.w.redis, f.id), work, f.pc, a, mv);
    var s1 := s.(
      w := Noted(Do(s.w, op, io, reply), es),
      p := MsgLocal(s.p, JobOf(s.w.redis, f.id), f.pc, mv),
      calls := MsgCalls(s.calls, work, f.pc, a));
    NextPlain(s1, rest, k);
    assert forall e :: e in es ==> NoteFits(s, l, e);
    hide MsgOp, MsgNext, MsgNotes, MsgLocal, MsgCalls, Ask, Do, NextMessage, FieldsOf, JobOf, Delay;
  }

  lemma TriagePlain(s: State, io: Io)
    requires s.main.Triage?
    ensures var d := Do(s.w, TriageOp(s.w.redis, s.main), io, Accepted).log;
            var log' := TriageAdvance(s, s.main, io).w.log;
            d <= log' && forall k :: |d| <= k < |log'| ==> !log'[k].Wrote? && !log'[k].Started?
  {
    hide TriageOp, TriageStep, Ask, Do, FieldsOf, Delay, Malformed;
  }

  /** The history grows by notes that are neither writes nor starts. */
  ghost predicate OnlyNotes(before: seq<Event>, after: seq<Event>) {
    before <= after && forall k :: |before| <= k < |after| ==> !after[k].Wrote? && !after[k].Started?
  }

  lemma BookkeepingIsNotes(before: seq<Event>, after: seq<Event>)
    requires Bookkept(before, after)
    ensures OnlyNotes(before, after)
  {
  }

  lemma ReadPlain(s: State, io: Io, alt: bool)
    ensures OnlyNotes(s.w.log, ReadAdvance(s, io, alt).w.log)
  {
    var n := Available(s.w.redis, s.canBatch);
    var s1 := s.(w := s.w.(redis := ReadGroup(s.w.redis, n)));
    var s2 := s1.(p := s1.p.(healthy := true, failures := 0, slept := 0));
    var batch := Interval(s.w.redis.cursor, n);
    DispatchPlain(s2, batch, alt);
    BookkeepingIsNotes(s2.w.log, Dispatch(s2, batch, alt).w.log);
    hide Dispatch, Available, Interval, Delay, ReadGroup, Bookkept;
  }

  lemma JoinPlain(s: State, batch: seq<Id>, alt: bool)
    ensures OnlyNotes(s.w.log, JoinAdvance(s, batch, alt).w.log)
  {
    var s1 := s.(delivery := None, drain := if s.drain.WaitDelivery? then Drained(true) else s.drain);
    DispatchPlain(s, batch, alt);
    DispatchPlain(s1, batch, alt);
    BookkeepingIsNotes(s.w.log, Dispatch(s, batch, alt).w.log);
    BookkeepingIsNotes(s.w.log, Dispatch(s1, batch, alt).w.log);
    hide Dispatch, Delay, Bookkept;
  }

  lemma OtherPlain(s: State, io: Io, reply: Reply, alt: bool)
    requires !(s.main.Processing? || s.main.Triage? || s.main.Marking? || s.main.Reading? || s.main.Joining?)
    ensures OnlyNotes(s.w.log, Advance(s, io, reply, alt).w.log)
  {
    hide Malformed, Delay;
  }

  lemma RestPlain(s: State, io: Io, reply: Reply, alt: bool)
    requires !(s.main.Processing? || s.main.Triage? || s.main.Marking?)
    ensures OnlyNotes(s.w.log, Advance(s, io, reply, alt).w.log)
  {
    match s.main
    case Reading => ReadPlain(s, io, alt); hide ReadAdvance;
    case Joining(batch) => JoinPlain(s, batch, alt); hide JoinAdvance;
    case _ => OtherPlain(s, io, reply, alt); hide Advance;
  }

  lemma LogStep(s: State, l: Label)
    ensures Annotated(s, l, Do(s.w, OpOf(s, l), IoOf(l), ReplyOf(s, l)).log, Step(s, l).w.log)
  {
    match l
    case Resume(io, reply, alt) =>
      if s.main.Processing? {
        MessageNotes(s, l);
        hide Step, OpOf, Do;
      } else if s.main.Triage? {
        TriagePlain(s, io);
        hide TriageAdvance, TriageOp, Do;
      } else if s.main.Marking? {
        MarkNotes(s, l);
        hide Step, OpOf, Do;
      } else {
        RestPlain(s, io, reply, alt);
        hide Advance;
      }
    case ResumeChild(_, _, _) => hide Advance, ChildOp, ChildNext, Ask;
    case Gather => hide Advance, Children, AnyBroken, AllFinished;
    case _ => hide Advance, StopAll, CancelLast, ChildAdvance, GatherAdvance;
  }

  lemma MarkNotes(s: State, l: Label)
    requires l.Resume? && s.main.Marking?
    ensures Annotated(s, l, Do(s.w, OpOf(s, l), l.io, Accepted).log, Step(s, l).w.log)
  {
    var m := s.main;
    if m.todo != [] {
      var s1 := s.(w := Do(s.w, SetStatus(m.tact, JobOf(s.w.redis, m.todo[0]), Executing), l.io, Accepted));
      NextPlain(s1, m.batch, FallingBack);
      hide NextMessage, Do, JobOf, Works, Jobs;
    }
  }
}
