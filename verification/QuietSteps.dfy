/** Every step of a quiet run keeps the book the run is heading for. */
module QuietSteps {
  import opened Prelude
  import opened Webhook
  import opened Consumer
  import opened Effects
  import opened Flight
  import opened Serving
  import opened BatchLaws
  import opened Quiet

  /** The consume loop is working on messages it has read or listed. */
  predicate InDispatch(m: Main) {
    m.Fetching? || m.Processing? || m.Triage? || m.Marking? || m.Running?
  }

  /** `batch_run` agrees with `run` job by job, unless it raises. */
  ghost function BatchEnd(c: Redis, env: Env, parsed: seq<Id>): CallEnd {
    if Falls(c, env, parsed) then Raised
    else
      Returned(seq(|parsed|, i requires 0 <= i < |parsed| && !Falls(c, env, parsed) =>
                 Computed(c, env, parsed[i]).value))
  }

  /** How the call the consume loop is waiting for may end. */
  ghost predicate EndsAs(c: Redis, env: Env, m: Main, end: CallEnd) {
    && (m.Running? ==> end == BatchEnd(c, env, m.parsed))
    && (m.Processing? && Polling(m.f.pc) && FieldsOf(c, m.f.id).work.Some? ==>
          end == SingleEnd(env, FieldsOf(c, m.f.id).work.value))
  }

  /** The steps a quiet environment takes: Redis answers, POSTs are accepted, the
      executor ends its call as `env` says; who moves next is free. */
  ghost predicate QuietLabel(c: Redis, env: Env, s: State, l: Label) {
    match l
    case Resume(io, reply, alt) =>
      io.Fine? && reply.Accepted? && InDispatch(s.main) && (s.main.Marking? ==> alt == env.gone)
    case ResumeChild(_, io, reply) => io.Fine? && reply.Accepted?
    case Gather => true
    case Finish(i, end) => i + 1 == |s.calls| ==> EndsAs(c, env, s.main, end)
    case Stop => true
    case _ => false
  }

  /** The kept messages come from the batch and are still worth running. */
  ghost predicate SoundBatch(c: Redis, b: Book, parsed: seq<Id>, batch: seq<Id>) {
    forall i :: 0 <= i < |parsed| ==> parsed[i] in batch && Kept(c, b, parsed[i])
  }

  ghost predicate QuietMain(c: Redis, env: Env, s: State) {
    var b := BookOf(s.w);
    match s.main
    case Processing(f, _, _) => QuietFrame(c, env, s.calls, f.id, f.pc)
    case Triage(id, todo, tpc, batch, parsed, _) =>
      && SoundBatch(c, b, parsed, batch)
      && id in batch
      && (forall i :: 0 <= i < |todo| ==> todo[i] in batch)
      && (tpc.TReadStatus? || tpc.TCheck? ==> !Malformed(c, id))
      && (tpc.TCheck? ==> !Closed(b, JobOf(c, id)))
      && (tpc.TMark? ==> JobOf(c, id) in c.flags)
    case Marking(todo, batch, parsed, _) => todo != [] && parsed != [] && SoundBatch(c, b, parsed, batch)
    case Running(batch, parsed) =>
      && parsed != [] && SoundBatch(c, b, parsed, batch)
      && !env.gone
      && s.calls != []
      && (s.calls[|s.calls| - 1].st.Live? || s.calls[|s.calls| - 1].st == Over(BatchEnd(c, env, parsed)))
    case _ => true
  }

  ghost predicate QuietDelivery(c: Redis, env: Env, d: Option<Delivery>) {
    d.Some? ==>
      match d.value.phase
      case Created =>
        && d.value.tasks == []
        && |d.value.parsed| == |d.value.results|
        && forall i :: 0 <= i < |d.value.parsed| ==>
             JobOf(c, d.value.parsed[i]) !in c.flags && Computed(c, env, d.value.parsed[i]) == Some(d.value.results[i])
      case Gathering => forall i :: 0 <= i < |d.value.tasks| ==> QuietChild(c, d.value.tasks[i])
      case Done => AllFinished(d.value.tasks)
      case _ => false
  }

  ghost predicate QuietInv(c: Redis, env: Env, s: State) {
    && SameCatalog(c, s.w.redis)
    && QuietMain(c, env, s)
    && QuietDelivery(c, env, s.delivery)
    && (InDispatch(s.main) ==> s.delivery.None?)
  }

  /** The book once the deliveries under way are through. */
  function DeliveryRest(c: Redis, env: Env, b: Book, d: Option<Delivery>): Book {
    match d
    case None => b
    case Some(d) => if d.phase.Created? then DeliveredAll(c, env, b, d.parsed) else ApplyAll(b, TaskEdits(c, d.tasks))
  }

  /** The book the run is heading for. */
  ghost function Complete(c: Redis, env: Env, s: State): Book {
    var b := BookOf(s.w);
    match s.main
    case Fetching(rest, _, _) => ServeAll(c, env, b, rest)
    case Processing(f, rest, _) =>
      ServeAll(c, env, ApplyAll(b, MsgEdits(c, env, Closed(b, JobOf(c, f.id)), f.id, f.pc)), rest)
    case Triage(id, todo, tpc, batch, parsed, _) =>
      var closed := Closed(b, JobOf(c, id));
      TriageRest(c, env, ApplyAll(b, TriageEdits(c, closed, id, tpc)), batch,
                 parsed + (if Keeps(c, closed, id, tpc) then [id] else []), todo)
    case Marking(todo, batch, parsed, _) => BatchRest(c, env, MarkedAll(c, b, todo, Executing), batch, parsed)
    case Running(batch, parsed) => BatchRest(c, env, b, batch, parsed)
    case _ => DeliveryRest(c, env, b, s.delivery)
  }

  ghost predicate Heads(c: Redis, env: Env, s: State, goal: Book) {
    QuietInv(c, env, s) && Complete(c, env, s) == goal
  }

  // ---------------------------------------------------------------- loops

  lemma NextHeads(c: Redis, env: Env, s: State, rest: seq<Id>, k: Loop)
    requires SameCatalog(c, s.w.redis) && s.delivery.None?
    ensures Heads(c, env, NextMessage(s, rest, k), ServeAll(c, env, BookOf(s.w), rest))
  {
    if rest != [] && !k.Recovering? {
      BeginHeads(c, env, s, rest[0], rest[1..], k);
      hide Begin, Heads;
    }
    hide Serve, MsgEdits, SentOf;
  }

  lemma BeginHeads(c: Redis, env: Env, s: State, id: Id, rest: seq<Id>, k: Loop)
    requires SameCatalog(c, s.w.redis) && s.delivery.None?
    ensures Heads(c, env, Begin(s, id, rest, k), ServeAll(c, env, Serve(c, env, BookOf(s.w), id), rest))
  {
    EntryServes(c, env, BookOf(s.w), id);
    CatalogFacts(c, s.w.redis, env, false, id, ReadStatus, s.calls);
    hide Serve, MsgEdits, SentOf, ServeAll, JobOf, FieldsOf, Malformed;
  }

  lemma TriageNextHeads(c: Redis, env: Env, s: State, todo: seq<Id>, batch: seq<Id>, parsed: seq<Id>, act: nat)
    requires SameCatalog(c, s.w.redis) && s.delivery.None?
    requires SoundBatch(c, BookOf(s.w), parsed, batch) && forall i :: 0 <= i < |todo| ==> todo[i] in batch
    ensures Heads(c, env, TriageNext(s, todo, batch, parsed, act), TriageRest(c, env, BookOf(s.w), batch, parsed, todo))
  {
    var b := BookOf(s.w);
    if todo == [] {
      assert parsed + KeptOf(c, b, todo) == parsed;
    } else {
      EntryTriages(c, b, todo[0]);
      TriageRestUnfolds(c, env, b, batch, parsed, todo);
      CatalogFacts(c, s.w.redis, env, false, todo[0], ReadStatus, s.calls);
      hide TriageRest;
    }
    hide Triaged, TriageEdits, SentOf, JobOf, FieldsOf, Malformed, BatchRest;
  }

  lemma ClosedIsTerminal(w: World, job: string)
    ensures Closed(BookOf(w), job) == Terminal(w.redis, job)
  {
  }

  lemma NotedBook(w: World, es: seq<Event>)
    ensures BookOf(Noted(w, es)) == BookOf(w)
  {
  }

  lemma ClosedOnlyFirst(c: Redis, env: Env, id: Id, pc: MsgPc, x: bool, y: bool)
    requires !pc.ReadStatus?
    ensures MsgEdits(c, env, x, id, pc) == MsgEdits(c, env, y, id, pc)
  {
    hide RunEdits, JobOf;
  }

  // ---------------------------------------------------------------- one processing

  lemma MessageHeads(c: Redis, env: Env, s: State)
    requires QuietInv(c, env, s) && s.main.Processing?
    ensures Heads(c, env, MsgAdvance(s, s.main.f, s.main.rest, s.main.k, Fine, Accepted), Complete(c, env, s))
  {
    var f, rest, k, r, b := s.main.f, s.main.rest, s.main.k, s.w.redis, BookOf(s.w);
    var op := MsgOp(r, f);
    var a := Ask(r, op, Fine, Accepted);
    var work := FieldsOf(r, f.id).work;
    var mv := MsgNext(f.pc, a, work.Some?, LastCall(s.calls));
    var calls' := MsgCalls(s.calls, work, f.pc, a);
    var es := MsgNotes(f.id, JobOf(r, f.id), work, f.pc, a, mv);
    var s1 := s.(w := Noted(Do(s.w, op, Fine, Accepted), es), p := MsgLocal(s.p, JobOf(r, f.id), f.pc, mv),
                 calls := calls');
    var closed := Closed(b, JobOf(c, f.id));
    CatalogFacts(c, r, env, closed, f.id, f.pc, s.calls);
    ClosedIsTerminal(s.w, JobOf(c, f.id));
    FrameEdits(r, env, s.calls, f);
    FrameStaysQuiet(r, env, s.calls, f);
    DoApplies(s.w, op);
    DoStream(s.w, op, Fine, Accepted);
    NotedBook(Do(s.w, op, Fine, Accepted), es);
    if mv.Go? {
      CatalogFacts(c, r, env, closed, f.id, mv.pc, calls');
      ClosedOnlyFirst(c, env, f.id, mv.pc, closed, Closed(BookOf(s1.w), JobOf(c, f.id)));
      ApplyAllSplits(b, EditOf(op), MsgEdits(c, env, closed, f.id, mv.pc));
    } else {
      NextHeads(c, env, s1, rest, k);
    }
    hide MsgOp, MsgNext, MsgNotes, MsgLocal, MsgCalls, Ask, Do, NextMessage, FieldsOf, JobOf, Delay, MsgEdits,
      EditOf, ServeAll, ApplyAll, BookOf, Closed, QuietFrame, Terminal, BatchRest, TriageRest, DeliveryRest;
  }

  // ---------------------------------------------------------------- triage

  /** Facts about one step of triage, as a list of effects. */
  lemma TriageEffects(c: Redis, env: Env, s: State)
    requires QuietInv(c, env, s) && s.main.Triage?
    ensures var m, r := s.main, s.w.redis;
            var op := TriageOp(r, m);
            var a := Ask(r, op, Fine, Accepted);
            var mv := TriageStep(m.tpc, a, FieldsOf(r, m.id).work.Some?);
            var w1 := Noted(Do(s.w, op, Fine, Accepted), TriageNotes(m.id, a, mv));
            && TriageMoved(c, Closed(BookOf(s.w), JobOf(c, m.id)), m.id, m.tpc, op, mv)
            && BookOf(w1) == ApplyAll(BookOf(s.w), EditOf(op))
            && SameCatalog(c, w1.redis)
            && SoundBatch(c, BookOf(w1), m.parsed, m.batch)
            && (mv.TKept? ==> Kept(c, BookOf(w1), m.id))
            && (mv == TGo(TCheck) ==> !Closed(BookOf(w1), JobOf(c, m.id)))
            && (mv == TGo(TMark) ==> JobOf(c, m.id) in c.flags)
            && (mv == TGo(TCheck) ==> !Malformed(c, m.id))
  {
    var m, r := s.main, s.w.redis;
    var op := TriageOp(r, m);
    var a := Ask(r, op, Fine, Accepted);
    var mv := TriageStep(m.tpc, a, FieldsOf(r, m.id).work.Some?);
    TriageSound(c, env, s);
    TriageKnows(c, env, s);
    CatalogFacts(c, r, env, false, m.id, ReadStatus, s.calls);
    hide TriageOp, TriageStep, TriageNotes, Ask, Do, FieldsOf, JobOf, EditOf, ApplyAll, BookOf, Closed, Terminal,
      SoundBatch, Kept, Malformed, TriageMoved;
    ClosedIsTerminal(s.w, JobOf(c, m.id));
    TriageFrame(r, m);
    TriageMovedCatalog(c, r, Closed(BookOf(s.w), JobOf(c, m.id)), m.id, m.tpc, op, mv);
    DoApplies(s.w, op);
    DoStream(s.w, op, Fine, Accepted);
    NotedBook(Do(s.w, op, Fine, Accepted), TriageNotes(m.id, a, mv));
  }

  lemma TriageMovedCatalog(c: Redis, r: Redis, closed: bool, id: Id, tpc: TriagePc, op: Op, mv: TriageMove)
    requires SameCatalog(c, r)
    ensures TriageMoved(c, closed, id, tpc, op, mv) == TriageMoved(r, closed, id, tpc, op, mv)
  {
    TriageCatalog(c, r, closed, id, tpc);
    if mv.TGo? { TriageCatalog(c, r, closed, id, mv.tpc); }
    hide TriageEdits, Keeps, EditOf;
  }

  lemma TriageOn(c: Redis, env: Env, s: State, w1: World, op: Op, t: TriagePc)
    requires QuietInv(c, env, s) && s.main.Triage?
    requires TriageMoved(c, Closed(BookOf(s.w), JobOf(c, s.main.id)), s.main.id, s.main.tpc, op, TGo(t))
    requires BookOf(w1) == ApplyAll(BookOf(s.w), EditOf(op)) && SameCatalog(c, w1.redis)
    requires SoundBatch(c, BookOf(w1), s.main.parsed, s.main.batch)
    requires t.TCheck? ==> !Closed(BookOf(w1), JobOf(c, s.main.id)) && !Malformed(c, s.main.id)
    requires t.TMark? ==> JobOf(c, s.main.id) in c.flags
    ensures Heads(c, env, s.(w := w1, main := s.main.(tpc := t)), Complete(c, env, s))
  {
    var m := s.main;
    var closed := Closed(BookOf(s.w), JobOf(c, m.id));
    hide TriageRest, EditOf, BookOf, Closed, SoundBatch, JobOf, Malformed, ApplyAll, Keeps, TriageEdits;
    ApplyAllSplits(BookOf(s.w), EditOf(op), TriageEdits(c, closed, m.id, t));
    TriageClosedOnlyFirst(c, m.id, t, closed, Closed(BookOf(w1), JobOf(c, m.id)));
  }

  /** The rest of triage, for a message that has just been dropped or kept. */
  lemma TriageLeaves(c: Redis, env: Env, s: State, w1: World, op: Op, mv: TriageMove)
    requires QuietInv(c, env, s) && s.main.Triage? && (mv.TDropped? || mv.TKept?)
    requires TriageMoved(c, Closed(BookOf(s.w), JobOf(c, s.main.id)), s.main.id, s.main.tpc, op, mv)
    requires BookOf(w1) == ApplyAll(BookOf(s.w), EditOf(op))
    ensures Complete(c, env, s)
            == TriageRest(c, env, BookOf(w1), s.main.batch,
                          if mv.TKept? then s.main.parsed + [s.main.id] else s.main.parsed, s.main.todo)
  {
    hide TriageRest, EditOf, BookOf, Closed, JobOf, ApplyAll, Keeps, TriageEdits;
    assert s.main.parsed + [] == s.main.parsed;
  }

  lemma TriageHeads(c: Redis, env: Env, s: State)
    requires QuietInv(c, env, s) && s.main.Triage?
    ensures Heads(c, env, TriageAdvance(s, s.main, Fine), Complete(c, env, s))
  {
    var m, r := s.main, s.w.redis;
    var op := TriageOp(r, m);
    var a := Ask(r, op, Fine, Accepted);
    var mv := TriageStep(m.tpc, a, FieldsOf(r, m.id).work.Some?);
    var w1 := Noted(Do(s.w, op, Fine, Accepted), TriageNotes(m.id, a, mv));
    var s1 := s.(w := w1);
    TriageEffects(c, env, s);
    hide TriageOp, TriageStep, TriageNotes, Ask, Do, Noted, TriageNext, FieldsOf, JobOf, Delay, Heads, Complete,
      TriageRest, BookOf, Closed, ApplyAll, EditOf, Kept, Malformed, SameCatalog;
    if mv.TGo? {
      hide TriageMoved, SoundBatch;
      TriageOn(c, env, s, w1, op, mv.tpc);
    } else {
      assert mv.TDropped? || mv.TKept?;
      hide TriageMoved;
      TriageLeaves(c, env, s, w1, op, mv);
      TriageNextHeads(c, env, s1, m.todo, m.batch, if mv.TKept? then m.parsed + [m.id] else m.parsed, m.tact);
    }
  }

  /** A mark `cancelled` leaves messages of jobs without a flag as they were. */
  lemma KeptStays(c: Redis, b: Book, job: string, id: Id)
    requires job in c.flags && Kept(c, b, id)
    ensures Kept(c, Marked(b, job, Cancelled), id)
  {
  }

  lemma TriageSound(c: Redis, env: Env, s: State)
    requires QuietInv(c, env, s) && s.main.Triage?
    ensures SoundBatch(c, BookOf(Do(s.w, TriageOp(s.w.redis, s.main), Fine, Accepted)), s.main.parsed, s.main.batch)
  {
    var m, b := s.main, BookOf(s.w);
    var op := TriageOp(s.w.redis, m);
    var b' := BookOf(Do(s.w, op, Fine, Accepted));
    CatalogFacts(c, s.w.redis, env, false, m.id, ReadStatus, s.calls);
    assert if m.tpc.TMark? then b'.status == Marked(b, JobOf(c, m.id), Cancelled).status else b'.status == b.status by {
      hide Malformed, JobOf, FieldsOf, SentOf, Without;
    }
    hide Malformed, JobOf, FieldsOf, BookOf, Do, TriageOp;
    SoundAfter(c, b, b', m.parsed, m.batch, m.tpc.TMark?, JobOf(c, m.id));
  }

  lemma SoundAfter(c: Redis, b: Book, b': Book, parsed: seq<Id>, batch: seq<Id>, mark: bool, job: string)
    requires SoundBatch(c, b, parsed, batch) && (mark ==> job in c.flags)
    requires b'.status == if mark then Marked(b, job, Cancelled).status else b.status
    ensures SoundBatch(c, b', parsed, batch)
  {
    forall i | 0 <= i < |parsed| ensures Kept(c, b', parsed[i]) {
      assert Kept(c, b, parsed[i]);
      if mark { KeptStays(c, b, job, parsed[i]); }
    }
    hide Malformed, JobOf, FieldsOf;
  }

  /** What triage knows of the message it looks at. */
  lemma TriageKnows(c: Redis, env: Env, s: State)
    requires QuietInv(c, env, s) && s.main.Triage?
    ensures var m := s.main;
            var op := TriageOp(s.w.redis, m);
            var mv := TriageStep(m.tpc, Ask(s.w.redis, op, Fine, Accepted), FieldsOf(s.w.redis, m.id).work.Some?);
            var b' := BookOf(Do(s.w, op, Fine, Accepted));
            && (mv.TKept? ==> Kept(c, b', m.id))
            && (mv == TGo(TCheck) ==> !Closed(b', JobOf(c, m.id)))
            && (mv == TGo(TMark) ==> JobOf(c, m.id) in c.flags)
            && (mv == TGo(TCheck) ==> !Malformed(c, m.id))
  {
    CatalogFacts(c, s.w.redis, env, false, s.main.id, ReadStatus, s.calls);
    ClosedIsTerminal(s.w, JobOf(c, s.main.id));
    hide Malformed, JobOf, FieldsOf, SentOf, Without, SoundBatch;
  }

  lemma TriageClosedOnlyFirst(c: Redis, id: Id, tpc: TriagePc, x: bool, y: bool)
    requires !tpc.TReadStatus?
    ensures TriageEdits(c, x, id, tpc) == TriageEdits(c, y, id, tpc) && Keeps(c, x, id, tpc) == Keeps(c, y, id, tpc)
  {
  }

  // ---------------------------------------------------------------- marking and running

  lemma KeptMarked(c: Redis, b: Book, job: string, id: Id)
    requires Kept(c, b, id)
    ensures Kept(c, Marked(b, job, Executing), id)
  {
  }

  lemma MarkEffect(c: Redis, env: Env, s: State)
    requires QuietInv(c, env, s) && s.main.Marking?
    ensures var m := s.main;
            var w1 := Do(s.w, SetStatus(m.tact, JobOf(s.w.redis, m.todo[0]), Executing), Fine, Accepted);
            && SameCatalog(c, w1.redis)
            && SoundBatch(c, BookOf(w1), m.parsed, m.batch)
            && MarkedAll(c, BookOf(s.w), m.todo, Executing) == MarkedAll(c, BookOf(w1), m.todo[1..], Executing)
  {
    var m, b := s.main, BookOf(s.w);
    var job := JobOf(s.w.redis, m.todo[0]);
    var op := SetStatus(m.tact, job, Executing);
    CatalogFacts(c, s.w.redis, env, false, m.todo[0], ReadStatus, s.calls);
    DoApplies(s.w, op);
    ApplyOne(b, MarkEdit(job, Executing));
    DoStream(s.w, op, Fine, Accepted);
    MarkSound(c, b, m.parsed, m.batch, job);
    hide Do, JobOf, FieldsOf, BookOf, SoundBatch, ApplyAll;
  }

  lemma MarkOn(c: Redis, env: Env, s: State, w1: World)
    requires QuietInv(c, env, s) && s.main.Marking? && |s.main.todo| > 1
    requires SameCatalog(c, w1.redis) && SoundBatch(c, BookOf(w1), s.main.parsed, s.main.batch)
    requires MarkedAll(c, BookOf(s.w), s.main.todo, Executing) == MarkedAll(c, BookOf(w1), s.main.todo[1..], Executing)
    ensures Heads(c, env, s.(w := w1, main := s.main.(todo := s.main.todo[1..])), Complete(c, env, s))
  {
    hide BookOf, BatchRest, MarkedAll, SoundBatch;
  }

  lemma MarkStarts(c: Redis, env: Env, s: State, w1: World, call: Call)
    requires QuietInv(c, env, s) && s.main.Marking? && !env.gone && call.st.Live?
    requires SameCatalog(c, w1.redis) && SoundBatch(c, BookOf(w1), s.main.parsed, s.main.batch)
    requires MarkedAll(c, BookOf(s.w), s.main.todo, Executing) == BookOf(w1)
    ensures Heads(c, env, s.(w := w1, calls := s.calls + [call], main := Running(s.main.batch, s.main.parsed)),
                  Complete(c, env, s))
  {
    hide BookOf, BatchRest, MarkedAll, SoundBatch, BatchEnd;
  }

  /** Marking goes on, starts the batch, or finds `batch_run` gone. */
  lemma MarkHeads(c: Redis, env: Env, s: State)
    requires QuietInv(c, env, s) && s.main.Marking?
    ensures var m := s.main;
            Heads(c, env, MarkAdvance(s, m.todo, m.batch, m.parsed, m.tact, Fine, env.gone), Complete(c, env, s))
  {
    var m, r := s.main, s.w.redis;
    var w1 := Do(s.w, SetStatus(m.tact, JobOf(r, m.todo[0]), Executing), Fine, Accepted);
    var w2 := Noted(w1, [Started(Jobs(r, m.parsed))]);
    MarkEffect(c, env, s);
    NotedBook(w1, [Started(Jobs(r, m.parsed))]);
    assert SameCatalog(c, w2.redis);
    if |m.todo| == 1 {
      assert m.todo[1..] == [];
      MarkedNone(c, BookOf(w1));
    }
    assert env.gone && |m.todo| == 1 ==> Complete(c, env, s) == ServeAll(c, env, BookOf(w1), m.batch) by {
      hide Do, JobOf, BookOf, MarkedAll, SoundBatch, ServeAll;
    }
    hide Do, JobOf, BookOf, MarkedAll, SoundBatch, NextMessage, Heads, ServeAll, Complete, Works, Jobs, Noted,
      SameCatalog, BatchEnd, QuietDelivery;
    if |m.todo| > 1 {
      MarkOn(c, env, s, w1);
    } else if env.gone {
      NextHeads(c, env, s.(w := w1), m.batch, FallingBack);
    } else {
      MarkStarts(c, env, s, w2, Call(Works(r, m.parsed), Live));
    }
  }

  lemma MarkedNone(c: Redis, b: Book)
    ensures MarkedAll(c, b, [], Executing) == b
  {
  }

  lemma MarkSound(c: Redis, b: Book, parsed: seq<Id>, batch: seq<Id>, job: string)
    requires SoundBatch(c, b, parsed, batch)
    ensures SoundBatch(c, Marked(b, job, Executing), parsed, batch)
  {
    forall i | 0 <= i < |parsed| ensures Kept(c, Marked(b, job, Executing), parsed[i]) {
      KeptMarked(c, b, job, parsed[i]);
    }
  }

  /** What a batch that came back leaves to be done. */
  lemma ReturnedBatch(c: Redis, env: Env, s: State)
    requires QuietInv(c, env, s) && s.main.Running? && s.calls[|s.calls| - 1].st.Over?
    ensures var m, end := s.main, s.calls[|s.calls| - 1].st.end;
            if end.Raised? then Complete(c, env, s) == ServeAll(c, env, BookOf(s.w), m.batch)
            else
              && Complete(c, env, s) == DeliveredAll(c, env, BookOf(s.w), m.parsed)
              && |end.results| == |m.parsed|
              && forall i :: 0 <= i < |m.parsed| ==>
                   JobOf(c, m.parsed[i]) !in c.flags && Computed(c, env, m.parsed[i]) == Some(end.results[i])
  {
    var m, b := s.main, BookOf(s.w);
    hide BookOf, ServeAll, DeliveredAll, Computed, JobOf;
    forall i | 0 <= i < |m.parsed| ensures JobOf(c, m.parsed[i]) !in c.flags {
      assert Kept(c, b, m.parsed[i]);
    }
  }

  lemma RunHeads(c: Redis, env: Env, s: State)
    requires QuietInv(c, env, s) && s.main.Running?
    ensures Heads(c, env, BatchReturn(s, s.main.batch, s.main.parsed), Complete(c, env, s))
  {
    hide BookOf, ServeAll, DeliveredAll, Kept, Computed, JobOf, SoundBatch, NextMessage, BatchRest, Falls;
    var m := s.main;
    var last := s.calls[|s.calls| - 1];
    if last.st.Over? {
      ReturnedBatch(c, env, s);
      if last.st.end.Raised? {
        NextHeads(c, env, s, m.batch, FallingBack);
        hide Heads, Complete;
      } else {
        NotedBook(s.w, [Ran(m.parsed, last.jobs, last.st.end.results)]);
      }
    }
  }

  // ---------------------------------------------------------------- deliveries

  /** While a delivery exists, the consume loop has nothing under way. */
  lemma DeliveryHeads(c: Redis, env: Env, s: State, s': State)
    requires QuietInv(c, env, s) && s.delivery.Some? && s'.delivery.Some? && s'.main == s.main
    requires SameCatalog(c, s'.w.redis) && QuietDelivery(c, env, s'.delivery)
    requires DeliveryRest(c, env, BookOf(s'.w), s'.delivery) == DeliveryRest(c, env, BookOf(s.w), s.delivery)
    ensures Heads(c, env, s', Complete(c, env, s))
  {
    hide DeliveryRest, BookOf, QuietDelivery;
  }

  lemma BookAfterGather(s: State)
    ensures BookOf(GatherAdvance(s).w) == BookOf(s.w)
    ensures GatherAdvance(s).w.redis == s.w.redis
  {
    hide AnyBroken, AllFinished, Children, SentOf;
  }

  lemma ChildHeads(c: Redis, env: Env, s: State, i: nat)
    requires QuietInv(c, env, s)
    ensures Heads(c, env, ChildAdvance(s, i, Fine, Accepted), Complete(c, env, s))
  {
    if s.delivery.Some? && i < |s.delivery.value.tasks| && s.delivery.value.phase.Gathering? {
      var d, r, b := s.delivery.value, s.w.redis, BookOf(s.w);
      var x := d.tasks[i];
      var op := ChildOp(r, x);
      var x' := x.(pc := ChildNext(x.pc, Ask(r, op, Fine, Accepted)));
      ChildCatalog(c, r, x);
      ChildCatalog(c, r, x');
      ChildOpCatalog(c, r, x);
      ChildMoves(r, x);
      TaskMoves(c, b, d.tasks, i);
      DoApplies(s.w, op);
      DoStream(s.w, op, Fine, Accepted);
      hide ChildOp, ChildNext, Ask, Do, BookOf, TaskEdits, EditOf, ApplyAll, QuietChild, QuietMain, Complete, Heads;
      DeliveryHeads(c, env, s, ChildAdvance(s, i, Fine, Accepted));
    } else if s.delivery.Some? && i < |s.delivery.value.tasks| && s.delivery.value.phase.Done? {
      var d := s.delivery.value;
      assert d.tasks[i].pc.Finished?;
      assert d.tasks[i := d.tasks[i]] == d.tasks;
      assert ChildAdvance(s, i, Fine, Accepted) == s;
      hide Complete, QuietInv;
    } else {
      CreatedHasNone(c, env, s, i);
      hide Complete;
    }
  }

  lemma ChildOpCatalog(c: Redis, r: Redis, x: Child)
    requires SameCatalog(c, r)
    ensures ChildOp(c, x) == ChildOp(r, x)
    ensures Ask(c, ChildOp(c, x), Fine, Accepted) == Ask(r, ChildOp(r, x), Fine, Accepted)
  {
  }

  lemma CreatedHasNone(c: Redis, env: Env, s: State, i: nat)
    requires QuietInv(c, env, s)
    requires !(s.delivery.Some? && i < |s.delivery.value.tasks|
               && (s.delivery.value.phase.Gathering? || s.delivery.value.phase.Done?))
    ensures ChildAdvance(s, i, Fine, Accepted) == s
  {
  }

  lemma GatherStarts(c: Redis, env: Env, s: State)
    requires QuietInv(c, env, s) && s.delivery.Some? && s.delivery.value.phase.Created?
    ensures Heads(c, env, GatherAdvance(s), Complete(c, env, s))
  {
    hide BookOf, TaskEdits, ApplyAll, JobOf, Computed, DeliveredAll, AnyBroken, AllFinished, QuietMain, Complete, Heads;
    var d, b := s.delivery.value, BookOf(s.w);
    NewTasks(c, env, b, Children(d.parsed, d.results, s.w.acts), d.parsed);
    BookAfterGather(s);
    DeliveryHeads(c, env, s, GatherAdvance(s));
  }

  lemma GatherGoesOn(c: Redis, env: Env, s: State)
    requires QuietInv(c, env, s) && s.delivery.Some? && s.delivery.value.phase.Gathering?
    ensures Heads(c, env, GatherAdvance(s), Complete(c, env, s))
  {
    assert !AnyBroken(s.delivery.value.tasks);
    hide AnyBroken, BookOf, TaskEdits, ApplyAll, JobOf, Computed, QuietMain, Complete, Heads;
    BookAfterGather(s);
    DeliveryHeads(c, env, s, GatherAdvance(s));
  }

  lemma GatherHeads(c: Redis, env: Env, s: State)
    requires QuietInv(c, env, s)
    ensures Heads(c, env, GatherAdvance(s), Complete(c, env, s))
  {
    if s.delivery.Some? && s.delivery.value.phase.Created? {
      GatherStarts(c, env, s);
    } else if s.delivery.Some? && s.delivery.value.phase.Gathering? {
      GatherGoesOn(c, env, s);
    } else {
      assert GatherAdvance(s) == s;
    }
    hide GatherAdvance, Complete, QuietInv;
  }
}
