/** Runs in a quiet environment end where `Serving` says, however they interleave. */
module QuietRuns {
  import opened Prelude
  import opened Webhook
  import opened Consumer
  import opened Effects
  import opened Flight
  import opened Serving
  import opened BatchLaws
  import opened Quiet
  import opened QuietSteps

  lemma FetchHeads(c: Redis, env: Env, s: State)
    requires QuietInv(c, env, s) && s.main.Fetching?
    ensures Heads(c, env, Advance(s, Fine, Accepted, false), Complete(c, env, s))
  {
    var m := s.main;
    if m.rest != [] {
      BeginHeads(c, env, s, m.rest[0], m.rest[1..], Recovering(m.boot, m.count + 1));
      hide Begin, Serve, Heads, BookOf;
    }
  }

  lemma FinishHeads(c: Redis, env: Env, s: State, i: nat, end: CallEnd)
    requires QuietInv(c, env, s) && QuietLabel(c, env, s, Finish(i, end))
    ensures Heads(c, env, Step(s, Finish(i, end)), Complete(c, env, s))
  {
    hide Advance, BookOf, ServeAll, BatchRest, TriageRest, MsgEdits, TriageEdits, Keeps, Kept, DeliveryRest,
      QuietDelivery, MarkedAll, ApplyAll, BatchEnd, SoundBatch, SingleEnd;
  }

  lemma StopHeads(c: Redis, env: Env, s: State)
    requires QuietInv(c, env, s)
    ensures Heads(c, env, Step(s, Stop), Complete(c, env, s))
  {
    hide Advance, BookOf, ServeAll, BatchRest, TriageRest, MsgEdits, TriageEdits, Keeps, Kept, DeliveryRest,
      QuietDelivery, MarkedAll, ApplyAll, BatchEnd, SoundBatch, QuietFrame;
  }

  lemma StepHeads(c: Redis, env: Env, s: State, l: Label)
    requires QuietInv(c, env, s) && QuietLabel(c, env, s, l)
    ensures Heads(c, env, Step(s, l), Complete(c, env, s))
  {
    match l
    case Resume(io, reply, alt) =>
      match s.main {
        case Fetching(_, _, _) => FetchHeads(c, env, s);
        case Processing(_, _, _) => MessageHeads(c, env, s);
        case Triage(_, _, _, _, _, _) => TriageHeads(c, env, s);
        case Marking(_, _, _, _) => MarkHeads(c, env, s);
        case Running(_, _) => RunHeads(c, env, s);
        case _ =>
      }
      hide MsgAdvance, TriageAdvance, MarkAdvance, BatchReturn, Begin, ConnError, Heads, Complete, QuietInv;
    case ResumeChild(i, _, _) => ChildHeads(c, env, s, i); hide Advance, ChildAdvance, Heads, Complete, QuietInv;
    case Gather => GatherHeads(c, env, s); hide Advance, GatherAdvance, Heads, Complete, QuietInv;
    case Finish(i, end) => FinishHeads(c, env, s, i, end); hide Step, Heads, Complete, QuietInv;
    case Stop => StopHeads(c, env, s); hide Step, Heads, Complete, QuietInv;
  }

  /** Every label of the run is quiet where it is taken. */
  ghost predicate QuietRun(c: Redis, env: Env, s: State, ls: seq<Label>)
    decreases |ls|
  {
    ls == [] || (QuietLabel(c, env, s, ls[0]) && QuietRun(c, env, Step(s, ls[0]), ls[1..]))
  }

  /** Nothing is left to do until the next read. */
  predicate AtRest(s: State) {
    && (s.main.Reading? || s.main.Ended?)
    && (s.delivery.None? || s.delivery.value.phase.Done?)
  }

  lemma RestIsDone(c: Redis, env: Env, s: State)
    requires QuietInv(c, env, s) && AtRest(s)
    ensures Complete(c, env, s) == BookOf(s.w)
  {
    if s.delivery.Some? { FinishedTasks(c, s.delivery.value.tasks); }
    hide BookOf;
  }

  // ---------------------------------------------------------------- the idle flag is set again

  /** Messages the consume loop has not decided about yet. */
  function Undecided(m: Main): seq<Id> {
    match m
    case Fetching(rest, _, _) => rest
    case Processing(f, rest, _) => if f.pc.ReadStatus? || f.pc.CheckQueued? then [f.id] + rest else rest
    case _ => []
  }

  /** A message ahead will be run, which ends with the idle flag set. */
  ghost predicate WillRun(c: Redis, b: Book, m: Main, job: string) {
    job !in c.flags && !Closed(b, job) && Awaited(c, Undecided(m), job)
  }

  /** The idle flag is set or somebody is bound to set it. */
  ghost predicate Owed(c: Redis, s: State) {
    || s.p.idle
    || Busy(s.main)
    || Outstanding(s)
    || exists job :: WillRun(c, BookOf(s.w), s.main, job)
  }

  lemma BeginOwed(c: Redis, s: State, ids: seq<Id>, k: Loop, job: string)
    requires SameCatalog(c, s.w.redis) && job !in c.flags && !Closed(BookOf(s.w), job) && Awaited(c, ids, job)
    ensures ids != [] && Owed(c, Begin(s, ids[0], ids[1..], k))
  {
    var s' := Begin(s, ids[0], ids[1..], k);
    AwaitedTail(c, ids, job);
    assert BookOf(s'.w) == BookOf(s.w);
    assert Malformed(c, ids[0]) == Malformed(s.w.redis, ids[0]);
    if !Malformed(c, ids[0]) { assert [ids[0]] + ids[1..] == ids; }
    hide Awaited, BookOf, Malformed, JobOf;
    assert WillRun(c, BookOf(s'.w), s'.main, job);
  }

  lemma NextOwed(c: Redis, s: State, rest: seq<Id>, k: Loop, job: string)
    requires SameCatalog(c, s.w.redis) && job !in c.flags && !Closed(BookOf(s.w), job) && Awaited(c, rest, job)
    ensures Owed(c, NextMessage(s, rest, k))
  {
    if k.Recovering? {
      assert WillRun(c, BookOf(s.w), NextMessage(s, rest, k).main, job);
    } else {
      BeginOwed(c, s, rest, k, job);
      hide Begin, Owed;
    }
  }

  /** The call a processing makes before it is busy closes no job without a flag. */
  lemma EarlyKeepsOpen(c: Redis, env: Env, w: World, f: Frame, job: string)
    requires SameCatalog(c, w.redis) && QuietFrame(c, env, [], f.id, f.pc) && BeforeTry(f.pc)
    requires job !in c.flags && !Closed(BookOf(w), job)
    ensures !Closed(BookOf(Do(w, MsgOp(w.redis, f), Fine, Accepted)), job)
  {
    hide Without, SentOf;
  }

  /** A message of an open job without a flag goes on to be run. */
  lemma EarlyMoves(c: Redis, env: Env, r: Redis, f: Frame, job: string, call: Option<CallState>)
    requires SameCatalog(c, r) && BeforeTry(f.pc) && !f.pc.WriteExecuting?
    requires job !in c.flags && !Terminal(r, job)
    ensures var mv := MsgNext(f.pc, Ask(r, MsgOp(r, f), Fine, Accepted), FieldsOf(r, f.id).work.Some?, call);
            && (mv.Go? ==> mv.pc.WriteExecuting? || BeforeTry(mv.pc))
            && (JobOf(c, f.id) == job && f.pc.ReadStatus? ==> mv == Go(CheckQueued))
            && (JobOf(c, f.id) == job && f.pc.CheckQueued? ==> mv == Go(WriteExecuting))
            && (mv.Go? && (mv.pc.ReadStatus? || mv.pc.CheckQueued?) ==> f.pc.ReadStatus?)
  {
    assert JobOf(c, f.id) == JobOf(r, f.id);
    hide FieldsOf, JobOf;
  }

  lemma FrameEarly(c: Redis, env: Env, calls: seq<Call>, id: Id, pc: MsgPc)
    requires QuietFrame(c, env, calls, id, pc) && BeforeTry(pc)
    ensures QuietFrame(c, env, [], id, pc)
  {
  }

  lemma MessageOwed(c: Redis, env: Env, s: State)
    requires QuietInv(c, env, s) && s.main.Processing? && Owed(c, s) && IdleFits(s)
    ensures Owed(c, MsgAdvance(s, s.main.f, s.main.rest, s.main.k, Fine, Accepted))
  {
    var f, rest, k, r := s.main.f, s.main.rest, s.main.k, s.w.redis;
    var op := MsgOp(r, f);
    var a := Ask(r, op, Fine, Accepted);
    var work := FieldsOf(r, f.id).work;
    var mv := MsgNext(f.pc, a, work.Some?, LastCall(s.calls));
    var es := MsgNotes(f.id, JobOf(r, f.id), work, f.pc, a, mv);
    var p' := MsgLocal(s.p, JobOf(r, f.id), f.pc, mv);
    var s1 := s.(w := Noted(Do(s.w, op, Fine, Accepted), es), p := p', calls := MsgCalls(s.calls, work, f.pc, a));
    var s' := MsgAdvance(s, f, rest, k, Fine, Accepted);
    FrameIdle(s.p, s.main, a, work, LastCall(s.calls), JobOf(r, f.id));
    if mv.Leave? { LeavingLanded(s1, rest, k, mv.escape); }
    if Busy(s.main) || s.p.idle {
      BusyOwed(s.p, s.main, mv, JobOf(r, f.id));
      hide MsgOp, MsgNext, MsgNotes, MsgLocal, MsgCalls, Ask, Do, NextMessage, Leaving, FieldsOf, JobOf, BookOf,
        Awaited, Closed;
    } else {
      var job :| WillRun(c, BookOf(s.w), s.main, job);
      EarlyOwed(c, env, s, job);
      hide Owed, MsgAdvance;
    }
  }

  lemma BusyOwed(p: Local, m: Main, mv: Move, job: string)
    requires m.Processing? && (Busy(m) || p.idle)
    requires mv.Leave? ==> (Busy(m) ==> m.f.pc.FinalAck?)
    ensures var p' := MsgLocal(p, job, m.f.pc, mv);
            p'.idle || (Busy(m) && mv.Go?) || mv == Go(WriteExecuting)
  {
  }

  lemma EarlyOwed(c: Redis, env: Env, s: State, job: string)
    requires QuietInv(c, env, s) && s.main.Processing? && !Busy(s.main) && WillRun(c, BookOf(s.w), s.main, job)
    ensures Owed(c, MsgAdvance(s, s.main.f, s.main.rest, s.main.k, Fine, Accepted))
  {
    var f, rest, k, r := s.main.f, s.main.rest, s.main.k, s.w.redis;
    var op := MsgOp(r, f);
    var a := Ask(r, op, Fine, Accepted);
    var work := FieldsOf(r, f.id).work;
    var mv := MsgNext(f.pc, a, work.Some?, LastCall(s.calls));
    var es := MsgNotes(f.id, JobOf(r, f.id), work, f.pc, a, mv);
    var s1 := s.(w := Noted(Do(s.w, op, Fine, Accepted), es), p := MsgLocal(s.p, JobOf(r, f.id), f.pc, mv),
                 calls := MsgCalls(s.calls, work, f.pc, a));
    FrameEarly(c, env, s.calls, f.id, f.pc);
    ClosedIsTerminal(s.w, job);
    EarlyKeepsOpen(c, env, s.w, f, job);
    EarlyMoves(c, env, r, f, job, LastCall(s.calls));
    FrameEdits(r, env, s.calls, f) by { CatalogFacts(c, r, env, false, f.id, f.pc, s.calls); }
    NotedBook(Do(s.w, op, Fine, Accepted), es);
    DoStream(s.w, op, Fine, Accepted);
    AwaitedTail(c, [f.id] + rest, job);
    assert ([f.id] + rest)[0] == f.id && ([f.id] + rest)[1..] == rest;
    hide MsgOp, MsgNext, MsgNotes, MsgLocal, MsgCalls, Ask, Do, NextMessage, FieldsOf, JobOf, BookOf, Awaited,
      Closed, MsgEdits, EditOf, QuietFrame, Terminal, Malformed, Complete;
    if mv.Go? {
      var m' := Processing(f.(pc := mv.pc), rest, k);
      if !mv.pc.WriteExecuting? {
        assert WillRun(c, BookOf(s1.w), m', job);
      }
    } else {
      NextOwed(c, s1, rest, k, job);
    }
  }

  /** Without undecided messages the flag is set, or work is under way. */
  lemma OwedPlainly(c: Redis, s: State)
    requires Owed(c, s) && Undecided(s.main) == []
    ensures s.p.idle || Busy(s.main) || Outstanding(s)
  {
  }

  /** A batch that falls back has a message that will be run. */
  lemma FallbackOwed(c: Redis, s: State, batch: seq<Id>, parsed: seq<Id>)
    requires SameCatalog(c, s.w.redis) && SoundBatch(c, BookOf(s.w), parsed, batch) && parsed != []
    ensures Owed(c, NextMessage(s, batch, FallingBack))
  {
    assert Kept(c, BookOf(s.w), parsed[0]);
    var i :| 0 <= i < |batch| && batch[i] == parsed[0];
    NextOwed(c, s, batch, FallingBack, JobOf(c, parsed[0]));
    hide Owed;
  }

  lemma BusyIsOwed(c: Redis, s: State)
    requires Busy(s.main) || s.p.idle || Outstanding(s)
    ensures Owed(c, s)
  {
  }

  lemma MarkOwed(c: Redis, env: Env, s: State)
    requires QuietInv(c, env, s) && s.main.Marking?
    ensures var m := s.main; Owed(c, MarkAdvance(s, m.todo, m.batch, m.parsed, m.tact, Fine, env.gone))
  {
    var m := s.main;
    var w1 := Do(s.w, SetStatus(m.tact, JobOf(s.w.redis, m.todo[0]), Executing), Fine, Accepted);
    MarkEffect(c, env, s);
    FallbackOwed(c, s.(w := w1), m.batch, m.parsed);
    hide Do, JobOf, BookOf, SoundBatch, NextMessage, MarkedAll, Works, Jobs, Complete, Awaited, WillRun;
  }

  lemma RunOwed(c: Redis, env: Env, s: State)
    requires QuietInv(c, env, s) && s.main.Running?
    ensures Owed(c, BatchReturn(s, s.main.batch, s.main.parsed))
  {
    FallbackOwed(c, s, s.main.batch, s.main.parsed);
    hide BookOf, SoundBatch, NextMessage, Complete, Awaited, WillRun, BatchEnd;
  }

  lemma FetchDue(c: Redis, s: State) returns (job: string)
    requires s.main.Fetching? && Owed(c, s) && !s.p.idle && s.delivery.None?
    ensures WillRun(c, BookOf(s.w), s.main, job)
  {
    hide WillRun, BookOf;
    job :| WillRun(c, BookOf(s.w), s.main, job);
  }

  lemma FetchOwed(c: Redis, env: Env, s: State, alt: bool)
    requires QuietInv(c, env, s) && s.main.Fetching? && Owed(c, s)
    ensures Owed(c, Advance(s, Fine, Accepted, alt))
  {
    hide Owed, Malformed, Terminal;
    var rest, k := s.main.rest, Recovering(s.main.boot, s.main.count + 1);
    if rest != [] {
      if s.p.idle {
        assert Begin(s, rest[0], rest[1..], k).p == s.p;
        BusyIsOwed(c, Begin(s, rest[0], rest[1..], k));
      } else {
        var job := FetchDue(c, s);
        BeginOwed(c, s, rest, k, job);
      }
      hide Begin;
    }
  }

  lemma TriageOwed(c: Redis, env: Env, s: State)
    requires QuietInv(c, env, s) && s.main.Triage? && Owed(c, s)
    ensures Owed(c, TriageAdvance(s, s.main, Fine))
  {
    OwedPlainly(c, s);
    TriageAdvanceLanded(s, Fine);
    hide TriageAdvance, WillRun, QuietInv;
    BusyIsOwed(c, TriageAdvance(s, s.main, Fine));
  }

  lemma ResumeOwed(c: Redis, env: Env, s: State, alt: bool)
    requires QuietInv(c, env, s) && InDispatch(s.main) && IdleFits(s) && Owed(c, s)
             && (s.main.Marking? ==> alt == env.gone)
    ensures Owed(c, Advance(s, Fine, Accepted, alt))
  {
    match s.main
    case Fetching(_, _, _) => FetchOwed(c, env, s, alt); hide Advance, Owed;
    case Processing(_, _, _) => MessageOwed(c, env, s); hide MsgAdvance, Owed;
    case Triage(_, _, _, _, _, _) => TriageOwed(c, env, s); hide TriageAdvance, Owed;
    case Marking(_, _, _, _) => MarkOwed(c, env, s); hide MarkAdvance, Owed;
    case Running(_, _) => RunOwed(c, env, s); hide BatchReturn, Owed;
  }

  lemma StepOwed(c: Redis, env: Env, s: State, l: Label)
    requires QuietInv(c, env, s) && QuietLabel(c, env, s, l) && IdleFits(s) && Owed(c, s)
    ensures Owed(c, Step(s, l))
  {
    match l
    case Resume(_, _, alt) => ResumeOwed(c, env, s, alt); hide Advance, Owed;
    case ResumeChild(i, _, _) =>
      if s.delivery.Some? { OwedPlainly(c, s); }
      hide Advance, ChildOp, ChildNext, Ask, Do, WillRun, BookOf;
    case Gather =>
      if s.delivery.Some? { OwedPlainly(c, s); }
      hide Advance, Children, AnyBroken, AllFinished, WillRun, BookOf;
    case _ => hide Advance, WillRun, BookOf;
  }

  /** In a quiet run the book heads for the same end and the idle flag is never forgotten. */
  ghost predicate Sound(c: Redis, env: Env, s: State, goal: Book) {
    Heads(c, env, s, goal) && IdleFits(s) && Owed(c, s)
  }

  lemma {:induction false} SoundRun(c: Redis, env: Env, s: State, ls: seq<Label>, goal: Book)
    requires Sound(c, env, s, goal) && QuietRun(c, env, s, ls)
    ensures Sound(c, env, Run(s, ls), goal)
    decreases |ls|
  {
    if ls != [] {
      StepHeads(c, env, s, ls[0]);
      IdleFitsStep(s, ls[0]);
      StepOwed(c, env, s, ls[0]);
      SoundRun(c, env, Step(s, ls[0]), ls[1..], goal);
    }
    hide Step, QuietInv, Complete, QuietLabel, IdleFits, Owed;
  }

  lemma SoundAtRest(c: Redis, env: Env, s: State, goal: Book)
    requires Sound(c, env, s, goal) && AtRest(s)
    ensures BookOf(s.w) == goal && s.p.idle
  {
    RestIsDone(c, env, s);
    OwedPlainly(c, s);
    hide Complete, QuietInv, BookOf, WillRun;
  }

  // ---------------------------------------------------------------- theorems

  /** A consumer between two reads, with nothing under way. */
  ghost predicate Ready(s: State) {
    && s.main.Reading? && s.delivery.None? && s.p.idle && s.p.current.None?
  }

  lemma ReadyFits(s: State, s': State)
    requires Ready(s) && s'.delivery.None? && s'.p == s.p && !Busy(s'.main)
    ensures IdleFits(s')
  {
  }

  lemma DispatchSound(c: Redis, env: Env, s: State, batch: seq<Id>)
    requires Ready(s) && s.canBatch && |batch| > 1 && SameCatalog(c, s.w.redis)
    ensures Sound(c, env, Dispatch(s, batch, false), BatchServed(c, env, BookOf(s.w), batch))
  {
    var s1 := s.(w := s.w.(acts := s.w.acts + 1));
    var b := BookOf(s.w);
    assert BookOf(s1.w) == b by { hide SentOf; }
    var s' := TriageNext(s1, batch, batch, [], s.w.acts);
    assert !Busy(s'.main) && s'.p == s.p && s'.delivery.None? by { hide Malformed; }
    TriageRestStarts(c, env, b, batch);
    hide TriageNext, Heads, BookOf, WillRun, KeptOf, TriagedAll, BatchRest, IdleFits, BatchServed, TriageRest;
    TriageNextHeads(c, env, s1, batch, batch, [], s.w.acts);
    ReadyFits(s, s');
    BusyIsOwed(c, s');
    hide Owed;
  }

  lemma TriageRestStarts(c: Redis, env: Env, b: Book, batch: seq<Id>)
    ensures TriageRest(c, env, b, batch, [], batch) == BatchServed(c, env, b, batch)
  {
    assert [] + KeptOf(c, b, batch) == KeptOf(c, b, batch);
    hide KeptOf, TriagedAll, BatchRest, MarkedAll;
  }

  lemma FoldSound(c: Redis, env: Env, s: State, ids: seq<Id>)
    requires Ready(s) && SameCatalog(c, s.w.redis)
    ensures Sound(c, env, NextMessage(s, ids, Dispatching), ServeAll(c, env, BookOf(s.w), ids))
  {
    var s' := NextMessage(s, ids, Dispatching);
    NextHeads(c, env, s, ids, Dispatching);
    NextLanded(s, ids, Dispatching);
    assert !Busy(s'.main);
    ReadyFits(s, s');
    hide NextMessage, Heads, BookOf, WillRun, ServeAll, IdleFits;
  }

  /** `_process_message` over a list of messages, in the machine with its polling,
      is `ServeAll`, and leaves the idle flag set. */
  lemma MachineServes(env: Env, s: State, ids: seq<Id>, ls: seq<Label>)
    requires Ready(s) && QuietRun(s.w.redis, env, NextMessage(s, ids, Dispatching), ls)
    requires AtRest(Run(NextMessage(s, ids, Dispatching), ls))
    ensures var s' := Run(NextMessage(s, ids, Dispatching), ls);
            BookOf(s'.w) == ServeAll(s.w.redis, env, BookOf(s.w), ids) && s'.p.idle
  {
    var s1 := NextMessage(s, ids, Dispatching);
    FoldSound(s.w.redis, env, s, ids);
    SoundRun(s.w.redis, env, s1, ls, ServeAll(s.w.redis, env, BookOf(s.w), ids));
    SoundAtRest(s.w.redis, env, Run(s1, ls), ServeAll(s.w.redis, env, BookOf(s.w), ids));
    hide Run, NextMessage, ServeAll, BookOf, Sound, QuietRun;
  }

  /** A read that brings one message, or any read where batches are not supported,
      is served one by one. */
  lemma MachineServesRead(env: Env, s: State, ids: seq<Id>, due: bool, ls: seq<Label>)
    requires Ready(s) && ids != [] && (|ids| == 1 || !s.canBatch)
    requires QuietRun(s.w.redis, env, Dispatch(s, ids, due), ls) && AtRest(Run(Dispatch(s, ids, due), ls))
    ensures var s' := Run(Dispatch(s, ids, due), ls);
            BookOf(s'.w) == ServeAll(s.w.redis, env, BookOf(s.w), ids) && s'.p.idle
  {
    assert Dispatch(s, ids, due) == NextMessage(s, ids, Dispatching);
    hide Run, NextMessage, Dispatch, ServeAll, BookOf, QuietRun;
    MachineServes(env, s, ids, ls);
  }

  /** `_process_batch` with its deliveries, in any interleaving, or with its
      fallback, is `BatchServed`, and leaves the idle flag set. */
  lemma MachineServesBatch(env: Env, s: State, batch: seq<Id>, ls: seq<Label>)
    requires Ready(s) && s.canBatch && |batch| > 1
    requires QuietRun(s.w.redis, env, Dispatch(s, batch, false), ls) && AtRest(Run(Dispatch(s, batch, false), ls))
    ensures var s' := Run(Dispatch(s, batch, false), ls);
            BookOf(s'.w) == BatchServed(s.w.redis, env, BookOf(s.w), batch) && s'.p.idle
  {
    var s1 := Dispatch(s, batch, false);
    var goal := BatchServed(s.w.redis, env, BookOf(s.w), batch);
    DispatchSound(s.w.redis, env, s, batch);
    SoundRun(s.w.redis, env, s1, ls, goal);
    SoundAtRest(s.w.redis, env, Run(s1, ls), goal);
    hide Run, Dispatch, BatchServed, BookOf, Sound, QuietRun;
  }

  /** Batch refines one by one: any quiet run of the batch and any quiet run of the
      one-by-one loop that are through end with the same job states, the same
      pending list and the same multiset of reports, if and only if the batch
      fell back or, of its live messages, exactly the first of each job parses. */
  lemma BatchMatchesOneByOne(env: Env, s: State, batch: seq<Id>, ls: seq<Label>, ms: seq<Label>)
    requires Ready(s) && s.canBatch && |batch| > 1
    requires QuietRun(s.w.redis, env, Dispatch(s, batch, false), ls) && AtRest(Run(Dispatch(s, batch, false), ls))
    requires QuietRun(s.w.redis, env, NextMessage(s, batch, Dispatching), ms)
    requires AtRest(Run(NextMessage(s, batch, Dispatching), ms))
    ensures BookOf(Run(Dispatch(s, batch, false), ls).w) == BookOf(Run(NextMessage(s, batch, Dispatching), ms).w)
            <==> !Together(s.w.redis, env, BookOf(s.w), batch) || OnePerJob(s.w.redis, BookOf(s.w), batch)
  {
    MachineServesBatch(env, s, batch, ls);
    MachineServes(env, s, batch, ms);
    BatchAgreesExactly(s.w.redis, env, BookOf(s.w), batch);
    hide *;
  }

  /** Fallback is harmless: when `batch_run` is gone or raises, every quiet run
      of the batch ends as if the batch had never been tried, with the idle flag
      set, whatever duplicates, malformed, finished or cancelled messages it had. */
  lemma FallbackLeavesNoTrace(env: Env, s: State, batch: seq<Id>, ls: seq<Label>)
    requires Ready(s) && s.canBatch && |batch| > 1
    requires var kept := KeptOf(s.w.redis, BookOf(s.w), batch); kept != [] && Falls(s.w.redis, env, kept)
    requires QuietRun(s.w.redis, env, Dispatch(s, batch, false), ls) && AtRest(Run(Dispatch(s, batch, false), ls))
    ensures var s' := Run(Dispatch(s, batch, false), ls);
            BookOf(s'.w) == ServeAll(s.w.redis, env, BookOf(s.w), batch) && s'.p.idle
  {
    MachineServesBatch(env, s, batch, ls);
    FallbackIsHarmless(s.w.redis, env, BookOf(s.w), batch);
    hide *;
  }
}
