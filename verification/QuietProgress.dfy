/** A quiet run can always be completed: some coroutine has a step that brings it closer to rest. */
module QuietProgress {
  import opened Prelude
  import opened Webhook
  import opened Consumer
  import opened Effects
  import opened Flight
  import opened Serving
  import opened BatchLaws
  import opened Quiet
  import opened QuietSteps
  import opened QuietRuns

  // ---------------------------------------------------------------- how far there is to go

  function LastLive(calls: seq<Call>): bool {
    calls != [] && calls[|calls| - 1].st.Live?
  }

  function MsgRank(pc: MsgPc, live: bool): (n: nat)
    ensures 0 < n < 40
  {
    match pc
    case AckMalformed => 1
    case ReadStatus => 30
    case AckTerminal => 1
    case CheckQueued => 29
    case MarkQueued => 3
    case AckQueued => 2
    case WriteExecuting => 28
    case Waiting => if live then 26 else 25
    case CheckPolling => 27
    case CancelHook => 24
    case JoinCancelled => 23
    case CheckFinished(_) => 22
    case CheckResult(_) => 21
    case WriteCompleted(_) => 20
    case CheckCompleted(_) => 19
    case SendResult(_, _) => 18
    case CheckHandler => 17
    case WriteFailed => 16
    case SendError(_) => 15
    case MarkCancelled => 14
    case FinalAck(_) => 1
  }

  function TriageRank(tpc: TriagePc): (n: nat)
    ensures 0 < n < 10
  {
    match tpc case TReadStatus => 4 case TCheck => 3 case TMark => 2 case _ => 1
  }

  function ChildRank(pc: ChildPc): nat {
    match pc
    case CheckFirst => 6
    case Write => 5
    case CheckSecond => 4
    case Mark => 2
    case Send(_) => 3
    case Ack => 1
    case _ => 0
  }

  function TasksRank(tasks: seq<Child>): nat
    decreases |tasks|
  {
    if tasks == [] then 0 else ChildRank(tasks[0].pc) + TasksRank(tasks[1..])
  }

  function DeliveryRank(d: Option<Delivery>): nat {
    match d
    case None => 0
    case Some(d) =>
      match d.phase
      case Created => 10 * |d.parsed| + 5
      case Gathering => TasksRank(d.tasks) + 1
      case _ => 0
  }

  function Rank(s: State): nat {
    match s.main
    case Fetching(rest, _, _) => 40 * |rest|
    case Processing(f, rest, _) => 40 * |rest| + MsgRank(f.pc, LastLive(s.calls))
    case Triage(_, todo, tpc, batch, parsed, _) => 110 * |todo| + 100 * |parsed| + 40 * |batch| + 150 + TriageRank(tpc)
    case Marking(todo, batch, parsed, _) => |todo| + 40 * |batch| + 20 * |parsed| + 20
    case Running(batch, parsed) => 40 * |batch| + 20 * |parsed| + if LastLive(s.calls) then 11 else 10
    case _ => DeliveryRank(s.delivery)
  }

  /** The consume loop is dispatching or has come back to the head of its loop. */
  predicate Placed(m: Main) {
    InDispatch(m) || m.Reading? || m.Ended?
  }

  ghost predicate Closer(s: State, n: nat) {
    Placed(s.main) && Rank(s) < n
  }

  // ---------------------------------------------------------------- the step to take

  lemma NextRank(s: State, rest: seq<Id>, k: Loop)
    requires s.delivery.None?
    ensures var s' := NextMessage(s, rest, k); Placed(s'.main) && Rank(s') <= 40 * |rest|
  {
    hide Malformed;
  }

  lemma MoveRank(r: Redis, env: Env, calls: seq<Call>, f: Frame)
    requires QuietFrame(r, env, calls, f.id, f.pc) && !(f.pc.Waiting? && LastLive(calls))
    ensures var a := Ask(r, MsgOp(r, f), Fine, Accepted);
            var work := FieldsOf(r, f.id).work;
            var mv := MsgNext(f.pc, a, work.Some?, LastCall(calls));
            if mv.Go? then MsgRank(mv.pc, LastLive(MsgCalls(calls, work, f.pc, a))) < MsgRank(f.pc, LastLive(calls))
            else mv.escape.NoEscape?
  {
    hide JobOf, FieldsOf, Terminal, SingleEnd;
  }

  lemma MessageCloser(c: Redis, env: Env, s: State)
    requires QuietInv(c, env, s) && s.main.Processing? && !(s.main.f.pc.Waiting? && LastLive(s.calls))
    ensures Closer(MsgAdvance(s, s.main.f, s.main.rest, s.main.k, Fine, Accepted), Rank(s))
  {
    var f, rest, k, r := s.main.f, s.main.rest, s.main.k, s.w.redis;
    var op := MsgOp(r, f);
    var a := Ask(r, op, Fine, Accepted);
    var work := FieldsOf(r, f.id).work;
    var mv := MsgNext(f.pc, a, work.Some?, LastCall(s.calls));
    var s1 := s.(w := Noted(Do(s.w, op, Fine, Accepted), MsgNotes(f.id, JobOf(r, f.id), work, f.pc, a, mv)),
                 p := MsgLocal(s.p, JobOf(r, f.id), f.pc, mv), calls := MsgCalls(s.calls, work, f.pc, a));
    CatalogFacts(c, r, env, false, f.id, f.pc, s.calls);
    MoveRank(r, env, s.calls, f);
    NextRank(s1, rest, k);
    hide MsgOp, MsgNext, MsgNotes, MsgLocal, MsgCalls, Ask, Do, NextMessage, FieldsOf, JobOf, MsgRank, Delay,
      QuietFrame, BookOf;
  }

  lemma TriageNextRank(s: State, todo: seq<Id>, batch: seq<Id>, parsed: seq<Id>, act: nat)
    requires s.delivery.None?
    ensures var s' := TriageNext(s, todo, batch, parsed, act);
            Placed(s'.main) && Rank(s') < 110 * |todo| + 100 * |parsed| + 40 * |batch| + 51
  {
    hide Malformed;
  }

  lemma TriageCloser(c: Redis, env: Env, s: State)
    requires QuietInv(c, env, s) && s.main.Triage?
    ensures Closer(TriageAdvance(s, s.main, Fine), Rank(s))
  {
    var m, r := s.main, s.w.redis;
    var op := TriageOp(r, m);
    var a := Ask(r, op, Fine, Accepted);
    var mv := TriageStep(m.tpc, a, FieldsOf(r, m.id).work.Some?);
    var s1 := s.(w := Noted(Do(s.w, op, Fine, Accepted), TriageNotes(m.id, a, mv)));
    TriageMoveRank(r, m);
    TriageNextRank(s1, m.todo, m.batch, m.parsed, m.tact);
    TriageNextRank(s1, m.todo, m.batch, m.parsed + [m.id], m.tact);
    hide TriageOp, TriageStep, TriageNotes, Ask, Do, TriageNext, FieldsOf, JobOf, TriageRank, BookOf, Malformed,
      Kept, Delay;
  }

  lemma TriageMoveRank(r: Redis, m: Main)
    requires m.Triage?
    ensures var mv := TriageStep(m.tpc, Ask(r, TriageOp(r, m), Fine, Accepted), FieldsOf(r, m.id).work.Some?);
            !mv.TEscaped? && (mv.TGo? ==> TriageRank(mv.tpc) < TriageRank(m.tpc))
  {
    hide JobOf, FieldsOf, Terminal;
  }

  lemma MarkCloser(c: Redis, env: Env, s: State)
    requires QuietInv(c, env, s) && s.main.Marking?
    ensures var m := s.main; Closer(MarkAdvance(s, m.todo, m.batch, m.parsed, m.tact, Fine, env.gone), Rank(s))
  {
    var m := s.main;
    NextRank(s.(w := Do(s.w, SetStatus(m.tact, JobOf(s.w.redis, m.todo[0]), Executing), Fine, Accepted)),
             m.batch, FallingBack);
    hide NextMessage, Do, JobOf, Works, Jobs, BookOf, SoundBatch;
  }

  lemma RunCloser(c: Redis, env: Env, s: State)
    requires QuietInv(c, env, s) && s.main.Running? && !LastLive(s.calls)
    ensures Closer(BatchReturn(s, s.main.batch, s.main.parsed), Rank(s))
  {
    NextRank(s, s.main.batch, FallingBack);
    hide NextMessage, BookOf, SoundBatch, BatchEnd;
  }

  lemma FetchCloser(c: Redis, env: Env, s: State)
    requires QuietInv(c, env, s) && s.main.Fetching? && s.main.rest != []
    ensures Closer(Advance(s, Fine, Accepted, env.gone), Rank(s))
  {
    hide Malformed, BookOf;
  }

  lemma {:induction false} TasksRankAt(tasks: seq<Child>, i: nat, c: Child)
    requires i < |tasks|
    ensures TasksRank(tasks[i := c]) == TasksRank(tasks) - ChildRank(tasks[i].pc) + ChildRank(c.pc)
    ensures ChildRank(tasks[i].pc) <= TasksRank(tasks)
    decreases |tasks|
  {
    hide ChildRank;
    var tasks' := tasks[i := c];
    if i == 0 {
      assert tasks'[1..] == tasks[1..];
    } else {
      TasksRankAt(tasks[1..], i - 1, c);
      assert tasks'[1..] == tasks[1..][i - 1 := c];
    }
  }

  lemma {:induction false} NewTasksRank(tasks: seq<Child>)
    requires forall i :: 0 <= i < |tasks| ==> tasks[i].pc.CheckFirst?
    ensures TasksRank(tasks) == 6 * |tasks|
    decreases |tasks|
  {
    if tasks != [] { NewTasksRank(tasks[1..]); }
  }

  lemma ChildCloser(c: Redis, env: Env, s: State, i: nat)
    requires QuietInv(c, env, s) && s.delivery.Some? && s.delivery.value.phase.Gathering? && Placed(s.main)
    requires i < |s.delivery.value.tasks| && !s.delivery.value.tasks[i].pc.Finished?
    ensures Closer(ChildAdvance(s, i, Fine, Accepted), Rank(s))
  {
    var d, r := s.delivery.value, s.w.redis;
    var x := d.tasks[i];
    var x' := x.(pc := ChildNext(x.pc, Ask(r, ChildOp(r, x), Fine, Accepted)));
    assert QuietChild(c, x);
    ChildCatalog(c, r, x);
    assert ChildRank(x'.pc) < ChildRank(x.pc) by { hide JobOf; }
    TasksRankAt(d.tasks, i, x');
    hide ChildOp, ChildNext, Ask, Do, ChildRank, TasksRank, BookOf, QuietChild, QuietMain, JobOf;
  }

  lemma GatherCloser(c: Redis, env: Env, s: State)
    requires QuietInv(c, env, s) && s.delivery.Some? && Placed(s.main)
    requires s.delivery.value.phase.Created?
             || (s.delivery.value.phase.Gathering? && AllFinished(s.delivery.value.tasks))
    ensures Closer(GatherAdvance(s), Rank(s))
  {
    var d := s.delivery.value;
    if d.phase.Created? {
      NewTasksRank(Children(d.parsed, d.results, s.w.acts));
      hide TasksRank, BookOf, QuietMain, AnyBroken, AllFinished, JobOf, Computed;
    } else {
      assert !AnyBroken(d.tasks);
      hide TasksRank, BookOf, QuietMain, AnyBroken, AllFinished, JobOf, Computed;
    }
  }

  lemma FinishCloser(c: Redis, env: Env, s: State, end: CallEnd)
    requires QuietInv(c, env, s) && LastLive(s.calls)
    requires s.main.Running? || (s.main.Processing? && s.main.f.pc.Waiting?)
    ensures Closer(Step(s, Finish(|s.calls| - 1, end)), Rank(s))
  {
    hide Advance, BookOf, SoundBatch, BatchEnd, QuietFrame;
  }

  lemma ResumeCloser(c: Redis, env: Env, s: State)
    requires QuietInv(c, env, s) && InDispatch(s.main) && (s.main.Fetching? ==> s.main.rest != [])
    requires !(LastLive(s.calls) && (s.main.Running? || (s.main.Processing? && s.main.f.pc.Waiting?)))
    ensures Closer(Step(s, Resume(Fine, Accepted, env.gone)), Rank(s))
  {
    match s.main
    case Fetching(_, _, _) => FetchCloser(c, env, s); hide Advance, Closer;
    case Processing(_, _, _) => MessageCloser(c, env, s); hide MsgAdvance, Closer;
    case Triage(_, _, _, _, _, _) => TriageCloser(c, env, s); hide TriageAdvance, Closer;
    case Marking(_, _, _, _) => MarkCloser(c, env, s); hide MarkAdvance, Closer;
    case Running(_, _) => RunCloser(c, env, s); hide BatchReturn, Closer;
  }

  /** The end the environment gives the call the loop is waiting for. */
  ghost function ExpectedEnd(c: Redis, env: Env, m: Main): CallEnd {
    if m.Running? then BatchEnd(c, env, m.parsed)
    else if m.Processing? && FieldsOf(c, m.f.id).work.Some? then SingleEnd(env, FieldsOf(c, m.f.id).work.value)
    else Raised
  }

  /** Short of rest, some quiet step brings the run closer to it. */
  lemma QuietStepExists(c: Redis, env: Env, s: State) returns (l: Label)
    requires QuietInv(c, env, s) && Placed(s.main) && !AtRest(s) && (s.main.Fetching? ==> s.main.rest != [])
    ensures QuietLabel(c, env, s, l) && Closer(Step(s, l), Rank(s))
  {
    if LastLive(s.calls) && (s.main.Running? || (s.main.Processing? && s.main.f.pc.Waiting?)) {
      l := Finish(|s.calls| - 1, ExpectedEnd(c, env, s.main));
      FinishCloser(c, env, s, ExpectedEnd(c, env, s.main));
      hide Step, Rank, Closer, BatchEnd, FieldsOf, SingleEnd, QuietInv;
    } else if InDispatch(s.main) {
      l := Resume(Fine, Accepted, env.gone);
      ResumeCloser(c, env, s);
      hide Step, Rank, Closer, QuietInv;
    } else if s.delivery.value.phase.Created? || AllFinished(s.delivery.value.tasks) {
      l := Gather;
      GatherCloser(c, env, s);
      hide GatherAdvance, Rank, Closer;
    } else {
      var i :| 0 <= i < |s.delivery.value.tasks| && s.delivery.value.tasks[i].pc != Finished;
      l := ResumeChild(i, Fine, Accepted);
      ChildCloser(c, env, s, i);
      hide ChildAdvance, Rank, Closer;
    }
  }

  /** The loop over listed messages never waits for nothing. */
  predicate HasNext(m: Main) {
    m.Fetching? ==> m.rest != []
  }

  lemma ListingStays(c: Redis, env: Env, s: State, l: Label)
    requires QuietInv(c, env, s) && QuietLabel(c, env, s, l) && HasNext(s.main)
    ensures HasNext(Step(s, l).main)
  {
    if l.Resume? {
      match s.main
      case Fetching(rest, boot, count) => hide Malformed, BookOf;
      case Processing(f, rest, k) => MessageListing(s, l.io, l.reply); hide MsgAdvance;
      case Triage(_, _, _, _, _, _) => TriageListing(s, l.io); hide TriageAdvance;
      case Marking(_, batch, _, _) => MarkListing(s, l.io, l.alt); hide MarkAdvance;
      case Running(batch, _) => NextListing(s, batch, FallingBack); hide NextMessage;
      case _ =>
    } else {
      OtherMainStays(s, l);
      hide Step;
    }
  }

  lemma NextListing(s: State, rest: seq<Id>, k: Loop)
    ensures HasNext(NextMessage(s, rest, k).main)
  {
    hide Malformed;
  }

  lemma MessageListing(s: State, io: Io, reply: Reply)
    requires s.main.Processing?
    ensures HasNext(MsgAdvance(s, s.main.f, s.main.rest, s.main.k, io, reply).main)
  {
    var f, rest, k := s.main.f, s.main.rest, s.main.k;
    var op := MsgOp(s.w.redis, f);
    var a := Ask(s.w.redis, op, io, reply);
    var work := FieldsOf(s.w.redis, f.id).work;
    var mv := MsgMove(s, f, io, reply);
    var s1 := s.(
      w := Noted(Do(s.w, op, io, reply), MsgNotes(f.id, JobOf(s.w.redis, f.id), work, f.pc, a, mv)),
      p := MsgLocal(s.p, JobOf(s.w.redis, f.id), f.pc, mv),
      calls := MsgCalls(s.calls, work, f.pc, a));
    NextListing(s1, rest, k);
    hide MsgOp, MsgNext, MsgNotes, MsgLocal, MsgCalls, Ask, Do, NextMessage, FieldsOf, JobOf, Delay;
  }

  lemma TriageListing(s: State, io: Io)
    requires s.main.Triage?
    ensures !TriageAdvance(s, s.main, io).main.Fetching?
  {
    hide TriageOp, TriageStep, TriageNotes, Ask, Do, FieldsOf, Delay, Malformed;
  }

  lemma MarkListing(s: State, io: Io, alt: bool)
    requires s.main.Marking?
    ensures !MarkAdvance(s, s.main.todo, s.main.batch, s.main.parsed, s.main.tact, io, alt).main.Fetching?
  {
    hide Do, Works, Jobs, JobOf, Malformed;
  }

  lemma OtherMainStays(s: State, l: Label)
    requires l.ResumeChild? || l.Gather? || l.Finish? || l.Stop?
    ensures Step(s, l).main == s.main
  {
    match l
    case ResumeChild(i, io, reply) => ChildMain(s, i, io, reply); hide Advance, ChildAdvance;
    case Gather => DrainMain(s); hide Advance, GatherAdvance;
    case _ => hide Advance;
  }

  lemma {:induction false} QuietRunExists(c: Redis, env: Env, s: State) returns (ls: seq<Label>)
    requires QuietInv(c, env, s) && Placed(s.main) && HasNext(s.main)
    ensures QuietRun(c, env, s, ls) && AtRest(Run(s, ls))
    decreases Rank(s)
  {
    if AtRest(s) {
      ls := [];
    } else {
      var l := QuietStepExists(c, env, s);
      StepHeads(c, env, s, l);
      ListingStays(c, env, s, l);
      hide Step, QuietInv, QuietLabel, Complete, AtRest, Rank;
      var rest := QuietRunExists(c, env, Step(s, l));
      ls := [l] + rest;
      assert ls[0] == l && ls[1..] == rest;
    }
  }

  /** Every batch can be carried through to rest in a quiet environment, and then
      the book is `BatchServed`. */
  lemma BatchCompletes(env: Env, s: State, batch: seq<Id>) returns (ls: seq<Label>)
    requires Ready(s) && s.canBatch && |batch| > 1
    ensures var s1 := Dispatch(s, batch, false);
            && QuietRun(s.w.redis, env, s1, ls) && AtRest(Run(s1, ls))
            && BookOf(Run(s1, ls).w) == BatchServed(s.w.redis, env, BookOf(s.w), batch)
  {
    var s1 := Dispatch(s, batch, false);
    DispatchSound(s.w.redis, env, s, batch);
    assert Placed(s1.main) && HasNext(s1.main) by { hide Malformed; }
    hide Run, Dispatch, QuietRun, QuietInv, Complete, BatchServed, BookOf;
    ls := QuietRunExists(s.w.redis, env, s1);
    MachineServesBatch(env, s, batch, ls);
  }
}
