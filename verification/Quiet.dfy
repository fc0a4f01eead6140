/** What is left to do at every place of the machine in a quiet environment.

Quiet means: every Redis call is answered, no flag changes, every POST is
accepted, and the executor answers as `Env` says. Interleaving is still free:
the deliveries of a batch, `gather`, the executor and the polling loop take
their steps in any order.
*/
module Quiet {
  import opened Prelude
  import opened Webhook
  import opened Consumer
  import opened Effects
  import opened Flight
  import opened Serving

  // ---------------------------------------------------------------- books and calls

  function SentOf(posts: seq<Post>): multiset<(Id, Payload)> {
    if posts == [] then multiset{}
    else SentOf(posts[..|posts| - 1]) + multiset{(posts[|posts| - 1].id, posts[|posts| - 1].payload)}
  }

  function BookOf(w: World): Book {
    Book(w.redis.status, w.redis.pel, SentOf(w.posts))
  }

  function EditOf(op: Op): seq<Edit> {
    match op
    case SetStatus(_, job, st) => [MarkEdit(job, st)]
    case PostOutcome(_, id, _, p) => [SendEdit(id, p)]
    case AckMessage(id) => [AckEdit(id)]
    case _ => []
  }

  lemma ApplyOne(b: Book, e: Edit)
    ensures ApplyAll(b, [e]) == Apply(b, e)
  {
    assert [e][1..] == [];
  }

  lemma DoApplies(w: World, op: Op)
    ensures BookOf(Do(w, op, Fine, Accepted)) == ApplyAll(BookOf(w), EditOf(op))
  {
    if EditOf(op) != [] { ApplyOne(BookOf(w), EditOf(op)[0]); }
    if op.PostOutcome? {
      var p := Post(op.act, op.id, op.job, op.payload, Accepted);
      assert (w.posts + [p])[..|w.posts|] == w.posts;
    }
    hide Without;
  }

  // ---------------------------------------------------------------- one processing

  /** The effects left once the executor has been started. */
  function RunEdits(r: Redis, env: Env, id: Id): seq<Edit> {
    match Computed(r, env, id)
    case None => [MarkEdit(JobOf(r, id), Failed), SendEdit(id, Failure), AckEdit(id)]
    case Some(res) => [MarkEdit(JobOf(r, id), Completed), SendEdit(id, Success(res)), AckEdit(id)]
  }

  /** The effects left for a processing suspended at `pc`. */
  function MsgEdits(r: Redis, env: Env, closed: bool, id: Id, pc: MsgPc): seq<Edit> {
    var job := JobOf(r, id);
    var cancel := [MarkEdit(job, Cancelled), AckEdit(id)];
    var start := if job in r.flags then cancel else [MarkEdit(job, Executing)] + RunEdits(r, env, id);
    match pc
    case AckMalformed => [AckEdit(id)]
    case ReadStatus => if closed then [AckEdit(id)] else start
    case AckTerminal => [AckEdit(id)]
    case CheckQueued => start
    case MarkQueued => cancel
    case AckQueued => [AckEdit(id)]
    case WriteExecuting => [MarkEdit(job, Executing)] + RunEdits(r, env, id)
    case Waiting => RunEdits(r, env, id)
    case CheckPolling => RunEdits(r, env, id)
    case CancelHook => cancel
    case JoinCancelled => cancel
    case CheckFinished(res) => [MarkEdit(job, Completed), SendEdit(id, Success(res)), AckEdit(id)]
    case CheckResult(res) => [MarkEdit(job, Completed), SendEdit(id, Success(res)), AckEdit(id)]
    case WriteCompleted(res) => [MarkEdit(job, Completed), SendEdit(id, Success(res)), AckEdit(id)]
    case CheckCompleted(res) => [SendEdit(id, Success(res)), AckEdit(id)]
    case SendResult(res, _) => [SendEdit(id, Success(res)), AckEdit(id)]
    case MarkCancelled => cancel
    case CheckHandler => [MarkEdit(job, Failed), SendEdit(id, Failure), AckEdit(id)]
    case WriteFailed => [MarkEdit(job, Failed), SendEdit(id, Failure), AckEdit(id)]
    case SendError(_) => [SendEdit(id, Failure), AckEdit(id)]
    case FinalAck(_) => [AckEdit(id)]
  }

  /** The executor ends a single run as the environment says. */
  function SingleEnd(env: Env, w: Work): CallEnd {
    match env.run(w) case None => Raised case Some(res) => Returned([res])
  }

  predicate Polling(pc: MsgPc) {
    pc.Waiting? || pc.CheckPolling?
  }

  /** What holds of a processing in a quiet run. */
  ghost predicate QuietFrame(r: Redis, env: Env, calls: seq<Call>, id: Id, pc: MsgPc) {
    && (pc.WriteExecuting? || Polling(pc) || ResultAt(pc).Some? || pc.CheckHandler? ==> JobOf(r, id) !in r.flags)
    && (Polling(pc) ==>
          && FieldsOf(r, id).work.Some?
          && calls != []
          && calls[|calls| - 1].jobs == [FieldsOf(r, id).work.value]
          && (calls[|calls| - 1].st.Live? || calls[|calls| - 1].st == Over(SingleEnd(env, FieldsOf(r, id).work.value))))
    && (pc.MarkQueued? ==> JobOf(r, id) in r.flags)
    && !pc.CancelHook? && !pc.JoinCancelled?
    && (pc.FinalAck? ==> pc.escape.NoEscape?)
  }

  /** A processing that goes on has the effects of this call behind it and the
      rest before it; one that leaves has done them all. */
  ghost predicate FrameMoved(r: Redis, env: Env, closed: bool, f: Frame, op: Op, mv: Move) {
    if mv.Go? then
      MsgEdits(r, env, closed, f.id, f.pc) == EditOf(op) + MsgEdits(r, env, closed, f.id, mv.pc) && !mv.pc.ReadStatus?
    else mv.escape.NoEscape? && MsgEdits(r, env, closed, f.id, f.pc) == EditOf(op)
  }

  lemma EarlyEdits(r: Redis, env: Env, calls: seq<Call>, f: Frame)
    requires QuietFrame(r, env, calls, f.id, f.pc) && BeforeTry(f.pc)
    ensures var op := MsgOp(r, f);
            var a := Ask(r, op, Fine, Accepted);
            FrameMoved(r, env, Terminal(r, JobOf(r, f.id)), f, op,
                       MsgNext(f.pc, a, FieldsOf(r, f.id).work.Some?, LastCall(calls)))
  {
    hide Terminal, JobOf, FieldsOf, RunEdits;
    if f.pc.WriteExecuting? { NoWorkFails(r, env, f.id); }
  }

  /** A message that does not parse goes straight to the error handler. */
  lemma NoWorkFails(r: Redis, env: Env, id: Id)
    ensures FieldsOf(r, id).work.None? ==>
              RunEdits(r, env, id) == [MarkEdit(JobOf(r, id), Failed), SendEdit(id, Failure), AckEdit(id)]
  {
  }

  lemma WaitingEdits(r: Redis, env: Env, calls: seq<Call>, f: Frame)
    requires QuietFrame(r, env, calls, f.id, f.pc) && Polling(f.pc)
    ensures var op := MsgOp(r, f);
            var a := Ask(r, op, Fine, Accepted);
            FrameMoved(r, env, Terminal(r, JobOf(r, f.id)), f, op,
                       MsgNext(f.pc, a, FieldsOf(r, f.id).work.Some?, LastCall(calls)))
  {
    hide Terminal, JobOf;
    var st := calls[|calls| - 1].st;
    assert st.Over? && st.end.Returned? ==> |st.end.results| == 1;
  }

  lemma LateEdits(r: Redis, env: Env, calls: seq<Call>, f: Frame)
    requires QuietFrame(r, env, calls, f.id, f.pc) && !BeforeTry(f.pc) && !Polling(f.pc)
    ensures var op := MsgOp(r, f);
            var a := Ask(r, op, Fine, Accepted);
            FrameMoved(r, env, Terminal(r, JobOf(r, f.id)), f, op,
                       MsgNext(f.pc, a, FieldsOf(r, f.id).work.Some?, LastCall(calls)))
  {
    hide Terminal, JobOf, FieldsOf, RunEdits, LastCall;
  }

  lemma FrameEdits(r: Redis, env: Env, calls: seq<Call>, f: Frame)
    requires QuietFrame(r, env, calls, f.id, f.pc)
    ensures var op := MsgOp(r, f);
            var a := Ask(r, op, Fine, Accepted);
            FrameMoved(r, env, Terminal(r, JobOf(r, f.id)), f, op,
                       MsgNext(f.pc, a, FieldsOf(r, f.id).work.Some?, LastCall(calls)))
  {
    if BeforeTry(f.pc) {
      EarlyEdits(r, env, calls, f);
    } else if Polling(f.pc) {
      WaitingEdits(r, env, calls, f);
    } else {
      LateEdits(r, env, calls, f);
    }
    hide MsgOp, Ask, MsgNext, FrameMoved;
  }

  lemma FrameStaysQuiet(r: Redis, env: Env, calls: seq<Call>, f: Frame)
    requires QuietFrame(r, env, calls, f.id, f.pc)
    ensures var a := Ask(r, MsgOp(r, f), Fine, Accepted);
            var work := FieldsOf(r, f.id).work;
            var mv := MsgNext(f.pc, a, work.Some?, LastCall(calls));
            mv.Go? ==> QuietFrame(r, env, MsgCalls(calls, work, f.pc, a), f.id, mv.pc)
  {
    hide Terminal, JobOf, FieldsOf, SingleEnd;
  }

  /** Redis differs only in what processing changes. */
  predicate SameCatalog(c: Redis, r: Redis) {
    c.stream == r.stream && c.flags == r.flags
  }

  lemma CatalogFacts(c: Redis, r: Redis, env: Env, closed: bool, id: Id, pc: MsgPc, calls: seq<Call>)
    requires SameCatalog(c, r)
    ensures FieldsOf(c, id) == FieldsOf(r, id) && JobOf(c, id) == JobOf(r, id) && Malformed(c, id) == Malformed(r, id)
    ensures MsgEdits(c, env, closed, id, pc) == MsgEdits(r, env, closed, id, pc)
    ensures QuietFrame(c, env, calls, id, pc) == QuietFrame(r, env, calls, id, pc)
  {
  }

  /** A processing that has just begun has exactly the effects of `Serve` before it. */
  lemma EntryServes(r: Redis, env: Env, b: Book, id: Id)
    ensures var pc := if Malformed(r, id) then AckMalformed else ReadStatus;
            ApplyAll(b, MsgEdits(r, env, Closed(b, JobOf(r, id)), id, pc)) == Serve(r, env, b, id)
  {
    var job := JobOf(r, id);
    var closed := Closed(b, job);
    hide Without;
    if Malformed(r, id) || closed {
      ApplyOne(b, AckEdit(id));
    } else if job in r.flags {
      ApplyTwo(b, MarkEdit(job, Cancelled), AckEdit(id));
    } else {
      var final := if Computed(r, env, id).None? then Failed else Completed;
      var p := if Computed(r, env, id).None? then Failure else Success(Computed(r, env, id).value);
      assert RunEdits(r, env, id) == [MarkEdit(job, final), SendEdit(id, p), AckEdit(id)];
      ApplyFour(b, MarkEdit(job, Executing), MarkEdit(job, final), SendEdit(id, p), AckEdit(id));
      assert b.status[job := Executing][job := final] == b.status[job := final];
      assert [MarkEdit(job, Executing)] + RunEdits(r, env, id)
        == [MarkEdit(job, Executing), MarkEdit(job, final), SendEdit(id, p), AckEdit(id)];
    }
  }

  lemma ApplyTwo(b: Book, e: Edit, f: Edit)
    ensures ApplyAll(b, [e, f]) == Apply(Apply(b, e), f)
  {
    assert [e, f][1..] == [f];
    ApplyOne(Apply(b, e), f);
    hide Apply;
  }

  lemma ApplyThree(b: Book, e: Edit, f: Edit, g: Edit)
    ensures ApplyAll(b, [e, f, g]) == Apply(Apply(Apply(b, e), f), g)
  {
    assert [e, f, g][1..] == [f, g];
    ApplyTwo(Apply(b, e), f, g);
    hide Apply;
  }

  lemma ApplyFour(b: Book, e: Edit, f: Edit, g: Edit, h: Edit)
    ensures ApplyAll(b, [e, f, g, h]) == Apply(Apply(Apply(Apply(b, e), f), g), h)
  {
    assert [e, f, g, h][1..] == [f, g, h];
    ApplyThree(Apply(b, e), f, g, h);
    hide Apply;
  }

  // ---------------------------------------------------------------- triage

  function TriageEdits(r: Redis, closed: bool, id: Id, tpc: TriagePc): seq<Edit> {
    var job := JobOf(r, id);
    var cancel := [MarkEdit(job, Cancelled), AckEdit(id)];
    var check := if job in r.flags then cancel else if FieldsOf(r, id).work.None? then [AckEdit(id)] else [];
    match tpc
    case TReadStatus => if closed then [AckEdit(id)] else check
    case TCheck => check
    case TMark => cancel
    case _ => [AckEdit(id)]
  }

  predicate Keeps(r: Redis, closed: bool, id: Id, tpc: TriagePc) {
    && (tpc.TReadStatus? || tpc.TCheck?)
    && !(tpc.TReadStatus? && closed)
    && JobOf(r, id) !in r.flags
    && FieldsOf(r, id).work.Some?
  }

  lemma TriageCatalog(c: Redis, r: Redis, closed: bool, id: Id, tpc: TriagePc)
    requires SameCatalog(c, r)
    ensures TriageEdits(c, closed, id, tpc) == TriageEdits(r, closed, id, tpc)
    ensures Keeps(c, closed, id, tpc) == Keeps(r, closed, id, tpc)
  {
  }

  ghost predicate TriageMoved(r: Redis, closed: bool, id: Id, tpc: TriagePc, op: Op, mv: TriageMove) {
    match mv
    case TGo(t) =>
      && TriageEdits(r, closed, id, tpc) == EditOf(op) + TriageEdits(r, closed, id, t)
      && Keeps(r, closed, id, tpc) == Keeps(r, closed, id, t)
      && !t.TReadStatus?
    case TDropped => TriageEdits(r, closed, id, tpc) == EditOf(op) && !Keeps(r, closed, id, tpc)
    case TKept => TriageEdits(r, closed, id, tpc) == EditOf(op) == [] && Keeps(r, closed, id, tpc)
    case TEscaped => false
  }

  /** Each step of triage takes one effect off the list. */
  lemma TriageFrame(r: Redis, m: Main)
    requires m.Triage?
    ensures var op := TriageOp(r, m);
            TriageMoved(r, Terminal(r, JobOf(r, m.id)), m.id, m.tpc, op,
                        TriageStep(m.tpc, Ask(r, op, Fine, Accepted), FieldsOf(r, m.id).work.Some?))
  {
    hide Terminal, JobOf, FieldsOf;
  }

  /** Triage of a message that has just begun is `Triaged`. */
  lemma EntryTriages(r: Redis, b: Book, id: Id)
    ensures var tpc := if Malformed(r, id) then TAckMalformed else TReadStatus;
            var closed := Closed(b, JobOf(r, id));
            && ApplyAll(b, TriageEdits(r, closed, id, tpc)) == Triaged(r, b, id)
            && Keeps(r, closed, id, tpc) == Kept(r, b, id)
  {
    hide Without;
    ApplyOne(b, AckEdit(id));
    ApplyTwo(b, MarkEdit(JobOf(r, id), Cancelled), AckEdit(id));
  }

  /** What is left of a batch once `parsed` has been kept and `todo` is to be looked at. */
  ghost function TriageRest(r: Redis, env: Env, b: Book, batch: seq<Id>, parsed: seq<Id>, todo: seq<Id>): Book {
    var kept := parsed + KeptOf(r, b, todo);
    var b1 := TriagedAll(r, b, todo);
    if kept == [] then b1 else BatchRest(r, env, MarkedAll(r, b1, kept, Executing), batch, kept)
  }

  lemma TriageRestUnfolds(r: Redis, env: Env, b: Book, batch: seq<Id>, parsed: seq<Id>, todo: seq<Id>)
    requires todo != []
    ensures TriageRest(r, env, b, batch, parsed, todo)
            == TriageRest(r, env, Triaged(r, b, todo[0]), batch,
                          parsed + (if Kept(r, b, todo[0]) then [todo[0]] else []), todo[1..])
  {
    var b1 := Triaged(r, b, todo[0]);
    var one := if Kept(r, b, todo[0]) then [todo[0]] else [];
    assert parsed + KeptOf(r, b, todo) == parsed + one + KeptOf(r, b1, todo[1..]);
    assert TriagedAll(r, b, todo) == TriagedAll(r, b1, todo[1..]);
    hide KeptOf, TriagedAll, Triaged, Kept, BatchRest;
  }

  // ---------------------------------------------------------------- deliveries

  function ChildEdits(r: Redis, c: Child): seq<Edit> {
    var report := [SendEdit(c.id, Success(c.result)), AckEdit(c.id)];
    match c.pc
    case CheckFirst => [MarkEdit(JobOf(r, c.id), Completed)] + report
    case Write => [MarkEdit(JobOf(r, c.id), Completed)] + report
    case CheckSecond => report
    case Send(_) => report
    case Ack => [AckEdit(c.id)]
    case _ => []
  }

  function TaskEdits(r: Redis, tasks: seq<Child>): seq<Edit>
    decreases |tasks|
  {
    if tasks == [] then [] else ChildEdits(r, tasks[0]) + TaskEdits(r, tasks[1..])
  }

  /** A delivery in a quiet run neither cancels nor breaks. */
  predicate QuietChild(r: Redis, c: Child) {
    && JobOf(r, c.id) !in r.flags
    && (c.pc.CheckFirst? || c.pc.Write? || c.pc.CheckSecond? || c.pc.Send? || c.pc.Ack? || c.pc.Finished?)
  }

  lemma ChildMoves(r: Redis, c: Child)
    requires QuietChild(r, c)
    ensures var op := ChildOp(r, c);
            var c' := c.(pc := ChildNext(c.pc, Ask(r, op, Fine, Accepted)));
            QuietChild(r, c') && ChildEdits(r, c) == EditOf(op) + ChildEdits(r, c')
  {
    hide JobOf;
  }

  lemma ChildCatalog(c: Redis, r: Redis, x: Child)
    requires SameCatalog(c, r)
    ensures ChildEdits(c, x) == ChildEdits(r, x) && QuietChild(c, x) == QuietChild(r, x)
  {
  }

  lemma {:induction false} TaskEditsSplit(r: Redis, tasks: seq<Child>, i: nat)
    requires i < |tasks|
    ensures TaskEdits(r, tasks) == TaskEdits(r, tasks[..i]) + (ChildEdits(r, tasks[i]) + TaskEdits(r, tasks[i + 1..]))
    decreases i
  {
    if i == 0 {
      assert tasks[..0] == [];
    } else {
      var t1, front := tasks[1..], tasks[..i];
      TaskEditsSplit(r, t1, i - 1);
      assert t1[i - 1] == tasks[i] && t1[..i - 1] == tasks[1..i] && t1[i..] == tasks[i + 1..];
      assert front[0] == tasks[0] && front[1..] == tasks[1..i];
      assert TaskEdits(r, front) == ChildEdits(r, tasks[0]) + TaskEdits(r, tasks[1..i]) by { hide ChildEdits; }
      assert TaskEdits(r, tasks) == ChildEdits(r, tasks[0]) + TaskEdits(r, t1) by { hide ChildEdits; }
      hide ChildEdits, TaskEdits;
      Regroup(
        ChildEdits(r, tasks[0]), TaskEdits(r, tasks[1..i]),
        ChildEdits(r, tasks[i]) + TaskEdits(r, tasks[i + 1..]));
    }
  }

  lemma Regroup(x: seq<Edit>, y: seq<Edit>, z: seq<Edit>)
    ensures x + (y + z) == (x + y) + z
  {
  }

  /** Deliveries mark nothing but `completed`, so their effects commute. */
  lemma {:induction false} TasksComplete(r: Redis, tasks: seq<Child>, k: nat)
    requires k < |TaskEdits(r, tasks)|
    ensures var e := TaskEdits(r, tasks)[k]; e.MarkEdit? ==> e.st == Completed
    decreases |tasks|
  {
    if k >= |ChildEdits(r, tasks[0])| {
      TasksComplete(r, tasks[1..], k - |ChildEdits(r, tasks[0])|);
    }
  }

  /** Whichever delivery moves first, the book the deliveries are heading for is the same. */
  lemma TaskMoves(r: Redis, b: Book, tasks: seq<Child>, i: nat)
    requires i < |tasks| && QuietChild(r, tasks[i])
    ensures var c := tasks[i];
            var op := ChildOp(r, c);
            var tasks' := tasks[i := c.(pc := ChildNext(c.pc, Ask(r, op, Fine, Accepted)))];
            ApplyAll(ApplyAll(b, EditOf(op)), TaskEdits(r, tasks')) == ApplyAll(b, TaskEdits(r, tasks))
  {
    var c := tasks[i];
    var op := ChildOp(r, c);
    var c' := c.(pc := ChildNext(c.pc, Ask(r, op, Fine, Accepted)));
    var tasks' := tasks[i := c'];
    ChildMoves(r, c);
    EditForms(r, c);
    TaskEditsSplit(r, tasks, i);
    TaskEditsSplit(r, tasks', i);
    assert tasks'[..i] == tasks[..i] && tasks'[i + 1..] == tasks[i + 1..];
    forall k | 0 <= k < |TaskEdits(r, tasks[..i])|
      ensures var x := TaskEdits(r, tasks[..i])[k]; x.MarkEdit? ==> x.st == Completed
    {
      TasksComplete(r, tasks[..i], k);
    }
    hide *;
    Regroup(EditOf(op), ChildEdits(r, c'), TaskEdits(r, tasks[i + 1..]));
    EditMoves(b, TaskEdits(r, tasks[..i]), EditOf(op), ChildEdits(r, c') + TaskEdits(r, tasks[i + 1..]));
  }

  lemma EditMoves(b: Book, before: seq<Edit>, e: seq<Edit>, after: seq<Edit>)
    requires e == [] || (|e| == 1 && (e[0].MarkEdit? ==> e[0].st == Completed))
    requires forall k :: 0 <= k < |before| && before[k].MarkEdit? ==> before[k].st == Completed
    ensures ApplyAll(ApplyAll(b, e), before + after) == ApplyAll(b, before + (e + after))
  {
    if e == [] {
      assert before + (e + after) == before + after;
    } else {
      assert e == [e[0]];
      assert before + (e + after) == before + [e[0]] + after;
      MoveFront(b, before, e[0], after);
      ApplyOne(b, e[0]);
    }
    hide Apply;
  }

  lemma EditForms(r: Redis, c: Child)
    requires QuietChild(r, c)
    ensures var e := EditOf(ChildOp(r, c)); e == [] || (|e| == 1 && (e[0].MarkEdit? ==> e[0].st == Completed))
  {
  }

  lemma {:induction false} FinishedTasks(r: Redis, tasks: seq<Child>)
    requires AllFinished(tasks)
    ensures TaskEdits(r, tasks) == []
    decreases |tasks|
  {
    if tasks != [] { FinishedTasks(r, tasks[1..]); }
  }

  /** New deliveries have exactly the effects of `DeliveredAll` before them. */
  lemma {:induction false} NewTasks(r: Redis, env: Env, b: Book, tasks: seq<Child>, ids: seq<Id>)
    requires |tasks| == |ids|
    requires forall i :: 0 <= i < |ids| ==>
               tasks[i].id == ids[i] && tasks[i].pc.CheckFirst? && Computed(r, env, ids[i]) == Some(tasks[i].result)
    ensures ApplyAll(b, TaskEdits(r, tasks)) == DeliveredAll(r, env, b, ids)
    decreases |ids|
  {
    if ids != [] {
      var c := tasks[0];
      var es := [MarkEdit(JobOf(r, c.id), Completed), SendEdit(c.id, Success(c.result)), AckEdit(c.id)];
      assert ChildEdits(r, c) == es;
      ApplyAllSplits(b, es, TaskEdits(r, tasks[1..]));
      ApplyThree(b, es[0], es[1], es[2]);
      assert Acked(Reported(b, r, env, ids[0]), ids[0]) == ApplyAll(b, es);
      NewTasks(r, env, ApplyAll(b, es), tasks[1..], ids[1..]);
      hide Without;
    }
  }
}
