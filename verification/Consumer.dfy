/** The Redis Streams job consumer as a step machine.

A state holds what survives a crash (Redis) and what does not (the process).
Every program counter below is one `await` of the source; one step resumes one
coroutine from its await and runs it to the next. Between any two steps the
environment may raise a cancel flag, append a message, let the executor finish,
fail a Redis call, cancel the consumer task, or kill the process.
*/
module Consumer {
  import opened Prelude
  import opened Webhook

  const BATCH_READ_COUNT: nat := 100
  const RECOVERY_COUNT: nat := 100
  const BACKOFF_MAX: nat := 60
  /** `2.0 ** 1024` is out of range, so the 1025th consecutive failure raises. */
  const BACKOFF_LIMIT: nat := 1024

  // ---------------------------------------------------------------- Redis

  type Id = nat

  /** A circuit and its shot count, as `from_json` and `int` accepted them. */
  datatype Work = Work(irJson: string, shots: int)

  datatype ExecutionResult = ExecutionResult(counts: map<string, int>, executionTimeMs: real, shotsCompleted: int)

  /** A decoded stream entry. `work` is None when `ir_json` or `shots` is missing or does not parse. */
  datatype Fields = Fields(jobId: Option<string>, callbackUrl: Option<string>, work: Option<Work>)

  datatype JobState = Executing | Completed | Cancelled | Failed

  /** `pel` is the group's pending list; `cursor` its last-delivered position. */
  datatype Redis = Redis(
    stream: seq<Fields>, cursor: nat, pel: seq<Id>, status: map<string, JobState>, flags: set<string>)

  /** The fate of one Redis call. A lost call raises a connection error; the
      server may or may not have carried it out before the connection broke. */
  datatype Io = Fine | Lost(applied: bool)

  predicate Lands(io: Io) {
    io.Fine? || io.applied
  }

  function FieldsOf(r: Redis, id: Id): Fields {
    if id < |r.stream| then r.stream[id] else Fields(None, None, None)
  }

  predicate Malformed(r: Redis, id: Id) {
    FieldsOf(r, id).jobId.None? || FieldsOf(r, id).callbackUrl.None?
  }

  function JobOf(r: Redis, id: Id): string {
    match FieldsOf(r, id).jobId case Some(j) => j case None => ""
  }

  predicate Terminal(r: Redis, job: string) {
    job in r.status && (r.status[job] == Completed || r.status[job] == Cancelled)
  }

  // ---------------------------------------------------------------- history

  /** One POST as the cloud saw it, by which processing and for which message. */
  datatype Payload = Success(result: ExecutionResult) | Failure
  datatype Post = Post(act: nat, id: Id, job: string, payload: Payload, reply: Reply)

  /** What happened, in order. History only: no step reads it. */
  datatype Event =
    | SawTerminal(id: Id)
    | SawFlag(id: Id)                           // a flag read for id was answered: raised
    | FoundUnparsable(id: Id)
    | HandlerBlind(id: Id)                      // the flag read in the error handler failed
    | ForcedOut(id: Id)                         // the consumer was cancelled while handling id
    | Wrote(act: nat, job: string, state: JobState)
    | Started(jobs: seq<string>)                // an executor call for these jobs
    | Ran(ids: seq<Id>, works: seq<Work>, results: seq<ExecutionResult>)
    | DeliveryRaised
    | Forced
    | Recovered(count: nat)                     // recover_pending returned

  // ---------------------------------------------------------------- process

  datatype CallEnd = Returned(results: seq<ExecutionResult>) | Raised
  datatype CallState = Live | CancelAsked | Over(end: CallEnd)
  /** One call of the executor: `run` with one job, or `batch_run`. */
  datatype Call = Call(jobs: seq<Work>, st: CallState)

  /** How an exception leaves `_process_message`, if one does. */
  datatype Escape = NoEscape | ConnEscape | ForcedEscape

  /** Where `_process_message` is suspended. */
  datatype MsgPc =
    | AckMalformed
    | ReadStatus
    | AckTerminal
    | CheckQueued
    | MarkQueued
    | AckQueued
    | WriteExecuting
    | Waiting                                   // asyncio.wait on the run task
    | CheckPolling
    | CancelHook
    | JoinCancelled
    | CheckFinished(r: ExecutionResult)
    | CheckResult(r: ExecutionResult)
    | WriteCompleted(r: ExecutionResult)
    | CheckCompleted(r: ExecutionResult)
    | SendResult(r: ExecutionResult, attempt: nat)
    | MarkCancelled
    | CheckHandler
    | WriteFailed
    | SendError(attempt: nat)
    | FinalAck(escape: Escape)

  datatype Frame = Frame(id: Id, act: nat, pc: MsgPc)

  /** The loop that called `_process_message`. */
  datatype Loop = Recovering(boot: bool, count: nat) | Dispatching | FallingBack

  /** Where the triage loop of `_process_batch` is suspended. */
  datatype TriagePc =
    | TAckMalformed | TReadStatus | TAckTerminal | TCheck | TMark | TAckMarked | TAckUnparsable

  /** Where the consume loop is suspended. */
  datatype Main =
    | Booting
    | Listing(boot: bool)
    | Fetching(rest: seq<Id>, boot: bool, count: nat)
    | Reading
    | Joining(batch: seq<Id>)
    | Processing(f: Frame, rest: seq<Id>, k: Loop)
    | Triage(id: Id, todo: seq<Id>, tpc: TriagePc, batch: seq<Id>, parsed: seq<Id>, tact: nat)
    | Marking(todo: seq<Id>, batch: seq<Id>, parsed: seq<Id>, tact: nat)
    | Running(batch: seq<Id>, parsed: seq<Id>)
    | Sleeping
    | Ended

  /** Where one delivery of a batch result is suspended. */
  datatype ChildPc =
    | CheckFirst | Write | CheckSecond | Mark | Send(attempt: nat) | Ack | Finished | Broken | Stopped
  datatype Child = Child(id: Id, act: nat, result: ExecutionResult, pc: ChildPc)

  datatype Phase = Created | Gathering | Done | Failing(conn: bool) | Aborted
  /** The background task that delivers a batch. */
  datatype Delivery = Delivery(parsed: seq<Id>, results: seq<ExecutionResult>, tasks: seq<Child>, phase: Phase)

  datatype Draining = NotDraining | WaitIdle | WaitDelivery | Drained(clean: bool) | DrainRaised

  /** What outlives the process: Redis, the cloud's view of the POSTs, and the history. */
  datatype World = World(
    redis: Redis,
    acts: nat,                  // processings begun so far
    acked: set<Id>,             // messages whose XACK landed
    posts: seq<Post>,
    log: seq<Event>)

  /** The plain fields of `RedisConsumer` and the locals of the consume loop. */
  datatype Local = Local(
    running: bool,
    idle: bool,
    current: Option<string>,
    healthy: bool,
    failures: nat,
    slept: nat)                 // seconds slept since the last successful read

  datatype State = State(
    w: World,
    canBatch: bool,
    main: Main,
    p: Local,
    delivery: Option<Delivery>,
    calls: seq<Call>,
    drain: Draining)

  /** One step of the world. `alt` resolves the two choices the code takes on
      things outside Redis: whether the 60 s pending re-check is due, and
      whether `batch_run` is gone at dispatch time. */
  datatype Label =
    | Resume(io: Io, reply: Reply, alt: bool)
    | ResumeChild(i: nat, cio: Io, creply: Reply)
    | Gather
    | Finish(call: nat, end: CallEnd)
    | RaiseFlag(job: string)
    | Append(fields: Fields)
    | Stop
    | DrainBegin
    | DrainResume
    | DrainTimeout
    | ForceCancel
    | Crash

  // ---------------------------------------------------------------- calls to the outside

  datatype Op =
    | GetStatus(job: string)
    | GetFlag(job: string)
    | SetStatus(act: nat, job: string, st: JobState)
    | AckMessage(id: Id)
    | PostOutcome(act: nat, id: Id, job: string, payload: Payload)
    | Nothing

  /** What the coroutine gets back. `_safe_hset` and `_safe_xack` swallow a lost call. */
  datatype Answer = Broke | Status(terminal: bool) | Flag(raised: bool) | Answered(reply: Reply) | Plain

  function Ask(r: Redis, op: Op, io: Io, reply: Reply): Answer {
    match op
    case GetStatus(job) => if io.Lost? then Broke else Status(Terminal(r, job))
    case GetFlag(job) => if io.Lost? then Broke else Flag(job in r.flags)
    case PostOutcome(_, _, _, _) => Answered(reply)
    case _ => Plain
  }

  function Do(w: World, op: Op, io: Io, reply: Reply): World {
    match op
    case SetStatus(act, job, st) =>
      w.(redis := if Lands(io) then w.redis.(status := w.redis.status[job := st]) else w.redis,
         log := w.log + [Wrote(act, job, st)])
    case AckMessage(id) =>
      if Lands(io) then
        w.(redis := w.redis.(pel := Without(w.redis.pel, id)), acked := w.acked + {id})
      else w
    case PostOutcome(act, id, job, payload) => w.(posts := w.posts + [Post(act, id, job, payload, reply)])
    case _ => w
  }

  function Noted(w: World, es: seq<Event>): World {
    w.(log := w.log + es)
  }

  // ---------------------------------------------------------------- _process_message

  function MsgOp(r: Redis, f: Frame): Op {
    var job := JobOf(r, f.id);
    match f.pc
    case AckMalformed => AckMessage(f.id)
    case ReadStatus => GetStatus(job)
    case AckTerminal => AckMessage(f.id)
    case CheckQueued => GetFlag(job)
    case MarkQueued => SetStatus(f.act, job, Cancelled)
    case AckQueued => AckMessage(f.id)
    case WriteExecuting => SetStatus(f.act, job, Executing)
    case Waiting => Nothing
    case CheckPolling => GetFlag(job)
    case CancelHook => Nothing
    case JoinCancelled => Nothing
    case CheckFinished(_) => GetFlag(job)
    case CheckResult(_) => GetFlag(job)
    case WriteCompleted(_) => SetStatus(f.act, job, Completed)
    case CheckCompleted(_) => GetFlag(job)
    case SendResult(r, _) => PostOutcome(f.act, f.id, job, Success(r))
    case MarkCancelled => SetStatus(f.act, job, Cancelled)
    case CheckHandler => GetFlag(job)
    case WriteFailed => SetStatus(f.act, job, Failed)
    case SendError(_) => PostOutcome(f.act, f.id, job, Failure)
    case FinalAck(_) => AckMessage(f.id)
  }

  /** Where the coroutine goes next, or how it leaves `_process_message`. */
  datatype Move = Go(pc: MsgPc) | Leave(escape: Escape)

  /** A flag check inside the `try`: a failed read lands in the error handler,
      a raised flag in the cancellation handler. */
  function AfterCheck(a: Answer, clear: MsgPc): Move {
    if a.Broke? then Go(CheckHandler)
    else if a == Flag(true) then Go(MarkCancelled)
    else Go(clear)
  }

  /** `call` is the executor call this processing made last, if any. */
  function MsgNext(pc: MsgPc, a: Answer, parsable: bool, call: Option<CallState>): Move {
    match pc
    case AckMalformed => Leave(NoEscape)
    case ReadStatus =>
      if a.Broke? then Leave(ConnEscape) else if a == Status(true) then Go(AckTerminal) else Go(CheckQueued)
    case AckTerminal => Leave(NoEscape)
    case CheckQueued =>
      if a.Broke? then Leave(ConnEscape) else if a == Flag(true) then Go(MarkQueued) else Go(WriteExecuting)
    case MarkQueued => Go(AckQueued)
    case AckQueued => Leave(NoEscape)
    case WriteExecuting => if parsable then Go(Waiting) else Go(CheckHandler)
    case Waiting =>
      if call.None? || !call.value.Over? then Go(CheckPolling)
      else if call.value.end.Returned? && |call.value.end.results| == 1 then
        Go(CheckFinished(call.value.end.results[0]))
      else Go(CheckHandler)
    case CheckPolling =>
      if a.Broke? then Go(CheckHandler) else if a == Flag(true) then Go(CancelHook) else Go(Waiting)
    case CancelHook => Go(JoinCancelled)
    case JoinCancelled => if call.Some? && call.value.Over? then Go(MarkCancelled) else Go(JoinCancelled)
    case CheckFinished(r) => AfterCheck(a, CheckResult(r))
    case CheckResult(r) => AfterCheck(a, WriteCompleted(r))
    case WriteCompleted(r) => Go(CheckCompleted(r))
    case CheckCompleted(r) => AfterCheck(a, SendResult(r, 1))
    case SendResult(r, n) =>
      if !a.Answered? then Go(CheckHandler)
      else (
        match Judge(n, MAX_RETRIES, a.reply)
        case Delivered => Go(FinalAck(NoEscape))
        case GaveUp => Go(CheckHandler)
        case Again => Go(SendResult(r, n + 1)))
    case MarkCancelled => Go(FinalAck(NoEscape))
    case CheckHandler =>
      if a.Broke? then Go(FinalAck(ConnEscape)) else if a == Flag(true) then Go(MarkCancelled) else Go(WriteFailed)
    case WriteFailed => Go(SendError(1))
    case SendError(n) =>
      if a.Answered? && Judge(n, MAX_RETRIES, a.reply) == Again then Go(SendError(n + 1)) else Go(FinalAck(NoEscape))
    case FinalAck(escape) => Leave(escape)
  }

  function MsgNotes(id: Id, job: string, w: Option<Work>, pc: MsgPc, a: Answer, mv: Move): seq<Event> {
    if a == Status(true) then [SawTerminal(id)]
    else if a == Flag(true) then [SawFlag(id)]
    else if pc.CheckHandler? && a.Broke? then [HandlerBlind(id)]
    else if pc.WriteExecuting? && w.Some? then [Started([job])]
    else if pc.Waiting? && mv.Go? && mv.pc.CheckFinished? && w.Some? then [Ran([id], [w.value], [mv.pc.r])]
    else []
  }

  function MsgLocal(p: Local, job: string, pc: MsgPc, mv: Move): Local {
    if mv == Go(WriteExecuting) then p.(idle := false, current := Some(job))
    else if pc.FinalAck? then p.(current := None, idle := true)
    else p
  }

  /** `run_task.cancel()` unless it is done; the call in question is the last one. */
  function CancelLast(calls: seq<Call>): seq<Call> {
    if calls != [] && calls[|calls| - 1].st.Live? then
      calls[|calls| - 1 := calls[|calls| - 1].(st := CancelAsked)]
    else calls
  }

  function LastCall(calls: seq<Call>): Option<CallState> {
    if calls == [] then None else Some(calls[|calls| - 1].st)
  }

  function MsgCalls(calls: seq<Call>, w: Option<Work>, pc: MsgPc, a: Answer): seq<Call> {
    if pc.WriteExecuting? && w.Some? then calls + [Call([w.value], Live)]
    else if pc.CancelHook? || (pc.CheckPolling? && a.Broke?) then CancelLast(calls)
    else calls
  }

  function MsgAdvance(s: State, f: Frame, rest: seq<Id>, k: Loop, io: Io, reply: Reply): State {
    var op := MsgOp(s.w.redis, f);
    var a := Ask(s.w.redis, op, io, reply);
    var work := FieldsOf(s.w.redis, f.id).work;
    var mv := MsgNext(f.pc, a, work.Some?, LastCall(s.calls));
    var s1 := s.(
      w := Noted(Do(s.w, op, io, reply), MsgNotes(f.id, JobOf(s.w.redis, f.id), work, f.pc, a, mv)),
      p := MsgLocal(s.p, JobOf(s.w.redis, f.id), f.pc, mv),
      calls := MsgCalls(s.calls, work, f.pc, a));
    match mv
    case Go(pc) => s1.(main := Processing(f.(pc := pc), rest, k))
    case Leave(escape) => Leaving(s1, rest, k, escape)
  }

  function Leaving(s: State, rest: seq<Id>, k: Loop, escape: Escape): State {
    match escape
    case NoEscape => NextMessage(s, rest, k)
    case ConnEscape => ConnError(s, k.Recovering? && k.boot)
    case ForcedEscape => s.(main := Ended)
  }

  // ---------------------------------------------------------------- the consume loop

  function Init(r: Redis, canBatch: bool): State {
    Fresh(World(r, 0, {}, [], []), canBatch)
  }

  /** A process that starts, whether for the first time or after a crash. */
  function Fresh(w: World, canBatch: bool): State {
    State(w, canBatch, Booting, Local(true, true, None, true, 0, 0), None, [], NotDraining)
  }

  function Delay(failures: nat): nat
    requires failures > 0
  {
    if failures > 6 then BACKOFF_MAX else Pow2(failures - 1)
  }

  function LoopHead(s: State): State {
    s.(main := if s.p.running then Reading else Ended)
  }

  /** `except ConnectionError` of the consume loop. */
  function Backoff(s: State): State {
    var k := s.p.failures + 1;
    if k > BACKOFF_LIMIT then s.(main := Ended, p := s.p.(healthy := false, failures := k))
    else s.(main := Sleeping, p := s.p.(healthy := false, failures := k, slept := s.p.slept + Delay(k)))
  }

  /** A connection error escaping the startup recovery ends the loop. */
  function ConnError(s: State, boot: bool): State {
    if boot then s.(main := Ended) else Backoff(s)
  }

  function Begin(s: State, id: Id, rest: seq<Id>, k: Loop): State {
    var pc := if Malformed(s.w.redis, id) then AckMalformed else ReadStatus;
    s.(w := s.w.(acts := s.w.acts + 1), main := Processing(Frame(id, s.w.acts, pc), rest, k))
  }

  /** The next message of the loop `k`, or the end of that loop. */
  function NextMessage(s: State, rest: seq<Id>, k: Loop): State {
    if rest == [] then
      LoopHead(if k.Recovering? then s.(w := Noted(s.w, [Recovered(k.count)])) else s)
    else if k.Recovering? then s.(main := Fetching(rest, k.boot, k.count))
    else Begin(s, rest[0], rest[1..], k)
  }

  function Dispatch(s: State, batch: seq<Id>, due: bool): State {
    if batch == [] then
      if due then s.(main := Listing(false)) else LoopHead(s)
    else if s.canBatch && |batch| > 1 then
      TriageNext(s.(w := s.w.(acts := s.w.acts + 1)), batch, batch, [], s.w.acts)
    else NextMessage(s, batch, Dispatching)
  }

  function Available(r: Redis, canBatch: bool): nat {
    var limit := if canBatch then BATCH_READ_COUNT else 1;
    if |r.stream| <= r.cursor then 0 else Min(limit, |r.stream| - r.cursor)
  }

  function Interval(lo: nat, n: nat): (r: seq<Id>) {
    seq(n, i requires 0 <= i < n => lo + i)
  }

  /** XREADGROUP: the next undelivered entries become pending. */
  function ReadGroup(r: Redis, n: nat): Redis {
    r.(cursor := r.cursor + n, pel := r.pel + Interval(r.cursor, n))
  }

  function ReadAdvance(s: State, io: Io, alt: bool): State {
    var n := Available(s.w.redis, s.canBatch);
    var batch := Interval(s.w.redis.cursor, n);
    var s1 := if Lands(io) then s.(w := s.w.(redis := ReadGroup(s.w.redis, n))) else s;
    if io.Lost? then Backoff(s1)
    else
      var s2 := s1.(p := s1.p.(healthy := true, failures := 0, slept := 0));
      if s.delivery.Some? then s2.(main := Joining(batch)) else Dispatch(s2, batch, alt)
  }

  function JoinAdvance(s: State, batch: seq<Id>, alt: bool): State {
    if s.delivery.None? then Dispatch(s, batch, alt)
    else
      match s.delivery.value.phase
      case Done =>
        // whoever else waits for the same task resumes before the next await of this one
        Dispatch(s.(delivery := None, drain := if s.drain.WaitDelivery? then Drained(true) else s.drain), batch, alt)
      case Failing(conn) => if conn then Backoff(s) else s.(main := Sleeping)
      case Aborted => s.(main := Ended)
      case _ => s
  }

  function Advance(s: State, io: Io, reply: Reply, alt: bool): State {
    match s.main
    case Booting => s.(main := if io.Fine? then Listing(true) else Ended)
    case Listing(boot) =>
      if io.Lost? then ConnError(s, boot)
      else NextMessage(s, s.w.redis.pel[..Min(RECOVERY_COUNT, |s.w.redis.pel|)], Recovering(boot, 0))
    case Fetching(rest, boot, count) =>
      if rest == [] then s
      else if io.Lost? then ConnError(s, boot)
      else Begin(s, rest[0], rest[1..], Recovering(boot, count + 1))
    case Reading => ReadAdvance(s, io, alt)
    case Joining(batch) => JoinAdvance(s, batch, alt)
    case Processing(f, rest, k) => MsgAdvance(s, f, rest, k, io, reply)
    case Triage(_, _, _, _, _, _) => TriageAdvance(s, s.main, io)
    case Marking(todo, batch, parsed, tact) => MarkAdvance(s, todo, batch, parsed, tact, io, alt)
    case Running(batch, parsed) => BatchReturn(s, batch, parsed)
    case Sleeping => LoopHead(s)
    case Ended => s
  }

  // ---------------------------------------------------------------- _process_batch

  function TriageNext(s: State, todo: seq<Id>, batch: seq<Id>, parsed: seq<Id>, act: nat): State {
    if todo == [] then
      if parsed == [] then LoopHead(s)
      else s.(p := s.p.(idle := false), main := Marking(parsed, batch, parsed, act))
    else
      var bad := Malformed(s.w.redis, todo[0]);
      s.(main := Triage(todo[0], todo[1..], if bad then TAckMalformed else TReadStatus, batch, parsed, act))
  }

  function TriageOp(r: Redis, m: Main): Op
    requires m.Triage?
  {
    match m.tpc
    case TReadStatus => GetStatus(JobOf(r, m.id))
    case TCheck => GetFlag(JobOf(r, m.id))
    case TMark => SetStatus(m.tact, JobOf(r, m.id), Cancelled)
    case _ => AckMessage(m.id)
  }

  datatype TriageMove = TGo(tpc: TriagePc) | TDropped | TKept | TEscaped

  function TriageStep(tpc: TriagePc, a: Answer, parsable: bool): TriageMove {
    match tpc
    case TReadStatus => if a.Broke? then TEscaped else if a == Status(true) then TGo(TAckTerminal) else TGo(TCheck)
    case TCheck =>
      if a.Broke? then TEscaped
      else if a == Flag(true) then TGo(TMark)
      else if parsable then TKept else TGo(TAckUnparsable)
    case TMark => TGo(TAckMarked)
    case _ => TDropped
  }

  function TriageNotes(id: Id, a: Answer, mv: TriageMove): seq<Event> {
    if a == Status(true) then [SawTerminal(id)]
    else if a == Flag(true) then [SawFlag(id)]
    else if mv == TGo(TAckUnparsable) then [FoundUnparsable(id)]
    else []
  }

  function TriageAdvance(s: State, m: Main, io: Io): State
    requires m.Triage?
  {
    var op := TriageOp(s.w.redis, m);
    var a := Ask(s.w.redis, op, io, Accepted);
    var mv := TriageStep(m.tpc, a, FieldsOf(s.w.redis, m.id).work.Some?);
    var s1 := s.(w := Noted(Do(s.w, op, io, Accepted), TriageNotes(m.id, a, mv)));
    match mv
    case TGo(tpc) => s1.(main := m.(tpc := tpc))
    case TDropped => TriageNext(s1, m.todo, m.batch, m.parsed, m.tact)
    case TKept => TriageNext(s1, m.todo, m.batch, m.parsed + [m.id], m.tact)
    case TEscaped => Backoff(s1)
  }

  function WorkOf(r: Redis, id: Id): Work {
    match FieldsOf(r, id).work case Some(w) => w case None => Work("", 0)
  }

  function Works(r: Redis, ids: seq<Id>): (w: seq<Work>)
    ensures |w| == |ids|
    ensures forall i :: 0 <= i < |ids| ==> w[i] == WorkOf(r, ids[i])
  {
    seq(|ids|, i requires 0 <= i < |ids| => WorkOf(r, ids[i]))
  }

  function Jobs(r: Redis, ids: seq<Id>): (jobs: seq<string>)
    ensures |jobs| == |ids|
    ensures forall i :: 0 <= i < |ids| ==> jobs[i] == JobOf(r, ids[i])
  {
    seq(|ids|, i requires 0 <= i < |ids| => JobOf(r, ids[i]))
  }

  function MarkAdvance(
    s: State, todo: seq<Id>, batch: seq<Id>, parsed: seq<Id>, act: nat, io: Io, gone: bool): State
  {
    if todo == [] then s
    else
      var s1 := s.(w := Do(s.w, SetStatus(act, JobOf(s.w.redis, todo[0]), Executing), io, Accepted));
      if |todo| > 1 then s1.(main := Marking(todo[1..], batch, parsed, act))
      else if gone then NextMessage(s1, batch, FallingBack)
      else
        s1.(w := Noted(s1.w, [Started(Jobs(s.w.redis, parsed))]),
            calls := s.calls + [Call(Works(s.w.redis, parsed), Live)],
            main := Running(batch, parsed))
  }

  function BatchReturn(s: State, batch: seq<Id>, parsed: seq<Id>): State {
    match LastCall(s.calls)
    case None => s
    case Some(st) =>
      if !st.Over? then s
      else if st.end.Raised? then NextMessage(s, batch, FallingBack)
      else
        LoopHead(s.(w := Noted(s.w, [Ran(parsed, s.calls[|s.calls| - 1].jobs, st.end.results)]),
                    delivery := Some(Delivery(parsed, st.end.results, [], Created))))
  }

  // ---------------------------------------------------------------- batch delivery

  function Children(parsed: seq<Id>, results: seq<ExecutionResult>, act: nat): (c: seq<Child>)
    requires |parsed| == |results|
    ensures |c| == |parsed|
    ensures forall i :: 0 <= i < |c| ==> c[i] == Child(parsed[i], act + i, results[i], CheckFirst)
  {
    seq(|parsed|, i requires 0 <= i < |parsed| => Child(parsed[i], act + i, results[i], CheckFirst))
  }

  function ChildOp(r: Redis, c: Child): Op {
    match c.pc
    case CheckFirst => GetFlag(JobOf(r, c.id))
    case Write => SetStatus(c.act, JobOf(r, c.id), Completed)
    case CheckSecond => GetFlag(JobOf(r, c.id))
    case Mark => SetStatus(c.act, JobOf(r, c.id), Cancelled)
    case Send(_) => PostOutcome(c.act, c.id, JobOf(r, c.id), Success(c.result))
    case Ack => AckMessage(c.id)
    case _ => Nothing
  }

  function ChildNext(pc: ChildPc, a: Answer): ChildPc {
    match pc
    case CheckFirst => if a.Broke? then Broken else if a == Flag(true) then Mark else Write
    case Write => CheckSecond
    case CheckSecond => if a.Broke? then Broken else if a == Flag(true) then Mark else Send(1)
    case Mark => Ack
    case Send(n) => if a.Answered? && Judge(n, MAX_RETRIES, a.reply) == Again then Send(n + 1) else Ack
    case Ack => Finished
    case _ => pc
  }

  function ChildNotes(id: Id, a: Answer): seq<Event> {
    if a == Flag(true) then [SawFlag(id)] else []
  }

  /** Other deliveries go on after one of them raised; none goes on once aborted. */
  function ChildAdvance(s: State, i: nat, io: Io, reply: Reply): State {
    if s.delivery.None? || i >= |s.delivery.value.tasks| then s
    else
      var d := s.delivery.value;
      var c := d.tasks[i];
      var op := ChildOp(s.w.redis, c);
      var a := Ask(s.w.redis, op, io, reply);
      s.(w := Noted(Do(s.w, op, io, reply), ChildNotes(c.id, a)),
         delivery := Some(d.(tasks := d.tasks[i := c.(pc := ChildNext(c.pc, a))])))
  }

  predicate AnyBroken(tasks: seq<Child>) {
    exists i :: 0 <= i < |tasks| && tasks[i].pc == Broken
  }

  predicate AllFinished(tasks: seq<Child>) {
    forall i :: 0 <= i < |tasks| ==> tasks[i].pc == Finished
  }

  /** The delivery task raises: its `finally` reports idle, its children go on. */
  function DeliveryFails(s: State, d: Delivery, conn: bool): State {
    s.(w := Noted(s.w, [DeliveryRaised]), delivery := Some(d.(phase := Failing(conn))), p := s.p.(idle := true))
  }

  /** The delivery task itself: pairing results with jobs, then `gather`. */
  function GatherAdvance(s: State): State {
    if s.delivery.None? then s
    else
      var d := s.delivery.value;
      match d.phase
      case Created =>
        if |d.parsed| != |d.results| then DeliveryFails(s, d, false)
        else
          s.(delivery := Some(d.(phase := Gathering, tasks := Children(d.parsed, d.results, s.w.acts))),
             w := s.w.(acts := s.w.acts + |d.parsed|))
      case Gathering =>
        if AnyBroken(d.tasks) then DeliveryFails(s, d, true)
        else if AllFinished(d.tasks) then s.(delivery := Some(d.(phase := Done)), p := s.p.(idle := true))
        else s
      case _ => s
  }

  function StopAll(tasks: seq<Child>): (r: seq<Child>)
    ensures |r| == |tasks|
    ensures forall i :: 0 <= i < |r| ==> r[i] == tasks[i].(pc := Stopped)
  {
    seq(|tasks|, i requires 0 <= i < |tasks| => tasks[i].(pc := Stopped))
  }

  /** Cancelling the delivery task. Before its first step its `finally` never runs. */
  function Abort(s: State): State {
    if s.delivery.None? then s
    else
      var d := s.delivery.value;
      match d.phase
      case Created => s.(delivery := Some(d.(phase := Aborted)))
      case Gathering =>
        s.(delivery := Some(d.(phase := Aborted, tasks := StopAll(d.tasks))), p := s.p.(idle := true))
      case _ => s
  }

  // ---------------------------------------------------------------- drain, cancellation

  predicate Outstanding(s: State) {
    s.delivery.Some? && (s.delivery.value.phase.Created? || s.delivery.value.phase.Gathering?)
  }

  function DrainAdvance(s: State): State {
    match s.drain
    case WaitIdle =>
      if !s.p.idle then s
      else s.(drain := if s.delivery.None? then Drained(true) else WaitDelivery)
    case WaitDelivery =>
      if s.delivery.None? then s.(drain := Drained(true))
      else (
        match s.delivery.value.phase
        case Done => s.(delivery := None, drain := Drained(true))
        case Failing(_) => s.(drain := DrainRaised)
        case Aborted => s.(drain := DrainRaised)
        case _ => s)
    case _ => s
  }

  /** `wait_for` cancels the delivery it waits for, and with it whoever awaits it. */
  function DrainGiveUp(s: State): State {
    match s.drain
    case WaitIdle => s.(drain := Drained(false))
    case WaitDelivery =>
      Abort(s).(drain := Drained(false), main := if Outstanding(s) && s.main.Joining? then Ended else s.main)
    case _ => s
  }

  /** Before the `try` nothing catches a cancellation; inside it `finally` runs. */
  predicate BeforeTry(pc: MsgPc) {
    pc.AckMalformed? || pc.ReadStatus? || pc.AckTerminal? || pc.CheckQueued? || pc.MarkQueued?
    || pc.AckQueued? || pc.WriteExecuting?
  }

  /** Cancellation of the consumer task. */
  function Force(s: State): State {
    var s1 := s.(w := Noted(s.w, [Forced]));
    match s.main
    case Processing(f, rest, k) =>
      if BeforeTry(f.pc) || f.pc.FinalAck? then s1.(main := Ended)
      else if f.pc.JoinCancelled? then s1    // the inner `except CancelledError` swallows it
      else
        s1.(w := Noted(s1.w, [ForcedOut(f.id)]), calls := CancelLast(s.calls),
            main := Processing(f.(pc := FinalAck(ForcedEscape)), rest, k))
    case Running(_, _) => s1.(calls := CancelLast(s.calls), main := Ended)
    case Joining(_) => Abort(s1).(main := Ended)
    case _ => s1.(main := Ended)
  }

  // ---------------------------------------------------------------- runs

  function Step(s: State, l: Label): State {
    match l
    case Resume(io, reply, alt) => Advance(s, io, reply, alt)
    case ResumeChild(i, io, reply) => ChildAdvance(s, i, io, reply)
    case Gather => GatherAdvance(s)
    case Finish(i, end) =>
      if i < |s.calls| && !s.calls[i].st.Over? then s.(calls := s.calls[i := s.calls[i].(st := Over(end))]) else s
    case RaiseFlag(job) => s.(w := s.w.(redis := s.w.redis.(flags := s.w.redis.flags + {job})))
    case Append(f) => s.(w := s.w.(redis := s.w.redis.(stream := s.w.redis.stream + [f])))
    case Stop => s.(p := s.p.(running := false))
    case DrainBegin => if s.drain.NotDraining? then s.(p := s.p.(running := false), drain := WaitIdle) else s
    case DrainResume => DrainAdvance(s)
    case DrainTimeout => DrainGiveUp(s)
    case ForceCancel => Force(s)
    case Crash => Fresh(s.w, s.canBatch)
  }

  function Run(s: State, ls: seq<Label>): State
    decreases |ls|
  {
    if ls == [] then s else Run(Step(s, ls[0]), ls[1..])
  }
}
