/** What may still happen after `drain` has answered.

`drain` waits for the work it finds, not for the loop to end. Whether the loop
starts the executor once more depends on where it is suspended and on the
messages it still holds; `MayStart` says on which, and
`AfterDrainStarts.StartsAfterDrainExactly` that it says so exactly.
*/
module AfterDrain {
  import opened Prelude
  import opened Webhook
  import opened Consumer
  import opened Effects
  import opened Ledger
  import opened Flight
  import opened Poisoned

  // ---------------------------------------------------------------- the condition

  /** Neither its flag nor its text keeps the message from being executed. */
  predicate Wanted(r: Redis, id: Id) {
    JobOf(r, id) !in r.flags && FieldsOf(r, id).work.Some?
  }

  /** Looked at now, the message is executed. */
  predicate Runnable(r: Redis, id: Id) {
    !Malformed(r, id) && !Terminal(r, JobOf(r, id)) && Wanted(r, id)
  }

  predicate AnyRunnable(r: Redis, ids: seq<Id>) {
    exists i :: 0 <= i < |ids| && Runnable(r, ids[i])
  }

  /** From here the processing may still write a status that is not terminal. */
  predicate Reopens(pc: MsgPc) {
    || pc.CheckQueued? || pc.WriteExecuting? || pc.Waiting? || pc.CheckPolling? || pc.CheckFinished?
    || pc.CheckResult? || pc.WriteCompleted? || pc.CheckCompleted? || pc.SendResult? || pc.CheckHandler?
    || pc.WriteFailed?
  }

  /** The message being processed may itself be executed. */
  predicate HeadStarts(r: Redis, f: Frame) {
    match f.pc
    case ReadStatus => !Terminal(r, JobOf(r, f.id)) && Wanted(r, f.id)
    case CheckQueued => Wanted(r, f.id)
    case WriteExecuting => FieldsOf(r, f.id).work.Some?
    case _ => false
  }

  /** A message behind it may be: its job is open, or the message being processed may reopen it. */
  predicate Waits(r: Redis, f: Frame, id: Id) {
    && !Malformed(r, id)
    && Wanted(r, id)
    && (!Terminal(r, JobOf(r, id)) || (Reopens(f.pc) && JobOf(r, id) == JobOf(r, f.id)))
  }

  predicate AnyWaits(r: Redis, f: Frame, rest: seq<Id>) {
    exists i :: 0 <= i < |rest| && Waits(r, f, rest[i])
  }

  predicate Escaping(pc: MsgPc) {
    pc.FinalAck? && !pc.escape.NoEscape?
  }

  /** The message triage looks at may be kept. */
  predicate HeadKept(r: Redis, id: Id, tpc: TriagePc) {
    (tpc.TReadStatus? && !Terminal(r, JobOf(r, id)) && Wanted(r, id)) || (tpc.TCheck? && Wanted(r, id))
  }

  function Limit(canBatch: bool): nat {
    if canBatch then BATCH_READ_COUNT else 1
  }

  /** What one recovery pass lists. */
  function Window(r: Redis): seq<Id> {
    r.pel[..Min(RECOVERY_COUNT, |r.pel|)]
  }

  /** Where a stopped loop without a delivery may still start the executor. A read
      that does not fill its limit with known messages may bring a new one. */
  predicate MayStart(s: State) {
    var r := s.w.redis;
    match s.main
    case Booting => AnyRunnable(r, Window(r))
    case Listing(_) => AnyRunnable(r, Window(r))
    case Fetching(rest, _, _) => AnyRunnable(r, rest)
    case Reading =>
      || |r.stream| < r.cursor + Limit(s.canBatch)
      || AnyRunnable(r, Interval(r.cursor, Limit(s.canBatch)))
    case Joining(batch) => AnyRunnable(r, if batch == [] then Window(r) else batch)
    case Processing(f, rest, _) => !Escaping(f.pc) && (HeadStarts(r, f) || AnyWaits(r, f, rest))
    case Triage(id, todo, tpc, _, parsed, _) => parsed != [] || HeadKept(r, id, tpc) || AnyRunnable(r, todo)
    case Marking(todo, _, _, _) => todo != []
    case Running(batch, _) =>
      && s.calls != []
      && (s.calls[|s.calls| - 1].st.Over? ==> s.calls[|s.calls| - 1].st.end.Raised?)
      && AnyRunnable(r, batch)
    case Sleeping => false
    case Ended => false
  }

  /** The loop has been told to stop and no delivery is left to wait for. */
  predicate Unbusied(s: State) {
    !s.p.running && (s.delivery.None? || s.main.Ended?)
  }

  // ---------------------------------------------------------------- entering a loop

  lemma FirstOrRest(r: Redis, ids: seq<Id>)
    requires ids != []
    ensures AnyRunnable(r, ids) <==> Runnable(r, ids[0]) || AnyRunnable(r, ids[1..])
  {
    assert forall i :: 0 <= i < |ids| - 1 ==> ids[1..][i] == ids[i + 1];
    if i :| 0 <= i < |ids| && Runnable(r, ids[i]) {
      if i > 0 { assert Runnable(r, ids[1..][i - 1]); }
    }
    hide Runnable;
  }

  lemma SameRunnable(r: Redis, r': Redis, ids: seq<Id>)
    requires r'.stream == r.stream && r'.flags == r.flags && r'.status == r.status
    ensures AnyRunnable(r', ids) <==> AnyRunnable(r, ids)
  {
  }

  lemma BeginMayStart(s: State, rest: seq<Id>, k: Loop)
    requires rest != []
    ensures MayStart(Begin(s, rest[0], rest[1..], k)) <==> AnyRunnable(s.w.redis, rest)
  {
    var m := Begin(s, rest[0], rest[1..], k).main;
    FirstOrRest(s.w.redis, rest);
    assert AnyWaits(s.w.redis, m.f, rest[1..]) <==> AnyRunnable(s.w.redis, rest[1..]) by {
      assert !Reopens(m.f.pc);
      assert forall id :: Waits(s.w.redis, m.f, id) <==> Runnable(s.w.redis, id);
      hide Waits, Runnable;
    }
    hide AnyRunnable, AnyWaits, Terminal, FieldsOf, JobOf;
  }

  lemma NextMayStart(s: State, rest: seq<Id>, k: Loop)
    requires !s.p.running
    ensures MayStart(NextMessage(s, rest, k)) <==> AnyRunnable(s.w.redis, rest)
  {
    if rest != [] { BeginMayStart(s, rest, k); }
    hide Begin;
  }

  lemma TriageNextMayStart(s: State, todo: seq<Id>, batch: seq<Id>, parsed: seq<Id>, act: nat)
    requires !s.p.running
    ensures MayStart(TriageNext(s, todo, batch, parsed, act)) <==> parsed != [] || AnyRunnable(s.w.redis, todo)
  {
    if todo != [] { FirstOrRest(s.w.redis, todo); }
    hide AnyRunnable, Terminal, FieldsOf, JobOf;
  }

  lemma DispatchMayStart(s: State, batch: seq<Id>, due: bool)
    requires !s.p.running
    ensures MayStart(Dispatch(s, batch, due))
        <==> if batch == [] then due && AnyRunnable(s.w.redis, Window(s.w.redis)) else AnyRunnable(s.w.redis, batch)
  {
    NextMayStart(s, batch, Dispatching);
    TriageNextMayStart(s.(w := s.w.(acts := s.w.acts + 1)), batch, batch, [], s.w.acts);
    hide NextMessage, TriageNext, AnyRunnable, Window;
  }

  // ---------------------------------------------------------------- the loop stays stopped

  lemma MessageRunning(s: State, io: Io, reply: Reply)
    requires s.main.Processing?
    ensures MsgAdvance(s, s.main.f, s.main.rest, s.main.k, io, reply).p.running == s.p.running
  {
    var f, rest, k := s.main.f, s.main.rest, s.main.k;
    var op := MsgOp(s.w.redis, f);
    var a := Ask(s.w.redis, op, io, reply);
    var work := FieldsOf(s.w.redis, f.id).work;
    var mv := MsgNext(f.pc, a, work.Some?, LastCall(s.calls));
    var s1 := s.(
      w := Noted(Do(s.w, op, io, reply), MsgNotes(f.id, JobOf(s.w.redis, f.id), work, f.pc, a, mv)),
      p := MsgLocal(s.p, JobOf(s.w.redis, f.id), f.pc, mv),
      calls := MsgCalls(s.calls, work, f.pc, a));
    assert s1.p.running == s.p.running by { hide MsgNext, JobOf, Ask, MsgOp, Do, FieldsOf; }
    NextLanded(s1, rest, k);
    hide MsgNext, MsgNotes, MsgLocal, MsgCalls, MsgOp, Ask, Do, FieldsOf, JobOf, NextMessage, Delay, LastCall;
  }

  lemma TriageRunning(s: State, io: Io)
    requires s.main.Triage?
    ensures TriageAdvance(s, s.main, io).p.running == s.p.running
  {
    hide TriageOp, TriageStep, TriageNotes, Ask, Do, FieldsOf, Delay, Malformed;
  }

  lemma ReadRunning(s: State, io: Io, alt: bool)
    requires s.main.Reading?
    ensures ReadAdvance(s, io, alt).p.running == s.p.running
  {
    var n := Available(s.w.redis, s.canBatch);
    var s1 := s.(w := s.w.(redis := ReadGroup(s.w.redis, n)));
    DispatchLanded(s1.(p := s1.p.(healthy := true, failures := 0, slept := 0)), Interval(s.w.redis.cursor, n), alt);
    hide Dispatch, Available, Interval, Delay, ReadGroup;
  }

  lemma JoinRunning(s: State, batch: seq<Id>, alt: bool)
    requires s.main == Joining(batch)
    ensures JoinAdvance(s, batch, alt).p.running == s.p.running
  {
    DispatchLanded(s, batch, alt);
    DispatchLanded(
      s.(delivery := None, drain := if s.drain.WaitDelivery? then Drained(true) else s.drain), batch, alt);
    hide Dispatch, Delay;
  }

  lemma ResumeRunning(s: State, io: Io, reply: Reply, alt: bool)
    ensures Advance(s, io, reply, alt).p.running == s.p.running
  {
    match s.main
    case Processing(_, _, _) => MessageRunning(s, io, reply); hide MsgAdvance;
    case Triage(_, _, _, _, _, _) => TriageRunning(s, io); hide TriageAdvance;
    case Reading => ReadRunning(s, io, alt); hide ReadAdvance;
    case Joining(batch) => JoinRunning(s, batch, alt); hide JoinAdvance;
    case Running(batch, _) => NextLanded(s, batch, FallingBack); hide NextMessage;
    case _ => hide Malformed, Delay, Works, Do;
  }

  /** A stopped loop stores a delivery only as it ends. */
  lemma ResumeUnbusied(s: State, io: Io, reply: Reply, alt: bool)
    requires Unbusied(s)
    ensures Unbusied(Advance(s, io, reply, alt))
  {
    ResumeRunning(s, io, reply, alt);
    match s.main
    case Processing(f, rest, k) => MessageControl(s, f, rest, k, io, reply); hide MsgAdvance;
    case Triage(_, _, _, _, _, _) => TriageControl(s, io); hide TriageAdvance;
    case Marking(_, _, _, _) => MarkControl(s, io, alt); hide MarkAdvance;
    case Reading => ReadControl(s, io, alt); hide ReadAdvance;
    case Joining(batch) => JoinControl(s, batch, alt); hide JoinAdvance;
    case Running(batch, _) => NextLanded(s, batch, FallingBack); hide NextMessage;
    case _ => hide Malformed, Delay;
  }

  lemma UnbusiedStep(s: State, l: Label)
    requires Unbusied(s) && !l.Crash?
    ensures Unbusied(Step(s, l))
  {
    match l
    case Resume(io, reply, alt) => ResumeUnbusied(s, io, reply, alt); hide Advance;
    case ResumeChild(_, _, _) => hide Advance, ChildOp, ChildNext, Ask, Do;
    case Gather => hide Advance, Children, AnyBroken, AllFinished;
    case _ => hide Advance, StopAll, CancelLast;
  }

  // ---------------------------------------------------------------- no start without the condition

  /** The effect of one step of a processing on the messages behind it. */
  lemma WaitsShrinks(w: World, f: Frame, io: Io, reply: Reply, call: Option<CallState>, id: Id)
    requires var a := Ask(w.redis, MsgOp(w.redis, f), io, reply);
             var mv := MsgNext(f.pc, a, FieldsOf(w.redis, f.id).work.Some?, call);
             mv.Go? || mv.escape.NoEscape?
    ensures var r := w.redis;
            var r' := Do(w, MsgOp(r, f), io, reply).redis;
            var mv := MsgNext(f.pc, Ask(r, MsgOp(r, f), io, reply), FieldsOf(r, f.id).work.Some?, call);
            if mv.Go? then Waits(r', f.(pc := mv.pc), id) ==> Waits(r, f, id)
            else Runnable(r', id) ==> Waits(r, f, id)
  {
    assert Do(w, MsgOp(w.redis, f), io, reply).redis.stream == w.redis.stream;
    hide Without, FieldsOf;
  }

  lemma HeadShrinks(w: World, f: Frame, io: Io, reply: Reply, call: Option<CallState>)
    ensures var r := w.redis;
            var r' := Do(w, MsgOp(r, f), io, reply).redis;
            var mv := MsgNext(f.pc, Ask(r, MsgOp(r, f), io, reply), FieldsOf(r, f.id).work.Some?, call);
            mv.Go? && HeadStarts(r', f.(pc := mv.pc)) ==> HeadStarts(r, f)
  {
    assert Do(w, MsgOp(w.redis, f), io, reply).redis.stream == w.redis.stream;
    hide Without, FieldsOf;
  }

  lemma BehindShrinks(w: World, f: Frame, rest: seq<Id>, io: Io, reply: Reply, call: Option<CallState>)
    requires !HeadStarts(w.redis, f) && !AnyWaits(w.redis, f, rest)
    ensures var r := w.redis;
            var r' := Do(w, MsgOp(r, f), io, reply).redis;
            var mv := MsgNext(f.pc, Ask(r, MsgOp(r, f), io, reply), FieldsOf(r, f.id).work.Some?, call);
            match mv
            case Go(pc) => !HeadStarts(r', f.(pc := pc)) && !AnyWaits(r', f.(pc := pc), rest)
            case Leave(escape) => escape.NoEscape? ==> !AnyRunnable(r', rest)
  {
    var r := w.redis;
    var r' := Do(w, MsgOp(r, f), io, reply).redis;
    var mv := MsgNext(f.pc, Ask(r, MsgOp(r, f), io, reply), FieldsOf(r, f.id).work.Some?, call);
    HeadShrinks(w, f, io, reply, call);
    if mv.Go? || mv.escape.NoEscape? {
      forall i | 0 <= i < |rest|
        ensures if mv.Go? then !Waits(r', f.(pc := mv.pc), rest[i]) else !Runnable(r', rest[i])
      {
        WaitsShrinks(w, f, io, reply, call, rest[i]);
      }
    }
    hide MsgNext, MsgOp, Ask, Do, FieldsOf, JobOf, Waits, Runnable, HeadStarts;
  }

  lemma EscapesFor(pc: MsgPc, a: Answer, parsable: bool, call: Option<CallState>)
    requires Escaping(pc)
    ensures MsgNext(pc, a, parsable, call).Leave? && !MsgNext(pc, a, parsable, call).escape.NoEscape?
  {
  }

  lemma MessageShut(s: State, io: Io, reply: Reply)
    requires s.main.Processing? && !s.p.running && !MayStart(s)
    ensures !MayStart(MsgAdvance(s, s.main.f, s.main.rest, s.main.k, io, reply))
  {
    var f, rest, k := s.main.f, s.main.rest, s.main.k;
    var op := MsgOp(s.w.redis, f);
    var a := Ask(s.w.redis, op, io, reply);
    var work := FieldsOf(s.w.redis, f.id).work;
    var call := LastCall(s.calls);
    var mv := MsgNext(f.pc, a, work.Some?, call);
    var s1 := s.(
      w := Noted(Do(s.w, op, io, reply), MsgNotes(f.id, JobOf(s.w.redis, f.id), work, f.pc, a, mv)),
      p := MsgLocal(s.p, JobOf(s.w.redis, f.id), f.pc, mv),
      calls := MsgCalls(s.calls, work, f.pc, a));
    LocalRunning(s.p, JobOf(s.w.redis, f.id), f.pc, mv);
    if Escaping(f.pc) {
      EscapesFor(f.pc, a, work.Some?, call);
    } else {
      assert !HeadStarts(s.w.redis, f) && !AnyWaits(s.w.redis, f, rest);
      BehindShrinks(s.w, f, rest, io, reply, call);
    }
    if mv.Leave? {
      LeavingShut(s1, rest, k, mv.escape);
      hide MayStart;
    }
    hide MsgNext, MsgNotes, MsgLocal, MsgCalls, MsgOp, Ask, Do, FieldsOf, JobOf, Leaving, AnyWaits, AnyRunnable,
      HeadStarts, LastCall, Escaping;
  }

  lemma LeavingShut(s: State, rest: seq<Id>, k: Loop, escape: Escape)
    requires !s.p.running && (escape.NoEscape? ==> !AnyRunnable(s.w.redis, rest))
    ensures !MayStart(Leaving(s, rest, k, escape))
  {
    NextMayStart(s, rest, k);
    hide NextMessage, AnyRunnable, Delay;
  }

  lemma LocalRunning(p: Local, job: string, pc: MsgPc, mv: Move)
    ensures MsgLocal(p, job, pc, mv).running == p.running
  {
  }

  lemma TriageShut(s: State, io: Io)
    requires s.main.Triage? && !s.p.running && !MayStart(s)
    ensures !MayStart(TriageAdvance(s, s.main, io))
  {
    var m := s.main;
    var op := TriageOp(s.w.redis, m);
    var a := Ask(s.w.redis, op, io, Accepted);
    var mv := TriageMoveOf(s, io);
    var s1 := s.(w := Noted(Do(s.w, op, io, Accepted), TriageNotes(m.id, a, mv)));
    TriageMoves(s, io);
    TriageNextMayStart(s1, m.todo, m.batch, m.parsed, m.tact);
    hide TriageOp, TriageStep, TriageNotes, Ask, Do, FieldsOf, JobOf, Delay, TriageNext, AnyRunnable, HeadKept;
  }

  /** Triage writes only `cancelled`, so it makes nothing runnable. */
  lemma TriageMoves(s: State, io: Io)
    requires s.main.Triage?
    ensures var r := s.w.redis;
            var r' := Do(s.w, TriageOp(r, s.main), io, Accepted).redis;
            var mv := TriageMoveOf(s, io);
            && (mv.TKept? ==> HeadKept(r, s.main.id, s.main.tpc))
            && (mv.TGo? && HeadKept(r', s.main.id, mv.tpc) ==> HeadKept(r, s.main.id, s.main.tpc))
            && forall ids :: AnyRunnable(r', ids) ==> AnyRunnable(r, ids)
  {
    var r := s.w.redis;
    var r' := Do(s.w, TriageOp(r, s.main), io, Accepted).redis;
    assert r'.stream == r.stream;
    forall ids | AnyRunnable(r', ids) ensures AnyRunnable(r, ids) {
      var i :| 0 <= i < |ids| && Runnable(r', ids[i]);
      assert Runnable(r, ids[i]);
      hide Runnable;
    }
    hide Without, AnyRunnable, FieldsOf;
  }

  lemma ReadShut(s: State, io: Io, alt: bool)
    requires s.main.Reading? && s.delivery.None? && !s.p.running && !MayStart(s)
    ensures !MayStart(ReadAdvance(s, io, alt))
  {
    var r := s.w.redis;
    var n := Available(r, s.canBatch);
    var s1 := s.(w := s.w.(redis := ReadGroup(r, n)));
    var s2 := s1.(p := s1.p.(healthy := true, failures := 0, slept := 0));
    assert n == Limit(s.canBatch) > 0;
    SameRunnable(r, s2.w.redis, Interval(r.cursor, n));
    DispatchMayStart(s2, Interval(r.cursor, n), alt);
    assert |Interval(r.cursor, n)| == n;
    hide Dispatch, Available, Interval, Delay, AnyRunnable, Window;
  }

  lemma ResumeShut(s: State, io: Io, reply: Reply, alt: bool)
    requires Unbusied(s) && !MayStart(s)
    ensures !MayStart(Advance(s, io, reply, alt))
  {
    match s.main
    case Processing(_, _, _) => MessageShut(s, io, reply); hide MsgAdvance, MayStart;
    case Triage(_, _, _, _, _, _) => TriageShut(s, io); hide TriageAdvance, MayStart;
    case Reading => ReadShut(s, io, alt); hide ReadAdvance, MayStart;
    case Fetching(_, _, _) => FetchShut(s, io, reply, alt); hide Advance, MayStart;
    case _ => RestShut(s, io, reply, alt); hide Advance, MayStart;
  }

  lemma RestShut(s: State, io: Io, reply: Reply, alt: bool)
    requires !(s.main.Processing? || s.main.Triage? || s.main.Reading? || s.main.Fetching?)
    requires Unbusied(s) && !MayStart(s)
    ensures !MayStart(Advance(s, io, reply, alt))
  {
    match s.main
    case Joining(batch) => DispatchMayStart(s, batch, alt); hide Dispatch, AnyRunnable, Window, Delay;
    case Running(batch, _) => NextMayStart(s, batch, FallingBack); hide NextMessage, AnyRunnable;
    case Listing(boot) =>
      NextMayStart(s, Window(s.w.redis), Recovering(boot, 0));
      hide NextMessage, AnyRunnable, Delay;
    case _ => hide AnyRunnable, Window;
  }

  lemma FetchShut(s: State, io: Io, reply: Reply, alt: bool)
    requires s.main.Fetching? && Unbusied(s) && !MayStart(s)
    ensures !MayStart(Advance(s, io, reply, alt))
  {
    if s.main.rest != [] {
      BeginMayStart(s, s.main.rest, Recovering(s.main.boot, s.main.count + 1));
    }
    hide Begin, AnyRunnable, Delay;
  }

  /** Nothing becomes runnable by appending messages or raising flags. */
  lemma OtherRunnable(r: Redis, r': Redis, f: Frame, id: Id)
    requires r.stream <= r'.stream && r.flags <= r'.flags && r'.status == r.status
    requires id < |r.stream| && f.id < |r.stream|
    ensures Runnable(r', id) ==> Runnable(r, id)
    ensures Wanted(r', id) ==> Wanted(r, id)
    ensures Waits(r', f, id) ==> Waits(r, f, id)
    ensures HeadStarts(r', f) ==> HeadStarts(r, f)
    ensures JobOf(r', id) == JobOf(r, id)
  {
  }

  lemma OtherAnyRunnable(r: Redis, r': Redis, ids: seq<Id>)
    requires r.stream <= r'.stream && r.flags <= r'.flags && r'.status == r.status && Below(ids, |r.stream|)
    ensures AnyRunnable(r', ids) ==> AnyRunnable(r, ids)
  {
    forall i | 0 <= i < |ids| ensures Runnable(r', ids[i]) ==> Runnable(r, ids[i]) {
      OtherRunnable(r, r', Frame(ids[i], 0, ReadStatus), ids[i]);
    }
    hide Runnable;
  }

  lemma OtherAnyWaits(r: Redis, r': Redis, f: Frame, rest: seq<Id>)
    requires r.stream <= r'.stream && r.flags <= r'.flags && r'.status == r.status
    requires Below(rest, |r.stream|) && f.id < |r.stream|
    ensures AnyWaits(r', f, rest) ==> AnyWaits(r, f, rest)
  {
    forall i | 0 <= i < |rest| ensures Waits(r', f, rest[i]) ==> Waits(r, f, rest[i]) {
      OtherRunnable(r, r', f, rest[i]);
    }
    hide Waits;
  }

  /** The environment appends, raises flags or lets the executor finish. */
  lemma SurroundingsShut(s: State, s': State)
    requires Balanced(s) && !MayStart(s)
    requires s'.main == s.main && s'.canBatch == s.canBatch
    requires var r, r' := s.w.redis, s'.w.redis;
             && r.stream <= r'.stream && r.flags <= r'.flags && r'.status == r.status
             && r'.pel == r.pel && r'.cursor == r.cursor
    requires |s'.calls| == |s.calls|
    requires s.calls != [] && s.calls[|s.calls| - 1].st.Over? ==>
               s'.calls[|s.calls| - 1] == s.calls[|s.calls| - 1]
    ensures !MayStart(s')
  {
    var r, r' := s.w.redis, s'.w.redis;
    assert Below(Window(r), |r.stream|);
    OtherAnyRunnable(r, r', Window(r));
    match s.main
    case Fetching(rest, _, _) => OtherAnyRunnable(r, r', rest); hide AnyRunnable, Window;
    case Reading => OtherAnyRunnable(r, r', Interval(r.cursor, Limit(s.canBatch))); hide AnyRunnable, Window;
    case Joining(batch) => OtherAnyRunnable(r, r', batch); hide AnyRunnable, Window;
    case Processing(f, rest, _) =>
      OtherAnyWaits(r, r', f, rest);
      OtherRunnable(r, r', f, f.id);
      hide AnyWaits, HeadStarts;
    case Triage(id, todo, tpc, _, _, _) =>
      OtherAnyRunnable(r, r', todo);
      OtherRunnable(r, r', Frame(id, 0, ReadStatus), id);
      hide AnyRunnable, Wanted, JobOf;
    case Running(batch, _) => OtherAnyRunnable(r, r', batch); hide AnyRunnable, Window;
    case _ => hide AnyRunnable, Window;
  }

  lemma OtherShut(s: State, l: Label)
    requires Unbusied(s) && Balanced(s) && !MayStart(s) && !l.Resume? && !l.Crash?
    ensures !MayStart(Step(s, l))
  {
    match l
    case ForceCancel => ForceShut(s); hide Force, MayStart;
    case ResumeChild(_, _, _) => hide Advance, ChildOp, ChildNext, Ask, Do;
    case Gather => hide Advance, Children, AnyBroken, AllFinished;
    case _ =>
      var s' := Step(s, l);
      if !s.main.Ended? {
        OtherQuiet(s, l);
        SurroundingsShut(s, s');
      }
      hide Step, MayStart, Balanced;
      EndedStays(s, l);
  }

  lemma EndedStays(s: State, l: Label)
    requires !l.Crash?
    ensures s.main.Ended? ==> Step(s, l).main.Ended? && !MayStart(Step(s, l))
  {
    MainStep(s, l);
    match l
    case Resume(_, _, _) =>
    case ResumeChild(_, _, _) => hide Advance, ChildOp, ChildNext, Ask, Do;
    case Gather => hide Advance, Children, AnyBroken, AllFinished;
    case _ => hide Advance, StopAll, CancelLast;
  }

  lemma OtherQuiet(s: State, l: Label)
    requires s.delivery.None?
    requires l.Finish? || l.RaiseFlag? || l.Append? || l.Stop? || l.DrainBegin? || l.DrainResume? || l.DrainTimeout?
    ensures var s' := Step(s, l);
            && s'.main == s.main && s'.canBatch == s.canBatch && |s'.calls| == |s.calls|
            && s.w.redis.stream <= s'.w.redis.stream && s.w.redis.flags <= s'.w.redis.flags
            && s'.w.redis.status == s.w.redis.status && s'.w.redis.pel == s.w.redis.pel
            && s'.w.redis.cursor == s.w.redis.cursor
            && forall i :: 0 <= i < |s.calls| && s.calls[i].st.Over? ==> s'.calls[i] == s.calls[i]
  {
    hide Advance;
  }

  lemma ForceShut(s: State)
    requires !MayStart(s)
    ensures !MayStart(Force(s))
  {
    hide AnyRunnable, AnyWaits, HeadStarts, CancelLast, StopAll, Window;
  }

  /** Where a step starts nothing: short of the call itself the history only gets other notes. */
  lemma NoStartWhileShut(s: State, l: Label)
    requires !MayStart(s)
    ensures s.w.log <= Step(s, l).w.log && NothingStarted(Step(s, l).w.log, |s.w.log|)
  {
    LogGrows(s, l);
    if l.Resume? && s.main.Processing? && s.main.f.pc.WriteExecuting? {
      UnparsableStartsNothing(s, l);
    } else if l.Resume? && s.main.Marking? {
    } else {
      LogStep(s, l);
      DoNotes(s.w, OpOf(s, l), IoOf(l), ReplyOf(s, l));
      assert forall jobs :: !StartsNow(s, l, jobs);
    }
    hide Step, OpOf, Do, StartsNow;
  }

  lemma UnparsableStartsNothing(s: State, l: Label)
    requires l.Resume? && s.main.Processing? && s.main.f.pc.WriteExecuting? && !HeadStarts(s.w.redis, s.main.f)
    ensures NothingStarted(Step(s, l).w.log, |s.w.log|)
  {
    hide JobOf, FieldsOf, LastCall, Malformed;
  }

  lemma ShutStep(s: State, l: Label)
    requires Unbusied(s) && Balanced(s) && !MayStart(s) && !l.Crash?
    ensures Unbusied(Step(s, l)) && Balanced(Step(s, l)) && !MayStart(Step(s, l))
    ensures s.w.log <= Step(s, l).w.log && NothingStarted(Step(s, l).w.log, |s.w.log|)
  {
    if l.Resume? { ResumeShut(s, l.io, l.reply, l.alt); hide Advance; } else { OtherShut(s, l); }
    UnbusiedStep(s, l);
    BalancedStep(s, l);
    NoStartWhileShut(s, l);
    hide Step, MayStart, Unbusied, Balanced;
  }

  lemma {:induction false} ShutRun(s: State, ls: seq<Label>)
    requires Unbusied(s) && Balanced(s) && !MayStart(s) && forall i :: 0 <= i < |ls| ==> !ls[i].Crash?
    ensures s.w.log <= Run(s, ls).w.log && NothingStarted(Run(s, ls).w.log, |s.w.log|)
    decreases |ls|
  {
    if ls != [] {
      var s1 := Step(s, ls[0]);
      ShutStep(s, ls[0]);
      hide Step, Unbusied, Balanced, MayStart;
      ShutRun(s1, ls[1..]);
      var log := Run(s1, ls[1..]).w.log;
      forall k | |s.w.log| <= k < |log| ensures !log[k].Started? {
        if k < |s1.w.log| { assert log[k] == s1.w.log[k]; }
      }
    }
  }
}
