/** A stopped loop starts the executor again wherever `AfterDrain.MayStart` says it may. */
module AfterDrainStarts {
  import opened Prelude
  import opened Webhook
  import opened Consumer
  import opened Effects
  import opened Ledger
  import opened Flight
  import opened Poisoned
  import opened AfterDrain

  // ---------------------------------------------------------------- towards a start

  /** Answers that lead a processing on without closing its job: terminal writes are
      lost, the checks of the polling loop break, the error handler gets through. */
  function HelpIo(pc: MsgPc): Io {
    match pc
    case MarkQueued => Lost(false)
    case CheckPolling => Lost(false)
    case CheckFinished(_) => Lost(false)
    case CheckResult(_) => Lost(false)
    case WriteCompleted(_) => Lost(false)
    case CheckCompleted(_) => Lost(false)
    case MarkCancelled => Lost(false)
    case _ => Fine
  }

  function HelpReply(pc: MsgPc): Reply {
    if pc.SendResult? then Refused else Accepted
  }

  /** How far a processing so answered is from its end. */
  function PcRank(pc: MsgPc): nat {
    match pc
    case ReadStatus => 7
    case CheckQueued => 6
    case WriteExecuting => 5
    case Waiting => 6
    case CheckPolling => 5
    case CancelHook => 4
    case JoinCancelled => 3
    case CheckFinished(_) => 5
    case CheckResult(_) => 5
    case WriteCompleted(_) => 6
    case CheckCompleted(_) => 5
    case SendResult(_, _) => 5
    case CheckHandler => 4
    case WriteFailed => 3
    case SendError(_) => 2
    case MarkQueued => 2
    case MarkCancelled => 2
    case _ => 1
  }

  function TriageRank(tpc: TriagePc): nat {
    match tpc
    case TReadStatus => 4
    case TCheck => 3
    case TMark => 2
    case _ => 1
  }

  function Stage(m: Main): nat {
    match m
    case Reading => 8
    case Joining(_) => 7
    case Booting => 7
    case Listing(_) => 6
    case Triage(_, _, _, _, _, _) => 5
    case Marking(_, _, _, _) => 4
    case Running(_, _) => 3
    case _ => 2
  }

  function Left(m: Main): nat {
    match m
    case Fetching(rest, _, _) => |rest|
    case Processing(_, rest, _) => |rest|
    case Triage(_, todo, _, _, _, _) => |todo|
    case Marking(todo, _, _, _) => |todo|
    case _ => 0
  }

  /** The call the loop waits for has not ended. */
  function Unended(calls: seq<Call>): nat {
    if calls != [] && !calls[|calls| - 1].st.Over? then 1 else 0
  }

  function Within(s: State): nat {
    match s.main
    case Reading =>
      var batch := Interval(s.w.redis.cursor, Available(s.w.redis, s.canBatch));
      if AnyRunnable(s.w.redis, batch) then 0 else 1
    case Processing(f, _, _) => 2 * PcRank(f.pc) + (if f.pc.JoinCancelled? then Unended(s.calls) else 0)
    case Triage(_, _, tpc, _, _, _) => TriageRank(tpc)
    case Running(_, _) => Unended(s.calls)
    case _ => 0
  }

  ghost predicate Nearer(s': State, s: State) {
    || Stage(s'.main) < Stage(s.main)
    || (Stage(s'.main) == Stage(s.main) && Left(s'.main) < Left(s.main))
    || (Stage(s'.main) == Stage(s.main) && Left(s'.main) == Left(s.main) && Within(s') < Within(s))
  }

  /** The step starts the executor or brings the loop nearer to a start. */
  ghost predicate Helps(s: State, l: Label) {
    var s' := Step(s, l);
    && !l.Crash?
    && (!NothingStarted(s'.w.log, |s.w.log|) || (MayStart(s') && Nearer(s', s)))
  }

  function HelpMove(r: Redis, f: Frame, call: Option<CallState>): Move {
    MsgNext(f.pc, Ask(r, MsgOp(r, f), HelpIo(f.pc), HelpReply(f.pc)), FieldsOf(r, f.id).work.Some?, call)
  }

  /** The processing is about to start the executor. */
  predicate Starting(r: Redis, f: Frame) {
    f.pc.WriteExecuting? && FieldsOf(r, f.id).work.Some?
  }

  lemma MoveLowers(r: Redis, f: Frame, call: Option<CallState>)
    requires f.pc.JoinCancelled? ==> call.Some? && call.value.Over?
    requires !Escaping(f.pc) && !Starting(r, f)
    ensures var mv := HelpMove(r, f, call);
            if mv.Go? then PcRank(mv.pc) < PcRank(f.pc) && !Escaping(mv.pc) else mv.escape.NoEscape?
  {
    hide FieldsOf, JobOf, Terminal;
  }

  lemma WaitsLasts(w: World, f: Frame, call: Option<CallState>, id: Id)
    requires f.pc.JoinCancelled? ==> call.Some? && call.value.Over?
    requires Waits(w.redis, f, id) && !Escaping(f.pc) && !Starting(w.redis, f)
    ensures var r := w.redis;
            var r' := Do(w, MsgOp(r, f), HelpIo(f.pc), HelpReply(f.pc)).redis;
            var mv := HelpMove(r, f, call);
            if mv.Go? then Waits(r', f.(pc := mv.pc), id) else Runnable(r', id)
  {
    assert Do(w, MsgOp(w.redis, f), HelpIo(f.pc), HelpReply(f.pc)).redis.stream == w.redis.stream;
    hide Without, FieldsOf;
  }

  lemma HeadLasts(w: World, f: Frame, call: Option<CallState>)
    requires HeadStarts(w.redis, f) && !Starting(w.redis, f)
    ensures var r := w.redis;
            var r' := Do(w, MsgOp(r, f), HelpIo(f.pc), HelpReply(f.pc)).redis;
            var mv := HelpMove(r, f, call);
            mv.Go? && HeadStarts(r', f.(pc := mv.pc))
  {
    hide FieldsOf;
  }

  lemma MessageStarts(s: State, l: Label)
    requires s.main.Processing? && Starting(s.w.redis, s.main.f) && l.Resume?
    ensures !NothingStarted(Step(s, l).w.log, |s.w.log|)
  {
    var job := JobOf(s.w.redis, s.main.f.id);
    var w1 := s.w.log + [Wrote(s.main.f.act, job, Executing)];
    assert Step(s, l).w.log == w1 + [Started([job])] by { hide JobOf, FieldsOf, LastCall; }
    assert (w1 + [Started([job])])[|w1|].Started?;
    hide Step, JobOf;
  }

  lemma MessageHelps(s: State)
    requires s.main.Processing? && !s.p.running && MayStart(s) && !Starting(s.w.redis, s.main.f)
    requires s.main.f.pc.JoinCancelled? ==> Unended(s.calls) == 0 && s.calls != []
    ensures var f := s.main.f;
            var s' := MsgAdvance(s, f, s.main.rest, s.main.k, HelpIo(f.pc), HelpReply(f.pc));
            MayStart(s') && Nearer(s', s)
  {
    var f, rest, k := s.main.f, s.main.rest, s.main.k;
    var io, reply := HelpIo(f.pc), HelpReply(f.pc);
    var op := MsgOp(s.w.redis, f);
    var a := Ask(s.w.redis, op, io, reply);
    var work := FieldsOf(s.w.redis, f.id).work;
    var call := LastCall(s.calls);
    var mv := MsgNext(f.pc, a, work.Some?, call);
    var s1 := s.(
      w := Noted(Do(s.w, op, io, reply), MsgNotes(f.id, JobOf(s.w.redis, f.id), work, f.pc, a, mv)),
      p := MsgLocal(s.p, JobOf(s.w.redis, f.id), f.pc, mv),
      calls := MsgCalls(s.calls, work, f.pc, a));
    assert !s1.p.running by { hide MsgNext, Ask, MsgOp, Do, FieldsOf, JobOf, MsgCalls, MsgNotes; }
    MoveLowers(s.w.redis, f, call);
    if HeadStarts(s.w.redis, f) {
      HeadLasts(s.w, f, call);
    } else {
      var i :| 0 <= i < |rest| && Waits(s.w.redis, f, rest[i]);
      WaitsLasts(s.w, f, call, rest[i]);
    }
    if mv.Leave? {
      NextMayStart(s1, rest, k);
      NextNearer(s1, rest, k, s);
    }
    hide MsgNext, MsgNotes, MsgLocal, MsgCalls, MsgOp, Ask, Do, FieldsOf, JobOf, NextMessage, Waits, Runnable,
      HeadStarts, HelpIo, HelpReply, PcRank, Unended, Starting;
  }

  lemma NextNearer(s: State, rest: seq<Id>, k: Loop, s0: State)
    requires s0.main.Processing? && s0.main.rest == rest && rest != []
    ensures Nearer(NextMessage(s, rest, k), s0)
  {
    assert PcRank(s0.main.f.pc) > 0;
    hide Malformed, PcRank, Available, Interval, AnyRunnable;
  }

  /** A run that waits for a call is answered with a failure. */
  lemma CallEnds(s: State)
    requires (s.main.Running? || (s.main.Processing? && s.main.f.pc.JoinCancelled?)) && MayStart(s)
    requires Unended(s.calls) == 1
    ensures Helps(s, Finish(|s.calls| - 1, Raised))
  {
    hide Advance, AnyRunnable, AnyWaits, HeadStarts;
  }

  function TriageIo(tpc: TriagePc): Io {
    if tpc.TMark? then Lost(false) else Fine
  }

  /** So answered, triage goes on, and changes nothing its messages are judged by. */
  lemma TriageGoesOn(s: State)
    requires s.main.Triage?
    ensures var r := s.w.redis;
            var m := s.main;
            var r' := Do(s.w, TriageOp(r, m), TriageIo(m.tpc), Accepted).redis;
            var mv := TriageMoveOf(s, TriageIo(m.tpc));
            && !mv.TEscaped?
            && (mv.TGo? ==> TriageRank(mv.tpc) < TriageRank(m.tpc))
            && (HeadKept(r, m.id, m.tpc) ==> mv.TKept? || (mv.TGo? && HeadKept(r', m.id, mv.tpc)))
            && r'.stream == r.stream && r'.flags == r.flags && r'.status == r.status
  {
    hide FieldsOf, Without;
  }

  lemma TriageHelps(s: State)
    requires s.main.Triage? && !s.p.running && MayStart(s)
    ensures var s' := TriageAdvance(s, s.main, TriageIo(s.main.tpc)); MayStart(s') && Nearer(s', s)
  {
    var m := s.main;
    var r := s.w.redis;
    var op := TriageOp(r, m);
    var a := Ask(r, op, TriageIo(m.tpc), Accepted);
    var mv := TriageMoveOf(s, TriageIo(m.tpc));
    var s1 := s.(w := Noted(Do(s.w, op, TriageIo(m.tpc), Accepted), TriageNotes(m.id, a, mv)));
    TriageGoesOn(s);
    SameRunnable(r, s1.w.redis, m.todo);
    TriageNextMayStart(s1, m.todo, m.batch, m.parsed, m.tact);
    TriageNextMayStart(s1, m.todo, m.batch, m.parsed + [m.id], m.tact);
    TriageNextNearer(s1, m.todo, m.batch, m.parsed, m.tact, s);
    TriageNextNearer(s1, m.todo, m.batch, m.parsed + [m.id], m.tact, s);
    hide TriageOp, TriageStep, TriageNotes, Ask, Do, FieldsOf, JobOf, Delay, TriageNext, AnyRunnable, HeadKept,
      TriageRank, TriageIo;
  }

  lemma TriageNextNearer(s: State, todo: seq<Id>, batch: seq<Id>, parsed: seq<Id>, act: nat, s0: State)
    requires s0.main.Triage? && s0.main.todo == todo && !s.p.running
    ensures Nearer(TriageNext(s, todo, batch, parsed, act), s0)
  {
    hide Malformed, TriageRank, Available, Interval, AnyRunnable;
  }

  lemma MarkHelps(s: State)
    requires s.main.Marking? && s.main.todo != []
    ensures Helps(s, Resume(Fine, Accepted, false))
  {
    var m := s.main;
    var op := SetStatus(m.tact, JobOf(s.w.redis, m.todo[0]), Executing);
    var log := Do(s.w, op, Fine, Accepted).log;
    assert log == s.w.log + [Wrote(m.tact, JobOf(s.w.redis, m.todo[0]), Executing)];
    if |m.todo| == 1 {
      var jobs := Jobs(s.w.redis, m.parsed);
      assert Step(s, Resume(Fine, Accepted, false)).w.log == log + [Started(jobs)] by { hide Jobs, Works, JobOf; }
      assert (log + [Started(jobs)])[|log|].Started?;
    }
    hide Do, Jobs, Works, JobOf, NextMessage;
  }

  lemma {:induction false} LongerThanAll(used: set<string>) returns (n: nat)
    ensures forall job :: job in used ==> |job| < n
    decreases |used|
  {
    if used == {} {
      n := 0;
    } else {
      var job :| job in used;
      var m := LongerThanAll(used - {job});
      n := if m > |job| then m else |job| + 1;
      forall j | j in used ensures |j| < n {
        if j != job { assert j in used - {job}; }
      }
    }
  }

  /** There is always a job nobody has heard of. */
  lemma NewJob(r: Redis) returns (job: string)
    ensures job !in r.flags && job !in r.status
  {
    var n := LongerThanAll(r.flags + r.status.Keys);
    job := seq(n, i => 'x');
    assert job !in r.flags + r.status.Keys;
  }

  /** The read still has room: a new message arrives first. */
  lemma AppendHelps(s: State) returns (l: Label)
    requires s.main.Reading? && Balanced(s) && Within(s) == 1
    requires |s.w.redis.stream| < s.w.redis.cursor + Limit(s.canBatch)
    ensures Helps(s, l)
  {
    var r := s.w.redis;
    var job := NewJob(r);
    var fields := Fields(Some(job), Some(""), Some(Work("", 0)));
    l := Append(fields);
    var r' := Step(s, l).w.redis;
    assert r' == r.(stream := r.stream + [fields]) && Step(s, l).main == s.main by { hide Advance; }
    var n := Available(r', s.canBatch);
    assert n == |r.stream| + 1 - r.cursor <= Limit(s.canBatch);
    var ids := Interval(r.cursor, n);
    assert ids[n - 1] == |r.stream| && FieldsOf(r', |r.stream|) == fields;
    assert Runnable(r', ids[n - 1]);
    assert AnyRunnable(r', ids) by { hide Runnable; }
    assert Step(s, l).canBatch == s.canBatch by { hide Advance; }
    NewArrival(s, Step(s, l));
    hide Step, Runnable, AnyRunnable, Interval, Available, Balanced;
  }

  /** With a runnable message to be read the loop may start, whatever the limit. */
  lemma NewArrival(s: State, s': State)
    requires s.main.Reading? && s'.main.Reading? && Within(s) == 1 && s'.canBatch == s.canBatch
    requires AnyRunnable(s'.w.redis, Interval(s'.w.redis.cursor, Available(s'.w.redis, s'.canBatch)))
    ensures MayStart(s') && Nearer(s', s)
  {
    var r := s'.w.redis;
    if |r.stream| >= r.cursor + Limit(s'.canBatch) {
      assert Available(r, s'.canBatch) == Limit(s'.canBatch);
    }
    hide AnyRunnable, Interval;
  }

  lemma ReadHelps(s: State)
    requires s.main.Reading? && s.delivery.None? && !s.p.running && Within(s) == 0
    ensures var s' := ReadAdvance(s, Fine, false); MayStart(s') && Nearer(s', s)
  {
    var r := s.w.redis;
    var n := Available(r, s.canBatch);
    var s1 := s.(w := s.w.(redis := ReadGroup(r, n)));
    var s2 := s1.(p := s1.p.(healthy := true, failures := 0, slept := 0));
    var batch := Interval(r.cursor, n);
    assert batch != [];
    SameRunnable(r, s2.w.redis, batch);
    DispatchMayStart(s2, batch, false);
    DispatchNearer(s2, batch, false, s);
    hide Dispatch, Available, Interval, Delay, AnyRunnable, Window;
  }

  lemma DispatchNearer(s: State, batch: seq<Id>, due: bool, s0: State)
    requires s0.main.Reading? || s0.main.Joining?
    requires !s.p.running
    ensures Nearer(Dispatch(s, batch, due), s0)
  {
    hide Malformed, TriageRank, Available, Interval, AnyRunnable, Left, Within;
  }

  lemma NextStage(s: State, rest: seq<Id>, k: Loop)
    requires !s.p.running
    ensures Stage(NextMessage(s, rest, k).main) == 2
  {
    hide Malformed;
  }

  const ON: Label := Resume(Fine, Accepted, true)

  lemma RecoveryHelps(s: State)
    requires !s.p.running && MayStart(s)
    requires s.main.Booting? || s.main.Listing? || s.main.Fetching?
    ensures Helps(s, ON)
  {
    match s.main
    case Listing(boot) =>
      NextMayStart(s, Window(s.w.redis), Recovering(boot, 0));
      NextStage(s, Window(s.w.redis), Recovering(boot, 0));
      hide NextMessage, AnyRunnable, Left, Within;
    case Fetching(rest, boot, count) =>
      BeginMayStart(s, rest, Recovering(boot, count + 1));
      hide AnyRunnable, Within, MayStart;
    case _ => hide AnyRunnable, Window, Left, Within;
  }

  lemma WaitingHelps(s: State)
    requires Unbusied(s) && MayStart(s)
    requires s.main.Joining? || (s.main.Running? && Unended(s.calls) == 0)
    ensures Helps(s, ON)
  {
    match s.main
    case Joining(batch) =>
      DispatchMayStart(s, batch, true);
      DispatchNearer(s, batch, true, s);
      hide Dispatch, AnyRunnable, Window, Within, Left;
    case Running(batch, _) =>
      NextMayStart(s, batch, FallingBack);
      NextStage(s, batch, FallingBack);
      hide NextMessage, AnyRunnable, Left, Within;
  }

  lemma HelpExists(s: State) returns (l: Label)
    requires Unbusied(s) && Balanced(s) && CallsFit(s.calls, s.main) && MayStart(s)
    ensures Helps(s, l)
  {
    hide Balanced, MayStart, Helps, Nearer, CallsFit;
    match s.main
    case Processing(f, rest, k) => l := MessageHelp(s);
    case Triage(_, _, tpc, _, _, _) =>
      l := Resume(TriageIo(tpc), Accepted, true);
      TriageHelps(s);
      assert Helps(s, l) by { ByStep(s, l); hide TriageAdvance; }
    case Marking(_, _, _, _) =>
      l := Resume(Fine, Accepted, false);
      assert s.main.todo != [] by { Marks(s); }
      MarkHelps(s);
    case Reading => l := ReadHelp(s);
    case Joining(_) => l := ON; WaitingHelps(s);
    case Running(_, _) =>
      if Unended(s.calls) == 1 {
        l := Finish(|s.calls| - 1, Raised);
        CallEnds(s);
      } else {
        l := ON;
        WaitingHelps(s);
      }
    case Sleeping => Marks(s); assert false;
    case Ended => Marks(s); assert false;
    case _ => l := ON; RecoveryHelps(s);
  }

  lemma Marks(s: State)
    requires MayStart(s)
    ensures !s.main.Sleeping? && !s.main.Ended? && (s.main.Marking? ==> s.main.todo != [])
  {
  }

  lemma ByStep(s: State, l: Label)
    requires !l.Crash? && MayStart(Step(s, l)) && Nearer(Step(s, l), s)
    ensures Helps(s, l)
  {
  }

  lemma MessageHelp(s: State) returns (l: Label)
    requires s.main.Processing? && Unbusied(s) && CallsFit(s.calls, s.main) && MayStart(s)
    ensures Helps(s, l)
  {
    var f := s.main.f;
    l := Resume(HelpIo(f.pc), HelpReply(f.pc), true);
    if f.pc.JoinCancelled? && Unended(s.calls) == 1 {
      l := Finish(|s.calls| - 1, Raised);
      CallEnds(s);
    } else if Starting(s.w.redis, f) {
      MessageStarts(s, l);
    } else {
      MessageHelps(s);
      assert Step(s, l) == MsgAdvance(s, f, s.main.rest, s.main.k, HelpIo(f.pc), HelpReply(f.pc)) by {
        hide MsgAdvance;
      }
      hide Step, MsgAdvance, MayStart, Nearer, HelpIo, HelpReply;
    }
  }

  lemma ReadHelp(s: State) returns (l: Label)
    requires s.main.Reading? && Unbusied(s) && Balanced(s) && MayStart(s)
    ensures Helps(s, l)
  {
    if Within(s) == 0 {
      l := Resume(Fine, Accepted, false);
      ReadHelps(s);
      assert Step(s, l) == ReadAdvance(s, Fine, false) by { hide ReadAdvance; }
      hide Step, ReadAdvance, MayStart, Nearer, Within;
    } else {
      Unfilled(s);
      l := AppendHelps(s);
    }
  }

  lemma Unfilled(s: State)
    requires s.main.Reading? && MayStart(s) && Within(s) != 0
    ensures Within(s) == 1 && |s.w.redis.stream| < s.w.redis.cursor + Limit(s.canBatch)
  {
    var r := s.w.redis;
    assert |r.stream| >= r.cursor + Limit(s.canBatch) ==> Available(r, s.canBatch) == Limit(s.canBatch);
    hide AnyRunnable, Interval;
  }

  /** A continuation without a restart that starts the executor. */
  ghost predicate Starts(s: State, more: seq<Label>) {
    (forall i :: 0 <= i < |more| ==> !more[i].Crash?) && !NothingStarted(Run(s, more).w.log, |s.w.log|)
  }

  lemma {:induction false} LogsGrow(s: State, ls: seq<Label>)
    ensures s.w.log <= Run(s, ls).w.log
    decreases |ls|
  {
    if ls != [] {
      LogGrows(s, ls[0]);
      LogsGrow(Step(s, ls[0]), ls[1..]);
    }
    hide Step;
  }

  lemma {:induction false} StartFollows(s: State) returns (more: seq<Label>)
    requires Unbusied(s) && Balanced(s) && CallsFit(s.calls, s.main) && MayStart(s)
    ensures Starts(s, more)
    decreases Stage(s.main), Left(s.main), Within(s)
  {
    var l := HelpExists(s);
    var s1 := Step(s, l);
    assert !l.Crash?;
    LogGrows(s, l);
    if NothingStarted(s1.w.log, |s.w.log|) {
      assert MayStart(s1) && Nearer(s1, s);
      UnbusiedStep(s, l);
      BalancedStep(s, l);
      CallsFitStep(s, l);
      var rest := StartFollows(s1);
      more := [l] + rest;
      assert more[0] == l && more[1..] == rest;
      assert Run(s, more) == Run(s1, rest);
    } else {
      more := [l];
      assert more[0] == l && more[1..] == [];
      assert Run(s, more) == Run(s1, []) == s1;
    }
    hide Step, Unbusied, Balanced, CallsFit, MayStart;
  }

  // ---------------------------------------------------------------- after drain has answered True

  /** `drain` stops the loop, and answers True only with no delivery left. */
  ghost predicate Answered(s: State) {
    && (!s.drain.NotDraining? ==> !s.p.running)
    && (s.drain == Drained(true) ==> Unbusied(s))
  }

  lemma AnsweredStep(s: State, l: Label)
    requires Answered(s)
    ensures Answered(Step(s, l))
  {
    match l
    case Crash =>
    case Resume(io, reply, alt) =>
      ResumeRunning(s, io, reply, alt);
      if s.drain == Drained(true) { UnbusiedStep(s, l); }
      ResumeAnswers(s, io, reply, alt);
      hide Advance;
    case ResumeChild(_, _, _) => hide Advance, ChildOp, ChildNext, Ask, Do;
    case Gather => hide Advance, Children, AnyBroken, AllFinished;
    case _ => hide Advance, StopAll, CancelLast;
  }

  lemma JoinAnswers(s: State, batch: seq<Id>, alt: bool)
    requires s.main == Joining(batch)
    ensures var s' := JoinAdvance(s, batch, alt);
            s'.drain == s.drain || (s'.drain == Drained(true) && s.drain == WaitDelivery && s'.delivery.None?)
  {
    DispatchLanded(s, batch, alt);
    DispatchLanded(
      s.(delivery := None, drain := if s.drain.WaitDelivery? then Drained(true) else s.drain), batch, alt);
    hide Dispatch, Delay;
  }

  lemma ResumeAnswers(s: State, io: Io, reply: Reply, alt: bool)
    ensures var s' := Advance(s, io, reply, alt);
            s'.drain == s.drain || (s'.drain == Drained(true) && s.drain == WaitDelivery && s'.delivery.None?)
  {
    match s.main
    case Joining(batch) => JoinAnswers(s, batch, alt); hide JoinAdvance;
    case Processing(f, rest, k) => MessageDrain(s, f, rest, k, io, reply); hide MsgAdvance;
    case Triage(_, _, _, _, _, _) => TriageAdvanceLanded(s, io); hide TriageAdvance;
    case Reading => ReadLanded(s, io, alt); hide ReadAdvance;
    case _ => hide Malformed, Delay, Works;
  }

  lemma {:induction false} AnsweredRun(s: State, ls: seq<Label>)
    requires Answered(s)
    ensures Answered(Run(s, ls))
    decreases |ls|
  {
    if ls != [] {
      AnsweredStep(s, ls[0]);
      AnsweredRun(Step(s, ls[0]), ls[1..]);
    }
    hide Step, Answered;
  }

  /** At every moment of every run from the moment `drain` has answered True: some
      continuation without a restart starts the executor if and only if `MayStart`. */
  lemma StartsAfterDrainExactly(r: Redis, canBatch: bool, ls: seq<Label>)
    requires NewGroup(r)
    ensures var s := Run(Init(r, canBatch), ls);
            s.drain == Drained(true) ==> (MayStart(s) <==> exists more :: Starts(s, more))
  {
    var s0 := Init(r, canBatch);
    var s := Run(s0, ls);
    AnsweredRun(s0, ls);
    BalancedRun(s0, ls);
    FlightRun(s0, ls);
    hide Run, Step, MayStart, Unbusied, Balanced, CallsFit, IdleFits;
    if s.drain == Drained(true) {
      if MayStart(s) {
        var more := StartFollows(s);
      } else {
        forall more: seq<Label> ensures !Starts(s, more) {
          if forall i :: 0 <= i < |more| ==> !more[i].Crash? { ShutRun(s, more); }
        }
      }
    }
  }
}
