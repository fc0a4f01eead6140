/** Short runs from a fresh start that show where a promise ends. */
module Witness {
  import opened Prelude
  import opened Webhook
  import opened Consumer
  import opened Flight

  const OK: Label := Resume(Fine, Accepted, false)
  const LOSE: Label := Resume(Lost(false), Accepted, false)
  const WORK: Work := Work("{}", 1)
  const A: Fields := Fields(Some("a"), Some("u"), Some(WORK))
  const B: Fields := Fields(Some("b"), Some("u"), Some(WORK))

  /** A new group whose stream holds these messages. */
  function Queue(stream: seq<Fields>): Redis {
    Redis(stream, 0, [], map[], {})
  }

  lemma {:induction false} RunJoins(s: State, xs: seq<Label>, ys: seq<Label>)
    ensures Run(s, xs + ys) == Run(Run(s, xs), ys)
    decreases |xs|
  {
    if xs == [] {
      assert xs + ys == ys;
    } else {
      assert (xs + ys)[0] == xs[0] && (xs + ys)[1..] == xs[1..] + ys;
      RunJoins(Step(s, xs[0]), xs[1..], ys);
    }
    hide Step;
  }

  lemma RunLast(s: State, ls: seq<Label>, l: Label)
    ensures Run(s, ls + [l]) == Step(Run(s, ls), l)
  {
    RunJoins(s, ls, [l]);
    var s1 := Run(s, ls);
    assert [l][0] == l && [l][1..] == [];
    assert Run(s1, [l]) == Run(Step(s1, l), []) == Step(s1, l) by { hide Step; }
    hide Run, Step;
  }

  /** Set-up and an empty recovery. */
  lemma Boots(r: Redis, canBatch: bool)
    requires r.pel == []
    ensures Run(Init(r, canBatch), [OK, OK])
         == Init(r, canBatch).(main := Reading, w := World(r, 0, {}, [], [Recovered(0)]))
  {
    var s := Init(r, canBatch);
    var s1 := s.(main := Listing(true));
    assert Step(s, OK) == s1;
    assert r.pel[..Min(RECOVERY_COUNT, |r.pel|)] == [];
    assert Step(s1, OK) == s.(main := Reading, w := World(r, 0, {}, [], [Recovered(0)]));
    hide Step;
    assert [OK, OK] == [OK] + [OK] && [OK] == [] + [OK];
    RunLast(s, [], OK);
    RunLast(s, [OK], OK);
  }

  // ---------------------------------------------------------------- a lost read leaves a message pending

  lemma ReadsOne(s: State)
    requires s.main.Reading? && s.delivery.None? && !s.canBatch
    requires |s.w.redis.stream| == s.w.redis.cursor + 1 && !Malformed(s.w.redis, s.w.redis.cursor)
    ensures var s' := Step(s, OK);
            && s'.main == Processing(Frame(s.w.redis.cursor, s.w.acts, ReadStatus), [], Dispatching)
            && s'.w.redis == ReadGroup(s.w.redis, 1)
            && s'.w.acked == s.w.acked
            && s'.p.failures == 0
  {
    var batch := Interval(s.w.redis.cursor, 1);
    assert Available(s.w.redis, s.canBatch) == 1;
    assert batch == [s.w.redis.cursor] && batch[1..] == [];
    var r' := ReadGroup(s.w.redis, 1);
    assert Malformed(r', s.w.redis.cursor) == Malformed(s.w.redis, s.w.redis.cursor);
    hide Available, Malformed, FieldsOf, JobOf, ReadGroup, Interval;
  }

  lemma LosesStatus(s: State)
    requires s.main.Processing? && s.main.f.pc.ReadStatus? && s.main.k.Dispatching? && s.p.failures == 0
    ensures var s' := Step(s, LOSE); s'.main.Sleeping? && s'.w.redis == s.w.redis && s'.w.acked == s.w.acked
  {
    hide JobOf, FieldsOf, Terminal, Delay;
  }

  /** One message, read and then not looked at because the status read is lost:
      it is delivered, pending and not acknowledged, and the loop backs off. */
  lemma LostReadLeavesPending()
    ensures var s := Run(Init(Queue([A]), false), [OK, OK, OK, LOSE]);
            s.main.Sleeping? && s.w.redis.pel == [0] && s.w.redis.cursor == 1 && s.w.acked == {}
  {
    var s0 := Init(Queue([A]), false);
    Boots(Queue([A]), false);
    var s2 := Run(s0, [OK, OK]);
    ReadsOne(s2);
    var s3 := Step(s2, OK);
    assert ReadGroup(Queue([A]), 1).pel == [0];
    LosesStatus(s3);
    assert [OK, OK, OK] == [OK, OK] + [OK] && [OK, OK, OK, LOSE] == [OK, OK, OK] + [LOSE];
    RunLast(s0, [OK, OK], OK);
    RunLast(s0, [OK, OK, OK], LOSE);
    hide Run, Step;
  }

  // ---------------------------------------------------------------- a batch of two

  lemma ReadsTwo(s: State)
    requires s.main.Reading? && s.delivery.None? && s.canBatch && s.w.redis == Queue([A, B])
    ensures var s' := Step(s, OK);
            && s'.main == Triage(0, [1], TReadStatus, [0, 1], [], s.w.acts)
            && s'.w.redis == ReadGroup(s.w.redis, 2)
            && s'.delivery.None? && s'.calls == s.calls && s'.drain == s.drain && s'.canBatch
            && s'.p == s.p.(healthy := true, failures := 0, slept := 0)
            && s'.w.acts == s.w.acts + 1
  {
    var batch := Interval(0, 2);
    assert Available(s.w.redis, s.canBatch) == 2;
    assert batch == [0, 1] && batch[0] == 0 && batch[1..] == [1];
    assert !Malformed(ReadGroup(s.w.redis, 2), 0);
    hide Available, Malformed, FieldsOf, JobOf, ReadGroup, Interval;
  }

  lemma NoNote(w: World)
    ensures Noted(w, []) == w
  {
    assert w.log + [] == w.log;
  }

  lemma LooksOn(s: State)
    requires s.main.Triage? && s.main.tpc.TReadStatus? && !Terminal(s.w.redis, JobOf(s.w.redis, s.main.id))
    ensures Step(s, OK) == s.(main := s.main.(tpc := TCheck))
  {
    NoNote(s.w);
    hide JobOf, FieldsOf, Terminal, Noted;
  }

  lemma Keeps(s: State)
    requires s.main.Triage? && s.main.tpc.TCheck?
    requires JobOf(s.w.redis, s.main.id) !in s.w.redis.flags && FieldsOf(s.w.redis, s.main.id).work.Some?
    ensures Step(s, OK) == TriageNext(s, s.main.todo, s.main.batch, s.main.parsed + [s.main.id], s.main.tact)
  {
    NoNote(s.w);
    hide JobOf, FieldsOf, TriageNext, Noted;
  }

  /** A stretch of the run during which neither job is finished or flagged. */
  predicate Calm(s: State) {
    && s.w.redis.stream == [A, B]
    && s.w.redis.flags == {}
    && !Terminal(s.w.redis, "a") && !Terminal(s.w.redis, "b")
    && s.delivery.None? && s.calls == [] && s.canBatch && s.p.running
  }

  /** Triage keeps both messages. */
  lemma KeepsBoth(s: State)
    requires Calm(s) && s.main.Triage? && s.main == Triage(0, [1], TReadStatus, [0, 1], [], s.main.tact)
    ensures Run(s, [OK, OK, OK, OK])
         == s.(p := s.p.(idle := false), main := Marking([0, 1], [0, 1], [0, 1], s.main.tact))
  {
    var m := s.main;
    assert FieldsOf(s.w.redis, 0) == A && FieldsOf(s.w.redis, 1) == B;
    var s1 := s.(main := m.(tpc := TCheck));
    LooksOn(s);
    Keeps(s1);
    var s2 := s.(main := Triage(1, [], TReadStatus, [0, 1], [0], m.tact));
    assert [] + [0] == [0] && [1][1..] == [];
    assert TriageNext(s1, [1], [0, 1], [0], m.tact) == s2;
    LooksOn(s2);
    var s3 := s2.(main := s2.main.(tpc := TCheck));
    Keeps(s3);
    assert [0] + [1] == [0, 1];
    var s4 := s.(p := s.p.(idle := false), main := Marking([0, 1], [0, 1], [0, 1], m.tact));
    assert TriageNext(s3, [], [0, 1], [0, 1], m.tact) == s4;
    RunFour(s, OK, OK, OK, OK);
    hide Step, Run, TriageNext;
  }

  lemma RunFour(s: State, a: Label, b: Label, c: Label, d: Label)
    ensures Run(s, [a, b, c, d]) == Step(Step(Step(Step(s, a), b), c), d)
  {
    assert [a, b, c, d] == [a, b, c] + [d] && [a, b, c] == [a, b] + [c] && [a, b] == [a] + [b] && [a] == [] + [a];
    RunLast(s, [], a);
    RunLast(s, [a], b);
    RunLast(s, [a, b], c);
    RunLast(s, [a, b, c], d);
    assert Run(s, []) == s;
    hide Run, Step;
  }

  lemma RunTwo(s: State, a: Label, b: Label)
    ensures Run(s, [a, b]) == Step(Step(s, a), b)
  {
    assert [a, b] == [a] + [b] && [a] == [] + [a];
    RunLast(s, [], a);
    RunLast(s, [a], b);
    assert Run(s, []) == s;
    hide Run, Step;
  }

  /** Both are marked and handed to `batch_run`. */
  lemma StartsBatch(s: State)
    requires Calm(s) && s.main.Marking? && s.main == Marking([0, 1], [0, 1], [0, 1], s.main.tact) && !s.p.idle
    ensures var s' := Run(s, [OK, OK]);
            && s'.main == Running([0, 1], [0, 1])
            && s'.w.redis.stream == [A, B] && s'.w.redis.flags == {} && s'.w.redis.pel == s.w.redis.pel
            && !Terminal(s'.w.redis, "a") && !Terminal(s'.w.redis, "b")
            && s'.calls == [Call([WORK, WORK], Live)] && s'.delivery.None? && s'.canBatch
            && s'.p == s.p && s'.drain == s.drain
  {
    var m := s.main;
    var s1 := Step(s, OK);
    MarksFirst(s);
    MarksLast(s1);
    RunTwo(s, OK, OK);
    hide Run, Step;
  }

  lemma MarksFirst(s: State)
    requires Calm(s) && s.main.Marking? && s.main == Marking([0, 1], [0, 1], [0, 1], s.main.tact)
    ensures var s' := Step(s, OK);
            && Calm(s') && s'.main.Marking? && s'.main == Marking([1], [0, 1], [0, 1], s.main.tact)
            && s'.p == s.p && s'.drain == s.drain && s'.w.redis.pel == s.w.redis.pel
  {
    assert [0, 1][1..] == [1];
    hide Works, Jobs, NextMessage;
  }

  lemma MarksLast(s: State)
    requires Calm(s) && s.main.Marking? && s.main == Marking([1], [0, 1], [0, 1], s.main.tact)
    ensures var s' := Step(s, OK);
            && s'.main == Running([0, 1], [0, 1])
            && s'.w.redis.stream == [A, B] && s'.w.redis.flags == {} && s'.w.redis.pel == s.w.redis.pel
            && !Terminal(s'.w.redis, "a") && !Terminal(s'.w.redis, "b")
            && s'.calls == [Call([WORK, WORK], Live)] && s'.delivery.None? && s'.canBatch
            && s'.p == s.p && s'.drain == s.drain
  {
    assert Works(s.w.redis, [0, 1]) == [WORK, WORK];
    hide Works, Jobs, NextMessage;
  }

  /** The batch of two is being executed. */
  predicate BatchUnderway(s: State) {
    && s.main == Running([0, 1], [0, 1])
    && s.w.redis.stream == [A, B] && s.w.redis.flags == {} && s.w.redis.pel == [0, 1]
    && !Terminal(s.w.redis, "a") && !Terminal(s.w.redis, "b")
    && s.calls == [Call([WORK, WORK], Live)] && s.delivery.None? && s.canBatch
    && !s.p.idle && s.p.running && s.drain.NotDraining?
  }

  const TO_BATCH: seq<Label> := [OK, OK] + [OK] + [OK, OK, OK, OK] + [OK, OK]

  /** From a fresh start to a running batch of two. */
  lemma ReachesBatch()
    ensures BatchUnderway(Run(Init(Queue([A, B]), true), TO_BATCH))
  {
    var s0 := Init(Queue([A, B]), true);
    Boots(Queue([A, B]), true);
    var s2 := Run(s0, [OK, OK]);
    ReadsTwo(s2);
    var s3 := Step(s2, OK);
    assert ReadGroup(Queue([A, B]), 2).pel == [0, 1];
    assert Calm(s3);
    KeepsBoth(s3);
    var s7 := Run(s3, [OK, OK, OK, OK]);
    StartsBatch(s7);
    RunLast(s0, [OK, OK], OK);
    RunJoins(s0, [OK, OK] + [OK], [OK, OK, OK, OK]);
    RunJoins(s0, [OK, OK] + [OK] + [OK, OK, OK, OK], [OK, OK]);
    hide Run, Step;
  }

  // ---------------------------------------------------------------- deliveries left behind

  /** The executor answers both, the delivery starts, one flag read is lost, the delivery task raises. */
  function ToStraggler(res: ExecutionResult): seq<Label> {
    [Finish(0, Returned([res, res])), OK, Gather, ResumeChild(0, Lost(false), Accepted)]
  }

  lemma Scheduled(s: State, res: ExecutionResult)
    requires BatchUnderway(s)
    ensures var s' := Run(s, [Finish(0, Returned([res, res])), OK]);
            && s'.main.Reading? && !s'.p.idle
            && s'.delivery == Some(Delivery([0, 1], [res, res], [], Created))
  {
    RunTwo(s, Finish(0, Returned([res, res])), OK);
    hide Run, NextMessage;
  }

  lemma OneBreaks(s: State, res: ExecutionResult)
    requires s.delivery == Some(Delivery([0, 1], [res, res], [], Created)) && !s.p.idle
    ensures var s' := Run(s, [Gather, ResumeChild(0, Lost(false), Accepted)]);
            && s'.main == s.main && s'.delivery.Some? && s'.delivery.value.phase.Gathering?
            && |s'.delivery.value.tasks| == 2
            && s'.delivery.value.tasks[0].pc.Broken? && s'.delivery.value.tasks[1].pc.CheckFirst?
  {
    RunTwo(s, Gather, ResumeChild(0, Lost(false), Accepted));
    hide Run, Advance, AnyBroken, AllFinished, JobOf;
  }

  lemma ReachesStraggler(res: ExecutionResult)
    ensures var s := Run(Init(Queue([A, B]), true), TO_BATCH + ToStraggler(res));
            && s.main.Reading? && s.delivery.Some? && s.delivery.value.phase.Gathering?
            && |s.delivery.value.tasks| == 2
            && s.delivery.value.tasks[0].pc.Broken? && s.delivery.value.tasks[1].pc.CheckFirst?
  {
    var s0 := Init(Queue([A, B]), true);
    var s := Run(s0, TO_BATCH);
    var xs, ys := [Finish(0, Returned([res, res])), OK], [Gather, ResumeChild(0, Lost(false), Accepted)];
    ReachesBatch();
    Scheduled(s, res);
    OneBreaks(Run(s, xs), res);
    assert ToStraggler(res) == xs + ys;
    RunJoins(s0, TO_BATCH, ToStraggler(res));
    RunJoins(s, xs, ys);
    hide Run, Step, BatchUnderway;
  }

  // ---------------------------------------------------------------- a fallback that runs nothing

  /** Both jobs are cancelled while the batch is executed, and then it raises. */
  const TO_FALLBACK: seq<Label> := [RaiseFlag("a"), RaiseFlag("b"), Finish(0, Raised), OK]

  predicate Falling(s: State, id: Id, rest: seq<Id>) {
    && s.main.Processing? && s.main.f.id == id && s.main.f.pc.ReadStatus?
    && s.main.rest == rest && s.main.k.FallingBack?
    && s.w.redis.stream == [A, B] && s.w.redis.flags == {"a", "b"}
    && !Terminal(s.w.redis, JobOf(s.w.redis, id))
    && (forall i :: 0 <= i < |rest| ==> !Terminal(s.w.redis, JobOf(s.w.redis, rest[i])))
    && s.delivery.None? && !s.p.idle && s.p.running
  }

  lemma FallsBack(s: State)
    requires BatchUnderway(s)
    ensures Falling(Run(s, TO_FALLBACK), 0, [1])
  {
    RunFour(s, RaiseFlag("a"), RaiseFlag("b"), Finish(0, Raised), OK);
    assert [0, 1][1..] == [1];
    hide Run;
  }

  lemma FindsFlag(s: State, id: Id, rest: seq<Id>)
    requires Falling(s, id, rest) && JobOf(s.w.redis, id) in s.w.redis.flags
    ensures var s' := Step(Step(s, OK), OK);
            && s'.main == s.main.(f := s.main.f.(pc := MarkQueued))
            && s'.p == s.p && s'.delivery.None? && s'.w.redis == s.w.redis
  {
    var s1 := s.(main := s.main.(f := s.main.f.(pc := CheckQueued)));
    NoNote(s.w);
    assert Step(s, OK) == s1 by { hide JobOf, FieldsOf, Terminal, Noted, LastCall; }
    hide JobOf, FieldsOf, Terminal, LastCall;
  }

  lemma MarksAndAcks(s: State)
    requires s.main.Processing? && s.main.f.pc.MarkQueued? && s.main.k.FallingBack? && s.delivery.None? && s.p.running
    ensures var s' := Step(Step(s, OK), OK);
            && (s.main.rest == [] ==> s'.main.Reading?)
            && (s.main.rest != [] && !Malformed(s.w.redis, s.main.rest[0]) ==>
                  && s'.main.Processing? && s'.main.f.id == s.main.rest[0] && s'.main.f.pc.ReadStatus?
                  && s'.main.rest == s.main.rest[1..] && s'.main.k.FallingBack?)
            && s'.p == s.p && s'.delivery.None?
            && s'.w.redis.stream == s.w.redis.stream && s'.w.redis.flags == s.w.redis.flags
            && s'.w.redis.status == s.w.redis.status[JobOf(s.w.redis, s.main.f.id) := Cancelled]
  {
    var s1 := Step(s, OK);
    assert s1.main == s.main.(f := s.main.f.(pc := AckQueued)) && s1.p == s.p && s1.delivery.None?
           && s1.w.redis == s.w.redis.(status := s.w.redis.status[JobOf(s.w.redis, s.main.f.id) := Cancelled]) by {
      hide FieldsOf, LastCall;
    }
    assert s.main.rest != [] ==> Malformed(s1.w.redis, s.main.rest[0]) == Malformed(s.w.redis, s.main.rest[0]);
    hide FieldsOf, LastCall, JobOf, Without, Malformed;
  }

  const SKIP: seq<Label> := [OK, OK, OK, OK]

  lemma SkipsFirst(s: State)
    requires Falling(s, 0, [1])
    ensures Falling(Run(s, SKIP), 1, [])
  {
    assert FieldsOf(s.w.redis, 0) == A && FieldsOf(s.w.redis, 1) == B;
    assert JobOf(s.w.redis, 0) == "a" && JobOf(s.w.redis, 1) == "b" && !Malformed(s.w.redis, 1);
    FindsFlag(s, 0, [1]);
    MarksAndAcks(Step(Step(s, OK), OK));
    RunFour(s, OK, OK, OK, OK);
    assert [1][1..] == [];
    var s' := Run(s, SKIP);
    assert JobOf(s'.w.redis, 1) == "b";
    assert !Terminal(s'.w.redis, "b");
    hide Run, Step;
  }

  lemma SkipsSecond(s: State)
    requires Falling(s, 1, [])
    ensures var s' := Run(s, SKIP); s'.main.Reading? && s'.delivery.None? && !s'.p.idle
  {
    assert FieldsOf(s.w.redis, 1) == B && JobOf(s.w.redis, 1) == "b";
    FindsFlag(s, 1, []);
    MarksAndAcks(Step(Step(s, OK), OK));
    RunFour(s, OK, OK, OK, OK);
    hide Run, Step;
  }

  const TO_FORGOTTEN: seq<Label> := TO_BATCH + TO_FALLBACK + SKIP + SKIP

  /** Both messages are skipped as cancelled; the loop is back at its head and the
      idle flag that the batch cleared stays clear. */
  lemma IdleForgotten()
    ensures var s := Run(Init(Queue([A, B]), true), TO_FORGOTTEN);
            s.main.Reading? && s.delivery.None? && s.p.current.None? && !s.p.idle
  {
    hide Step, Falling, BatchUnderway;
    var s0 := Init(Queue([A, B]), true);
    FlightRun(s0, TO_FORGOTTEN);
    ReachesBatch();
    FallsBack(Run(s0, TO_BATCH));
    RunJoins(s0, TO_BATCH, TO_FALLBACK);
    SkipsFirst(Run(s0, TO_BATCH + TO_FALLBACK));
    RunJoins(s0, TO_BATCH + TO_FALLBACK, SKIP);
    SkipsSecond(Run(s0, TO_BATCH + TO_FALLBACK + SKIP));
    RunJoins(s0, TO_BATCH + TO_FALLBACK + SKIP, SKIP);
    hide Run;
  }

  // ---------------------------------------------------------------- a start after a clean drain

  const TO_DRAINED: seq<Label> := [OK, OK] + [DrainBegin, DrainResume]

  lemma Drains(s: State)
    requires s.main.Reading? && s.p.idle && s.delivery.None? && s.drain.NotDraining?
    ensures Run(s, [DrainBegin, DrainResume]) == s.(p := s.p.(running := false), drain := Drained(true))
  {
    RunTwo(s, DrainBegin, DrainResume);
    hide Run, Advance;
  }

  lemma StartsOne(s: State)
    requires s.main.Processing? && s.main.f.pc.ReadStatus?
    requires var r := s.w.redis;
             var id := s.main.f.id;
             !Terminal(r, JobOf(r, id)) && JobOf(r, id) !in r.flags && FieldsOf(r, id).work.Some?
    ensures var s' := Step(Step(Step(s, OK), OK), OK);
            && s'.drain == s.drain && Started([JobOf(s.w.redis, s.main.f.id)]) in s'.w.log
  {
    var f := s.main.f;
    var s1 := s.(main := s.main.(f := f.(pc := CheckQueued)));
    var s2 := s.(main := s.main.(f := f.(pc := WriteExecuting)),
                 p := s.p.(idle := false, current := Some(JobOf(s.w.redis, f.id))));
    NoNote(s.w);
    assert Step(s, OK) == s1 by { hide JobOf, FieldsOf, Terminal, Noted, LastCall; }
    assert Step(s1, OK) == s2 by { hide JobOf, FieldsOf, Terminal, Noted, LastCall; }
    var log := s.w.log + [Wrote(f.act, JobOf(s.w.redis, f.id), Executing)];
    assert Step(s2, OK).w.log == log + [Started([JobOf(s.w.redis, f.id)])] by { hide JobOf, FieldsOf, LastCall; }
    assert (log + [Started([JobOf(s.w.redis, f.id)])])[|log|] == Started([JobOf(s.w.redis, f.id)]);
    assert Step(s2, OK).drain == s.drain by { hide JobOf, FieldsOf, LastCall; }
    hide Step;
  }

  /** `drain` answers True while the loop waits for its read; the read then brings a
      message, and the executor is started for it. */
  lemma StartsAfterDrain()
    ensures var drained := Run(Init(Queue([A]), false), TO_DRAINED);
            var s := Run(drained, [OK, OK, OK, OK]);
            && drained.drain == Drained(true) && Quiet(drained)
            && s.drain == Drained(true) && Started(["a"]) in s.w.log && Started(["a"]) !in drained.w.log
  {
    var s0 := Init(Queue([A]), false);
    Boots(Queue([A]), false);
    var s2 := Run(s0, [OK, OK]);
    Drains(s2);
    RunJoins(s0, [OK, OK], [DrainBegin, DrainResume]);
    var d := Run(s0, TO_DRAINED);
    assert d == s2.(p := s2.p.(running := false), drain := Drained(true)) by { hide Run, Step; }
    ReadsOne(d);
    ReadKeepsDrain(d);
    var s3 := Step(d, OK);
    assert FieldsOf(s3.w.redis, 0) == A by { hide Step, Run; }
    StartsOne(s3);
    RunFour(d, OK, OK, OK, OK);
    hide Run, Step;
  }

  lemma ReadKeepsDrain(s: State)
    requires s.main.Reading? && s.delivery.None?
    ensures Step(s, OK).drain == s.drain
  {
    ReadLanded(s, Fine, false);
    hide ReadAdvance;
  }
}
