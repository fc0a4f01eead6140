/** The status a cancelled job is left with, and where the promise ends. */
module CancelRecord {
  import opened Prelude
  import opened Webhook
  import opened Consumer
  import opened Effects
  import opened Ledger
  import opened Justification
  import opened Flight
  import opened Safety
  import opened Cancellation
  import opened Outcomes

  predicate RecordedAt(pc: MsgPc, last: Option<JobState>) {
    pc == FinalAck(NoEscape) || pc.AckQueued? ==> last == Some(Cancelled)
  }

  /** A processing, or a batch triage, that is about to acknowledge the job. */
  ghost predicate MainRecorded(w: World, m: Main, job: string) {
    && (m.Processing? && About(w.redis, m.f.id, job) ==> RecordedAt(m.f.pc, LastWrite(w.log, m.f.act)))
    && (m.Triage? && About(w.redis, m.id, job) && m.tpc.TAckMarked? ==> LastWrite(w.log, m.tact) == Some(Cancelled))
  }

  ghost predicate ChildRecorded(w: World, c: Child, job: string) {
    About(w.redis, c.id, job) && c.pc.Ack? ==> LastWrite(w.log, c.act) == Some(Cancelled)
  }

  ghost predicate ChildrenRecorded(w: World, d: Option<Delivery>, job: string) {
    d.Some? ==> forall i :: 0 <= i < |d.value.tasks| ==> ChildRecorded(w, d.value.tasks[i], job)
  }

  /** Whoever is about to acknowledge `job` as cancelled wrote `cancelled` last. */
  ghost predicate Recorded(s: State, job: string) {
    MainRecorded(s.w, s.main, job) && ChildrenRecorded(s.w, s.delivery, job)
  }

  lemma FrameRecords(r: Redis, f: Frame, io: Io, reply: Reply, parsable: bool, call: Option<CallState>,
                     last: Option<JobState>)
    requires RecordedAt(f.pc, last) && !Sending(f.pc)
    ensures var op := MsgOp(r, f);
            var mv := MsgNext(f.pc, Ask(r, op, io, reply), parsable, call);
            mv.Go? ==> RecordedAt(mv.pc, if op.SetStatus? && op.act == f.act then Some(op.st) else last)
  {
    hide JobOf, Terminal;
  }

  /** Triage acknowledges a job it marked right after marking it. */
  lemma TriageRecords(s: State, l: Label, job: string)
    requires Balanced(s) && IdleFits(s) && Numbered(s) && s.main.Triage? && MainRecorded(s.w, s.main, job)
    ensures var m' := Step(s, l).main;
            (|| m' == s.main
             || (l.Resume? && TriageMoveOf(s, l.io).TGo? && m' == s.main.(tpc := TriageMoveOf(s, l.io).tpc))) ==>
              (About(Step(s, l).w.redis, m'.id, job) && m'.tpc.TAckMarked? ==>
                 LastWrite(Step(s, l).w.log, m'.tact) == Some(Cancelled))
  {
    var m, s' := s.main, Step(s, l);
    WorldGrows(s, l);
    CursorBelow(s);
    JobFixed(s.w, s'.w, m.id, job);
    LastWriteStep(s, l, m.tact);
    if l.Resume? {
      TriageMarks(s, l.io);
      TriageGoes(s, l);
    } else {
      OnlyItself(s, l);
    }
    hide Step, About, LastWrite, TriageMoveOf, TriageOp;
  }

  lemma TriageMarks(s: State, io: Io)
    requires s.main.Triage?
    ensures var mv := TriageMoveOf(s, io);
            && (mv == TGo(TAckMarked) ==>
                  TriageOp(s.w.redis, s.main) == SetStatus(s.main.tact, JobOf(s.w.redis, s.main.id), Cancelled))
            && (s.main.tpc.TAckMarked? ==> !mv.TGo?)
            && (mv.TGo? ==> mv.tpc != s.main.tpc)
  {
    hide JobOf, FieldsOf, Terminal;
  }

  /** After a step of triage that goes on, the place has changed. */
  lemma TriageGoes(s: State, l: Label)
    requires l.Resume? && s.main.Triage?
    ensures Step(s, l).main == s.main ==> !s.main.tpc.TAckMarked?
  {
    TriageControl(s, l.io);
    TriageMarks(s, l.io);
    if s.main.tpc.TAckMarked? { TriageLeavesId(s, l.io); }
    hide TriageAdvance, TriageMoveOf, Malformed, TriageOp;
  }

  lemma TriageLeavesId(s: State, io: Io)
    requires s.main.Triage? && s.main.tpc.TAckMarked?
    ensures TriageAdvance(s, s.main, io).main != s.main
  {
    hide TriageOp, TriageNotes, Ask, Do, FieldsOf, Delay, Malformed;
  }

  lemma MainRecords(s: State, l: Label, job: string)
    requires Balanced(s) && IdleFits(s) && Numbered(s) && OutcomesFit(s) && Guarded(s, job) && Recorded(s, job)
    ensures MainRecorded(Step(s, l).w, Step(s, l).main, job)
  {
    var s' := Step(s, l);
    MainStep(s, l);
    WorldGrows(s, l);
    CursorBelow(s);
    if s.main.Processing? {
      var f := s.main.f;
      JobFixed(s.w, s'.w, f.id, job);
      LastWriteStep(s, l, f.act);
      if l.Resume? && About(s.w.redis, f.id, job) {
        FrameRecords(s.w.redis, f, l.io, l.reply, FieldsOf(s.w.redis, f.id).work.Some?, LastCall(s.calls),
                     LastWrite(s.w.log, f.act));
      }
      if !l.Resume? { OnlyItself(s, l); }
    }
    if s.main.Triage? { TriageRecords(s, l, job); }
    hide Step, About, MsgNext, MsgOp, Ask, FieldsOf, LastCall, LastWrite, TriageMoveOf, Malformed;
  }

  lemma ChildRecords(s: State, l: Label, job: string)
    requires ChildActs(s, l) && Guarded(s, job) && ChildRecorded(s.w, s.delivery.value.tasks[l.i], job)
    requires Balanced(s)
    ensures ChildRecorded(Step(s, l).w, ChildAfter(s, l), job)
  {
    var c := s.delivery.value.tasks[l.i];
    WorldGrows(s, l);
    CursorBelow(s);
    JobFixed(s.w, Step(s, l).w, c.id, job);
    LastWriteStep(s, l, c.act);
    hide Step, LastWrite;
  }

  lemma BystanderRecords(s: State, l: Label, i: nat, job: string)
    requires Balanced(s) && IdleFits(s) && Numbered(s) && s.delivery.Some? && i < |s.delivery.value.tasks|
    requires ChildRecorded(s.w, s.delivery.value.tasks[i], job)
    requires ChildActs(s, l) ==> l.i != i
    ensures ChildRecorded(Step(s, l).w, s.delivery.value.tasks[i], job)
  {
    var c := s.delivery.value.tasks[i];
    WorldGrows(s, l);
    CursorBelow(s);
    JobFixed(s.w, Step(s, l).w, c.id, job);
    LastWriteStep(s, l, c.act);
    assert OpAct(OpOf(s, l)) != Some(c.act) by { hide LastWrite; }
    hide Step, LastWrite, OpOf, About;
  }

  lemma ChildrenRecord(s: State, l: Label, job: string)
    requires Balanced(s) && IdleFits(s) && Numbered(s) && Guarded(s, job) && Recorded(s, job)
    ensures ChildrenRecorded(Step(s, l).w, Step(s, l).delivery, job)
  {
    var s' := Step(s, l);
    DeliveryStep(s, l);
    if s'.delivery.Some? {
      forall i | 0 <= i < |s'.delivery.value.tasks| ensures ChildRecorded(s'.w, s'.delivery.value.tasks[i], job) {
        var c' := s'.delivery.value.tasks[i];
        if ChildActs(s, l) {
          if l.i == i { ChildRecords(s, l, job); } else { BystanderRecords(s, l, i, job); }
        } else if s.delivery.Some? && i < |s.delivery.value.tasks| && c' == s.delivery.value.tasks[i] {
          BystanderRecords(s, l, i, job);
        }
        hide Step, About, LastWrite;
      }
    }
  }

  lemma {:induction false} RecordedRun(s: State, ls: seq<Label>, job: string)
    requires Balanced(s) && IdleFits(s) && Numbered(s) && OutcomesFit(s) && Guarded(s, job) && Recorded(s, job)
    ensures Recorded(Run(s, ls), job)
    decreases |ls|
  {
    if ls != [] {
      var l, s' := ls[0], Step(s, ls[0]);
      BalancedStep(s, l);
      IdleFitsStep(s, l);
      NumberedStep(s, l);
      OutcomesStep(s, l);
      GuardedStep(s, l, job);
      MainRecords(s, l, job);
      ChildrenRecord(s, l, job);
      hide Step, Balanced, IdleFits, Numbered, OutcomesFit, Guarded, MainRecorded, ChildrenRecorded;
      RecordedRun(s', ls[1..], job);
    }
  }

  /** Neither about to acknowledge nor past the last flag check. */
  ghost predicate StillChecking(s: State, job: string) {
    && (s.main.Processing? && About(s.w.redis, s.main.f.id, job) ==>
          !s.main.f.pc.FinalAck? && !s.main.f.pc.AckQueued?)
    && (s.main.Triage? && About(s.w.redis, s.main.id, job) ==> !s.main.tpc.TAckMarked?)
    && (s.delivery.Some? ==>
          var ts := s.delivery.value.tasks;
          forall i :: 0 <= i < |ts| && About(s.w.redis, ts[i].id, job) ==> !ts[i].pc.Ack?)
  }

  /** When the flag is raised before the last check, every processing of the job
      that goes on to its normal acknowledgement, alone, in batch triage or in a
      batch delivery, has `cancelled` as its last status write; the other ways out
      are a job found terminal, a lost flag read in the error handler, and forced
      cancellation. */
  lemma CancelledIsRecorded(r: Redis, canBatch: bool, ls: seq<Label>, more: seq<Label>, job: string)
    requires NewGroup(r)
    requires var s := Run(Init(r, canBatch), ls); Guarded(s, job) && StillChecking(s, job)
    ensures Recorded(Run(Run(Init(r, canBatch), ls), more), job)
  {
    BalancedRun(Init(r, canBatch), ls);
    OutcomesRun(Init(r, canBatch), ls);
    RecordedRun(Run(Init(r, canBatch), ls), more, job);
  }

  // ---------------------------------------------------------------- where the promise ends

  lemma RunOne(s: State, l: Label)
    ensures Run(s, [l]) == Step(s, l)
  {
    assert [l][1..] == [];
    assert Run(Step(s, l), []) == Step(s, l);
    hide Step;
  }

  lemma RunTwo(s: State, l1: Label, l2: Label)
    ensures Run(s, [l1, l2]) == Step(Step(s, l1), l2)
  {
    assert [l1, l2][1..] == [l2];
    RunOne(Step(s, l1), l2);
    hide Step;
  }

  lemma SenderPosts(s: State, job: string)
    requires s.main.Processing? && About(s.w.redis, s.main.f.id, job) && Sending(s.main.f.pc)
             && !s.main.f.pc.WriteFailed?
    ensures !NeverPosted(Step(s, Resume(Fine, Accepted, false)).w.posts, |s.w.posts|, job)
  {
    var l := Resume(Fine, Accepted, false);
    PostsAfter(s, l);
    assert OpOf(s, l).PostOutcome? && OpOf(s, l).job == job;
    assert Step(s, l).w.posts[|s.w.posts|].job == job;
    hide Step;
  }

  lemma ChildPosts(s: State, i: nat, job: string)
    requires s.delivery.Some? && i < |s.delivery.value.tasks|
    requires var c := s.delivery.value.tasks[i]; About(s.w.redis, c.id, job) && c.pc.Send?
    ensures !NeverPosted(Step(s, ResumeChild(i, Fine, Accepted)).w.posts, |s.w.posts|, job)
  {
    var l := ResumeChild(i, Fine, Accepted);
    PostsAfter(s, l);
    assert OpOf(s, l).PostOutcome? && OpOf(s, l).job == job;
    assert Step(s, l).w.posts[|s.w.posts|].job == job;
    hide Step;
  }

  lemma FailingGoesOn(s: State)
    requires s.main.Processing? && s.main.f.pc.WriteFailed?
    ensures Step(s, Resume(Fine, Accepted, false)).main == s.main.(f := s.main.f.(pc := SendError(1)))
  {
    assert MsgMove(s, s.main.f, Fine, Accepted) == Go(SendError(1)) by { hide JobOf, FieldsOf; }
    hide MsgMove;
    MessageControl(s, s.main.f, s.main.rest, s.main.k, Fine, Accepted);
    hide MsgAdvance, Entry;
  }

  /** The failing status is written first, then the error is sent. */
  lemma FailingPosts(s: State, job: string)
    requires s.main.Processing? && About(s.w.redis, s.main.f.id, job) && s.main.f.pc.WriteFailed?
    ensures var ls := [Resume(Fine, Accepted, false), Resume(Fine, Accepted, false)];
            !NeverPosted(Run(s, ls).w.posts, |s.w.posts|, job)
  {
    var l := Resume(Fine, Accepted, false);
    var s1 := Step(s, l);
    FailingGoesOn(s);
    PostsAfter(s, l);
    StreamFixed(s, l);
    assert About(s1.w.redis, s1.main.f.id, job);
    SenderPosts(s1, job);
    RunTwo(s, l, l);
    hide Step, Run;
  }

  /** The promise is exact: with the flag up, no continuation posts for the job
      if and only if no webhook for it was under way when we look. */
  lemma CancelSafetyIsExact(r: Redis, canBatch: bool, ls: seq<Label>, job: string)
    requires NewGroup(r) && job in Run(Init(r, canBatch), ls).w.redis.flags
    ensures var s := Run(Init(r, canBatch), ls);
            Guarded(s, job) <==> forall more :: NeverPosted(Run(s, more).w.posts, |s.w.posts|, job)
  {
    var s := Run(Init(r, canBatch), ls);
    var l := Resume(Fine, Accepted, false);
    if Guarded(s, job) {
      forall more ensures NeverPosted(Run(s, more).w.posts, |s.w.posts|, job) {
        CancelSafety(r, canBatch, ls, more, job);
      }
    } else if !MainGuarded(s.w.redis, s.main, job) {
      if s.main.f.pc.WriteFailed? {
        FailingPosts(s, job);
      } else {
        SenderPosts(s, job);
        RunOne(s, l);
      }
    } else {
      var i :| 0 <= i < |s.delivery.value.tasks| && About(s.w.redis, s.delivery.value.tasks[i].id, job)
               && s.delivery.value.tasks[i].pc.Send?;
      ChildPosts(s, i, job);
      RunOne(s, ResumeChild(i, Fine, Accepted));
    }
    hide Step, Run, About;
  }
}
