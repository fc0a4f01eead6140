/** Cancel safety: a raised flag stops every webhook that is not already being sent. */
module Cancellation {
  import opened Prelude
  import opened Webhook
  import opened Consumer
  import opened Effects
  import opened Ledger
  import opened Justification
  import opened Flight
  import opened Safety

  /** The processing has passed its last flag check and an outcome POST follows. */
  predicate Sending(pc: MsgPc) {
    pc.SendResult? || pc.WriteFailed? || pc.SendError?
  }

  ghost predicate MainGuarded(r: Redis, m: Main, job: string) {
    m.Processing? && About(r, m.f.id, job) ==> !Sending(m.f.pc)
  }

  ghost predicate ChildrenGuarded(r: Redis, d: Option<Delivery>, job: string) {
    d.Some? ==>
      forall i :: 0 <= i < |d.value.tasks| && About(r, d.value.tasks[i].id, job) ==> !d.value.tasks[i].pc.Send?
  }

  /** The cancel flag of `job` is up and no webhook for it is under way. */
  ghost predicate Guarded(s: State, job: string) {
    && job in s.w.redis.flags
    && MainGuarded(s.w.redis, s.main, job)
    && ChildrenGuarded(s.w.redis, s.delivery, job)
  }

  lemma FrameGuarded(s: State, io: Io, reply: Reply, job: string)
    requires s.main.Processing? && About(s.w.redis, s.main.f.id, job)
    requires job in s.w.redis.flags && !Sending(s.main.f.pc)
    ensures var mv := MsgMove(s, s.main.f, io, reply); mv.Go? ==> !Sending(mv.pc)
  {
  }

  lemma MainStaysGuarded(s: State, l: Label, job: string)
    requires Balanced(s) && Guarded(s, job)
    ensures MainGuarded(Step(s, l).w.redis, Step(s, l).main, job)
  {
    var s' := Step(s, l);
    MainStep(s, l);
    WorldGrows(s, l);
    CursorBelow(s);
    if s.main.Processing? {
      JobFixed(s.w, s'.w, s.main.f.id, job);
      if l.Resume? && About(s.w.redis, s.main.f.id, job) { FrameGuarded(s, l.io, l.reply, job); }
    }
    hide Step, About, MsgMove, TriageMoveOf, Malformed;
  }

  lemma ChildGuarded(s: State, l: Label, job: string)
    requires ChildActs(s, l) && Guarded(s, job) && About(s.w.redis, s.delivery.value.tasks[l.i].id, job)
    ensures !ChildAfter(s, l).pc.Send?
  {
  }

  lemma ChildrenStayGuarded(s: State, l: Label, job: string)
    requires Balanced(s) && Guarded(s, job)
    ensures ChildrenGuarded(Step(s, l).w.redis, Step(s, l).delivery, job)
  {
    var s' := Step(s, l);
    DeliveryStep(s, l);
    WorldGrows(s, l);
    CursorBelow(s);
    if s'.delivery.Some? {
      forall i | 0 <= i < |s'.delivery.value.tasks| && About(s'.w.redis, s'.delivery.value.tasks[i].id, job)
        ensures !s'.delivery.value.tasks[i].pc.Send?
      {
        if s.delivery.Some? && i < |s.delivery.value.tasks| {
          JobFixed(s.w, s'.w, s.delivery.value.tasks[i].id, job);
          if ChildActs(s, l) && l.i == i && About(s.w.redis, s.delivery.value.tasks[i].id, job) {
            ChildGuarded(s, l, job);
          }
        }
        hide Step, About, ChildNext, ChildOp, Ask;
      }
    }
  }

  lemma GuardedStep(s: State, l: Label, job: string)
    requires Balanced(s) && Guarded(s, job)
    ensures Guarded(Step(s, l), job)
  {
    MainStaysGuarded(s, l, job);
    ChildrenStayGuarded(s, l, job);
    WorldGrows(s, l);
    hide Step, About;
  }

  /** No POST for `job` among those from the `n`th on. */
  ghost predicate NeverPosted(posts: seq<Post>, n: nat, job: string) {
    forall k :: n <= k < |posts| ==> posts[k].job != job
  }

  lemma OpGuarded(s: State, l: Label, job: string)
    requires Guarded(s, job)
    ensures var op := OpOf(s, l); op.PostOutcome? ==> op.job != job
  {
    hide Malformed;
  }

  lemma NoPost(s: State, l: Label, job: string)
    requires Guarded(s, job)
    ensures NeverPosted(Step(s, l).w.posts, |s.w.posts|, job)
  {
    OpGuarded(s, l, job);
    WorldStep(s, l);
    hide Step, OpOf, Without, Available;
  }

  lemma {:induction false} GuardedRun(s: State, ls: seq<Label>, job: string)
    requires Balanced(s) && Guarded(s, job)
    ensures Guarded(Run(s, ls), job)
    ensures s.w.posts <= Run(s, ls).w.posts && NeverPosted(Run(s, ls).w.posts, |s.w.posts|, job)
    decreases |ls|
  {
    if ls != [] {
      var s1 := Step(s, ls[0]);
      BalancedStep(s, ls[0]);
      GuardedStep(s, ls[0], job);
      NoPost(s, ls[0], job);
      WorldGrows(s, ls[0]);
      GuardedRun(s1, ls[1..], job);
      hide Step, Guarded, Balanced;
      var posts := Run(s1, ls[1..]).w.posts;
      forall k | |s.w.posts| <= k < |posts| ensures posts[k].job != job {
        if k < |s1.w.posts| { assert posts[k] == s1.w.posts[k]; }
      }
    }
  }

  /** If the cancel flag of a job is raised at a moment when no webhook for it is
      under way, then no webhook of either kind is ever posted for it again:
      not by the processing that is running, not by the delivery of its batch,
      and not after lost calls, crashes, restarts or redeliveries. */
  lemma CancelSafety(r: Redis, canBatch: bool, ls: seq<Label>, more: seq<Label>, job: string)
    requires NewGroup(r) && Guarded(Run(Init(r, canBatch), ls), job)
    ensures var s := Run(Init(r, canBatch), ls);
            NeverPosted(Run(s, more).w.posts, |s.w.posts|, job)
  {
    BalancedRun(Init(r, canBatch), ls);
    GuardedRun(Run(Init(r, canBatch), ls), more, job);
  }

  // ---------------------------------------------------------------- the last status write

  /** The last status write a processing attempted. */
  function LastWrite(log: seq<Event>, act: nat): Option<JobState> {
    if log == [] then None
    else
      var e := log[|log| - 1];
      if e.Wrote? && e.act == act then Some(e.state) else LastWrite(log[..|log| - 1], act)
  }

  lemma {:induction false} LastWriteSkips(log: seq<Event>, more: seq<Event>, act: nat)
    requires forall k :: 0 <= k < |more| ==> !(more[k].Wrote? && more[k].act == act)
    ensures LastWrite(log + more, act) == LastWrite(log, act)
  {
    if more == [] {
      assert log + more == log;
    } else {
      var n := |more| - 1;
      assert (log + more)[..|log + more| - 1] == log + more[..n];
      LastWriteSkips(log, more[..n], act);
    }
  }

  /** What a step adds to the history after its call are no writes. */
  lemma NotesAreNoWrites(s: State, l: Label) returns (more: seq<Event>)
    ensures Step(s, l).w.log == Do(s.w, OpOf(s, l), IoOf(l), ReplyOf(s, l)).log + more
    ensures forall k :: 0 <= k < |more| ==> !more[k].Wrote?
  {
    LogStep(s, l);
    hide Step, OpOf, Do, StartsNow;
    var d, log' := Do(s.w, OpOf(s, l), IoOf(l), ReplyOf(s, l)).log, Step(s, l).w.log;
    more := log'[|d|..];
    forall k | 0 <= k < |more| ensures !more[k].Wrote? { assert NoteFits(s, l, log'[|d| + k]); }
  }

  /** After one step the last write of `act` is the one the step made, if it made one. */
  lemma LastWriteStep(s: State, l: Label, act: nat)
    ensures var op := OpOf(s, l);
            LastWrite(Step(s, l).w.log, act)
            == if op.SetStatus? && op.act == act then Some(op.st) else LastWrite(s.w.log, act)
  {
    var op := OpOf(s, l);
    var d := Do(s.w, op, IoOf(l), ReplyOf(s, l)).log;
    DoLog(s.w, op, IoOf(l), ReplyOf(s, l));
    if op.SetStatus? { DoWrites(s.w, op, IoOf(l), ReplyOf(s, l)); }
    hide Step, OpOf, Do, LastWrite;
    var more := NotesAreNoWrites(s, l);
    LastWriteSkips(d, more, act);
    if op.SetStatus? { LastWriteAppend(s.w.log, Wrote(op.act, op.job, op.st), act); }
  }

  lemma LastWriteAppend(log: seq<Event>, e: Event, act: nat)
    requires e.Wrote?
    ensures LastWrite(log + [e], act) == if e.act == act then Some(e.state) else LastWrite(log, act)
  {
    assert (log + [e])[..|log|] == log;
  }

  lemma DoWrites(w: World, op: Op, io: Io, reply: Reply)
    requires op.SetStatus?
    ensures Do(w, op, io, reply).log == w.log + [Wrote(op.act, op.job, op.st)]
  {
  }
}
