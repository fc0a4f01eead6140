/** What cancelling the consumer task brings about. */
module Forcing {
  import opened Prelude
  import opened Consumer
  import opened Effects
  import opened Flight
  import opened Outcomes

  /** Inside the `try` of `_process_message`, and not already on the way out of it. */
  predicate Inside(m: Main) {
    && m.Processing?
    && (m.f.pc.Waiting? || m.f.pc.CheckPolling? || m.f.pc.CancelHook? || m.f.pc.CheckFinished? || m.f.pc.CheckResult?
        || m.f.pc.WriteCompleted? || m.f.pc.CheckCompleted? || m.f.pc.SendResult? || m.f.pc.MarkCancelled?
        || m.f.pc.CheckHandler? || m.f.pc.WriteFailed? || m.f.pc.SendError?)
  }

  /** Waiting for an executor call it has cancelled. */
  predicate Swallowing(m: Main) {
    m.Processing? && m.f.pc.JoinCancelled?
  }

  lemma ForceMoves(s: State)
    ensures var s' := Force(s);
            && (Inside(s.main) ==> s'.main == s.main.(f := s.main.f.(pc := FinalAck(ForcedEscape))))
            && (Swallowing(s.main) ==> s'.main == s.main && s'.calls == s.calls)
            && (!Inside(s.main) && !Swallowing(s.main) ==> s'.main.Ended?)
            && s'.w.redis == s.w.redis && s'.w.posts == s.w.posts
  {
    hide StopAll, CancelLast;
  }

  lemma ForcedLeaves(s: State, l: Label)
    requires s.main.Processing? && s.main.f.pc == FinalAck(ForcedEscape) && l.Resume?
    ensures Step(s, l).main.Ended? && Step(s, l).p.idle && OpOf(s, l) == AckMessage(s.main.f.id)
  {
    hide FieldsOf, JobOf, Do;
  }

  lemma EndedDoesNothing(s: State, l: Label)
    requires s.main.Ended? && l.Resume?
    ensures Step(s, l).main.Ended? && OpOf(s, l).Nothing?
  {
  }

  /** A cancellation of the consumer ends its loop, with its next step at the latest,
      unless the loop is waiting for an executor call it has cancelled, where it is
      swallowed. The message under way is acknowledged, and the node reported
      idle, exactly if the loop was inside the `try`. */
  lemma ForcedExactly(s: State, l: Label)
    requires l.Resume?
    ensures var s1 := Step(s, ForceCancel);
            var s2 := Step(s1, l);
            && (Swallowing(s.main) ==> s1.main == s.main && s1.calls == s.calls)
            && (!Swallowing(s.main) ==> s2.main.Ended?)
            && (!Swallowing(s.main) ==> (OpOf(s1, l).AckMessage? <==> Inside(s.main)))
            && (Inside(s.main) ==> OpOf(s1, l) == AckMessage(s.main.f.id) && s2.p.idle)
            && s1.w.redis == s.w.redis && s1.w.posts == s.w.posts
  {
    var s1 := Step(s, ForceCancel);
    ForceMoves(s);
    assert s1 == Force(s) by { hide Force; }
    if Inside(s.main) {
      ForcedLeaves(s1, l);
    } else if !Swallowing(s.main) {
      EndedDoesNothing(s1, l);
    }
    hide Step, Force, OpOf;
  }

  /** In every run: a cancellation while the loop waits for a delivery stops the
      delivery and every part of it; the idle flag is set if the delivery had begun,
      and stays clear if it had not. */
  lemma ForcedDelivery(r: Redis, canBatch: bool, before: seq<Label>)
    requires var s := Run(Init(r, canBatch), before); s.main.Joining? && Outstanding(s)
    ensures var s := Run(Init(r, canBatch), before);
            var s' := Step(s, ForceCancel);
            && s'.main.Ended? && s'.delivery.Some? && s'.delivery.value.phase.Aborted?
            && |s'.delivery.value.tasks| == |s.delivery.value.tasks|
            && (forall i :: 0 <= i < |s'.delivery.value.tasks| ==> s'.delivery.value.tasks[i].pc.Stopped?)
            && (s'.p.idle <==> s.delivery.value.phase.Gathering?)
  {
    FlightRun(Init(r, canBatch), before);
    var s := Run(Init(r, canBatch), before);
    assert !s.p.idle && (s.delivery.value.phase.Created? ==> s.delivery.value.tasks == []);
    hide Run, Advance;
  }
}
