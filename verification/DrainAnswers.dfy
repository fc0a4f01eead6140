/** What `drain` answers, and why. */
module DrainAnswers {
  import opened Prelude
  import opened Webhook
  import opened Consumer
  import opened Effects
  import opened Flight
  import opened Witness

  predicate Waiting(d: Draining) {
    d.WaitIdle? || d.WaitDelivery?
  }

  /** Since the last start the timeout of a waiting `drain` has expired. */
  ghost predicate TimedOut(s: State, ls: seq<Label>)
    decreases |ls|
  {
    && ls != []
    && var before, l := ls[..|ls| - 1], ls[|ls| - 1];
       && !l.Crash?
       && (TimedOut(s, before) || (l.DrainTimeout? && Waiting(Run(s, before).drain)))
  }

  lemma FalseStep(s: State, l: Label)
    ensures Step(s, l).drain == Drained(false) <==>
            !l.Crash? && (s.drain == Drained(false) || (l.DrainTimeout? && Waiting(s.drain)))
  {
    match l
    case Resume(io, reply, alt) => ResumeDrain(s, io, reply, alt); hide Advance;
    case ResumeChild(_, _, _) => hide Advance, ChildOp, ChildNext, Ask, Do;
    case Gather => hide Advance, Children, AnyBroken, AllFinished;
    case _ => hide Advance, StopAll, CancelLast;
  }

  lemma {:induction false} FalseRun(s: State, ls: seq<Label>)
    requires s.drain != Drained(false)
    ensures Run(s, ls).drain == Drained(false) <==> TimedOut(s, ls)
    decreases |ls|
  {
    if ls != [] {
      var before, l := ls[..|ls| - 1], ls[|ls| - 1];
      assert ls == before + [l];
      FalseRun(s, before);
      RunLast(s, before, l);
      FalseStep(Run(s, before), l);
    }
    hide Step, Run, Waiting;
  }

  /** In every run `drain` has answered False if and only if its timeout expired
      while it was waiting. */
  lemma FalseMeansTimeout(r: Redis, canBatch: bool, ls: seq<Label>)
    ensures Run(Init(r, canBatch), ls).drain == Drained(false) <==> TimedOut(Init(r, canBatch), ls)
  {
    FalseRun(Init(r, canBatch), ls);
    hide Run, TimedOut;
  }

  // ---------------------------------------------------------------- an answer in time

  /** What `drain` first waits for has happened. */
  predicate Reached(s: State) {
    s.drain.WaitDelivery? || (s.drain.WaitIdle? && s.p.idle)
  }

  /** No delivery is stored, or the stored one ended well. */
  predicate DeliveryOver(s: State) {
    s.delivery.None? || s.delivery.value.phase.Done?
  }

  predicate DeliveryLost(s: State) {
    s.delivery.Some? && (s.delivery.value.phase.Failing? || s.delivery.value.phase.Aborted?)
  }

  /** `drain` resumed once, where it waits for the delivery. */
  lemma DeliveryAnswers(s: State)
    requires s.drain.WaitDelivery?
    ensures var s' := Step(s, DrainResume);
            && s'.drain == (if DeliveryOver(s) then Drained(true) else if DeliveryLost(s) then DrainRaised
                            else WaitDelivery)
            && s' == s.(drain := s'.drain, delivery := if s'.drain == Drained(true) then None else s.delivery)
  {
    hide Advance;
  }

  lemma IdleAnswers(s: State)
    requires s.drain.WaitIdle?
    ensures Step(s, DrainResume) ==
            if !s.p.idle then s
            else if s.delivery.None? then s.(drain := Drained(true)) else s.(drain := WaitDelivery)
  {
    hide Advance;
  }

  lemma AnsweredStays(s: State)
    requires !Waiting(s.drain)
    ensures Step(s, DrainResume) == s
  {
    hide Advance;
  }

  /** Resumed twice, once for each thing it waits for, a waiting `drain` answers True
      exactly when the node was idle and the stored delivery is gone or ended well,
      raises exactly when the delivery did, and otherwise goes on waiting. An answer
      of True leaves no delivery stored, and nothing else ever changes. */
  lemma DrainAnswersInTime(s: State)
    requires Waiting(s.drain)
    ensures var s' := Run(s, [DrainResume, DrainResume]);
            && (s'.drain == Drained(true) <==> Reached(s) && DeliveryOver(s))
            && (s'.drain == DrainRaised <==> Reached(s) && DeliveryLost(s))
            && (Waiting(s'.drain) <==> !Reached(s) || (!DeliveryOver(s) && !DeliveryLost(s)))
            && s' == s.(drain := s'.drain, delivery := if s'.drain == Drained(true) then None else s.delivery)
  {
    RunTwo(s, DrainResume, DrainResume);
    hide Run, Step;
    var s1 := Step(s, DrainResume);
    if s.drain.WaitDelivery? {
      DeliveryAnswers(s);
      if s1.drain.WaitDelivery? { DeliveryAnswers(s1); } else { AnsweredStays(s1); }
    } else {
      IdleAnswers(s);
      if s1.drain.WaitIdle? {
        IdleAnswers(s1);
      } else if s1.drain.WaitDelivery? {
        DeliveryAnswers(s1);
      } else {
        AnsweredStays(s1);
      }
    }
  }

  /** The same answer reaches a waiting `drain` through the consume loop, when the
      loop is the one to find that the delivery has ended well. */
  lemma LoopAnswersDrain(s: State, io: Io, reply: Reply, alt: bool)
    requires s.main.Joining? && s.drain.WaitDelivery? && s.delivery.Some?
    ensures var s' := Step(s, Resume(io, reply, alt));
            if DeliveryOver(s) then s'.drain == Drained(true) && s'.delivery.None?
            else s'.drain.WaitDelivery? && s'.delivery == s.delivery
  {
    DispatchLanded(s.(delivery := None, drain := Drained(true)), s.main.batch, alt);
    hide Dispatch, Delay;
  }

  // ---------------------------------------------------------------- the delivery that is waited for

  /** `drain` has got past its idle wait only with a delivery stored that is over. */
  ghost predicate WaitsForNothing(s: State) {
    s.drain.WaitDelivery? ==> s.delivery.Some? && !Outstanding(s)
  }

  lemma ResumeWaits(s: State, io: Io, reply: Reply, alt: bool)
    requires IdleFits(s) && WaitsForNothing(s)
    ensures WaitsForNothing(Advance(s, io, reply, alt))
  {
    ResumeDrain(s, io, reply, alt);
    if s.drain.WaitDelivery? {
      match s.main
      case Reading => ReadLanded(s, io, alt); hide ReadAdvance, Outstanding;
      case Joining(batch) => JoinedWaits(s, batch, alt); hide JoinAdvance, Outstanding;
      case _ => hide Delay;
    } else {
      hide Advance;
    }
  }

  lemma JoinedWaits(s: State, batch: seq<Id>, alt: bool)
    requires s.main == Joining(batch) && s.drain.WaitDelivery? && s.delivery.Some? && !Outstanding(s)
    ensures WaitsForNothing(JoinAdvance(s, batch, alt))
  {
    DispatchLanded(s.(delivery := None, drain := Drained(true)), batch, alt);
    hide Dispatch, Delay;
  }

  lemma WaitsStep(s: State, l: Label)
    requires IdleFits(s) && WaitsForNothing(s)
    ensures WaitsForNothing(Step(s, l))
  {
    match l
    case Resume(io, reply, alt) => ResumeWaits(s, io, reply, alt); hide Advance;
    case ResumeChild(_, _, _) => hide Advance, ChildOp, ChildNext, Ask, Do;
    case Gather => hide Advance, Children, AnyBroken, AllFinished;
    case _ => hide Advance, StopAll, CancelLast;
  }

  lemma {:induction false} WaitsRun(s: State, ls: seq<Label>)
    requires IdleFits(s) && WaitsForNothing(s)
    ensures IdleFits(Run(s, ls)) && WaitsForNothing(Run(s, ls))
    decreases |ls|
  {
    if ls != [] {
      WaitsStep(s, ls[0]);
      IdleFitsStep(s, ls[0]);
      WaitsRun(Step(s, ls[0]), ls[1..]);
    }
    hide Step, IdleFits, WaitsForNothing;
  }

  /** In every run: when `drain` waits for a delivery, that delivery has already ended, so
      an expiring timeout changes nothing but the answer. */
  lemma DrainCancelsNoDelivery(r: Redis, canBatch: bool, ls: seq<Label>)
    requires Run(Init(r, canBatch), ls).drain.WaitDelivery?
    ensures var s := Run(Init(r, canBatch), ls);
            s.delivery.Some? && !Outstanding(s) && Step(s, DrainTimeout) == s.(drain := Drained(false))
  {
    WaitsRun(Init(r, canBatch), ls);
    hide Run, Advance, StopAll;
  }
}
