/** How each delivery of a batch result ends. */
module Deliveries {
  import opened Prelude
  import opened Webhook
  import opened Consumer
  import opened Effects
  import opened Flight
  import opened Outcomes
  import opened Witness

  /** The step is one of the delivery numbered `act`. */
  predicate Delivers(s: State, l: Label, act: nat) {
    ChildActs(s, l) && s.delivery.value.tasks[l.i].act == act
  }

  /** A flag read of the delivery `act` was lost. */
  ghost predicate FlagReadLost(s: State, ls: seq<Label>, act: nat)
    decreases |ls|
  {
    && ls != []
    && var before, l := ls[..|ls| - 1], ls[|ls| - 1];
       var s1 := Run(s, before);
       FlagReadLost(s, before, act) || (Delivers(s1, l, act) && OpOf(s1, l).GetFlag? && IoOf(l).Lost?)
  }

  /** The delivery `act` has attempted its XACK. */
  ghost predicate XackDone(s: State, ls: seq<Label>, act: nat)
    decreases |ls|
  {
    && ls != []
    && var before, l := ls[..|ls| - 1], ls[|ls| - 1];
       var s1 := Run(s, before);
       XackDone(s, before, act) || (Delivers(s1, l, act) && OpOf(s1, l).AckMessage?)
  }

  /** What is known of a delivery from where it is. */
  predicate EndsAs(pc: ChildPc, lost: bool, acked: bool) {
    !pc.Stopped? ==> (pc.Broken? <==> lost) && (pc.Finished? <==> acked)
  }

  lemma ChildEnds(r: Redis, c: Child, io: Io, reply: Reply, lost: bool, acked: bool)
    requires EndsAs(c.pc, lost, acked)
    ensures var op := ChildOp(r, c);
            EndsAs(ChildNext(c.pc, Ask(r, op, io, reply)), lost || (op.GetFlag? && io.Lost?), acked || op.AckMessage?)
  {
    hide JobOf;
  }

  /** Every delivery under way ends as its history says, and numbers not yet given have none. */
  ghost predicate EndsFit(s0: State, ls: seq<Label>, s: State) {
    && (forall act :: s.w.acts <= act ==> !FlagReadLost(s0, ls, act) && !XackDone(s0, ls, act))
    && (s.delivery.Some? ==>
          forall i :: 0 <= i < |s.delivery.value.tasks| ==>
            var c := s.delivery.value.tasks[i];
            EndsAs(c.pc, FlagReadLost(s0, ls, c.act), XackDone(s0, ls, c.act)))
  }

  lemma HistoryGrows(s0: State, before: seq<Label>, l: Label, act: nat)
    ensures var ls, s := before + [l], Run(s0, before);
            && (FlagReadLost(s0, ls, act) <==>
                  FlagReadLost(s0, before, act) || (Delivers(s, l, act) && OpOf(s, l).GetFlag? && IoOf(l).Lost?))
            && (XackDone(s0, ls, act) <==>
                  XackDone(s0, before, act) || (Delivers(s, l, act) && OpOf(s, l).AckMessage?))
  {
    assert (before + [l])[..|before|] == before;
    hide Run, OpOf, Delivers;
  }

  lemma OnlyNumbered(s: State, l: Label, act: nat)
    requires Numbered(s) && s.w.acts <= act
    ensures !Delivers(s, l, act)
  {
  }

  lemma NothingYet(s0: State, ls: seq<Label>, s: State, act: nat)
    requires EndsFit(s0, ls, s) && s.w.acts <= act
    ensures !FlagReadLost(s0, ls, act) && !XackDone(s0, ls, act)
  {
    hide FlagReadLost, XackDone;
  }

  /** A step of one delivery is no step of another. */
  lemma OtherActs(s: State, l: Label, i: nat)
    requires Numbered(s) && s.delivery.Some? && i < |s.delivery.value.tasks| && (ChildActs(s, l) ==> l.i != i)
    ensures !Delivers(s, l, s.delivery.value.tasks[i].act)
  {
    if ChildActs(s, l) {
      var a, b := if l.i < i then l.i else i, if l.i < i then i else l.i;
      assert s.delivery.value.tasks[a].act != s.delivery.value.tasks[b].act;
    }
  }

  lemma TaskEnds(s0: State, before: seq<Label>, l: Label, i: nat)
    requires var s := Run(s0, before); IdleFits(s) && Numbered(s) && EndsFit(s0, before, s)
    requires var d' := Step(Run(s0, before), l).delivery; d'.Some? && i < |d'.value.tasks|
    ensures var c' := Step(Run(s0, before), l).delivery.value.tasks[i];
            EndsAs(c'.pc, FlagReadLost(s0, before + [l], c'.act), XackDone(s0, before + [l], c'.act))
  {
    var s := Run(s0, before);
    var c' := Step(s, l).delivery.value.tasks[i];
    DeliveryStep(s, l);
    HistoryGrows(s0, before, l, c'.act);
    hide Run, Step, FlagReadLost, XackDone, IdleFits;
    if ChildActs(s, l) && l.i == i {
      var c := s.delivery.value.tasks[i];
      ChildEnds(s.w.redis, c, l.cio, l.creply, FlagReadLost(s0, before, c.act), XackDone(s0, before, c.act));
      hide ChildOp, ChildNext, Ask;
    } else if s.delivery.Some? && i < |s.delivery.value.tasks| && c' == s.delivery.value.tasks[i] {
      OtherActs(s, l, i);
      hide OpOf, ChildNext;
    } else {
      hide OpOf, ChildOp, ChildNext, EndsFit;
      if c'.pc.CheckFirst? {
        FreshTask(s, l, i);
        NothingYet(s0, before, s, c'.act);
        OnlyNumbered(s, l, c'.act);
      }
    }
  }

  lemma EndsFitStep(s0: State, before: seq<Label>, l: Label)
    requires var s := Run(s0, before); IdleFits(s) && Numbered(s) && EndsFit(s0, before, s)
    ensures EndsFit(s0, before + [l], Step(Run(s0, before), l))
  {
    var s := Run(s0, before);
    var s' := Step(s, l);
    ActsGrow(s, l);
    forall act | s'.w.acts <= act ensures !FlagReadLost(s0, before + [l], act) && !XackDone(s0, before + [l], act) {
      HistoryGrows(s0, before, l, act);
      NothingYet(s0, before, s, act);
      OnlyNumbered(s, l, act);
      hide Step, Run, FlagReadLost, XackDone, OpOf, Delivers, EndsFit;
    }
    if s'.delivery.Some? {
      forall i | 0 <= i < |s'.delivery.value.tasks|
        ensures var c := s'.delivery.value.tasks[i];
                EndsAs(c.pc, FlagReadLost(s0, before + [l], c.act), XackDone(s0, before + [l], c.act))
      {
        TaskEnds(s0, before, l, i);
      }
    }
    hide Step, Run, FlagReadLost, XackDone, EndsAs, IdleFits, Numbered;
  }

  lemma {:induction false} EndsFitRun(s0: State, ls: seq<Label>)
    requires IdleFits(s0) && Numbered(s0) && s0.delivery.None?
    ensures var s := Run(s0, ls); IdleFits(s) && Numbered(s) && EndsFit(s0, ls, s)
    decreases |ls|
  {
    if ls == [] {
      assert Run(s0, ls) == s0;
    } else {
      var before, l := ls[..|ls| - 1], ls[|ls| - 1];
      assert ls == before + [l];
      EndsFitRun(s0, before);
      RunLast(s0, before, l);
      IdleFitsStep(Run(s0, before), l);
      NumberedStep(Run(s0, before), l);
      EndsFitStep(s0, before, l);
      hide Step, Run, IdleFits, Numbered, EndsFit;
    }
  }

  /** In every run, however its POSTs are answered: a delivery that was not stopped is
      finished exactly when it has attempted its XACK, and has raised exactly when
      one of its flag reads was lost; so nothing else keeps a message of a batch
      from being acknowledged. */
  lemma DeliveriesEndExactly(r: Redis, canBatch: bool, ls: seq<Label>, i: nat)
    requires var s := Run(Init(r, canBatch), ls);
             s.delivery.Some? && i < |s.delivery.value.tasks| && !s.delivery.value.tasks[i].pc.Stopped?
    ensures var c := Run(Init(r, canBatch), ls).delivery.value.tasks[i];
            && (c.pc.Broken? <==> FlagReadLost(Init(r, canBatch), ls, c.act))
            && (c.pc.Finished? <==> XackDone(Init(r, canBatch), ls, c.act))
  {
    EndsFitRun(Init(r, canBatch), ls);
    hide Run, FlagReadLost, XackDone, IdleFits, Numbered;
  }

  // ---------------------------------------------------------------- why a delivery raises

  /** It raises a connection error when a part of it did, and another error when the results do not match the jobs. */
  ghost predicate RaisesFor(d: Delivery) {
    && (d.phase.Gathering? || d.phase.Done? ==> |d.parsed| == |d.results|)
    && (d.phase.Failing? ==> (d.phase.conn <==> |d.parsed| == |d.results|))
    && (d.phase == Failing(true) ==> AnyBroken(d.tasks))
  }

  ghost predicate RaisesFit(s: State) {
    s.delivery.Some? ==> RaisesFor(s.delivery.value)
  }

  lemma RaisesFitStep(s: State, l: Label)
    requires RaisesFit(s)
    ensures RaisesFit(Step(s, l))
  {
    match l
    case Resume(io, reply, alt) => ResumeRaises(s, io, reply, alt); hide Advance;
    case ResumeChild(i, io, reply) =>
      if s.delivery.Some? { BrokenStays(s, i, io, reply); }
      hide Advance, ChildOp, ChildNext, Ask, Do, AnyBroken;
    case Gather => hide Advance, AnyBroken, AllFinished;
    case _ => hide Advance, AnyBroken;
  }

  lemma BrokenStays(s: State, i: nat, io: Io, reply: Reply)
    requires s.delivery.Some?
    ensures ChildAdvance(s, i, io, reply).delivery.Some?
    ensures AnyBroken(s.delivery.value.tasks) ==> AnyBroken(ChildAdvance(s, i, io, reply).delivery.value.tasks)
  {
    var ts, ts' := s.delivery.value.tasks, ChildAdvance(s, i, io, reply).delivery.value.tasks;
    if k :| 0 <= k < |ts| && ts[k].pc == Broken { assert ts'[k].pc == Broken; }
    hide ChildOp, Ask, Do;
  }

  lemma ResumeRaises(s: State, io: Io, reply: Reply, alt: bool)
    requires RaisesFit(s)
    ensures RaisesFit(Advance(s, io, reply, alt))
  {
    match s.main
    case Processing(f, rest, k) => MessageControl(s, f, rest, k, io, reply); hide MsgAdvance, RaisesFor;
    case Triage(_, _, _, _, _, _) => TriageControl(s, io); hide TriageAdvance, RaisesFor;
    case Marking(_, _, _, _) => MarkControl(s, io, alt); hide MarkAdvance, RaisesFor;
    case Reading => ReadControl(s, io, alt); hide ReadAdvance, RaisesFor;
    case Joining(batch) => JoinControl(s, batch, alt); hide JoinAdvance, RaisesFor;
    case Running(batch, _) => NextLanded(s, batch, FallingBack); hide NextMessage;
    case _ => hide Malformed, Delay, RaisesFor;
  }

  lemma {:induction false} RaisesFitRun(s: State, ls: seq<Label>)
    requires RaisesFit(s)
    ensures RaisesFit(Run(s, ls))
    decreases |ls|
  {
    if ls != [] {
      RaisesFitStep(s, ls[0]);
      RaisesFitRun(Step(s, ls[0]), ls[1..]);
    }
    hide Step, RaisesFit;
  }

  /** In every run a stored delivery has raised a connection error exactly when the number
      of results was right, and then one of its parts has raised; with a wrong number
      it raises an error that counts as no failure of Redis. */
  lemma RaisesExactly(r: Redis, canBatch: bool, ls: seq<Label>)
    requires var s := Run(Init(r, canBatch), ls); s.delivery.Some? && s.delivery.value.phase.Failing?
    ensures var d := Run(Init(r, canBatch), ls).delivery.value;
            && (d.phase.conn <==> |d.parsed| == |d.results|)
            && (d.phase.conn ==> exists i :: 0 <= i < |d.tasks| && d.tasks[i].pc.Broken?)
  {
    RaisesFitRun(Init(r, canBatch), ls);
    hide Run;
  }

  // ---------------------------------------------------------------- every delivery can end

  /** Steps a delivery still has to take when its calls are answered. */
  function StepsLeft(pc: ChildPc): nat {
    match pc
    case CheckFirst => 5
    case Write => 4
    case CheckSecond => 3
    case Mark => 2
    case Send(_) => 2
    case Ack => 1
    case _ => 0
  }

  /** Answered calls bring a delivery nearer to its XACK. */
  lemma DeliveriesProgress(s: State, i: nat)
    requires s.delivery.Some? && i < |s.delivery.value.tasks| && StepsLeft(s.delivery.value.tasks[i].pc) > 0
    ensures var c' := Step(s, ResumeChild(i, Fine, Accepted)).delivery.value.tasks[i];
            StepsLeft(c'.pc) < StepsLeft(s.delivery.value.tasks[i].pc) && !c'.pc.Broken?
  {
    hide JobOf;
  }
}
