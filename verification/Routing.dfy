/** Results reach the jobs they belong to. */
module Routing {
  import opened Prelude
  import opened Webhook
  import opened Consumer
  import opened Effects
  import opened Ledger
  import opened Justification
  import opened Flight
  import opened Safety
  import opened Outcomes

  /** The executor was given the message's own circuit and shots at some position
      and answered `r` at that position, one answer per job. */
  ghost predicate Fed(r: Redis, e: Event, id: Id, res: ExecutionResult) {
    && e.Ran?
    && |e.ids| == |e.works| == |e.results|
    && exists p :: 0 <= p < |e.ids| && e.ids[p] == id && e.works[p] == WorkOf(r, id) && e.results[p] == res
  }

  ghost predicate Routed(w: World, id: Id, res: ExecutionResult) {
    exists k :: 0 <= k < |w.log| && Fed(w.redis, w.log[k], id, res)
  }

  lemma RoutedStays(w: World, w': World, id: Id, res: ExecutionResult)
    requires Grows(w, w') && id < |w.redis.stream| && Routed(w, id, res)
    ensures Routed(w', id, res)
  {
    ReasonStays(w, w', id);
    var k :| 0 <= k < |w.log| && Fed(w.redis, w.log[k], id, res);
    assert w'.log[k] == w.log[k];
    assert Fed(w'.redis, w'.log[k], id, res);
  }

  ghost predicate MainRouted(s: State) {
    match s.main
    case Processing(f, _, _) =>
      && (ResultAt(f.pc).Some? ==> Routed(s.w, f.id, ResultAt(f.pc).value))
      && (f.pc.Waiting? || f.pc.CheckPolling? ==> FieldsOf(s.w.redis, f.id).work.Some?)
    case Running(_, parsed) => s.calls != [] && s.calls[|s.calls| - 1].jobs == Works(s.w.redis, parsed)
    case _ => true
  }

  ghost predicate DeliveryRouted(w: World, d: Option<Delivery>) {
    d.Some? ==>
      && (|d.value.parsed| != |d.value.results| ==> d.value.tasks == [])
      && (|d.value.parsed| == |d.value.results| ==>
            forall i :: 0 <= i < |d.value.parsed| ==> Routed(w, d.value.parsed[i], d.value.results[i]))
      && (forall i :: 0 <= i < |d.value.tasks| ==> Routed(w, d.value.tasks[i].id, d.value.tasks[i].result))
  }

  ghost predicate PostRouted(w: World, p: Post) {
    && p.id < |w.redis.stream|
    && p.job == JobOf(w.redis, p.id)
    && (p.payload.Success? ==> Routed(w, p.id, p.payload.result))
  }

  ghost predicate AllRouted(s: State) {
    && MainRouted(s)
    && DeliveryRouted(s.w, s.delivery)
    && (forall i :: 0 <= i < |s.w.posts| ==> PostRouted(s.w, s.w.posts[i]))
  }

  // ---------------------------------------------------------------- posts

  lemma OpRouted(s: State, l: Label)
    requires Balanced(s) && AllRouted(s)
    ensures var op := OpOf(s, l);
            op.PostOutcome? ==>
              && op.id < |s.w.redis.stream|
              && op.job == JobOf(s.w.redis, op.id)
              && (op.payload.Success? ==> Routed(s.w, op.id, op.payload.result))
  {
    CursorBelow(s);
    hide Routed, RedisBalanced;
  }

  lemma PostsRouted(s: State, l: Label, i: nat)
    requires Balanced(s) && AllRouted(s) && i < |Step(s, l).w.posts|
    ensures PostRouted(Step(s, l).w, Step(s, l).w.posts[i])
  {
    var w' := Step(s, l).w;
    PostsAfter(s, l);
    OpRouted(s, l);
    WorldGrows(s, l);
    var p := w'.posts[i];
    hide Step, OpOf, Routed;
    assert p.id < |s.w.redis.stream| && p.job == JobOf(s.w.redis, p.id);
    ReasonStays(s.w, w', p.id);
    if p.payload.Success? { RoutedStays(s.w, w', p.id, p.payload.result); }
  }

  // ---------------------------------------------------------------- the consume loop

  lemma FrameRouted(s: State, l: Label)
    requires l.Resume? && s.main.Processing? && AllRouted(s) && Balanced(s)
    ensures var mv := MsgMove(s, s.main.f, l.io, l.reply);
            && (mv.Go? && ResultAt(mv.pc).Some? ==> Routed(Step(s, l).w, s.main.f.id, ResultAt(mv.pc).value))
            && (mv.Go? && (mv.pc.Waiting? || mv.pc.CheckPolling?) ==> FieldsOf(s.w.redis, s.main.f.id).work.Some?)
  {
    var f := s.main.f;
    var w' := Step(s, l).w;
    var mv := MsgMove(s, f, l.io, l.reply);
    WorldGrows(s, l);
    CursorBelow(s);
    if mv.Go? && ResultAt(mv.pc).Some? {
      var res := ResultAt(mv.pc).value;
      KeepsResult(s, f, l.io, l.reply);
      if f.pc.Waiting? {
        MessageCarries(s, f, s.main.rest, s.main.k, l.io, l.reply);
        RanNow(s, f, l.io, l.reply, w', res);
      } else {
        RoutedStays(s.w, w', f.id, res);
      }
    }
    hide Step, MsgMove;
  }

  /** A result comes from the run task or is the one the processing already had. */
  lemma KeepsResult(s: State, f: Frame, io: Io, reply: Reply)
    ensures var mv := MsgMove(s, f, io, reply);
            mv.Go? && ResultAt(mv.pc).Some? ==>
              (f.pc.Waiting? && mv.pc == CheckFinished(ResultAt(mv.pc).value)) || ResultAt(f.pc) == ResultAt(mv.pc)
  {
    hide JobOf, FieldsOf;
  }

  lemma RanNow(s: State, f: Frame, io: Io, reply: Reply, w': World, res: ExecutionResult)
    requires f.pc.Waiting? && MsgMove(s, f, io, reply) == Go(CheckFinished(res))
    requires FieldsOf(s.w.redis, f.id).work.Some? && f.id < |s.w.redis.stream| && Grows(s.w, w')
    requires var a := Ask(s.w.redis, MsgOp(s.w.redis, f), io, reply);
             var work := FieldsOf(s.w.redis, f.id).work;
             Do(s.w, MsgOp(s.w.redis, f), io, reply).log
               + MsgNotes(f.id, JobOf(s.w.redis, f.id), work, f.pc, a, MsgMove(s, f, io, reply)) <= w'.log
    ensures Routed(w', f.id, res)
  {
    var d := Do(s.w, MsgOp(s.w.redis, f), io, reply).log;
    var e := Ran([f.id], [FieldsOf(s.w.redis, f.id).work.value], [res]);
    assert MsgNotes(f.id, JobOf(s.w.redis, f.id), FieldsOf(s.w.redis, f.id).work, f.pc,
                    Ask(s.w.redis, MsgOp(s.w.redis, f), io, reply), MsgMove(s, f, io, reply)) == [e];
    assert (d + [e])[|d|] == e;
    assert w'.log[|d|] == e;
    ReasonStays(s.w, w', f.id);
    assert e.ids[0] == f.id && e.works[0] == WorkOf(w'.redis, f.id);
    assert Fed(w'.redis, w'.log[|d|], f.id, res);
  }

  lemma WorksFixed(w: World, w': World, ids: seq<Id>)
    requires Grows(w, w') && Below(ids, |w.redis.stream|)
    ensures Works(w'.redis, ids) == Works(w.redis, ids)
  {
    forall i | 0 <= i < |ids| ensures WorkOf(w'.redis, ids[i]) == WorkOf(w.redis, ids[i]) {
      ReasonStays(w, w', ids[i]);
    }
  }

  /** The batch call made when marking ends is for the works of the kept messages. */
  lemma MarkRouted(s: State, io: Io, alt: bool)
    requires s.main.Marking?
    ensures var s' := MarkAdvance(s, s.main.todo, s.main.batch, s.main.parsed, s.main.tact, io, alt);
            && (s'.main.Running? ==>
                  && s'.main.parsed == s.main.parsed
                  && s'.calls != []
                  && s'.calls[|s'.calls| - 1].jobs == Works(s.w.redis, s.main.parsed))
            && (s'.main.Processing? ==> s'.main.f.pc.AckMalformed? || s'.main.f.pc.ReadStatus?)
  {
    var m := s.main;
    if m.todo != [] {
      NextLanded(s.(w := Do(s.w, SetStatus(m.tact, JobOf(s.w.redis, m.todo[0]), Executing), io, Accepted)),
                 m.batch, FallingBack);
      hide NextMessage, Do, JobOf, Works, Jobs;
    }
  }

  lemma RestLanded(s: State, io: Io, reply: Reply, alt: bool)
    requires !(s.main.Processing? || s.main.Marking?)
    ensures var m' := Advance(s, io, reply, alt).main;
            Landed(m') || Advance(s, io, reply, alt) == s
  {
    match s.main
    case Triage(_, _, _, _, _, _) => TriageAdvanceLanded(s, io); hide TriageAdvance;
    case Reading => ReadLanded(s, io, alt); hide ReadAdvance;
    case Joining(batch) => JoinLanded(s, batch, alt); hide JoinAdvance;
    case Running(batch, _) => NextLanded(s, batch, FallingBack); hide NextMessage;
    case Listing(boot) =>
      NextLanded(s, s.w.redis.pel[..Min(RECOVERY_COUNT, |s.w.redis.pel|)], Recovering(boot, 0));
      hide NextMessage, Delay;
    case _ => hide Delay, Malformed;
  }

  lemma CallJobsStay(s: State, l: Label)
    requires !l.Resume? && s.main.Running? && Step(s, l).main.Running?
    ensures |Step(s, l).calls| == |s.calls|
    ensures forall i :: 0 <= i < |s.calls| ==> Step(s, l).calls[i].jobs == s.calls[i].jobs
  {
    match l
    case ResumeChild(_, _, _) => hide Advance, ChildOp, ChildNext, Ask, Do;
    case Gather => hide Advance, Children, AnyBroken, AllFinished;
    case _ => hide Advance, StopAll;
  }

  lemma MainRoutedStep(s: State, l: Label)
    requires Balanced(s) && AllRouted(s)
    ensures MainRouted(Step(s, l))
  {
    var s' := Step(s, l);
    WorldGrows(s, l);
    CursorBelow(s);
    if l.Resume? && s.main.Processing? {
      FrameRouted(s, l);
      MessageControl(s, s.main.f, s.main.rest, s.main.k, l.io, l.reply);
      MessageLanded(s, l.io, l.reply);
      ReasonStays(s.w, s'.w, s.main.f.id);
      hide Step, Routed, FieldsOf, MsgMove, Malformed;
    } else if l.Resume? && s.main.Marking? {
      MarkRouted(s, l.io, l.alt);
      WorksFixed(s.w, s'.w, s.main.parsed);
      hide MarkAdvance, Routed, Works, FieldsOf;
    } else if l.Resume? {
      RestLanded(s, l.io, l.reply, l.alt);
      hide Advance, Routed, Works, FieldsOf;
    } else {
      OtherMain(s, l);
      if s'.main == s.main { OtherRouted(s, l); }
      hide Step;
    }
  }

  lemma MessageLanded(s: State, io: Io, reply: Reply)
    requires s.main.Processing?
    ensures var s' := MsgAdvance(s, s.main.f, s.main.rest, s.main.k, io, reply);
            MsgMove(s, s.main.f, io, reply).Leave? ==> Landed(s'.main)
  {
    var f, rest, k := s.main.f, s.main.rest, s.main.k;
    var op := MsgOp(s.w.redis, f);
    var a := Ask(s.w.redis, op, io, reply);
    var work := FieldsOf(s.w.redis, f.id).work;
    var mv := MsgMove(s, f, io, reply);
    var s1 := s.(
      w := Noted(Do(s.w, op, io, reply), MsgNotes(f.id, JobOf(s.w.redis, f.id), work, f.pc, a, mv)),
      p := MsgLocal(s.p, JobOf(s.w.redis, f.id), f.pc, mv),
      calls := MsgCalls(s.calls, work, f.pc, a));
    if mv.Leave? { LeavingLanded(s1, rest, k, mv.escape); }
    hide MsgNext, MsgNotes, MsgLocal, MsgCalls, MsgOp, Ask, Do, FieldsOf, JobOf, Leaving;
  }

  lemma OtherRouted(s: State, l: Label)
    requires Balanced(s) && AllRouted(s) && !l.Resume? && Step(s, l).main == s.main
    ensures MainRouted(Step(s, l))
  {
    var s' := Step(s, l);
    WorldGrows(s, l);
    CursorBelow(s);
    match s.main
    case Processing(f, _, _) =>
      ReasonStays(s.w, s'.w, f.id);
      if ResultAt(f.pc).Some? { RoutedStays(s.w, s'.w, f.id, ResultAt(f.pc).value); }
      hide Step, Routed, FieldsOf;
    case Running(_, parsed) =>
      WorksFixed(s.w, s'.w, parsed);
      CallJobsStay(s, l);
      hide Step, Works;
    case _ => hide Step;
  }

  // ---------------------------------------------------------------- deliveries

  lemma DeliveryStays(w: World, w': World, d: Option<Delivery>)
    requires Grows(w, w') && DeliveryBelow(d, |w.redis.stream|) && DeliveryRouted(w, d)
    ensures DeliveryRouted(w', d)
  {
    if d.Some? {
      forall i | 0 <= i < |d.value.tasks| ensures Routed(w', d.value.tasks[i].id, d.value.tasks[i].result) {
        RoutedStays(w, w', d.value.tasks[i].id, d.value.tasks[i].result);
      }
      if |d.value.parsed| == |d.value.results| {
        forall i | 0 <= i < |d.value.parsed| ensures Routed(w', d.value.parsed[i], d.value.results[i]) {
          RoutedStays(w, w', d.value.parsed[i], d.value.results[i]);
        }
      }
    }
  }

  lemma BatchRouted(s: State, batch: seq<Id>, parsed: seq<Id>)
    requires s.main == Running(batch, parsed) && MainRouted(s) && s.delivery.None?
    requires Below(parsed, |s.w.redis.stream|)
    ensures var s' := BatchReturn(s, batch, parsed); DeliveryRouted(s'.w, s'.delivery)
  {
    var s' := BatchReturn(s, batch, parsed);
    if s'.delivery.Some? {
      var d := s'.delivery.value;
      var e := Ran(parsed, s.calls[|s.calls| - 1].jobs, d.results);
      assert s'.w.log[|s.w.log|] == e;
      if |d.parsed| == |d.results| {
        forall i | 0 <= i < |d.parsed| ensures Routed(s'.w, d.parsed[i], d.results[i]) {
          assert e.ids[i] == d.parsed[i] && e.works[i] == WorkOf(s'.w.redis, d.parsed[i]);
          assert Fed(s'.w.redis, s'.w.log[|s.w.log|], d.parsed[i], d.results[i]);
        }
      }
    } else {
      NextLanded(s, batch, FallingBack);
      hide NextMessage;
    }
  }

  lemma DeliveryRoutedStep(s: State, l: Label)
    requires Balanced(s) && IdleFits(s) && AllRouted(s)
    ensures DeliveryRouted(Step(s, l).w, Step(s, l).delivery)
  {
    var s' := Step(s, l);
    WorldGrows(s, l);
    CursorBelow(s);
    DeliveryStays(s.w, s'.w, s.delivery);
    if l.Resume? && s.main.Running? {
      BatchRouted(s, s.main.batch, s.main.parsed);
      hide BatchReturn, Routed;
    } else {
      DeliverySource(s, l);
      hide Step, Routed;
    }
  }

  /** Apart from a returning batch, deliveries keep their pairing. */
  lemma DeliverySource(s: State, l: Label)
    requires !(l.Resume? && s.main.Running?)
    ensures var d' := Step(s, l).delivery;
            d'.Some? ==>
              && s.delivery.Some?
              && d'.value.parsed == s.delivery.value.parsed
              && d'.value.results == s.delivery.value.results
              && (forall i :: 0 <= i < |d'.value.tasks| ==>
                    || (i < |s.delivery.value.tasks| && d'.value.tasks[i].id == s.delivery.value.tasks[i].id
                        && d'.value.tasks[i].result == s.delivery.value.tasks[i].result)
                    || (|d'.value.parsed| == |d'.value.results| == |d'.value.tasks|
                        && d'.value.tasks[i].id == d'.value.parsed[i]
                        && d'.value.tasks[i].result == d'.value.results[i]))
  {
    match l
    case Resume(io, reply, alt) => ResumeKeepsDelivery(s, io, reply, alt); hide Advance;
    case ResumeChild(_, _, _) => hide Advance, ChildOp, ChildNext, Ask, Do;
    case Gather => hide Advance, AnyBroken, AllFinished;
    case _ => hide Advance;
  }

  lemma ResumeKeepsDelivery(s: State, io: Io, reply: Reply, alt: bool)
    requires !s.main.Running?
    ensures Advance(s, io, reply, alt).delivery == s.delivery || Advance(s, io, reply, alt).delivery == None
  {
    if s.main.Processing? {
      MessageControl(s, s.main.f, s.main.rest, s.main.k, io, reply);
    } else if s.main.Triage? {
      TriageControl(s, io);
    } else if s.main.Marking? {
      MarkControl(s, io, alt);
    } else if s.main.Reading? {
      ReadControl(s, io, alt);
    } else if s.main.Joining? {
      JoinControl(s, s.main.batch, alt);
    } else {
      OtherKeepsDelivery(s, io, reply, alt);
    }
    hide MsgAdvance, TriageAdvance, MarkAdvance, ReadAdvance, JoinAdvance, NextMessage, Begin, ConnError, Backoff,
      Entry;
  }

  lemma OtherKeepsDelivery(s: State, io: Io, reply: Reply, alt: bool)
    requires s.main.Booting? || s.main.Listing? || s.main.Fetching? || s.main.Sleeping? || s.main.Ended?
    ensures Advance(s, io, reply, alt).delivery == s.delivery
  {
    hide Malformed, Delay;
  }

  lemma RoutedStep(s: State, l: Label)
    requires Balanced(s) && IdleFits(s) && AllRouted(s)
    ensures AllRouted(Step(s, l))
  {
    MainRoutedStep(s, l);
    DeliveryRoutedStep(s, l);
    forall i | 0 <= i < |Step(s, l).w.posts| ensures PostRouted(Step(s, l).w, Step(s, l).w.posts[i]) {
      PostsRouted(s, l, i);
    }
    hide Step, MainRouted, DeliveryRouted, PostRouted;
  }

  lemma {:induction false} RoutedRun(s: State, ls: seq<Label>)
    requires Balanced(s) && IdleFits(s) && AllRouted(s)
    ensures AllRouted(Run(s, ls))
    decreases |ls|
  {
    if ls != [] {
      BalancedStep(s, ls[0]);
      IdleFitsStep(s, ls[0]);
      RoutedStep(s, ls[0]);
      RoutedRun(Step(s, ls[0]), ls[1..]);
    }
    hide Step, Balanced, IdleFits, AllRouted;
  }

  /** Every completed POST, from a single run or out of a batch of which any
      messages were dropped, carries the result the executor returned at the
      position of that message's own circuit and shots, under its own job id. */
  lemma ResultsAreRouted(r: Redis, canBatch: bool, ls: seq<Label>, i: nat)
    requires NewGroup(r) && i < |Run(Init(r, canBatch), ls).w.posts|
    ensures PostRouted(Run(Init(r, canBatch), ls).w, Run(Init(r, canBatch), ls).w.posts[i])
  {
    RoutedRun(Init(r, canBatch), ls);
  }

  /** When `batch_run` returned a different number of results, no delivery of
      that batch ever writes, posts or acknowledges anything. */
  lemma MismatchDeliversNothing(r: Redis, canBatch: bool, ls: seq<Label>, i: nat, io: Io, reply: Reply)
    requires NewGroup(r)
    requires var d := Run(Init(r, canBatch), ls).delivery; d.Some? && |d.value.parsed| != |d.value.results|
    ensures var s := Run(Init(r, canBatch), ls); Step(s, ResumeChild(i, io, reply)) == s
  {
    RoutedRun(Init(r, canBatch), ls);
  }
}
