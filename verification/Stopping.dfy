/** What `stop` stops. */
module Stopping {
  import opened Prelude
  import opened Webhook
  import opened Consumer
  import opened Effects
  import opened Flight
  import opened AfterDrain
  import opened Witness

  /** Reads for new messages in a stretch of a run. */
  function ReadsIn(s: State, ls: seq<Label>): (n: nat)
    decreases |ls|
  {
    if ls == [] then 0 else (if Reads(s, ls[0]) then 1 else 0) + ReadsIn(Step(s, ls[0]), ls[1..])
  }

  /** Only the head of the loop leads to a read, and a stopped loop ends there. */
  lemma NoNewRead(s: State, l: Label)
    requires !s.p.running && !l.Crash? && (s.main.Reading? ==> l.Resume?)
    ensures !Step(s, l).p.running && !Step(s, l).main.Reading?
  {
    if l.Resume? {
      ResumeRunning(s, l.io, l.reply, l.alt);
      ResumeReadsNot(s, l.io, l.reply, l.alt);
      hide Advance;
    } else {
      OthersReadNot(s, l);
      hide Step;
    }
  }

  lemma OthersReadNot(s: State, l: Label)
    requires !l.Resume? && !l.Crash?
    ensures (Step(s, l).main.Reading? ==> s.main.Reading?) && (!s.p.running ==> !Step(s, l).p.running)
  {
    match l
    case ResumeChild(i, io, reply) => ChildMain(s, i, io, reply); hide Advance, ChildOp, ChildNext, Ask, Do;
    case Gather => hide Advance, Children, AnyBroken, AllFinished;
    case _ => hide Advance, StopAll, CancelLast;
  }

  lemma NextReadsNot(s: State, rest: seq<Id>, k: Loop)
    requires !s.p.running
    ensures !NextMessage(s, rest, k).main.Reading?
  {
    hide Malformed;
  }

  lemma DispatchReadsNot(s: State, batch: seq<Id>, due: bool)
    requires !s.p.running
    ensures !Dispatch(s, batch, due).main.Reading?
  {
    NextReadsNot(s, batch, Dispatching);
    hide NextMessage, Malformed;
  }

  lemma MessageReadsNot(s: State, io: Io, reply: Reply)
    requires s.main.Processing? && !s.p.running
    ensures !MsgAdvance(s, s.main.f, s.main.rest, s.main.k, io, reply).main.Reading?
  {
    var f, rest, k := s.main.f, s.main.rest, s.main.k;
    var op := MsgOp(s.w.redis, f);
    var a := Ask(s.w.redis, op, io, reply);
    var work := FieldsOf(s.w.redis, f.id).work;
    var mv := MsgMove(s, f, io, reply);
    var s1 := s.(
      w := Noted(Do(s.w, op, io, reply), MsgNotes(f.id, JobOf(s.w.redis, f.id), work, f.pc, a, mv)),
      p := MsgLocal(s.p, JobOf(s.w.redis, f.id), f.pc, mv),
      calls := MsgCalls(s.calls, work, f.pc, a));
    LocalRunning(s.p, JobOf(s.w.redis, f.id), f.pc, mv);
    NextReadsNot(s1, rest, k);
    hide MsgOp, MsgNext, MsgNotes, MsgLocal, MsgCalls, Ask, Do, NextMessage, FieldsOf, JobOf, Delay;
  }

  lemma ResumeReadsNot(s: State, io: Io, reply: Reply, alt: bool)
    requires !s.p.running
    ensures !Advance(s, io, reply, alt).main.Reading?
  {
    match s.main
    case Processing(_, _, _) => MessageReadsNot(s, io, reply); hide MsgAdvance;
    case Triage(_, _, _, _, _, _) => TriageReadsNot(s, io); hide TriageAdvance;
    case Marking(_, _, _, _) => MarkReadsNot(s, io, alt); hide MarkAdvance;
    case Reading => ReadReadsNot(s, io, alt); hide ReadAdvance;
    case Joining(batch) =>
      DispatchReadsNot(s, batch, alt);
      DispatchReadsNot(
        s.(delivery := None, drain := if s.drain.WaitDelivery? then Drained(true) else s.drain), batch, alt);
      hide Dispatch, Delay;
    case Running(batch, _) => NextReadsNot(s, batch, FallingBack); hide NextMessage;
    case Listing(boot) =>
      NextReadsNot(s, s.w.redis.pel[..Min(RECOVERY_COUNT, |s.w.redis.pel|)], Recovering(boot, 0));
      hide NextMessage, Delay;
    case _ => hide Malformed, Delay;
  }

  lemma TriageReadsNot(s: State, io: Io)
    requires s.main.Triage? && !s.p.running
    ensures !TriageAdvance(s, s.main, io).main.Reading?
  {
    hide TriageOp, TriageStep, TriageNotes, Ask, Do, FieldsOf, Delay, Malformed;
  }

  lemma MarkReadsNot(s: State, io: Io, alt: bool)
    requires s.main.Marking? && !s.p.running
    ensures !MarkAdvance(s, s.main.todo, s.main.batch, s.main.parsed, s.main.tact, io, alt).main.Reading?
  {
    var m := s.main;
    if m.todo != [] {
      NextReadsNot(s.(w := Do(s.w, SetStatus(m.tact, JobOf(s.w.redis, m.todo[0]), Executing), io, Accepted)),
                   m.batch, FallingBack);
    }
    hide NextMessage, Do, JobOf, Works;
  }

  lemma ReadReadsNot(s: State, io: Io, alt: bool)
    requires s.main.Reading? && !s.p.running
    ensures !ReadAdvance(s, io, alt).main.Reading?
  {
    var n := Available(s.w.redis, s.canBatch);
    var s1 := s.(w := s.w.(redis := ReadGroup(s.w.redis, n)));
    DispatchReadsNot(s1.(p := s1.p.(healthy := true, failures := 0, slept := 0)), Interval(s.w.redis.cursor, n), alt);
    hide Dispatch, Available, Interval, Delay, ReadGroup;
  }

  lemma {:induction false} StoppedRun(s: State, ls: seq<Label>)
    requires !s.p.running && forall i :: 0 <= i < |ls| ==> !ls[i].Crash?
    ensures ReadsIn(s, ls) <= if s.main.Reading? then 1 else 0
    decreases |ls|
  {
    if ls != [] {
      if s.main.Reading? && !ls[0].Resume? {
        OthersReadNot(s, ls[0]);
      } else {
        NoNewRead(s, ls[0]);
      }
      StoppedRun(Step(s, ls[0]), ls[1..]);
    }
    hide Step;
  }

  /** Once `stop` or `drain` has been called, the loop reads no new messages but with
      the read that is already under way, whatever else happens, until a restart. */
  lemma StopEndsReading(s: State, l: Label, ls: seq<Label>)
    requires l.Stop? || (l.DrainBegin? && s.drain.NotDraining?)
    requires forall i :: 0 <= i < |ls| ==> !ls[i].Crash?
    ensures ReadsIn(Step(s, l), ls) <= if s.main.Reading? then 1 else 0
  {
    assert !Step(s, l).p.running && Step(s, l).main == s.main by { hide Advance; }
    hide Step;
    StoppedRun(Step(s, l), ls);
  }
}
