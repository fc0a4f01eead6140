/** How often the flag is read between the end of the executor and a report. */
module Checks {
  import opened Prelude
  import opened Webhook
  import opened Consumer
  import opened Effects
  import opened Flight
  import opened Outcomes
  import opened Leftover
  import opened Witness

  /** The step reads the flag of the current job, and the answer is that it is down. */
  predicate ReadsClear(s: State, l: Label) {
    && l.Resume? && s.main.Processing? && l.io.Fine?
    && OpOf(s, l).GetFlag? && OpOf(s, l).job !in s.w.redis.flags
  }

  /** Clear flag reads by the processing under way since it last waited for its executor. */
  function ClearReads(s: State, ls: seq<Label>): (n: nat)
    decreases |ls|
  {
    if ls == [] then 0
    else
      var before, l := ls[..|ls| - 1], ls[|ls| - 1];
      var s1 := Run(s, before);
      if l.Crash? || !s1.main.Processing? || s1.main.f.pc.Waiting? then 0
      else ClearReads(s, before) + (if ReadsClear(s1, l) then 1 else 0)
  }

  /** Clear reads that must lie behind a processing at `pc`. */
  function Needed(pc: MsgPc): nat {
    match pc
    case CheckResult(_) => 1
    case WriteCompleted(_) => 2
    case CheckCompleted(_) => 2
    case SendResult(_, _) => 3
    case _ => 0
  }

  predicate Enough(m: Main, n: nat) {
    m.Processing? ==> Needed(m.f.pc) <= n
  }

  /** A processing gets nearer to its report only by a clear read. */
  lemma FrameNeeds(r: Redis, f: Frame, io: Io, reply: Reply, parsable: bool, call: Option<CallState>)
    ensures var op := MsgOp(r, f);
            var mv := MsgNext(f.pc, Ask(r, op, io, reply), parsable, call);
            var clear := io.Fine? && op.GetFlag? && op.job !in r.flags;
            mv.Go? ==>
              && (f.pc.Waiting? ==> Needed(mv.pc) == 0)
              && Needed(mv.pc) <= Needed(f.pc) + (if clear then 1 else 0)
  {
    hide JobOf, Terminal;
  }

  lemma EntryNeedsNothing(r: Redis, m: Main, n: nat)
    requires Entry(r, m)
    ensures Enough(m, n)
  {
    hide Malformed;
  }

  lemma EnoughStep(s: State, l: Label, n: nat)
    requires Enough(s.main, n)
    ensures var n' := if l.Crash? || !s.main.Processing? || s.main.f.pc.Waiting? then 0
                      else n + (if ReadsClear(s, l) then 1 else 0);
            Enough(Step(s, l).main, n')
  {
    var n' := if l.Crash? || !s.main.Processing? || s.main.f.pc.Waiting? then 0
              else n + (if ReadsClear(s, l) then 1 else 0);
    MainStep(s, l);
    if Entry(s.w.redis, Step(s, l).main) { EntryNeedsNothing(s.w.redis, Step(s, l).main, n'); }
    if l.Resume? && s.main.Processing? {
      FrameNeeds(s.w.redis, s.main.f, l.io, l.reply, FieldsOf(s.w.redis, s.main.f.id).work.Some?, LastCall(s.calls));
    }
    hide Step, Entry, FieldsOf, LastCall, MsgOp, MsgNext, Ask, TriageMoveOf;
  }

  lemma {:induction false} EnoughRun(s: State, ls: seq<Label>)
    requires Enough(s.main, 0)
    ensures Enough(Run(s, ls).main, ClearReads(s, ls))
    decreases |ls|
  {
    if ls != [] {
      var before, l := ls[..|ls| - 1], ls[|ls| - 1];
      assert ls == before + [l];
      EnoughRun(s, before);
      RunLast(s, before, l);
      EnoughStep(Run(s, before), l, ClearReads(s, before));
    }
    hide Step, Run, Enough, ReadsClear;
  }

  /** In every run: since its executor returned, a processing has read the flag and
      found it down twice before it writes `completed`, and three times before it
      sends the result. */
  lemma ReportsAreChecked(r: Redis, canBatch: bool, ls: seq<Label>)
    requires Run(Init(r, canBatch), ls).main.Processing?
    ensures var pc := Run(Init(r, canBatch), ls).main.f.pc;
            && (pc.WriteCompleted? ==> ClearReads(Init(r, canBatch), ls) >= 2)
            && (pc.SendResult? ==> ClearReads(Init(r, canBatch), ls) >= 3)
  {
    EnoughRun(Init(r, canBatch), ls);
    hide Run, Step, ClearReads;
  }
}
