/** When a batch that fell back leaves the idle flag clear. */
module Forgotten {
  import opened Prelude
  import opened Webhook
  import opened Consumer
  import opened Effects
  import opened Flight
  import opened Safety
  import opened Outcomes
  import opened Leftover

  predicate InFallback(m: Main) {
    m.Processing? && m.k.FallingBack?
  }

  /** The run stays in the fallback loop and ends by leaving it, with neither a crash
      nor a cancellation of the consumer. */
  ghost predicate FallbackRun(s: State, ls: seq<Label>)
    decreases |ls|
  {
    if !InFallback(s.main) then ls == []
    else ls != [] && !ls[0].Crash? && !ls[0].ForceCancel? && FallbackRun(Step(s, ls[0]), ls[1..])
  }

  /** An `executing` status was written from position `n` of the history on. */
  ghost predicate Executed(log: seq<Event>, n: nat) {
    exists k :: n <= k < |log| && log[k].Wrote? && log[k].state == Executing
  }

  predicate Executes(op: Op) {
    op.SetStatus? && op.st == Executing
  }

  lemma ExecutedStep(s: State, l: Label, n: nat)
    requires n <= |s.w.log|
    ensures n <= |Step(s, l).w.log|
    ensures Executed(Step(s, l).w.log, n) <==> Executed(s.w.log, n) || Executes(OpOf(s, l))
  {
    var op := OpOf(s, l);
    var d, log' := Do(s.w, op, IoOf(l), ReplyOf(s, l)).log, Step(s, l).w.log;
    LogStep(s, l);
    DoLog(s.w, op, IoOf(l), ReplyOf(s, l));
    if op.SetStatus? { WritesNow(s.w, op, IoOf(l), ReplyOf(s, l)); }
    hide Step, OpOf, Do, StartsNow;
    if k :| n <= k < |s.w.log| && s.w.log[k].Wrote? && s.w.log[k].state == Executing { assert log'[k] == s.w.log[k]; }
    if Executes(op) { assert log'[|s.w.log|] == d[|s.w.log|]; }
    if k :| n <= k < |log'| && log'[k].Wrote? && log'[k].state == Executing {
      assert k >= |d| ==> NoteFits(s, l, log'[k]);
      assert log'[k] == d[k];
    }
  }

  lemma WritesNow(w: World, op: Op, io: Io, reply: Reply)
    requires op.SetStatus?
    ensures Do(w, op, io, reply).log == w.log + [Wrote(op.act, op.job, op.st)]
  {
  }

  /** The flag is set exactly when something was executed; work in progress has been written down. */
  ghost predicate Told(s: State, n: nat)
    requires s.main.Processing?
  {
    && n <= |s.w.log|
    && (!Busy(s.main) ==> (s.p.idle <==> Executed(s.w.log, n)))
    && (Busy(s.main) && !s.main.f.pc.WriteExecuting? ==> Executed(s.w.log, n))
  }

  /** A processing writes `executing` exactly when it starts its work, and sets the flag when it ends it. */
  lemma FrameTold(
    r: Redis, p: Local, m: Main, io: Io, reply: Reply, parsable: bool, call: Option<CallState>, job: string)
    requires m.Processing?
    ensures var op := MsgOp(r, m.f);
            var mv := MsgNext(m.f.pc, Ask(r, op, io, reply), parsable, call);
            var p' := MsgLocal(p, job, m.f.pc, mv);
            && (Executes(op) <==> m.f.pc.WriteExecuting?)
            && (mv.Go? ==>
                  var m' := m.(f := m.f.(pc := mv.pc));
                  && (Busy(m) ==> Busy(m') && !mv.pc.WriteExecuting?)
                  && (Busy(m') && !Busy(m) ==> mv.pc.WriteExecuting?)
                  && (!Busy(m') ==> p'.idle == p.idle))
            && (mv.Leave? ==> p'.idle == (p.idle || Busy(m)) && !m.f.pc.WriteExecuting?)
  {
    hide JobOf, Terminal;
  }

  lemma MessageTold(s: State, l: Label, n: nat)
    requires l.Resume? && InFallback(s.main) && IdleFits(s) && Told(s, n)
    ensures var s' := Step(s, l);
            if InFallback(s'.main) then Told(s', n)
            else s'.p.idle <==> Executed(s'.w.log, n)
  {
    var f, rest, k := s.main.f, s.main.rest, s.main.k;
    var op := MsgOp(s.w.redis, f);
    var a := Ask(s.w.redis, op, l.io, l.reply);
    var work := FieldsOf(s.w.redis, f.id).work;
    var mv := MsgMove(s, f, l.io, l.reply);
    var p' := MsgLocal(s.p, JobOf(s.w.redis, f.id), f.pc, mv);
    var s1 := s.(
      w := Noted(Do(s.w, op, l.io, l.reply), MsgNotes(f.id, JobOf(s.w.redis, f.id), work, f.pc, a, mv)),
      p := p',
      calls := MsgCalls(s.calls, work, f.pc, a));
    ExecutedStep(s, l, n);
    FrameTold(s.w.redis, s.p, s.main, l.io, l.reply, work.Some?, LastCall(s.calls), JobOf(s.w.redis, f.id));
    if mv.Leave? { LeavingLanded(s1, rest, k, mv.escape); }
    hide MsgOp, MsgNext, MsgNotes, MsgLocal, MsgCalls, Ask, Do, FieldsOf, JobOf, Leaving, LastCall, Executed, Executes;
  }

  lemma OtherTold(s: State, l: Label, n: nat)
    requires !l.Resume? && !l.Crash? && !l.ForceCancel? && InFallback(s.main) && IdleFits(s) && Numbered(s)
             && Told(s, n)
    ensures InFallback(Step(s, l).main) && Told(Step(s, l), n)
  {
    OthersKeepProcessing(s, l);
    OnlyItself(s, l);
    ExecutedStep(s, l, n);
    IdleUntouched(s, l);
    hide Step, OpOf, Executed, IdleFits, Numbered;
  }

  lemma IdleUntouched(s: State, l: Label)
    requires s.delivery.None? && !l.Resume? && !l.Crash? && !l.ForceCancel?
    ensures Step(s, l).p.idle == s.p.idle
  {
    hide Advance;
  }

  lemma {:induction false} ToldRun(s: State, ls: seq<Label>, n: nat)
    requires IdleFits(s) && Numbered(s) && FallbackRun(s, ls) && n <= |s.w.log|
    requires if InFallback(s.main) then Told(s, n) else s.p.idle <==> Executed(s.w.log, n)
    ensures Run(s, ls).p.idle <==> Executed(Run(s, ls).w.log, n)
    decreases |ls|
  {
    if InFallback(s.main) {
      var l := ls[0];
      ExecutedStep(s, l, n);
      IdleFitsStep(s, l);
      NumberedStep(s, l);
      if l.Resume? {
        MessageTold(s, l, n);
      } else {
        OtherTold(s, l, n);
      }
      hide Step, OpOf, Executed, IdleFits, Numbered, Told;
      ToldRun(Step(s, l), ls[1..], n);
    }
  }

  /** In every run: when the loop leaves a fallback, whatever flags, Redis and
      callbacks did in it, the idle flag that the batch cleared is set again if and
      only if at least one message of the fallback got as far as its `executing`
      write. `Witness.IdleForgotten` is a run in which none does. */
  lemma FallbackIdleExactly(r: Redis, canBatch: bool, before: seq<Label>, ls: seq<Label>)
    requires var s := Run(Init(r, canBatch), before);
             InFallback(s.main) && Landed(s.main) && !s.p.idle && FallbackRun(s, ls)
    ensures var s := Run(Init(r, canBatch), before);
            var s' := Run(s, ls);
            s'.p.idle <==> Executed(s'.w.log, |s.w.log|)
  {
    var s := Run(Init(r, canBatch), before);
    OutcomesRun(Init(r, canBatch), before);
    assert Told(s, |s.w.log|) by { hide Run, Step; }
    hide Run, Step, IdleFits, Numbered, OutcomesFit, FallbackRun;
    ToldRun(s, ls, |s.w.log|);
  }
}
