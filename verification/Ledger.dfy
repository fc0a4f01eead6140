/** Conservation: no message is ever lost, or both pending and acknowledged. */
module Ledger {
  import opened Prelude
  import opened Webhook
  import opened Consumer
  import opened Effects

  ghost predicate Below(ids: seq<Id>, n: nat) {
    forall i :: 0 <= i < |ids| ==> ids[i] < n
  }

  /** Every message the consume loop holds was delivered to this group. */
  ghost predicate MainBelow(m: Main, n: nat) {
    match m
    case Fetching(rest, _, _) => Below(rest, n)
    case Joining(batch) => Below(batch, n)
    case Processing(f, rest, _) => f.id < n && Below(rest, n)
    case Triage(id, todo, _, batch, parsed, _) => id < n && Below(todo, n) && Below(batch, n) && Below(parsed, n)
    case Marking(todo, batch, parsed, _) => Below(todo, n) && Below(batch, n) && Below(parsed, n)
    case Running(batch, parsed) => Below(batch, n) && Below(parsed, n)
    case _ => true
  }

  ghost predicate DeliveryBelow(d: Option<Delivery>, n: nat) {
    d.Some? ==>
      && Below(d.value.parsed, n)
      && forall i :: 0 <= i < |d.value.tasks| ==> d.value.tasks[i].id < n
  }

  ghost predicate RedisBalanced(r: Redis, acked: set<Id>) {
    && r.cursor <= |r.stream|
    && Ascending(r.pel)
    && Below(r.pel, r.cursor)
    && (forall id :: id in acked ==> id < r.cursor && id !in r.pel)
    && (forall id :: 0 <= id < r.cursor ==> id in r.pel || id in acked)
  }

  ghost predicate Balanced(s: State) {
    && RedisBalanced(s.w.redis, s.w.acked)
    && MainBelow(s.main, s.w.redis.cursor)
    && DeliveryBelow(s.delivery, s.w.redis.cursor)
  }

  // ---------------------------------------------------------------- Redis

  lemma DoBalanced(w: World, op: Op, io: Io, reply: Reply)
    requires RedisBalanced(w.redis, w.acked)
    requires op.AckMessage? ==> op.id < w.redis.cursor
    ensures RedisBalanced(Do(w, op, io, reply).redis, Do(w, op, io, reply).acked)
    ensures Do(w, op, io, reply).redis.cursor == w.redis.cursor
  {
    if op.AckMessage? && Lands(io) {
      var pel := Without(w.redis.pel, op.id);
      forall i | 0 <= i < |pel| ensures pel[i] < w.redis.cursor {
        assert pel[i] in w.redis.pel;
      }
    }
  }

  lemma ReadBalanced(r: Redis, acked: set<Id>, canBatch: bool)
    requires RedisBalanced(r, acked)
    ensures RedisBalanced(ReadGroup(r, Available(r, canBatch)), acked)
    ensures Below(Interval(r.cursor, Available(r, canBatch)), ReadGroup(r, Available(r, canBatch)).cursor)
  {
    var n := Available(r, canBatch);
    var r' := ReadGroup(r, n);
    forall id | 0 <= id < r'.cursor ensures id in r'.pel || id in acked {
      if id >= r.cursor {
        assert Interval(r.cursor, n)[id - r.cursor] == id;
        assert r'.pel[|r.pel| + id - r.cursor] == id;
      }
    }
    forall i | 0 <= i < |r'.pel| ensures r'.pel[i] !in acked {
      assert i < |r.pel| ==> r.pel[i] in r.pel;
    }
  }

  /** Acknowledgements only ever concern messages that were delivered. */
  lemma OpHeld(s: State, l: Label)
    requires Balanced(s)
    ensures OpOf(s, l).AckMessage? ==> OpOf(s, l).id < s.w.redis.cursor
  {
    hide RedisBalanced;
  }

  lemma RedisStaysBalanced(s: State, l: Label)
    requires Balanced(s)
    ensures RedisBalanced(Step(s, l).w.redis, Step(s, l).w.acked)
    ensures s.w.redis.cursor <= Step(s, l).w.redis.cursor
  {
    WorldStep(s, l);
    OpHeld(s, l);
    DoBalanced(s.w, OpOf(s, l), IoOf(l), ReplyOf(s, l));
    ReadBalanced(s.w.redis, s.w.acked, s.canBatch);
    hide Step, OpOf, Do, Without, Available;
    if Reads(s, l) {
    } else if l.RaiseFlag? || l.Append? {
    } else {
    }
  }

  // ---------------------------------------------------------------- what is held

  ghost predicate Held(s: State, n: nat) {
    MainBelow(s.main, n) && DeliveryBelow(s.delivery, n)
  }

  lemma NextHeld(s: State, rest: seq<Id>, k: Loop, n: nat)
    requires DeliveryBelow(s.delivery, n) && Below(rest, n)
    ensures Held(NextMessage(s, rest, k), n)
  {
    hide Malformed;
  }

  lemma DispatchHeld(s: State, batch: seq<Id>, due: bool, n: nat)
    requires DeliveryBelow(s.delivery, n) && Below(batch, n)
    ensures Held(Dispatch(s, batch, due), n)
  {
    NextHeld(s, batch, Dispatching, n);
    hide NextMessage, Malformed;
  }

  lemma MessageHeld(s: State, io: Io, reply: Reply, n: nat)
    requires Held(s, n) && s.main.Processing?
    ensures Held(MsgAdvance(s, s.main.f, s.main.rest, s.main.k, io, reply), n)
  {
    forall s1: State, rest, k | s1.delivery == s.delivery && rest == s.main.rest
      ensures Held(NextMessage(s1, rest, k), n)
    {
      NextHeld(s1, rest, k, n);
    }
    hide NextMessage, MsgOp, MsgNext, MsgNotes, MsgLocal, MsgCalls, Ask, Do, FieldsOf, JobOf, Delay;
  }

  lemma TriageHeld(s: State, io: Io, n: nat)
    requires Held(s, n) && s.main.Triage?
    ensures Held(TriageAdvance(s, s.main, io), n)
  {
    hide TriageOp, TriageStep, TriageNotes, Ask, Do, FieldsOf, Delay, Malformed, JobOf;
  }

  lemma MarkHeld(s: State, io: Io, alt: bool, n: nat)
    requires Held(s, n) && s.main.Marking?
    ensures Held(MarkAdvance(s, s.main.todo, s.main.batch, s.main.parsed, s.main.tact, io, alt), n)
  {
    var m := s.main;
    if m.todo != [] {
      NextHeld(
        s.(w := Do(s.w, SetStatus(m.tact, JobOf(s.w.redis, m.todo[0]), Executing), io, Accepted)),
        m.batch, FallingBack, n);
      hide NextMessage, Do, JobOf, Works;
    }
  }

  lemma ReadHeld(s: State, io: Io, alt: bool)
    requires Balanced(s) && s.main.Reading?
    ensures Held(ReadAdvance(s, io, alt), ReadAdvance(s, io, alt).w.redis.cursor)
  {
    var n := Available(s.w.redis, s.canBatch);
    ReadBalanced(s.w.redis, s.w.acked, s.canBatch);
    var s1 := s.(w := s.w.(redis := ReadGroup(s.w.redis, n)));
    var s2 := s1.(p := s1.p.(healthy := true, failures := 0, slept := 0));
    DispatchHeld(s2, Interval(s.w.redis.cursor, n), alt, s1.w.redis.cursor);
    DispatchCarries(s2, Interval(s.w.redis.cursor, n), alt);
    hide Dispatch, Available, Interval, Delay, RedisBalanced;
  }

  lemma JoinHeld(s: State, batch: seq<Id>, alt: bool, n: nat)
    requires Held(s, n) && s.main == Joining(batch)
    ensures Held(JoinAdvance(s, batch, alt), n)
  {
    DispatchHeld(s, batch, alt, n);
    DispatchHeld(
      s.(delivery := None, drain := if s.drain.WaitDelivery? then Drained(true) else s.drain), batch, alt, n);
    hide Dispatch, Delay;
  }

  lemma RestHeld(s: State, io: Io, reply: Reply, alt: bool, n: nat)
    requires Held(s, n) && Below(s.w.redis.pel, n)
    requires !(s.main.Processing? || s.main.Triage? || s.main.Marking? || s.main.Reading?)
    ensures Held(Advance(s, io, reply, alt), n)
  {
    match s.main
    case Running(batch, _) => NextHeld(s, batch, FallingBack, n); hide NextMessage;
    case Joining(batch) => JoinHeld(s, batch, alt, n); hide JoinAdvance;
    case Listing(boot) =>
      NextHeld(s, s.w.redis.pel[..Min(RECOVERY_COUNT, |s.w.redis.pel|)], Recovering(boot, 0), n);
      hide NextMessage, Delay;
    case _ => hide Malformed, Delay;
  }

  lemma OthersHeld(s: State, l: Label, n: nat)
    requires Held(s, n) && !l.Resume?
    ensures Held(Step(s, l), n)
  {
    hide Advance, ChildOp, ChildNext, Ask, Do, AnyBroken, AllFinished;
  }

  lemma HeldGrows(s: State, n: nat, m: nat)
    requires Held(s, n) && n <= m
    ensures Held(s, m)
  {
  }

  /** Conservation is kept by every step of every component and of the environment. */
  lemma BalancedStep(s: State, l: Label)
    requires Balanced(s)
    ensures Balanced(Step(s, l))
  {
    RedisStaysBalanced(s, l);
    var n := s.w.redis.cursor;
    hide RedisBalanced, MsgAdvance, TriageAdvance, MarkAdvance, ReadAdvance, JoinAdvance, BatchReturn, NextMessage,
      Begin, ConnError, Backoff, ChildAdvance, GatherAdvance, DrainAdvance, DrainGiveUp, Force;
    if l.Resume? {
      if s.main.Processing? {
        MessageHeld(s, l.io, l.reply, n);
      } else if s.main.Triage? {
        TriageHeld(s, l.io, n);
      } else if s.main.Marking? {
        MarkHeld(s, l.io, l.alt, n);
      } else if s.main.Reading? {
        ReadHeld(s, l.io, l.alt);
      } else {
        assert Below(s.w.redis.pel, n) by { PendingBelow(s); }
        RestHeld(s, l.io, l.reply, l.alt, n);
      }
    } else {
      OthersHeld(s, l, n);
    }
    if !Reads(s, l) { HeldGrows(Step(s, l), n, Step(s, l).w.redis.cursor); }
  }

  lemma PendingBelow(s: State)
    requires Balanced(s)
    ensures Below(s.w.redis.pel, s.w.redis.cursor)
  {
  }

  lemma {:induction false} BalancedRun(s: State, ls: seq<Label>)
    requires Balanced(s)
    ensures Balanced(Run(s, ls))
    decreases |ls|
  {
    if ls != [] {
      BalancedStep(s, ls[0]);
      BalancedRun(Step(s, ls[0]), ls[1..]);
    }
  }

  /** An answered read takes the next hundred undelivered messages, or the next one
      where batches are not supported, or as many as there are, in order. */
  lemma ReadTakes(s: State, l: Label)
    requires Balanced(s) && s.main.Reading? && l.Resume? && l.io.Fine?
    ensures var r, r' := s.w.redis, Step(s, l).w.redis;
            var left := |r.stream| - r.cursor;
            var limit := if s.canBatch then 100 else 1;
            && r'.cursor == r.cursor + (if left < limit then left else limit)
            && |r'.pel| == |r.pel| + (r'.cursor - r.cursor) && r.pel <= r'.pel
            && forall i :: |r.pel| <= i < |r'.pel| ==> r'.pel[i] == r.cursor + (i - |r.pel|)
  {
    WorldStep(s, l);
    hide Step, OpOf, Do;
  }

  /** A consumer group just created from the start of its stream. */
  predicate NewGroup(r: Redis) {
    r.cursor == 0 && r.pel == []
  }

  predicate Undelivered(w: World, id: Id) { w.redis.cursor <= id < |w.redis.stream| }
  predicate Pending(w: World, id: Id) { id in w.redis.pel }
  predicate Acknowledged(w: World, id: Id) { id in w.acked }

  /** In every run, with crashes, lost calls and cancellations anywhere, each
      message ever appended is in exactly one of the three places. */
  lemma Conservation(r: Redis, canBatch: bool, ls: seq<Label>, id: Id)
    requires NewGroup(r)
    ensures var w := Run(Init(r, canBatch), ls).w;
            && (id < |w.redis.stream| <==> Undelivered(w, id) || Pending(w, id) || Acknowledged(w, id))
            && !(Undelivered(w, id) && Pending(w, id))
            && !(Undelivered(w, id) && Acknowledged(w, id))
            && !(Pending(w, id) && Acknowledged(w, id))
  {
    BalancedRun(Init(r, canBatch), ls);
    var w := Run(Init(r, canBatch), ls).w;
    if id in w.redis.pel {
      var i :| 0 <= i < |w.redis.pel| && w.redis.pel[i] == id;
    }
  }
}
