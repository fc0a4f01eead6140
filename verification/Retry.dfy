/** The two retry loops: webhook delivery and the connect request. */
module Retry {
  import opened Prelude
  import opened Webhook

  /** How a retry loop ends: a 2xx answer, a refusal that is raised at once, the
      last error raised after all attempts, or no attempt at all. */
  datatype Ending = Succeeded | RefusedAtOnce | Exhausted | NeverTried

  /** The first of the answers from `n` on that ends the loop, or one past the last attempt. */
  function Deciding(max: nat, answers: nat -> Reply, n: nat): (k: nat)
    requires n <= max + 1
    ensures n <= k <= max + 1
    ensures forall i :: n <= i < k ==> answers(i).Unreachable?
    ensures k <= max ==> !answers(k).Unreachable?
    decreases max + 1 - n
  {
    if n > max || !answers(n).Unreachable? then n else Deciding(max, answers, n + 1)
  }

  /** How the loop ends, from the answers alone. */
  function EndingOf(max: nat, answers: nat -> Reply): Ending {
    var k := Deciding(max, answers, 1);
    if max == 0 then NeverTried
    else if k > max then Exhausted
    else if answers(k).Accepted? then Succeeded
    else RefusedAtOnce
  }

  /** The attempts made, in order. */
  function Answers(answers: nat -> Reply, n: nat): (r: seq<Reply>)
    ensures |r| == n && forall i :: 0 <= i < n ==> r[i] == answers(i + 1)
  {
    seq(n, i requires 0 <= i < n => answers(i + 1))
  }

  /** Attempts made before the loop stops. */
  function Tries(max: nat, answers: nat -> Reply): (n: nat)
    ensures n <= max
  {
    Min(Deciding(max, answers, 1), max)
  }

  /** `_post_with_retry`: it sleeps after every failed attempt, the last one too. */
  method PostWithRetry(max: nat, answers: nat -> Reply) returns (sent: seq<Reply>, waited: nat, end: Ending)
    ensures end == EndingOf(max, answers)
    ensures sent == Answers(answers, Tries(max, answers))
    ensures forall i :: 0 <= i < |sent| - 1 ==> sent[i].Unreachable?
    ensures end.Exhausted? <==> |sent| == max > 0 && forall i :: 0 <= i < |sent| ==> sent[i].Unreachable?
    ensures waited == Pow2(if end.Exhausted? then |sent| else if sent == [] then 0 else |sent| - 1) - 1
  {
    sent, waited := [], 0;
    var failed := false;
    var attempt := 1;
    while attempt <= max
      invariant 1 <= attempt <= max + 1
      invariant sent == Answers(answers, attempt - 1)
      invariant forall i :: 0 <= i < |sent| ==> sent[i].Unreachable?
      invariant Deciding(max, answers, 1) == Deciding(max, answers, attempt)
      invariant failed <==> attempt > 1
      invariant waited == Pow2(attempt - 1) - 1
    {
      var reply := answers(attempt);
      sent := sent + [reply];
      assert sent[|sent| - 1] == reply;
      if reply.Accepted? { return sent, waited, Succeeded; }
      failed := true;
      if reply.Refused? { return sent, waited, RefusedAtOnce; }
      waited := waited + Pow2(attempt - 1);
      attempt := attempt + 1;
    }
    end := if failed then Exhausted else NeverTried;
  }

  /** `_post_connect`: it sleeps between attempts only, and fails without any. */
  method PostConnect(max: nat, answers: nat -> Reply) returns (sent: seq<Reply>, waited: nat, end: Ending)
    ensures end == EndingOf(max, answers)
    ensures sent == Answers(answers, Tries(max, answers))
    ensures waited == Pow2(if sent == [] then 0 else |sent| - 1) - 1
  {
    sent, waited := [], 0;
    var attempt := 1;
    while attempt <= max
      invariant 1 <= attempt <= max + 1
      invariant sent == Answers(answers, attempt - 1)
      invariant Deciding(max, answers, 1) == Deciding(max, answers, attempt)
      invariant waited == Pow2(if attempt > max then (if max == 0 then 0 else max - 1) else attempt - 1) - 1
    {
      var reply := answers(attempt);
      sent := sent + [reply];
      if reply.Accepted? { return sent, waited, Succeeded; }
      if reply.Refused? { return sent, waited, RefusedAtOnce; }
      if attempt < max {
        waited := waited + Pow2(attempt - 1);
      }
      attempt := attempt + 1;
    }
    end := if max == 0 then NeverTried else Exhausted;
  }

  /** The step-by-step rule of the consumer model stops at the same attempt, with
      the same result, as the loop. */
  lemma JudgeAgreesWithLoop(max: nat, answers: nat -> Reply, n: nat)
    requires 1 <= n <= Tries(max, answers)
    ensures (Judge(n, max, answers(n)) == Again) <==> n < Tries(max, answers)
    ensures n == Tries(max, answers) ==>
              (Judge(n, max, answers(n)) == Delivered <==> EndingOf(max, answers) == Succeeded)
  {
  }
}
