/** `RedisConsumer` as an object that changes its fields, on a healthy day.

Redis answers, POSTs are accepted and flags stand still; the step machine in
`Consumer` is the model for everything else. What the methods leave behind is
`Serving`.
*/
module Worker {
  import opened Prelude
  import opened Consumer
  import opened Serving
  import opened BatchLaws

  /** One delivery of a batch result. */
  function DeliveredOne(r: Redis, env: Env, b: Book, id: Id): Book {
    Acked(Reported(b, r, env, id), id)
  }

  lemma DeliveriesCommute(r: Redis, env: Env, b: Book, x: Id, y: Id)
    requires Computed(r, env, x).Some? && Computed(r, env, y).Some?
    ensures DeliveredOne(r, env, DeliveredOne(r, env, b, x), y) == DeliveredOne(r, env, DeliveredOne(r, env, b, y), x)
  {
    WithoutCommutes(b.pel, x, y);
    hide Without, Computed, JobOf;
    var jx, jy := JobOf(r, x), JobOf(r, y);
    assert b.status[jx := Completed][jy := Completed] == b.status[jy := Completed][jx := Completed];
  }

  /** Whichever delivery goes first, the result is the same. */
  lemma {:induction false} DeliverAny(r: Redis, env: Env, b: Book, ids: seq<Id>, i: nat)
    requires i < |ids| && AllComputed(r, env, ids)
    ensures DeliveredAll(r, env, DeliveredOne(r, env, b, ids[i]), ids[..i] + ids[i + 1..])
              == DeliveredAll(r, env, b, ids)
    decreases i
  {
    hide DeliveredOne, Computed;
    var rest := ids[..i] + ids[i + 1..];
    if i == 0 {
      assert rest == ids[1..];
      DeliverFirst(r, env, b, ids);
    } else {
      assert rest[0] == ids[0] && rest[1..] == ids[1..][..i - 1] + ids[1..][i..];
      var b0 := DeliveredOne(r, env, b, ids[0]);
      DeliverFirst(r, env, b, ids);
      DeliverFirst(r, env, DeliveredOne(r, env, b, ids[i]), rest);
      DeliveriesCommute(r, env, b, ids[0], ids[i]);
      assert ids[1..][i - 1] == ids[i];
      assert AllComputed(r, env, ids[1..]);
      hide DeliveredAll;
      DeliverAny(r, env, b0, ids[1..], i - 1);
    }
  }

  lemma DeliverFirst(r: Redis, env: Env, b: Book, ids: seq<Id>)
    requires ids != []
    ensures DeliveredAll(r, env, b, ids) == DeliveredAll(r, env, DeliveredOne(r, env, b, ids[0]), ids[1..])
  {
  }

  lemma AnswerAt(r: Redis, env: Env, ids: seq<Id>, i: nat)
    requires i < |ids| && AllComputed(r, env, ids)
    ensures Computed(r, env, ids[i]).Some? && AllComputed(r, env, ids[..i] + ids[i + 1..])
  {
    hide Computed;
  }

  ghost predicate AnyLive(r: Redis, b: Book, ids: seq<Id>) {
    exists i :: 0 <= i < |ids| && BatchLaws.Live(r, b, ids[i])
  }

  /** A message that is run keeps the idle flag set; one that is not leaves the others as live as they were. */
  lemma AnyLiveTail(r: Redis, env: Env, b: Book, ids: seq<Id>)
    requires ids != []
    ensures var b1 := Serve(r, env, b, ids[0]);
            if BatchLaws.Live(r, b, ids[0]) then AnyLive(r, b, ids)
            else AnyLive(r, b, ids) <==> AnyLive(r, b1, ids[1..])
  {
    hide Serve, BatchLaws.Live;
    var b1, rest := Serve(r, env, b, ids[0]), ids[1..];
    if !BatchLaws.Live(r, b, ids[0]) {
      forall i | 0 <= i < |rest|
        ensures rest[i] == ids[i + 1] && BatchLaws.Live(r, b1, rest[i]) == BatchLaws.Live(r, b, rest[i])
      {
        OthersStayLive(r, env, b, ids[0], rest[i]);
      }
      if AnyLive(r, b, ids) {
        var i :| 0 <= i < |ids| && BatchLaws.Live(r, b, ids[i]);
        assert rest[i - 1] == ids[i];
      }
    }
  }

  /** After triage and marking a kept message is still live. */
  lemma AttemptLeavesLive(r: Redis, b: Book, batch: seq<Id>)
    ensures var kept := KeptOf(r, b, batch);
            kept != [] ==> AnyLive(r, MarkedAll(r, TriagedAll(r, b, batch), kept, Executing), batch)
  {
    var kept := KeptOf(r, b, batch);
    if kept != [] {
      var b1 := TriagedAll(r, b, batch);
      StillKept(r, b, batch, kept[0]);
      MarkAllEffect(r, b1, kept, Executing, JobOf(r, kept[0]));
      var i :| 0 <= i < |batch| && batch[i] == kept[0];
      assert BatchLaws.Live(r, MarkedAll(r, b1, kept, Executing), batch[i]);
    }
  }

  lemma TriageNone(r: Redis, b: Book, ids: seq<Id>)
    requires ids == []
    ensures TriagedAll(r, b, ids) == b && KeptOf(r, b, ids) == []
  {
  }

  lemma TriageUnfolds(r: Redis, b: Book, batch: seq<Id>, i: nat)
    requires i < |batch|
    ensures TriagedAll(r, b, batch[i..]) == TriagedAll(r, Triaged(r, b, batch[i]), batch[i + 1..])
    ensures KeptOf(r, b, batch[i..])
         == (if Kept(r, b, batch[i]) then [batch[i]] else []) + KeptOf(r, Triaged(r, b, batch[i]), batch[i + 1..])
  {
    hide Triaged, Kept;
    assert batch[i..][0] == batch[i] && batch[i..][1..] == batch[i + 1..];
  }

  class RedisConsumer {
    const catalog: Redis          // the stream and the cancel flags
    const env: Env
    var status: map<string, JobState>
    var pel: seq<Id>
    var sent: multiset<(Id, Payload)>
    var idle: bool
    var currentJobId: Option<string>

    constructor (r: Redis, env: Env)
      ensures catalog == r && this.env == env && View() == Book(r.status, r.pel, multiset{})
      ensures idle && currentJobId.None?
    {
      catalog, this.env := r, env;
      status, pel, sent := r.status, r.pel, multiset{};
      idle, currentJobId := true, None;
    }

    function View(): Book
      reads this
    {
      Book(status, pel, sent)
    }

    method SafeHset(job: string, st: JobState)
      modifies `status
      ensures View() == Marked(old(View()), job, st)
    {
      status := status[job := st];
    }

    method SafeXack(id: Id)
      modifies `pel
      ensures View() == Acked(old(View()), id)
    {
      pel := Without(pel, id);
    }

    method Report(id: Id, p: Payload)
      modifies `sent
      ensures View() == Sent(old(View()), id, p)
    {
      sent := sent + multiset{(id, p)};
    }

    /** `_process_message` */
    method ProcessMessage(id: Id)
      modifies this
      ensures View() == Serve(catalog, env, old(View()), id)
      ensures if BatchLaws.Live(catalog, old(View()), id) then idle && currentJobId.None?
              else idle == old(idle) && currentJobId == old(currentJobId)
    {
      hide Without, Malformed, FieldsOf, JobOf, Computed;
      if Malformed(catalog, id) {
        SafeXack(id);
        return;
      }
      var job := JobOf(catalog, id);
      if Closed(View(), job) {
        SafeXack(id);
        return;
      }
      if job in catalog.flags {
        SafeHset(job, Cancelled);
        SafeXack(id);
        return;
      }
      idle, currentJobId := false, Some(job);
      SafeHset(job, Executing);
      var result := Computed(catalog, env, id);
      assert status[job := Completed] == old(status)[job := Completed];
      assert status[job := Failed] == old(status)[job := Failed];
      if result.Some? {
        SafeHset(job, Completed);
        Report(id, Success(result.value));
      } else {
        SafeHset(job, Failed);
        Report(id, Failure);
      }
      SafeXack(id);
      currentJobId, idle := None, true;
    }

    /** The loops over `_process_message`. */
    method ProcessMessages(ids: seq<Id>)
      modifies this
      ensures View() == ServeAll(catalog, env, old(View()), ids)
      ensures idle <==> old(idle) || AnyLive(catalog, old(View()), ids)
    {
      ghost var b0, wasIdle := View(), idle;
      var i := 0;
      assert ids[0..] == ids;
      while i < |ids|
        invariant i <= |ids|
        invariant ServeAll(catalog, env, b0, ids) == ServeAll(catalog, env, View(), ids[i..])
        invariant wasIdle || AnyLive(catalog, b0, ids) <==> idle || AnyLive(catalog, View(), ids[i..])
      {
        ghost var b := View();
        assert ids[i..][0] == ids[i] && ids[i..][1..] == ids[i + 1..];
        hide Serve, BatchLaws.Live, AnyLive;
        AnyLiveTail(catalog, env, b, ids[i..]);
        ProcessMessage(ids[i]);
        i := i + 1;
      }
    }

    /** `recover_pending` */
    method RecoverPending() returns (recovered: nat)
      requires Ascending(pel)
      modifies this
      ensures recovered == Min(RECOVERY_COUNT, |old(pel)|)
      ensures View() == ServeAll(catalog, env, old(View()), old(pel)[..recovered])
      ensures pel == old(pel)[recovered..]
    {
      recovered := 0;
      ghost var b0 := View();
      var pending := pel[..Min(RECOVERY_COUNT, |pel|)];
      while recovered < |pending|
        invariant recovered <= |pending|
        invariant ServeAll(catalog, env, b0, pending) == ServeAll(catalog, env, View(), pending[recovered..])
        invariant pel == b0.pel[recovered..]
      {
        var id := pending[recovered];
        assert pending[recovered..][0] == id && pending[recovered..][1..] == pending[recovered + 1..];
        assert pel == [id] + b0.pel[recovered + 1..];
        WithoutHead(b0.pel[recovered + 1..], id);
        ServeLook(catalog, env, View(), id, "");
        hide Serve, BatchLaws.Live, Without;
        ProcessMessage(id);
        recovered := recovered + 1;
      }
    }

    /** One message of the triage loop; true when it is kept. */
    method TriageMessage(id: Id) returns (keep: bool)
      modifies `status, `pel
      ensures View() == Triaged(catalog, old(View()), id)
      ensures keep == Kept(catalog, old(View()), id)
    {
      hide Without, Malformed, FieldsOf, JobOf;
      if Malformed(catalog, id) {
        SafeXack(id);
        return false;
      }
      var job := JobOf(catalog, id);
      if Closed(View(), job) {
        SafeXack(id);
        return false;
      }
      if job in catalog.flags {
        SafeHset(job, Cancelled);
        SafeXack(id);
        return false;
      }
      if FieldsOf(catalog, id).work.None? {
        SafeXack(id);
        return false;
      }
      return true;
    }

    method TriageAll(batch: seq<Id>) returns (parsed: seq<Id>)
      modifies `status, `pel
      ensures View() == TriagedAll(catalog, old(View()), batch)
      ensures parsed == KeptOf(catalog, old(View()), batch)
    {
      hide Triaged, Kept, TriagedAll, KeptOf;
      parsed := [];
      var i := 0;
      assert batch[0..] == batch;
      while i < |batch|
        invariant i <= |batch|
        invariant TriagedAll(catalog, old(View()), batch) == TriagedAll(catalog, View(), batch[i..])
        invariant KeptOf(catalog, old(View()), batch) == parsed + KeptOf(catalog, View(), batch[i..])
      {
        TriageUnfolds(catalog, View(), batch, i);
        var keep := TriageMessage(batch[i]);
        ghost var rest := KeptOf(catalog, View(), batch[i + 1..]);
        if keep {
          assert parsed + ([batch[i]] + rest) == parsed + [batch[i]] + rest;
          parsed := parsed + [batch[i]];
        } else {
          assert parsed + ([] + rest) == parsed + rest;
        }
        i := i + 1;
      }
      TriageNone(catalog, View(), batch[i..]);
    }

    method MarkExecuting(parsed: seq<Id>)
      modifies `status
      ensures View() == MarkedAll(catalog, old(View()), parsed, Executing)
    {
      var i := 0;
      while i < |parsed|
        invariant i <= |parsed|
        invariant MarkedAll(catalog, old(View()), parsed, Executing)
                    == MarkedAll(catalog, View(), parsed[i..], Executing)
      {
        assert parsed[i..][0] == parsed[i] && parsed[i..][1..] == parsed[i + 1..];
        SafeHset(JobOf(catalog, parsed[i]), Executing);
        hide JobOf;
        i := i + 1;
      }
    }

    /** `batch_run`: it answers all of its jobs or raises. */
    method BatchRun(parsed: seq<Id>) returns (results: Option<seq<ExecutionResult>>)
      requires !env.gone
      ensures results.None? <==> Falls(catalog, env, parsed)
      ensures results.Some? ==>
                |results.value| == |parsed|
                && forall i :: 0 <= i < |parsed| ==> Computed(catalog, env, parsed[i]) == Some(results.value[i])
    {
      if env.fails { return None; }
      var rs := [];
      for i := 0 to |parsed|
        invariant |rs| == i && forall j :: 0 <= j < i ==> Computed(catalog, env, parsed[j]) == Some(rs[j])
      {
        var r := Computed(catalog, env, parsed[i]);
        if r.None? { return None; }
        rs := rs + [r.value];
      }
      return Some(rs);
    }

    /** `_process_batch` up to the point where the deliveries are scheduled, which
        are returned; on any batch-level failure the messages are served one by one. */
    method ProcessBatch(batch: seq<Id>) returns (delivery: Option<seq<Id>>)
      modifies this
      ensures delivery.None? ==> View() == BatchServed(catalog, env, old(View()), batch)
      ensures delivery.None? && old(idle) ==> idle
      ensures delivery.Some? ==> !idle && AllComputed(catalog, env, delivery.value)
      ensures delivery.Some? ==>
                DeliveredAll(catalog, env, View(), delivery.value) == BatchServed(catalog, env, old(View()), batch)
    {
      ghost var b0 := View();
      var parsed := TriageAll(batch);
      if parsed == [] { return None; }
      idle := false;
      MarkExecuting(parsed);
      ghost var b1 := View();
      assert BatchServed(catalog, env, b0, batch) == BatchRest(catalog, env, b1, batch, parsed);
      AttemptLeavesLive(catalog, b0, batch);
      hide KeptOf, TriagedAll, MarkedAll, ServeAll, DeliveredAll, Computed, BatchServed;
      if env.gone {
        ProcessMessages(batch);
        return None;
      }
      var results := BatchRun(parsed);
      if results.None? {
        ProcessMessages(batch);
        return None;
      }
      return Some(parsed);
    }

    method DeliverSingle(id: Id)
      requires Computed(catalog, env, id).Some?
      modifies this
      ensures View() == DeliveredOne(catalog, env, old(View()), id)
    {
      hide Without, JobOf, Computed;
      SafeHset(JobOf(catalog, id), Completed);
      Report(id, Success(Computed(catalog, env, id).value));
      SafeXack(id);
    }

    /** The gathered deliveries, finishing in any order. */
    method DeliverBatch(ids: seq<Id>)
      requires AllComputed(catalog, env, ids)
      modifies this
      ensures View() == DeliveredAll(catalog, env, old(View()), ids)
      ensures idle
    {
      var todo := ids;
      while todo != []
        invariant AllComputed(catalog, env, todo)
        invariant DeliveredAll(catalog, env, old(View()), ids) == DeliveredAll(catalog, env, View(), todo)
        decreases |todo|
      {
        hide DeliveredAll, DeliveredOne, Computed, AllComputed;
        assert 0 <= 0 < |todo|;
        var i :| 0 <= i < |todo|;
        DeliverAny(catalog, env, View(), todo, i);
        AnswerAt(catalog, env, todo, i);
        DeliverSingle(todo[i]);
        todo := todo[..i] + todo[i + 1..];
      }
      idle := true;
    }

    /** A batch from read to last acknowledgement. */
    method HandleBatch(batch: seq<Id>)
      modifies this
      ensures View() == BatchServed(catalog, env, old(View()), batch)
      ensures View() == ServeAll(catalog, env, old(View()), batch)
              <==> !Together(catalog, env, old(View()), batch) || OnePerJob(catalog, old(View()), batch)
      ensures old(idle) ==> idle
    {
      ghost var b0 := View();
      var delivery := ProcessBatch(batch);
      if delivery.Some? { DeliverBatch(delivery.value); }
      BatchAgreesExactly(catalog, env, b0, batch);
      hide BatchServed, ServeAll, DeliveredAll, OnePerJob, Together;
    }
  }
}
