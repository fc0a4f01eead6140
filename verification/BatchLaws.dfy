/** A batch does what serving its messages one by one would have done. */
module BatchLaws {
  import opened Prelude
  import opened Consumer
  import opened Serving

  function Look(b: Book, job: string): Option<JobState> {
    if job in b.status then Some(b.status[job]) else None
  }

  /** `pel` after all of `ids` were acknowledged. */
  function Dropped(pel: seq<Id>, ids: seq<Id>): seq<Id>
    decreases |ids|
  {
    if ids == [] then pel else Dropped(Without(pel, ids[0]), ids[1..])
  }

  lemma {:induction false} DroppedAlready(pel: seq<Id>, ids: seq<Id>, id: Id)
    requires id in ids
    ensures Dropped(Without(pel, id), ids) == Dropped(pel, ids)
    decreases |ids|
  {
    if ids[0] == id {
      WithoutAbsent(Without(pel, id), id);
    } else {
      assert id in ids[1..];
      WithoutCommutes(pel, id, ids[0]);
      DroppedAlready(Without(pel, ids[0]), ids[1..], id);
    }
  }

  lemma {:induction false} DroppedAbsent(pel: seq<Id>, ids: seq<Id>)
    requires forall i :: 0 <= i < |ids| ==> ids[i] !in pel
    ensures Dropped(pel, ids) == pel
    decreases |ids|
  {
    if ids != [] {
      WithoutAbsent(pel, ids[0]);
      DroppedAbsent(pel, ids[1..]);
    }
  }

  /** Some well-formed message among `ids` is about `job`. */
  ghost predicate Awaited(r: Redis, ids: seq<Id>, job: string) {
    exists i :: 0 <= i < |ids| && !Malformed(r, ids[i]) && JobOf(r, ids[i]) == job
  }

  lemma AwaitedTail(r: Redis, ids: seq<Id>, job: string)
    requires ids != []
    ensures Awaited(r, ids, job) <==> (!Malformed(r, ids[0]) && JobOf(r, ids[0]) == job) || Awaited(r, ids[1..], job)
  {
    if Awaited(r, ids[1..], job) {
      var i :| 0 <= i < |ids[1..]| && !Malformed(r, ids[1..][i]) && JobOf(r, ids[1..][i]) == job;
      assert ids[i + 1] == ids[1..][i];
    }
    if Awaited(r, ids, job) {
      var i :| 0 <= i < |ids| && !Malformed(r, ids[i]) && JobOf(r, ids[i]) == job;
      if i > 0 { assert ids[1..][i - 1] == ids[i]; }
    }
  }

  lemma BooksEqual(b: Book, c: Book)
    requires b.pel == c.pel && b.sent == c.sent && forall j :: Look(b, j) == Look(c, j)
    ensures b == c
  {
    assert forall j :: j in b.status <==> j in c.status by {
      forall j ensures j in b.status <==> j in c.status { assert Look(b, j) == Look(c, j); }
    }
    forall j | j in b.status ensures b.status[j] == c.status[j] { assert Look(b, j) == Look(c, j); }
    assert b.status == c.status;
  }

  // ---------------------------------------------------------------- fallback

  /** The two books differ on `job`, but serving what is left will settle it:
      an attempted batch left a mark that serving overwrites or agrees with. */
  ghost predicate Unsettled(r: Redis, b: Book, c: Book, rest: seq<Id>, job: string) {
    && !Closed(b, job)
    && Awaited(r, rest, job)
    && if job in r.flags then Look(c, job) == Some(Cancelled) else !Closed(c, job)
  }

  /** `c` is `b` after some of the effects an attempted batch has on `rest`. */
  ghost predicate Tried(r: Redis, b: Book, c: Book, rest: seq<Id>) {
    && c.sent == b.sent
    && Dropped(c.pel, rest) == Dropped(b.pel, rest)
    && forall job :: Look(c, job) == Look(b, job) || Unsettled(r, b, c, rest, job)
  }

  /** What serving `id` does to the status of any job. */
  lemma ServeLook(r: Redis, env: Env, b: Book, id: Id, job: string)
    ensures Look(Serve(r, env, b, id), job) ==
            if Malformed(r, id) || JobOf(r, id) != job || Closed(b, job) then Look(b, job)
            else if job in r.flags then Some(Cancelled)
            else if Computed(r, env, id).None? then Some(Failed)
            else Some(Completed)
    ensures Serve(r, env, b, id).pel == Without(b.pel, id)
  {
    hide Without, Computed, Malformed, JobOf;
  }

  lemma TriedServeJob(r: Redis, env: Env, b: Book, c: Book, rest: seq<Id>, job: string)
    requires rest != [] && (Look(c, job) == Look(b, job) || Unsettled(r, b, c, rest, job))
    ensures var b', c' := Serve(r, env, b, rest[0]), Serve(r, env, c, rest[0]);
            Look(c', job) == Look(b', job) || Unsettled(r, b', c', rest[1..], job)
  {
    AwaitedTail(r, rest, job);
    ServeLook(r, env, b, rest[0], job);
    ServeLook(r, env, c, rest[0], job);
    hide Serve, Awaited, Malformed, JobOf, Computed;
  }

  lemma TriedServe(r: Redis, env: Env, b: Book, c: Book, rest: seq<Id>)
    requires rest != [] && Tried(r, b, c, rest)
    ensures Tried(r, Serve(r, env, b, rest[0]), Serve(r, env, c, rest[0]), rest[1..])
  {
    var id := rest[0];
    var b', c' := Serve(r, env, b, id), Serve(r, env, c, id);
    forall job ensures Look(c', job) == Look(b', job) || Unsettled(r, b', c', rest[1..], job) {
      assert Look(c, job) == Look(b, job) || Unsettled(r, b, c, rest, job);
      TriedServeJob(r, env, b, c, rest, job);
    }
    ServeLook(r, env, b, id, "");
    ServeLook(r, env, c, id, "");
    assert c'.sent == b'.sent by {
      assert Look(c, JobOf(r, id)) == Look(b, JobOf(r, id)) || Unsettled(r, b, c, rest, JobOf(r, id));
      hide Dropped, Awaited, Without;
    }
    hide Serve, Unsettled, Look;
  }

  lemma {:induction false} TriedServeAll(r: Redis, env: Env, b: Book, c: Book, rest: seq<Id>)
    requires Tried(r, b, c, rest)
    ensures ServeAll(r, env, c, rest) == ServeAll(r, env, b, rest)
    decreases |rest|
  {
    if rest == [] {
      BooksEqual(b, c);
    } else {
      TriedServe(r, env, b, c, rest);
      TriedServeAll(r, env, Serve(r, env, b, rest[0]), Serve(r, env, c, rest[0]), rest[1..]);
    }
  }

  lemma TriedTriage(r: Redis, b: Book, c: Book, batch: seq<Id>, id: Id)
    requires Tried(r, b, c, batch) && id in batch
    ensures Tried(r, b, Triaged(r, c, id), batch)
  {
    var c' := Triaged(r, c, id);
    DroppedAlready(c.pel, batch, id);
    forall job ensures Look(c', job) == Look(b, job) || Unsettled(r, b, c', batch, job) {
      assert Look(c, job) == Look(b, job) || Unsettled(r, b, c, batch, job);
      if !Malformed(r, id) && job == JobOf(r, id) {
        var i :| 0 <= i < |batch| && batch[i] == id;
        assert Awaited(r, batch, job);
      }
    }
  }

  lemma {:induction false} TriedTriageAll(r: Redis, b: Book, c: Book, batch: seq<Id>, todo: seq<Id>)
    requires Tried(r, b, c, batch) && forall i :: 0 <= i < |todo| ==> todo[i] in batch
    ensures Tried(r, b, TriagedAll(r, c, todo), batch)
    decreases |todo|
  {
    if todo != [] {
      TriedTriage(r, b, c, batch, todo[0]);
      TriedTriageAll(r, b, Triaged(r, c, todo[0]), batch, todo[1..]);
    }
  }

  /** Triage changes the status of flagged jobs only. */
  lemma TriageKeepsUnflagged(r: Redis, b: Book, id: Id, job: string)
    requires job !in r.flags
    ensures Look(Triaged(r, b, id), job) == Look(b, job)
    ensures Closed(Triaged(r, b, id), job) == Closed(b, job)
  {
  }

  lemma {:induction false} TriageAllKeepsUnflagged(r: Redis, b: Book, ids: seq<Id>, job: string)
    requires job !in r.flags
    ensures Look(TriagedAll(r, b, ids), job) == Look(b, job)
    decreases |ids|
  {
    if ids != [] {
      TriageKeepsUnflagged(r, b, ids[0], job);
      TriageAllKeepsUnflagged(r, Triaged(r, b, ids[0]), ids[1..], job);
    }
  }

  /** What triage keeps is exactly what it would keep looking at the first book only. */
  lemma {:induction false} KeptFacts(r: Redis, b: Book, ids: seq<Id>, id: Id)
    ensures id in KeptOf(r, b, ids) <==> id in ids && Kept(r, b, id)
    decreases |ids|
  {
    if ids != [] {
      var b1 := Triaged(r, b, ids[0]);
      KeptFacts(r, b1, ids[1..], id);
      if JobOf(r, id) !in r.flags { TriageKeepsUnflagged(r, b, ids[0], JobOf(r, id)); }
      assert id in ids <==> id == ids[0] || id in ids[1..];
    }
  }

  lemma {:induction false} TriedMarkAll(r: Redis, b: Book, c: Book, batch: seq<Id>, todo: seq<Id>)
    requires Tried(r, b, c, batch)
    requires forall i :: 0 <= i < |todo| ==> todo[i] in batch && Kept(r, c, todo[i])
    ensures Tried(r, b, MarkedAll(r, c, todo, Executing), batch)
    decreases |todo|
  {
    if todo != [] {
      var job := JobOf(r, todo[0]);
      var c' := Marked(c, job, Executing);
      var i :| 0 <= i < |batch| && batch[i] == todo[0];
      assert Awaited(r, batch, job);
      forall j ensures Look(c', j) == Look(b, j) || Unsettled(r, b, c', batch, j) {
        assert Look(c, j) == Look(b, j) || Unsettled(r, b, c, batch, j);
      }
      TriedMarkAll(r, b, c', batch, todo[1..]);
    }
  }

  lemma StillKept(r: Redis, b: Book, ids: seq<Id>, id: Id)
    requires id in KeptOf(r, b, ids)
    ensures id in ids && Kept(r, TriagedAll(r, b, ids), id)
  {
    KeptFacts(r, b, ids, id);
    TriageAllKeepsUnflagged(r, b, ids, JobOf(r, id));
  }

  lemma AttemptIsTried(r: Redis, b: Book, batch: seq<Id>)
    ensures Tried(r, b, MarkedAll(r, TriagedAll(r, b, batch), KeptOf(r, b, batch), Executing), batch)
  {
    var kept := KeptOf(r, b, batch);
    TriedTriageAll(r, b, b, batch, batch);
    forall i | 0 <= i < |kept| ensures kept[i] in batch && Kept(r, TriagedAll(r, b, batch), kept[i]) {
      StillKept(r, b, batch, kept[i]);
    }
    TriedMarkAll(r, b, TriagedAll(r, b, batch), batch, kept);
  }

  /** A batch that fails and falls back, with whatever duplicates, malformed,
      finished, cancelled or unparsable messages in it, ends as if it had never
      been tried. */
  lemma FallbackIsHarmless(r: Redis, env: Env, b: Book, batch: seq<Id>)
    requires KeptOf(r, b, batch) != [] && Falls(r, env, KeptOf(r, b, batch))
    ensures BatchServed(r, env, b, batch) == ServeAll(r, env, b, batch)
  {
    AttemptIsTried(r, b, batch);
    TriedServeAll(
      r, env, b, MarkedAll(r, TriagedAll(r, b, batch), KeptOf(r, b, batch), Executing), batch);
  }

  // ---------------------------------------------------------------- a batch that returns

  /** Serving the message now would run it. */
  predicate Live(r: Redis, b: Book, id: Id) {
    !Malformed(r, id) && !Closed(b, JobOf(r, id)) && JobOf(r, id) !in r.flags
  }

  predicate Parses(r: Redis, id: Id) {
    FieldsOf(r, id).work.Some?
  }

  /** No live message before position `i` is about the same job. */
  ghost predicate FirstLive(r: Redis, b: Book, ids: seq<Id>, i: nat)
    requires i < |ids|
  {
    && Live(r, b, ids[i])
    && forall j :: 0 <= j < i && Live(r, b, ids[j]) ==> JobOf(r, ids[j]) != JobOf(r, ids[i])
  }

  /** Every live message that parses has an answer: nothing makes a batch of them fall back. */
  ghost predicate KeptAnswered(r: Redis, env: Env, b: Book, ids: seq<Id>) {
    forall i :: 0 <= i < |ids| && Live(r, b, ids[i]) && Parses(r, ids[i]) ==> Computed(r, env, ids[i]).Some?
  }

  ghost predicate FirstsParse(r: Redis, b: Book, ids: seq<Id>) {
    forall i :: 0 <= i < |ids| && FirstLive(r, b, ids, i) ==> Parses(r, ids[i])
  }

  ghost predicate LatersDoNot(r: Redis, b: Book, ids: seq<Id>) {
    forall i, j :: 0 <= i < j < |ids| && Live(r, b, ids[i]) && Live(r, b, ids[j]) ==>
      JobOf(r, ids[i]) == JobOf(r, ids[j]) ==> !Parses(r, ids[j])
  }

  /** Of the live messages, exactly the first of each job parses. */
  ghost predicate OnePerJob(r: Redis, b: Book, ids: seq<Id>) {
    forall i :: 0 <= i < |ids| && Live(r, b, ids[i]) ==> (Parses(r, ids[i]) <==> FirstLive(r, b, ids, i))
  }

  lemma {:induction false} FirstExists(r: Redis, b: Book, ids: seq<Id>, k: nat) returns (i: nat)
    requires k < |ids| && Live(r, b, ids[k])
    ensures i <= k && FirstLive(r, b, ids, i) && JobOf(r, ids[i]) == JobOf(r, ids[k])
    decreases k
  {
    hide Live, JobOf;
    if FirstLive(r, b, ids, k) {
      i := k;
    } else {
      var j :| 0 <= j < k && Live(r, b, ids[j]) && JobOf(r, ids[j]) == JobOf(r, ids[k]);
      i := FirstExists(r, b, ids, j);
    }
  }

  lemma OnePerJobSplits(r: Redis, b: Book, ids: seq<Id>)
    ensures OnePerJob(r, b, ids) <==> FirstsParse(r, b, ids) && LatersDoNot(r, b, ids)
  {
    hide Live, JobOf, Parses;
    if FirstsParse(r, b, ids) && LatersDoNot(r, b, ids) {
      forall i | 0 <= i < |ids| && Live(r, b, ids[i]) && Parses(r, ids[i]) ensures FirstLive(r, b, ids, i) {
      }
    }
  }

  /** The status every job should end with. */
  ghost function Final(r: Redis, b: Book, ids: seq<Id>, job: string): Option<JobState> {
    if Awaited(r, ids, job) && !Closed(b, job) then Some(if job in r.flags then Cancelled else Completed)
    else Look(b, job)
  }

  /** One success per live message that has an answer. */
  function LiveSends(r: Redis, env: Env, b: Book, ids: seq<Id>): multiset<(Id, Payload)>
    decreases |ids|
  {
    if ids == [] then multiset{}
    else
      (if Live(r, b, ids[0]) && Computed(r, env, ids[0]).Some? then
         multiset{(ids[0], Success(Computed(r, env, ids[0]).value))} else multiset{})
      + LiveSends(r, env, b, ids[1..])
  }

  /** Serving `id` closes its own job and leaves every other job as live as it was. */
  lemma LiveAfterServe(r: Redis, env: Env, b: Book, id: Id, x: Id)
    requires Live(r, b, id) ==> Computed(r, env, id).Some?
    ensures Live(r, Serve(r, env, b, id), x) <==> Live(r, b, x) && !(Live(r, b, id) && JobOf(r, x) == JobOf(r, id))
  {
    ServeLook(r, env, b, id, JobOf(r, x));
    hide Serve, Malformed, JobOf, Computed;
  }

  /** Whatever comes of it, serving `id` leaves the messages of other jobs as live as they were. */
  lemma OthersStayLive(r: Redis, env: Env, b: Book, id: Id, x: Id)
    ensures Live(r, Serve(r, env, b, id), x) ==> Live(r, b, x)
    ensures Live(r, b, x) && !(Live(r, b, id) && JobOf(r, x) == JobOf(r, id)) ==> Live(r, Serve(r, env, b, id), x)
  {
    ServeLook(r, env, b, id, JobOf(r, x));
    hide Serve, Malformed, JobOf, Computed;
  }

  lemma ServeSent(r: Redis, env: Env, b: Book, id: Id)
    ensures Serve(r, env, b, id).sent ==
            b.sent + if !Live(r, b, id) then multiset{}
                     else match Computed(r, env, id)
                          case None => multiset{(id, Failure)}
                          case Some(res) => multiset{(id, Success(res))}
  {
    hide Without;
  }

  /** The messages left are as good as all of them were. */
  lemma GoodTail(r: Redis, env: Env, b: Book, ids: seq<Id>)
    requires ids != [] && KeptAnswered(r, env, b, ids) && FirstsParse(r, b, ids)
    ensures Live(r, b, ids[0]) ==> Computed(r, env, ids[0]).Some?
    ensures var b1 := Serve(r, env, b, ids[0]); KeptAnswered(r, env, b1, ids[1..]) && FirstsParse(r, b1, ids[1..])
  {
    var b1, rest := Serve(r, env, b, ids[0]), ids[1..];
    assert Live(r, b, ids[0]) ==> FirstLive(r, b, ids, 0);
    hide Serve, Live, JobOf, Parses, Computed;
    forall i | 0 <= i < |rest|
      ensures rest[i] == ids[i + 1]
      ensures Live(r, b1, rest[i]) <==>
              Live(r, b, rest[i]) && !(Live(r, b, ids[0]) && JobOf(r, rest[i]) == JobOf(r, ids[0]))
    {
      LiveAfterServe(r, env, b, ids[0], rest[i]);
    }
    forall i | 0 <= i < |rest| && FirstLive(r, b1, rest, i) ensures Parses(r, rest[i]) {
      forall j | 0 <= j < i + 1 && Live(r, b, ids[j]) ensures JobOf(r, ids[j]) != JobOf(r, ids[i + 1]) {
        if j > 0 { assert rest[j - 1] == ids[j]; }
      }
      assert FirstLive(r, b, ids, i + 1);
    }
  }

  lemma {:induction false} ServeAllStatus(r: Redis, env: Env, b: Book, ids: seq<Id>, job: string)
    requires KeptAnswered(r, env, b, ids) && FirstsParse(r, b, ids)
    ensures Look(ServeAll(r, env, b, ids), job) == Final(r, b, ids, job)
    decreases |ids|
  {
    if ids != [] {
      var b1 := Serve(r, env, b, ids[0]);
      GoodTail(r, env, b, ids);
      ServeAllStatus(r, env, b1, ids[1..], job);
      ServeLook(r, env, b, ids[0], job);
      AwaitedTail(r, ids, job);
      hide Serve, Awaited, Malformed, JobOf, Computed, KeptAnswered, FirstsParse;
    }
  }

  lemma {:induction false} ServeAllPel(r: Redis, env: Env, b: Book, ids: seq<Id>)
    ensures ServeAll(r, env, b, ids).pel == Dropped(b.pel, ids)
    decreases |ids|
  {
    if ids != [] {
      ServeLook(r, env, b, ids[0], "");
      ServeAllPel(r, env, Serve(r, env, b, ids[0]), ids[1..]);
      hide Serve;
    }
  }

  lemma {:induction false} SameLiveSends(r: Redis, env: Env, b: Book, c: Book, ids: seq<Id>)
    requires forall i :: 0 <= i < |ids| && Computed(r, env, ids[i]).Some? ==> Live(r, b, ids[i]) == Live(r, c, ids[i])
    ensures LiveSends(r, env, b, ids) == LiveSends(r, env, c, ids)
    decreases |ids|
  {
    hide Live, Computed;
    if ids != [] {
      assert forall i :: 0 <= i < |ids[1..]| ==> ids[1..][i] == ids[i + 1];
      SameLiveSends(r, env, b, c, ids[1..]);
    }
  }

  lemma NoWorkNoAnswer(r: Redis, env: Env, id: Id)
    ensures Computed(r, env, id).Some? ==> Parses(r, id)
  {
  }

  /** When only the first live message of each job parses, serving sends one success for each of them. */
  lemma {:induction false} ServeAllSends(r: Redis, env: Env, b: Book, ids: seq<Id>)
    requires KeptAnswered(r, env, b, ids) && FirstsParse(r, b, ids) && LatersDoNot(r, b, ids)
    ensures ServeAll(r, env, b, ids).sent == b.sent + LiveSends(r, env, b, ids)
    decreases |ids|
  {
    if ids != [] {
      var b1, rest := Serve(r, env, b, ids[0]), ids[1..];
      GoodTail(r, env, b, ids);
      ServeSent(r, env, b, ids[0]);
      hide Serve, Live, Computed, Parses, JobOf;
      forall i | 0 <= i < |rest|
        ensures rest[i] == ids[i + 1]
        ensures Live(r, b1, rest[i]) ==> Live(r, b, rest[i])
        ensures Computed(r, env, rest[i]).Some? ==> Live(r, b, rest[i]) == Live(r, b1, rest[i])
      {
        LiveAfterServe(r, env, b, ids[0], rest[i]);
        NoWorkNoAnswer(r, env, rest[i]);
      }
      assert LatersDoNot(r, b1, rest);
      ServeAllSends(r, env, b1, rest);
      SameLiveSends(r, env, b, b1, rest);
      hide KeptAnswered, FirstsParse, LatersDoNot;
    }
  }

  // ---------------------------------------------------------------- the batch side

  lemma {:induction false} TriageAllSent(r: Redis, b: Book, ids: seq<Id>)
    ensures TriagedAll(r, b, ids).sent == b.sent
    decreases |ids|
  {
    if ids != [] { TriageAllSent(r, Triaged(r, b, ids[0]), ids[1..]); }
  }

  lemma {:induction false} MarkAllEffect(r: Redis, b: Book, ids: seq<Id>, st: JobState, job: string)
    ensures var c := MarkedAll(r, b, ids, st);
            && c.sent == b.sent && c.pel == b.pel
            && Look(c, job)
                 == if (exists i :: 0 <= i < |ids| && JobOf(r, ids[i]) == job) then Some(st) else Look(b, job)
    decreases |ids|
  {
    if ids != [] {
      MarkAllEffect(r, Marked(b, JobOf(r, ids[0]), st), ids[1..], st, job);
      if i :| 0 <= i < |ids| && JobOf(r, ids[i]) == job {
        if i > 0 { assert ids[1..][i - 1] == ids[i]; }
      }
    }
  }

  function Sends(r: Redis, env: Env, ids: seq<Id>): multiset<(Id, Payload)>
    decreases |ids|
  {
    if ids == [] then multiset{}
    else
      (match Computed(r, env, ids[0])
       case None => multiset{(ids[0], Failure)}
       case Some(res) => multiset{(ids[0], Success(res))})
      + Sends(r, env, ids[1..])
  }

  lemma {:induction false} DeliverAllEffect(r: Redis, env: Env, b: Book, ids: seq<Id>, job: string)
    requires forall i :: 0 <= i < |ids| ==> Computed(r, env, ids[i]).Some?
    ensures var c := DeliveredAll(r, env, b, ids);
            && c.sent == b.sent + Sends(r, env, ids)
            && c.pel == Dropped(b.pel, ids)
            && Look(c, job)
                 == if (exists i :: 0 <= i < |ids| && JobOf(r, ids[i]) == job) then Some(Completed) else Look(b, job)
    decreases |ids|
  {
    if ids != [] {
      var b1 := Acked(Reported(b, r, env, ids[0]), ids[0]);
      DeliverAllEffect(r, env, b1, ids[1..], job);
      if i :| 0 <= i < |ids| && JobOf(r, ids[i]) == job {
        if i > 0 { assert ids[1..][i - 1] == ids[i]; }
      }
      hide Without, Dropped;
    }
  }

  /** The live messages that parse are the ones triage keeps, in order. */
  lemma {:induction false} SendsOfKept(r: Redis, env: Env, b: Book, ids: seq<Id>)
    requires KeptAnswered(r, env, b, ids)
    ensures Sends(r, env, KeptOf(r, b, ids)) == LiveSends(r, env, b, ids)
    decreases |ids|
  {
    if ids != [] {
      var b1, rest := Triaged(r, b, ids[0]), ids[1..];
      forall i | 0 <= i < |rest| ensures rest[i] == ids[i + 1] && Live(r, b, rest[i]) == Live(r, b1, rest[i]) {
        if JobOf(r, rest[i]) !in r.flags { TriageKeepsUnflagged(r, b, ids[0], JobOf(r, rest[i])); }
      }
      assert KeptAnswered(r, env, b1, rest) by { hide Live, Computed, Parses; }
      SendsOfKept(r, env, b1, rest);
      SameLiveSends(r, env, b, b1, rest);
      NoWorkNoAnswer(r, env, ids[0]);
      assert Kept(r, b, ids[0]) <==> Live(r, b, ids[0]) && Parses(r, ids[0]);
      if Kept(r, b, ids[0]) {
        assert KeptOf(r, b, ids) == [ids[0]] + KeptOf(r, b1, rest);
        assert KeptOf(r, b, ids)[1..] == KeptOf(r, b1, rest);
      } else {
        assert KeptOf(r, b, ids) == KeptOf(r, b1, rest);
      }
    }
  }

  /** Triage acknowledges exactly what it does not keep, and marks the flagged. */
  lemma {:induction false} TriageAllAcks(r: Redis, b: Book, ids: seq<Id>, id: Id)
    requires id in ids && !Kept(r, b, id)
    ensures id !in TriagedAll(r, b, ids).pel
    decreases |ids|
  {
    var b1 := Triaged(r, b, ids[0]);
    if ids[0] == id {
      TriageAllShrinks(r, b1, ids[1..], id);
    } else {
      assert id in ids[1..];
      if JobOf(r, id) !in r.flags { TriageKeepsUnflagged(r, b, ids[0], JobOf(r, id)); }
      TriageAllAcks(r, b1, ids[1..], id);
    }
  }

  lemma {:induction false} TriageAllShrinks(r: Redis, b: Book, ids: seq<Id>, id: Id)
    requires id !in b.pel
    ensures id !in TriagedAll(r, b, ids).pel
    decreases |ids|
  {
    if ids != [] { TriageAllShrinks(r, Triaged(r, b, ids[0]), ids[1..], id); }
  }

  lemma {:induction false} DroppedMembers(pel: seq<Id>, ids: seq<Id>, id: Id)
    ensures id in Dropped(pel, ids) <==> id in pel && id !in ids
    decreases |ids|
  {
    if ids != [] {
      DroppedMembers(Without(pel, ids[0]), ids[1..], id);
      assert id in ids <==> id == ids[0] || id in ids[1..];
    }
  }

  lemma {:induction false} DroppedTwice(pel: seq<Id>, some: seq<Id>, ids: seq<Id>)
    requires forall i :: 0 <= i < |some| ==> some[i] in ids
    ensures Dropped(Dropped(pel, some), ids) == Dropped(pel, ids)
    decreases |some|
  {
    if some != [] {
      DroppedTwice(Without(pel, some[0]), some[1..], ids);
      DroppedAlready(pel, ids, some[0]);
    }
  }

  lemma BatchPel(r: Redis, env: Env, b: Book, batch: seq<Id>)
    ensures Dropped(TriagedAll(r, b, batch).pel, KeptOf(r, b, batch)) == Dropped(b.pel, batch)
  {
    var kept := KeptOf(r, b, batch);
    var pel1 := TriagedAll(r, b, batch).pel;
    TriedTriageAll(r, b, b, batch, batch);
    forall i | 0 <= i < |kept| ensures kept[i] in batch { KeptFacts(r, b, batch, kept[i]); }
    DroppedTwice(pel1, kept, batch);
    forall i | 0 <= i < |batch| ensures batch[i] !in Dropped(pel1, kept) {
      DroppedMembers(pel1, kept, batch[i]);
      KeptFacts(r, b, batch, batch[i]);
      if !Kept(r, b, batch[i]) { TriageAllAcks(r, b, batch, batch[i]); }
    }
    DroppedAbsent(Dropped(pel1, kept), batch);
  }

  lemma {:induction false} TriageAllStatus(r: Redis, b: Book, ids: seq<Id>, job: string)
    ensures Look(TriagedAll(r, b, ids), job) ==
            if job in r.flags && Awaited(r, ids, job) && !Closed(b, job) then Some(Cancelled) else Look(b, job)
    decreases |ids|
  {
    if ids != [] {
      TriageAllStatus(r, Triaged(r, b, ids[0]), ids[1..], job);
      AwaitedTail(r, ids, job);
      hide Awaited, Malformed, JobOf, Without;
    }
  }

  lemma KeptJobs(r: Redis, b: Book, batch: seq<Id>, job: string)
    requires FirstsParse(r, b, batch)
    ensures (exists i :: 0 <= i < |KeptOf(r, b, batch)| && JobOf(r, KeptOf(r, b, batch)[i]) == job)
            <==> job !in r.flags && Awaited(r, batch, job) && !Closed(b, job)
  {
    var kept := KeptOf(r, b, batch);
    if i :| 0 <= i < |kept| && JobOf(r, kept[i]) == job {
      KeptFacts(r, b, batch, kept[i]);
      var k :| 0 <= k < |batch| && batch[k] == kept[i];
    }
    if job !in r.flags && Awaited(r, batch, job) && !Closed(b, job) {
      var k :| 0 <= k < |batch| && !Malformed(r, batch[k]) && JobOf(r, batch[k]) == job;
      assert Live(r, b, batch[k]);
      var f := FirstExists(r, b, batch, k);
      KeptFacts(r, b, batch, batch[f]);
      var i :| 0 <= i < |kept| && kept[i] == batch[f];
    }
  }

  /** Nothing makes the batch fall back. */
  ghost predicate Together(r: Redis, env: Env, b: Book, batch: seq<Id>) {
    KeptOf(r, b, batch) == [] || !Falls(r, env, KeptOf(r, b, batch))
  }

  lemma TogetherIsAnswered(r: Redis, env: Env, b: Book, batch: seq<Id>)
    requires Together(r, env, b, batch)
    ensures KeptAnswered(r, env, b, batch)
    ensures AllComputed(r, env, KeptOf(r, b, batch))
  {
    forall i | 0 <= i < |batch| && Live(r, b, batch[i]) && Parses(r, batch[i])
      ensures Computed(r, env, batch[i]).Some?
    {
      KeptFacts(r, b, batch, batch[i]);
      var k :| 0 <= k < |KeptOf(r, b, batch)| && KeptOf(r, b, batch)[k] == batch[i];
    }
  }

  /** What a batch that stays together sends and acknowledges. */
  lemma BatchSent(r: Redis, env: Env, b: Book, batch: seq<Id>)
    requires Together(r, env, b, batch)
    ensures var c := BatchServed(r, env, b, batch);
            && c.sent == b.sent + LiveSends(r, env, b, batch)
            && c.pel == Dropped(b.pel, batch)
  {
    var kept := KeptOf(r, b, batch);
    var b1 := TriagedAll(r, b, batch);
    var b2 := MarkedAll(r, b1, kept, Executing);
    TogetherIsAnswered(r, env, b, batch);
    TriageAllSent(r, b, batch);
    MarkAllEffect(r, b1, kept, Executing, "");
    DeliverAllEffect(r, env, b2, kept, "");
    SendsOfKept(r, env, b, batch);
    BatchPel(r, env, b, batch);
    hide KeptOf, TriagedAll, Sends, Computed, JobOf, KeptAnswered, LiveSends;
  }

  lemma BatchStatus(r: Redis, env: Env, b: Book, batch: seq<Id>, job: string)
    requires Together(r, env, b, batch) && FirstsParse(r, b, batch)
    ensures Look(BatchServed(r, env, b, batch), job) == Final(r, b, batch, job)
  {
    var kept := KeptOf(r, b, batch);
    var b1 := TriagedAll(r, b, batch);
    var b2 := MarkedAll(r, b1, kept, Executing);
    TogetherIsAnswered(r, env, b, batch);
    TriageAllStatus(r, b, batch, job);
    MarkAllEffect(r, b1, kept, Executing, job);
    DeliverAllEffect(r, env, b2, kept, job);
    KeptJobs(r, b, batch, job);
    hide KeptOf, TriagedAll, Sends, Awaited, Computed, JobOf, FirstsParse, KeptAnswered;
  }

  /** When exactly the first live message of each job parses, a batch that stays
      together ends with the same job states, the same pending list and the same
      posts as serving its messages one by one. */
  lemma BatchRefinesServing(r: Redis, env: Env, b: Book, batch: seq<Id>)
    requires Together(r, env, b, batch) && OnePerJob(r, b, batch)
    ensures BatchServed(r, env, b, batch) == ServeAll(r, env, b, batch)
  {
    var c, d := BatchServed(r, env, b, batch), ServeAll(r, env, b, batch);
    OnePerJobSplits(r, b, batch);
    TogetherIsAnswered(r, env, b, batch);
    hide BatchServed, ServeAll, Look, OnePerJob, FirstsParse, LatersDoNot, KeptAnswered, Together;
    forall job ensures Look(c, job) == Look(d, job) {
      BatchStatus(r, env, b, batch, job);
      ServeAllStatus(r, env, b, batch, job);
    }
    BatchSent(r, env, b, batch);
    ServeAllPel(r, env, b, batch);
    ServeAllSends(r, env, b, batch);
    BooksEqual(c, d);
  }

  // ---------------------------------------------------------------- exactly when

  lemma {:induction false} FewerSends(r: Redis, env: Env, b: Book, c: Book, ids: seq<Id>)
    requires forall i :: 0 <= i < |ids| && Live(r, c, ids[i]) ==> Live(r, b, ids[i])
    ensures |LiveSends(r, env, c, ids)| <= |LiveSends(r, env, b, ids)|
    ensures (exists i :: 0 <= i < |ids| && Live(r, b, ids[i]) && !Live(r, c, ids[i])
                         && Computed(r, env, ids[i]).Some?) ==>
              |LiveSends(r, env, c, ids)| < |LiveSends(r, env, b, ids)|
    decreases |ids|
  {
    hide Live, Computed;
    if ids != [] {
      assert forall i :: 0 <= i < |ids[1..]| ==> ids[1..][i] == ids[i + 1];
      FewerSends(r, env, b, c, ids[1..]);
      if i :| 0 <= i < |ids| && Live(r, b, ids[i]) && Computed(r, env, ids[i]).Some? && !Live(r, c, ids[i]) {
        if i > 0 { assert ids[1..][i - 1] == ids[i]; }
      }
    }
  }

  /** Serving never sends more than one success per live message that parses, and
      fewer when a later one of a job parses: it finds the job closed. */
  lemma {:induction false} ServeAllCounts(r: Redis, env: Env, b: Book, ids: seq<Id>)
    requires KeptAnswered(r, env, b, ids) && FirstsParse(r, b, ids)
    ensures |ServeAll(r, env, b, ids).sent| <= |b.sent| + |LiveSends(r, env, b, ids)|
    ensures !LatersDoNot(r, b, ids) ==> |ServeAll(r, env, b, ids).sent| < |b.sent| + |LiveSends(r, env, b, ids)|
    decreases |ids|
  {
    if ids != [] {
      var b1, rest := Serve(r, env, b, ids[0]), ids[1..];
      GoodTail(r, env, b, ids);
      ServeAllCounts(r, env, b1, rest);
      ServeSent(r, env, b, ids[0]);
      hide Serve, Live, JobOf, Computed, Parses, ServeAll, FirstsParse;
      forall i | 0 <= i < |rest|
        ensures rest[i] == ids[i + 1]
        ensures Live(r, b1, rest[i]) <==>
                Live(r, b, rest[i]) && !(Live(r, b, ids[0]) && JobOf(r, rest[i]) == JobOf(r, ids[0]))
      {
        LiveAfterServe(r, env, b, ids[0], rest[i]);
      }
      FewerSends(r, env, b, b1, rest);
      if !LatersDoNot(r, b, ids) {
        var i, j :| 0 <= i < j < |ids| && Live(r, b, ids[i]) && Live(r, b, ids[j])
                    && JobOf(r, ids[i]) == JobOf(r, ids[j])
                    && Parses(r, ids[j]);
        assert rest[j - 1] == ids[j] && Computed(r, env, ids[j]).Some?;
        if i > 0 {
          assert rest[i - 1] == ids[i];
          if Live(r, b1, rest[i - 1]) { assert !LatersDoNot(r, b1, rest); }
        }
      }
    }
  }

  lemma {:induction false} ServeAllKeepsSent(r: Redis, env: Env, b: Book, ids: seq<Id>)
    ensures b.sent <= ServeAll(r, env, b, ids).sent
    decreases |ids|
  {
    if ids != [] {
      ServeSent(r, env, b, ids[0]);
      ServeAllKeepsSent(r, env, Serve(r, env, b, ids[0]), ids[1..]);
      hide Serve;
    }
  }

  /** The first live message of a job that does not parse is reported as failed when served. */
  lemma {:induction false} FirstUnparsableFails(r: Redis, env: Env, b: Book, ids: seq<Id>, i: nat)
    requires i < |ids| && FirstLive(r, b, ids, i) && !Parses(r, ids[i])
    ensures b.sent + multiset{(ids[i], Failure)} <= ServeAll(r, env, b, ids).sent
    decreases |ids|
  {
    var b1, rest := Serve(r, env, b, ids[0]), ids[1..];
    ServeSent(r, env, b, ids[0]);
    if i == 0 {
      NoWorkNoAnswer(r, env, ids[0]);
      ServeAllKeepsSent(r, env, b1, rest);
      hide Serve, Live;
    } else {
      hide Serve, Live, JobOf, Parses;
      forall j | 0 <= j < |rest|
        ensures rest[j] == ids[j + 1]
        ensures Live(r, b1, rest[j]) ==> Live(r, b, rest[j])
        ensures Live(r, b, rest[j]) && !(Live(r, b, ids[0]) && JobOf(r, rest[j]) == JobOf(r, ids[0])) ==>
                  Live(r, b1, rest[j])
      {
        OthersStayLive(r, env, b, ids[0], rest[j]);
      }
      assert FirstLive(r, b1, rest, i - 1);
      FirstUnparsableFails(r, env, b1, rest, i - 1);
    }
  }

  lemma {:induction false} LiveSendsSucceed(r: Redis, env: Env, b: Book, ids: seq<Id>, id: Id)
    ensures LiveSends(r, env, b, ids)[(id, Failure)] == 0
    decreases |ids|
  {
    if ids != [] { LiveSendsSucceed(r, env, b, ids[1..], id); }
  }

  lemma FirstUnparsableDiffers(r: Redis, env: Env, b: Book, batch: seq<Id>, i: nat)
    requires Together(r, env, b, batch) && i < |batch| && FirstLive(r, b, batch, i) && !Parses(r, batch[i])
    ensures BatchServed(r, env, b, batch).sent[(batch[i], Failure)] == b.sent[(batch[i], Failure)]
    ensures ServeAll(r, env, b, batch).sent[(batch[i], Failure)] > b.sent[(batch[i], Failure)]
  {
    hide BatchServed, ServeAll, FirstLive, Together, LiveSends;
    BatchSent(r, env, b, batch);
    LiveSendsSucceed(r, env, b, batch, batch[i]);
    FirstUnparsableFails(r, env, b, batch, i);
  }

  /** A batch that stays together never reports a failure, so the first live
      message of a job that does not parse, wherever it stands in the batch, is
      acknowledged in silence, while serving reports it as failed. */
  lemma UnparsableIsSilentInBatch(r: Redis, env: Env, b: Book, batch: seq<Id>, i: nat)
    requires |batch| > 1 && Together(r, env, b, batch)
    requires i < |batch| && FirstLive(r, b, batch, i) && !Parses(r, batch[i])
    ensures BatchServed(r, env, b, batch).sent[(batch[i], Failure)] == b.sent[(batch[i], Failure)]
    ensures ServeAll(r, env, b, batch).sent[(batch[i], Failure)] > b.sent[(batch[i], Failure)]
    ensures batch[i] !in BatchServed(r, env, b, batch).pel
  {
    hide BatchServed, ServeAll, FirstLive, Together, LiveSends;
    FirstUnparsableDiffers(r, env, b, batch, i);
    BatchSent(r, env, b, batch);
    DroppedMembers(b.pel, batch, batch[i]);
  }

  lemma NotOnePerJobDiffers(r: Redis, env: Env, b: Book, batch: seq<Id>)
    requires Together(r, env, b, batch) && !OnePerJob(r, b, batch)
    ensures BatchServed(r, env, b, batch) != ServeAll(r, env, b, batch)
  {
    hide BatchServed, ServeAll, Live, Parses, OnePerJob, Together, KeptAnswered, LatersDoNot, LiveSends, FirstLive;
    OnePerJobSplits(r, b, batch);
    if FirstsParse(r, b, batch) {
      BatchSent(r, env, b, batch);
      TogetherIsAnswered(r, env, b, batch);
      ServeAllCounts(r, env, b, batch);
    } else {
      var i :| 0 <= i < |batch| && FirstLive(r, b, batch, i) && !Parses(r, batch[i]);
      FirstUnparsableDiffers(r, env, b, batch, i);
    }
  }

  /** For every batch, whatever is in it and whatever the executor does: it ends as
      serving its messages one by one would, if and only if it falls back or, of
      its live messages, exactly the first of each job parses. */
  lemma BatchAgreesExactly(r: Redis, env: Env, b: Book, batch: seq<Id>)
    ensures BatchServed(r, env, b, batch) == ServeAll(r, env, b, batch)
            <==> !Together(r, env, b, batch) || OnePerJob(r, b, batch)
  {
    hide BatchServed, ServeAll, KeptOf, Falls, OnePerJob;
    if !Together(r, env, b, batch) {
      FallbackIsHarmless(r, env, b, batch);
    } else if OnePerJob(r, b, batch) {
      BatchRefinesServing(r, env, b, batch);
    } else {
      NotOnePerJobDiffers(r, env, b, batch);
    }
  }

  /** Every live message parses. */
  ghost predicate AllParse(r: Redis, b: Book, ids: seq<Id>) {
    forall i :: 0 <= i < |ids| && Live(r, b, ids[i]) ==> Parses(r, ids[i])
  }

  ghost predicate DistinctJobs(r: Redis, b: Book, ids: seq<Id>) {
    forall i, j :: 0 <= i < j < |ids| && Live(r, b, ids[i]) && Live(r, b, ids[j]) ==>
      JobOf(r, ids[i]) != JobOf(r, ids[j])
  }

  /** For messages that all parse the condition is that no two live ones share a job. */
  lemma BatchAgreesExactlyWhenDistinct(r: Redis, env: Env, b: Book, batch: seq<Id>)
    requires AllParse(r, b, batch)
    ensures BatchServed(r, env, b, batch) == ServeAll(r, env, b, batch)
            <==> !Together(r, env, b, batch) || DistinctJobs(r, b, batch)
  {
    BatchAgreesExactly(r, env, b, batch);
    OnePerJobSplits(r, b, batch);
    hide BatchServed, ServeAll, Together, Live, Parses, JobOf;
  }

  /** Two messages of two jobs, the first of which does not parse, make a batch
      that ends differently from serving them. */
  lemma UnparsableFirstDisagrees(env: Env, res: ExecutionResult)
    requires !env.gone && !env.fails && env.run(Work("{}", 1)) == Some(res)
    ensures var bad := Fields(Some("a"), Some("u"), None);
            var good := Fields(Some("b"), Some("u"), Some(Work("{}", 1)));
            var r := Redis([bad, good], 2, [0, 1], map[], {});
            var b := Book(map[], [0, 1], multiset{});
            && BatchServed(r, env, b, [0, 1]).sent[(0, Failure)] == 0
            && ServeAll(r, env, b, [0, 1]).sent[(0, Failure)] > 0
  {
    var bad := Fields(Some("a"), Some("u"), None);
    var good := Fields(Some("b"), Some("u"), Some(Work("{}", 1)));
    var r := Redis([bad, good], 2, [0, 1], map[], {});
    var b := Book(map[], [0, 1], multiset{});
    var batch: seq<Id> := [0, 1];
    assert FirstLive(r, b, batch, 0) && !Parses(r, batch[0]);
    forall i | 0 <= i < |KeptOf(r, b, batch)| ensures Computed(r, env, KeptOf(r, b, batch)[i]).Some? {
      KeptFacts(r, b, batch, KeptOf(r, b, batch)[i]);
    }
    hide KeptOf, BatchServed, ServeAll;
    UnparsableIsSilentInBatch(r, env, b, batch, 0);
  }
}
