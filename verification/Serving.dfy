/** What serving messages one after the other should do, and what a batch should do.

A `Book` is the part of the world the cloud can see. The executor is a function
that answers a circuit or raises; flags and Redis are quiet.
*/
module Serving {
  import opened Prelude
  import opened Consumer

  datatype Book = Book(status: map<string, JobState>, pel: seq<Id>, sent: multiset<(Id, Payload)>)

  /** What the dispatch meets: the executor, whether `batch_run` is gone at
      dispatch time, and whether it raises although every job has an answer. */
  datatype Env = Env(run: Work -> Option<ExecutionResult>, gone: bool, fails: bool)

  predicate Closed(b: Book, job: string) {
    job in b.status && (b.status[job] == Completed || b.status[job] == Cancelled)
  }

  function Marked(b: Book, job: string, st: JobState): Book {
    b.(status := b.status[job := st])
  }

  function Sent(b: Book, id: Id, p: Payload): Book {
    b.(sent := b.sent + multiset{(id, p)})
  }

  function Acked(b: Book, id: Id): Book {
    b.(pel := Without(b.pel, id))
  }

  /** What the executor makes of a message, if anything. */
  function Computed(r: Redis, env: Env, id: Id): Option<ExecutionResult> {
    match FieldsOf(r, id).work
    case None => None
    case Some(w) => env.run(w)
  }

  function Reported(b: Book, r: Redis, env: Env, id: Id): Book {
    match Computed(r, env, id)
    case None => Sent(Marked(b, JobOf(r, id), Failed), id, Failure)
    case Some(res) => Sent(Marked(b, JobOf(r, id), Completed), id, Success(res))
  }

  /** One message, start to finish. */
  function Serve(r: Redis, env: Env, b: Book, id: Id): Book {
    var job := JobOf(r, id);
    if Malformed(r, id) || Closed(b, job) then Acked(b, id)
    else if job in r.flags then Acked(Marked(b, job, Cancelled), id)
    else Acked(Reported(b, r, env, id), id)
  }

  function ServeAll(r: Redis, env: Env, b: Book, ids: seq<Id>): Book
    decreases |ids|
  {
    if ids == [] then b else ServeAll(r, env, Serve(r, env, b, ids[0]), ids[1..])
  }

  // ---------------------------------------------------------------- a batch

  /** Triage keeps a message for the batch. */
  predicate Kept(r: Redis, b: Book, id: Id) {
    && !Malformed(r, id)
    && !Closed(b, JobOf(r, id))
    && JobOf(r, id) !in r.flags
    && FieldsOf(r, id).work.Some?
  }

  function Triaged(r: Redis, b: Book, id: Id): Book {
    var job := JobOf(r, id);
    if Malformed(r, id) || Closed(b, job) then Acked(b, id)
    else if job in r.flags then Acked(Marked(b, job, Cancelled), id)
    else if FieldsOf(r, id).work.None? then Acked(b, id)
    else b
  }

  function TriagedAll(r: Redis, b: Book, ids: seq<Id>): Book
    decreases |ids|
  {
    if ids == [] then b else TriagedAll(r, Triaged(r, b, ids[0]), ids[1..])
  }

  function KeptOf(r: Redis, b: Book, ids: seq<Id>): seq<Id>
    decreases |ids|
  {
    if ids == [] then []
    else (if Kept(r, b, ids[0]) then [ids[0]] else []) + KeptOf(r, Triaged(r, b, ids[0]), ids[1..])
  }

  function MarkedAll(r: Redis, b: Book, ids: seq<Id>, st: JobState): Book
    decreases |ids|
  {
    if ids == [] then b else MarkedAll(r, Marked(b, JobOf(r, ids[0]), st), ids[1..], st)
  }

  function DeliveredAll(r: Redis, env: Env, b: Book, ids: seq<Id>): Book
    decreases |ids|
  {
    if ids == [] then b else DeliveredAll(r, env, Acked(Reported(b, r, env, ids[0]), ids[0]), ids[1..])
  }

  ghost predicate AllComputed(r: Redis, env: Env, ids: seq<Id>) {
    forall i :: 0 <= i < |ids| ==> Computed(r, env, ids[i]).Some?
  }

  /** The batch of `parsed` is not executed as one: a `batch_run` that agrees
      with `run` raises when one of its jobs does. */
  ghost predicate Falls(r: Redis, env: Env, parsed: seq<Id>) {
    env.gone || env.fails || !AllComputed(r, env, parsed)
  }

  /** From the end of triage on. */
  ghost function BatchRest(r: Redis, env: Env, b: Book, batch: seq<Id>, parsed: seq<Id>): Book {
    if Falls(r, env, parsed) then ServeAll(r, env, b, batch) else DeliveredAll(r, env, b, parsed)
  }

  /** A whole batch: triage, `executing` marks, then delivery or fallback. */
  ghost function BatchServed(r: Redis, env: Env, b: Book, batch: seq<Id>): Book {
    var kept := KeptOf(r, b, batch);
    var b1 := TriagedAll(r, b, batch);
    if kept == [] then b1 else BatchRest(r, env, MarkedAll(r, b1, kept, Executing), batch, kept)
  }

  // ---------------------------------------------------------------- effects one by one

  datatype Edit = MarkEdit(job: string, st: JobState) | SendEdit(id: Id, p: Payload) | AckEdit(id: Id)

  function Apply(b: Book, e: Edit): Book {
    match e
    case MarkEdit(job, st) => Marked(b, job, st)
    case SendEdit(id, p) => Sent(b, id, p)
    case AckEdit(id) => Acked(b, id)
  }

  function ApplyAll(b: Book, es: seq<Edit>): Book
    decreases |es|
  {
    if es == [] then b else ApplyAll(Apply(b, es[0]), es[1..])
  }

  lemma {:induction false} ApplyAllSplits(b: Book, es: seq<Edit>, fs: seq<Edit>)
    ensures ApplyAll(b, es + fs) == ApplyAll(ApplyAll(b, es), fs)
    decreases |es|
  {
    if es == [] {
      assert es + fs == fs;
    } else {
      assert (es + fs)[1..] == es[1..] + fs;
      ApplyAllSplits(Apply(b, es[0]), es[1..], fs);
    }
  }

  /** Only two different marks of one job care about their order. */
  predicate Independent(e: Edit, f: Edit) {
    e.MarkEdit? && f.MarkEdit? ==> e.job != f.job || e.st == f.st
  }

  lemma EditsCommute(b: Book, e: Edit, f: Edit)
    requires Independent(e, f)
    ensures Apply(Apply(b, e), f) == Apply(Apply(b, f), e)
  {
    if e.AckEdit? && f.AckEdit? { WithoutCommutes(b.pel, e.id, f.id); }
    if e.MarkEdit? && f.MarkEdit? {
      assert b.status[e.job := e.st][f.job := f.st] == b.status[f.job := f.st][e.job := e.st];
    }
  }

  /** An edit in the middle may happen first. */
  lemma {:induction false} MoveFront(b: Book, es: seq<Edit>, e: Edit, fs: seq<Edit>)
    requires forall i :: 0 <= i < |es| ==> Independent(es[i], e)
    ensures ApplyAll(b, es + [e] + fs) == ApplyAll(Apply(b, e), es + fs)
    decreases |es|
  {
    if es == [] {
      assert es + [e] + fs == [e] + fs && es + fs == fs;
      assert ([e] + fs)[1..] == fs;
    } else {
      assert (es + [e] + fs)[0] == es[0] && (es + [e] + fs)[1..] == es[1..] + [e] + fs;
      assert (es + fs)[0] == es[0] && (es + fs)[1..] == es[1..] + fs;
      MoveFront(Apply(b, es[0]), es[1..], e, fs);
      EditsCommute(b, es[0], e);
    }
  }
}
