// The job queue under concurrent workers: claim_jobs and _run_jobs of
// app/consolidator/__init__.py:1743-1970, each worker one transaction
// (app/worker.py:29-33).
module Jobs {
  import opened Rows

  type JobId = nat
  type Worker = nat

  datatype JobStatus = Pending | Running | Done | Failed
  datatype Job = Job(status: JobStatus, queued: set<EventId>, startedAt: Option<int>)

  const STALE_CLAIM_AFTER := 120

  predicate Claimable(j: Job, now: int) {
    || j.status == Pending || j.status == Failed
    || (j.status == Running && j.startedAt.Some? && j.startedAt.value < now - STALE_CLAIM_AFTER)
  }

  function Claimed(j: Job, now: int): Job {
    j.(status := Running, startedAt := Some(now))
  }

  // How processing one job ends.
  datatype Result = Success | Error | RateLimited

  // The payload a run works on: a subject-scoped run read it when it listed the
  // jobs, before the claim, and the loaded row keeps it.
  datatype Owned = Owned(row: Job, payload: set<EventId>, did: set<EventId>)

  function InScope(payload: set<EventId>, only: Option<set<EventId>>): set<EventId> {
    if only.Some? then payload * only.value else payload
  }

  function Remaining(payload: set<EventId>, only: Option<set<EventId>>): set<EventId> {
    if only.Some? then payload - only.value else {}
  }

  // Every ending rewrites the payload the run had loaded.
  function Finish(o: Owned, only: Option<set<EventId>>, r: Result): Owned {
    if r != Success then o.(row := o.row.(status := Failed, queued := o.payload))
    else if Remaining(o.payload, only) != {} then
      o.(row := Job(Pending, Remaining(o.payload, only), None), did := InScope(o.payload, only))
    else o.(row := o.row.(status := Done, queued := o.payload), did := InScope(o.payload, only))
  }

  // One open transaction: its row locks with the versions only it sees, the jobs
  // it has yet to process, and what it listed.
  datatype Txn = Txn(begun: int, only: Option<set<EventId>>, listed: map<JobId, set<EventId>>,
                     owned: map<JobId, Owned>, todo: seq<JobId>, did: multiset<EventId>)

  // The committed queue, the open transactions, the events whose processing was
  // committed (with multiplicity) and every event ever captured.
  datatype Queue = Queue(jobs: map<JobId, Job>, txns: map<Worker, Txn>, processed: multiset<EventId>,
      captured: set<EventId>)

  predicate Locked(q: Queue, j: JobId) {
    exists w :: w in q.txns && j in q.txns[w].owned
  }

  datatype Step =
    | Enqueue(job: JobId, events: set<EventId>)
    | Begin(worker: Worker, now: int, only: Option<set<EventId>>)
    | List(worker: Worker)
    | TakeJobs(worker: Worker, ids: set<JobId>, order: seq<JobId>)
    | Process(worker: Worker, result: Result)
    | Commit(worker: Worker)
    | Crash(worker: Worker)

  // The jobs a claim wins: claimable as committed, and locked by no one.
  function Won(q: Queue, t: Txn, ids: set<JobId>): set<JobId> {
    set j | j in ids && j in q.jobs && Claimable(q.jobs[j], t.begun) && !Locked(q, j)
  }

  // A global run reads the payload with the claimed row; a subject-scoped run
  // works on the row it had already loaded.
  function PayloadOf(q: Queue, t: Txn, j: JobId): set<EventId>
    requires j in q.jobs
  {
    if t.only.Some? && j in t.listed then t.listed[j] else q.jobs[j].queued
  }

  function Listing(q: Queue): map<JobId, set<EventId>> {
    map j | j in q.jobs :: q.jobs[j].queued
  }

  function SetTxn(q: Queue, w: Worker, t: Txn): Queue {
    q.(txns := q.txns[w := t])
  }

  function Elements(s: seq<JobId>): set<JobId> {
    set j | j in s
  }

  predicate Orders(s: seq<JobId>, ids: set<JobId>) {
    Elements(s) == ids && forall a, b :: 0 <= a < b < |s| ==> s[a] != s[b]
  }

  predicate Enabled(q: Queue, s: Step) {
    match s
    case Enqueue(j, events) => j !in q.jobs && events != {} && events !! q.captured
    case Begin(w, _, _) => w !in q.txns
    case List(w) => w in q.txns && q.txns[w].only.Some? && q.txns[w].owned == map[]
    case TakeJobs(w, ids, order) =>
      && w in q.txns && q.txns[w].owned == map[] && Orders(order, Won(q, q.txns[w], ids))
      && (q.txns[w].only.Some? ==> ids <= q.txns[w].listed.Keys)
    case Process(w, _) => w in q.txns && q.txns[w].todo != [] && q.txns[w].todo[0] in q.txns[w].owned
    case Commit(w) => w in q.txns && q.txns[w].todo == []
    case Crash(w) => w in q.txns
  }

  function AfterProcess(t: Txn, r: Result): Txn
    requires t.todo != [] && t.todo[0] in t.owned
  {
    var j := t.todo[0];
    var o := Finish(t.owned[j], t.only, r);
    t.(owned := t.owned[j := o],
       todo := if r == RateLimited then [] else t.todo[1..],
       did := t.did + (if r == Success then multiset(o.did) else multiset{}))
  }

  function Taken(q: Queue, t: Txn, won: set<JobId>, order: seq<JobId>): Txn
    requires won <= q.jobs.Keys
  {
    t.(owned := map j | j in won :: Owned(Claimed(q.jobs[j], t.begun), PayloadOf(q, t, j), {}), todo := order)
  }

  function Merged(jobs: map<JobId, Job>, owned: map<JobId, Owned>): map<JobId, Job> {
    map j | j in jobs.Keys + owned.Keys :: if j in owned then owned[j].row else jobs[j]
  }

  // A step that is not enabled leaves everything as it is.
  function Do(q: Queue, s: Step): Queue {
    if !Enabled(q, s) then q
    else
      match s
      case Enqueue(j, events) => q.(jobs := q.jobs[j := Job(Pending, events, None)], captured := q.captured + events)
      case Begin(w, now, only) => SetTxn(q, w, Txn(now, only, map[], map[], [], multiset{}))
      case List(w) => SetTxn(q, w, q.txns[w].(listed := Listing(q)))
      case TakeJobs(w, ids, order) => SetTxn(q, w, Taken(q, q.txns[w], Won(q, q.txns[w], ids), order))
      case Process(w, r) => SetTxn(q, w, AfterProcess(q.txns[w], r))
      case Commit(w) =>
        q.(jobs := Merged(q.jobs, q.txns[w].owned), processed := q.processed + q.txns[w].did, txns := q.txns - {w})
      case Crash(w) => q.(txns := q.txns - {w})
  }

  function Run(q: Queue, steps: seq<Step>): Queue
    decreases |steps|
  {
    if steps == [] then q else Run(Do(q, steps[0]), steps[1..])
  }

  const START := Queue(map[], map[], multiset{}, {})

  // Ownership: no two open transactions hold the same job.
  ghost predicate Exclusive(q: Queue) {
    forall w, v, j :: w in q.txns && v in q.txns && j in q.txns[w].owned && j in q.txns[v].owned ==> w == v
  }

  lemma {:induction false} OneOwner(q: Queue, steps: seq<Step>)
    requires Exclusive(q)
    ensures Exclusive(Run(q, steps))
    decreases |steps|
  {
    if steps != [] {
      ExclusiveStep(q, steps[0]);
      OneOwner(Do(q, steps[0]), steps[1..]);
    }
  }

  lemma ExclusiveStep(q: Queue, s: Step)
    requires Exclusive(q)
    ensures Exclusive(Do(q, s))
  {
    if Enabled(q, s) && s.TakeJobs? {
      assert forall j :: j in Won(q, q.txns[s.worker], s.ids) ==> !Locked(q, j);
    }
  }

  // Exactly once. Of the committed state: an event is processed at most once,
  // and each captured event is processed or queued in exactly one unfinished job.
  predicate Queued(q: Queue, j: JobId, e: EventId) {
    j in q.jobs && q.jobs[j].status != Done && e in q.jobs[j].queued
  }

  ghost predicate InQueue(q: Queue, e: EventId) {
    exists j :: Queued(q, j, e)
  }

  ghost predicate ExactlyOnce(q: Queue) {
    && (forall e :: q.processed[e] <= 1)
    && (forall e :: e in q.processed ==> e in q.captured)
    && (forall j, e :: Queued(q, j, e) ==> e !in q.processed && e in q.captured)
    && (forall j, k, e :: Queued(q, j, e) && Queued(q, k, e) ==> j == k)
    && (forall e {:trigger InQueue(q, e)} :: e in q.captured ==> e in q.processed || InQueue(q, e))
  }

  // Of a job an open transaction holds: the payload it works on covers the
  // committed queue and goes beyond it by processed events only; a job not
  // worked on yet has its committed row, and the others divide the payload
  // between what was done and what is queued again.
  ghost predicate HoldsOk(q: Queue, committed: Job, o: Owned) {
    && committed.status != Done && committed.queued <= o.payload
    && (forall e :: e in o.payload ==> e in committed.queued || e in q.processed)
    && match o.row.status
       case Running => o.did == {} && o.row.queued == committed.queued
       case Failed => o.did == {} && o.row.queued == o.payload
       case Pending => o.did <= o.payload && o.row.queued == o.payload - o.did
       case Done => o.did == o.payload == o.row.queued
  }

  ghost predicate DidIn(t: Txn, j: JobId, e: EventId) {
    j in t.owned && e in t.owned[j].did
  }

  // Every job the transaction has worked on was worked on as stored.
  ghost predicate Current(q: Queue, t: Txn) {
    forall j :: j in t.owned && t.owned[j].row.status != Running ==>
        j in q.jobs && t.owned[j].payload == q.jobs[j].queued
  }

  ghost predicate TxnOk(q: Queue, t: Txn) {
    && (forall j :: j in t.owned ==> j in q.jobs && HoldsOk(q, q.jobs[j], t.owned[j]))
    && (forall j :: j in t.todo ==> j in t.owned && t.owned[j].row.status == Running)
    && (forall a, b :: 0 <= a < b < |t.todo| ==> t.todo[a] != t.todo[b])
    && (forall e :: e in t.did ==> exists j :: DidIn(t, j, e))
    && (forall j, e :: DidIn(t, j, e) ==> e in t.did)
    && (Current(q, t) ==> forall e :: t.did[e] <= 1)
  }

  // What a listing may be out of date by: events processed since.
  ghost predicate ListedOk(q: Queue, t: Txn) {
    forall j :: j in t.listed ==>
      j in q.jobs && q.jobs[j].queued <= t.listed[j]
      && forall e :: e in t.listed[j] ==> e in q.jobs[j].queued || e in q.processed
  }

  ghost predicate Inv(q: Queue) {
    Exclusive(q) && ExactlyOnce(q) && forall w :: w in q.txns ==> TxnOk(q, q.txns[w]) && ListedOk(q, q.txns[w])
  }

  // A commit is stale when a job it worked on had been narrowed since it was
  // listed.
  ghost predicate Stale(q: Queue, s: Step) {
    s.Commit? && Enabled(q, s) && !Current(q, q.txns[s.worker])
  }

  ghost predicate NeverStale(q: Queue, steps: seq<Step>)
    decreases |steps|
  {
    steps == [] || (!Stale(q, steps[0]) && NeverStale(Do(q, steps[0]), steps[1..]))
  }

  // Listings and holdings of other transactions are read against the committed
  // queue only.
  lemma EnqueueStep(q: Queue, s: Step)
    requires Inv(q) && Enabled(q, s) && s.Enqueue?
    ensures Inv(Do(q, s))
  {
    var q' := Do(q, s);
    EnqueueQueue(q, q', s.job, s.events);
    SameTxns(q, q');
  }

  lemma SameTxns(q: Queue, q': Queue)
    requires Inv(q) && ExactlyOnce(q') && q'.txns == q.txns && q'.processed == q.processed
    requires forall j :: j in q.jobs ==> j in q'.jobs && q'.jobs[j] == q.jobs[j]
    ensures Inv(q')
  {
    forall w | w in q'.txns ensures TxnOk(q', q'.txns[w]) && ListedOk(q', q'.txns[w]) {
      assert TxnOk(q, q.txns[w]) && ListedOk(q, q.txns[w]);
      MoreJobs(q, q', q.txns[w]);
    }
  }

  lemma MoreJobs(q: Queue, q': Queue, t: Txn)
    requires TxnOk(q, t) && ListedOk(q, t) && q'.processed == q.processed
    requires forall j :: j in q.jobs ==> j in q'.jobs && q'.jobs[j] == q.jobs[j]
    ensures TxnOk(q', t) && ListedOk(q', t)
  {
    assert Current(q', t) ==> Current(q, t);
  }

  lemma EnqueueQueue(q: Queue, q': Queue, j: JobId, events: set<EventId>)
    requires ExactlyOnce(q) && j !in q.jobs && events !! q.captured
    requires q'.jobs == q.jobs[j := Job(Pending, events, None)]
    requires q'.processed == q.processed && q'.captured == q.captured + events
    ensures ExactlyOnce(q')
  {
    assert forall k, e :: Queued(q', k, e) <==> Queued(q, k, e) || (k == j && e in events);
    forall e | e in q'.captured ensures e in q'.processed || InQueue(q', e) {
      if e in events {
        assert Queued(q', j, e);
      } else if e !in q.processed {
        assert InQueue(q, e);
        var k :| Queued(q, k, e);
        assert Queued(q', k, e);
      }
    }
  }

  lemma SameQueue(q: Queue, q': Queue)
    requires ExactlyOnce(q) && q'.jobs == q.jobs && q'.processed == q.processed && q'.captured == q.captured
    ensures ExactlyOnce(q')
  {
    assert forall j, e :: Queued(q', j, e) <==> Queued(q, j, e);
    forall e | e in q'.captured ensures e in q'.processed || InQueue(q', e) {
      if e !in q.processed {
        assert InQueue(q, e);
        var j :| Queued(q, j, e);
        assert Queued(q', j, e);
      }
    }
  }

  // Changing one transaction, or dropping one, leaves the rest of the invariant.
  lemma OneTxnKeeps(q: Queue, q': Queue, w: Worker)
    requires Inv(q) && Exclusive(q') && q'.jobs == q.jobs && q'.processed == q.processed && q'.captured == q.captured
    requires forall v :: v in q'.txns && v != w ==> v in q.txns && q'.txns[v] == q.txns[v]
    requires w in q'.txns ==> TxnOk(q, q'.txns[w]) && ListedOk(q, q'.txns[w])
    ensures Inv(q')
  {
    SameQueue(q, q');
    forall v | v in q'.txns ensures TxnOk(q', q'.txns[v]) && ListedOk(q', q'.txns[v]) {
      assert TxnOk(q, q'.txns[v]) && ListedOk(q, q'.txns[v]);
      MoreJobs(q, q', q'.txns[v]);
    }
  }

  lemma SetTxnKeeps(q: Queue, w: Worker, t: Txn)
    requires Inv(q) && Exclusive(SetTxn(q, w, t)) && TxnOk(q, t) && ListedOk(q, t)
    ensures Inv(SetTxn(q, w, t))
  {
    OneTxnKeeps(q, SetTxn(q, w, t), w);
  }

  lemma TakeTxn(q: Queue, t: Txn, won: set<JobId>, order: seq<JobId>)
    requires TxnOk(q, t) && ListedOk(q, t) && t.owned == map[] && won <= q.jobs.Keys && Orders(order, won)
    requires forall j :: j in won ==> q.jobs[j].status != Done
    ensures TxnOk(q, Taken(q, t, won, order))
  {
    var t' := Taken(q, t, won, order);
    assert forall j, e :: !DidIn(t, j, e);
    assert forall e :: e !in t.did;
    forall j | j in t'.todo ensures j in t'.owned {
      assert j in Elements(order);
    }
  }

  lemma FinishOk(q: Queue, committed: Job, o: Owned, only: Option<set<EventId>>, r: Result)
    requires HoldsOk(q, committed, o) && o.row.status == Running
    ensures HoldsOk(q, committed, Finish(o, only, r)) && Finish(o, only, r).row.status != Running
    ensures r != Success ==> Finish(o, only, r).did == {}
  {
    if r == Success && only.Some? {
      assert o.payload - o.payload * only.value == o.payload - only.value;
      WithinScope(o.payload, only.value);
    }
  }

  lemma WithinScope(a: set<EventId>, b: set<EventId>)
    ensures a - b == {} ==> a * b == a
  {
    if a - b == {} {
      assert forall e :: e in a ==> e !in a - b;
      assert forall e :: e in a ==> e in a * b;
    }
  }

  lemma StillOnce(q: Queue, t: Txn, r: Result)
    requires ExactlyOnce(q) && TxnOk(q, t) && t.todo != [] && t.todo[0] in t.owned && t.todo[0] in q.jobs
    requires HoldsOk(q, q.jobs[t.todo[0]], AfterProcess(t, r).owned[t.todo[0]]) && Current(q, AfterProcess(t, r))
    requires AfterProcess(t, r).owned[t.todo[0]].row.status != Running
    ensures forall e :: AfterProcess(t, r).did[e] <= 1
  {
    var j, t' := t.todo[0], AfterProcess(t, r);
    assert Current(q, t) by {
      forall k | k in t.owned && t.owned[k].row.status != Running ensures t.owned[k].payload == q.jobs[k].queued {
        assert t'.owned[k] == t.owned[k];
      }
    }
    forall e ensures t'.did[e] <= 1 {
      if r == Success && e in t'.owned[j].did && e in t.did {
        var k :| DidIn(t, k, e);
        assert Queued(q, k, e) && Queued(q, j, e);
      }
    }
  }

  lemma ProcessTxn(q: Queue, t: Txn, r: Result)
    requires ExactlyOnce(q) && TxnOk(q, t) && t.todo != []
    ensures TxnOk(q, AfterProcess(t, r))
  {
    assert t.todo[0] in t.owned;
    FinishOk(q, q.jobs[t.todo[0]], t.owned[t.todo[0]], t.only, r);
    if Current(q, AfterProcess(t, r)) {
      StillOnce(q, t, r);
    }
    DoneIsRecorded(t, r);
    RestWaits(q, t, r);
  }

  lemma RestWaits(q: Queue, t: Txn, r: Result)
    requires TxnOk(q, t) && t.todo != [] && t.todo[0] in q.jobs && t.todo[0] in t.owned
    requires HoldsOk(q, q.jobs[t.todo[0]], AfterProcess(t, r).owned[t.todo[0]])
    ensures var t' := AfterProcess(t, r);
            && (forall j :: j in t'.owned ==> j in q.jobs && HoldsOk(q, q.jobs[j], t'.owned[j]))
            && (forall j :: j in t'.todo ==> j in t'.owned && t'.owned[j].row.status == Running)
            && (forall a, b :: 0 <= a < b < |t'.todo| ==> t'.todo[a] != t'.todo[b])
  {
  }

  lemma DoneIsRecorded(t: Txn, r: Result)
    requires t.todo != [] && t.todo[0] in t.owned && t.owned[t.todo[0]].did == {}
    requires (forall e :: e in t.did ==> exists k :: DidIn(t, k, e)) && forall k, e :: DidIn(t, k, e) ==> e in t.did
    ensures var t' := AfterProcess(t, r);
            (forall e :: e in t'.did ==> exists k :: DidIn(t', k, e)) && forall k, e :: DidIn(t', k, e) ==> e in t'.did
  {
    var j, t' := t.todo[0], AfterProcess(t, r);
    forall e | e in t'.did ensures exists k :: DidIn(t', k, e) {
      if e in t.did {
        var k :| DidIn(t, k, e);
        assert DidIn(t', k, e);
      } else {
        assert DidIn(t', j, e);
      }
    }
    forall k, e | DidIn(t', k, e) ensures e in t'.did {
      if k != j {
        assert DidIn(t, k, e);
      }
    }
  }

  lemma CommitStep(q: Queue, s: Step)
    requires Inv(q) && Enabled(q, s) && s.Commit? && !Stale(q, s)
    ensures Inv(Do(q, s))
  {
    var q', t := Do(q, s), q.txns[s.worker];
    assert TxnOk(q, t);
    CommitQueue(q, q', t);
    forall v | v in q'.txns ensures TxnOk(q', q'.txns[v]) && ListedOk(q', q'.txns[v]) {
      assert TxnOk(q, q.txns[v]) && ListedOk(q, q.txns[v]);
      assert forall j :: j in q.txns[v].owned ==> j !in t.owned && q'.jobs[j] == q.jobs[j];
      StillHolds(q, q', q.txns[v]);
      CommitListing(q, q', t, q.txns[v]);
    }
  }

  lemma StillHolds(q: Queue, q': Queue, t: Txn)
    requires TxnOk(q, t) && (forall j :: j in t.owned ==> j in q'.jobs && q'.jobs[j] == q.jobs[j])
    requires forall e :: e in q.processed ==> e in q'.processed
    ensures TxnOk(q', t)
  {
    forall j | j in t.owned ensures HoldsOk(q', q'.jobs[j], t.owned[j]) {
      assert HoldsOk(q, q.jobs[j], t.owned[j]);
    }
    assert Current(q', t) ==> Current(q, t);
  }

  lemma DidWasQueued(q: Queue, t: Txn, e: EventId)
    requires ExactlyOnce(q) && TxnOk(q, t) && Current(q, t) && e in t.did
    ensures e !in q.processed && e in q.captured
    ensures exists k :: DidIn(t, k, e) && Queued(q, k, e)
  {
    var k :| DidIn(t, k, e);
    assert HoldsOk(q, q.jobs[k], t.owned[k]);
    assert Queued(q, k, e);
  }

  lemma QueuedWasQueued(q: Queue, q': Queue, t: Txn, j: JobId, e: EventId)
    requires ExactlyOnce(q) && TxnOk(q, t) && Current(q, t) && q'.jobs == Merged(q.jobs, t.owned) && Queued(q', j, e)
    ensures Queued(q, j, e) && e !in t.did
  {
    if j in t.owned {
      assert HoldsOk(q, q.jobs[j], t.owned[j]);
    }
    assert Queued(q, j, e);
    if e in t.did {
      DidWasQueued(q, t, e);
    }
  }

  lemma NothingIsLost(q: Queue, q': Queue, t: Txn, e: EventId)
    requires ExactlyOnce(q) && TxnOk(q, t) && Current(q, t)
    requires q'.jobs == Merged(q.jobs, t.owned) && e in q.captured && e !in q.processed && e !in t.did
    ensures InQueue(q', e)
  {
    assert InQueue(q, e);
    var j :| Queued(q, j, e);
    assert !DidIn(t, j, e);
    if j in t.owned {
      assert HoldsOk(q, q.jobs[j], t.owned[j]);
    }
    assert Queued(q', j, e);
  }

  lemma CommitQueue(q: Queue, q': Queue, t: Txn)
    requires ExactlyOnce(q) && TxnOk(q, t) && Current(q, t)
    requires q'.jobs == Merged(q.jobs, t.owned) && q'.processed == q.processed + t.did && q'.captured == q.captured
    ensures ExactlyOnce(q')
  {
    forall e | e in t.did ensures e !in q.processed && e in q.captured {
      DidWasQueued(q, t, e);
    }
    forall j, e | Queued(q', j, e) ensures Queued(q, j, e) && e !in t.did {
      QueuedWasQueued(q, q', t, j, e);
    }
    forall e | e in q'.captured ensures e in q'.processed || InQueue(q', e) {
      if e !in q'.processed {
        NothingIsLost(q, q', t, e);
      }
    }
  }

  lemma CommitListing(q: Queue, q': Queue, t: Txn, other: Txn)
    requires TxnOk(q, t) && Current(q, t) && ListedOk(q, other)
    requires q'.jobs == Merged(q.jobs, t.owned) && q'.processed == q.processed + t.did
    ensures ListedOk(q', other)
  {
    forall j | j in other.listed
      ensures q'.jobs[j].queued <= q.jobs[j].queued
      ensures forall e :: e in q.jobs[j].queued ==> e in q'.jobs[j].queued || e in q'.processed
    {
      if j in t.owned {
        assert HoldsOk(q, q.jobs[j], t.owned[j]);
        forall e | e in t.owned[j].did ensures e in q'.processed {
          assert DidIn(t, j, e);
        }
      }
    }
  }

  // A job worked on as it was listed, with an event processed since: the event
  // is processed or queued again.
  lemma StaleJobBreaks(q: Queue, q': Queue, t: Txn, j: JobId, e: EventId)
    requires TxnOk(q, t) && j in t.owned && t.owned[j].row.status != Running
    requires e in t.owned[j].payload && e in q.processed
    requires q'.jobs == Merged(q.jobs, t.owned) && q'.processed == q.processed + t.did
    ensures q'.processed[e] > 1 || (Queued(q', j, e) && e in q'.processed)
  {
    assert HoldsOk(q, q.jobs[j], t.owned[j]);
    if e in t.owned[j].did {
      assert DidIn(t, j, e);
    }
  }

  // An event that was processed twice, or is queued although it was processed.
  ghost predicate Repeated(q: Queue, e: EventId) {
    q.processed[e] > 1 || (InQueue(q, e) && e in q.processed)
  }

  lemma RepeatedIsNotOnce(q: Queue, e: EventId)
    requires Repeated(q, e)
    ensures !ExactlyOnce(q)
  {
    if InQueue(q, e) {
      var j :| Queued(q, j, e);
    }
  }

  // A stale commit processes an event again, or queues a processed one again.
  lemma StaleCommitBreaks(q: Queue, s: Step) returns (e: EventId)
    requires Stale(q, s) && TxnOk(q, q.txns[s.worker])
    ensures Repeated(Do(q, s), e)
  {
    e := StaleTxnBreaks(q, Do(q, s), q.txns[s.worker]);
  }

  lemma StaleTxnBreaks(q: Queue, q': Queue, t: Txn) returns (e: EventId)
    requires TxnOk(q, t) && !Current(q, t)
    requires q'.jobs == Merged(q.jobs, t.owned) && q'.processed == q.processed + t.did
    ensures Repeated(q', e)
  {
    var j;
    j, e := StaleJob(q, t);
    StaleJobBreaks(q, q', t, j, e);
  }

  lemma StaleJob(q: Queue, t: Txn) returns (j: JobId, e: EventId)
    requires TxnOk(q, t) && !Current(q, t)
    ensures j in t.owned && t.owned[j].row.status != Running && e in t.owned[j].payload && e in q.processed
  {
    j :| j in t.owned && t.owned[j].row.status != Running && !(j in q.jobs && t.owned[j].payload == q.jobs[j].queued);
    assert HoldsOk(q, q.jobs[j], t.owned[j]);
    e :| e in t.owned[j].payload && e !in q.jobs[j].queued;
  }

  // Every step but a stale commit keeps the invariant.
  lemma StepKeeps(q: Queue, s: Step)
    requires Inv(q) && !Stale(q, s)
    ensures Inv(Do(q, s))
  {
    if Enabled(q, s) {
      match s
      case Enqueue(_, _) => EnqueueStep(q, s);
      case TakeJobs(_, _, _) => TakeStep(q, s);
      case Process(_, _) => ProcessStep(q, s);
      case Commit(_) => CommitStep(q, s);
      case Begin(w, now, only) => OpenOrDrop(q, s, w);
      case List(w) => OpenOrDrop(q, s, w);
      case Crash(w) => OpenOrDrop(q, s, w);
    }
  }

  lemma OpenOrDrop(q: Queue, s: Step, w: Worker)
    requires Inv(q) && Enabled(q, s) && (s.Begin? || s.List? || s.Crash?) && w == s.worker
    ensures Inv(Do(q, s))
  {
    ExclusiveStep(q, s);
    if s.Begin? {
      BeginOk(q, s.now, s.only);
    } else if s.List? {
      assert TxnOk(q, q.txns[w]);
      ListOk(q, q.txns[w]);
    }
    OneTxnKeeps(q, Do(q, s), w);
  }

  lemma BeginOk(q: Queue, now: int, only: Option<set<EventId>>)
    ensures var t := Txn(now, only, map[], map[], [], multiset{}); TxnOk(q, t) && ListedOk(q, t)
  {
  }

  lemma ListOk(q: Queue, t: Txn)
    requires TxnOk(q, t)
    ensures TxnOk(q, t.(listed := Listing(q))) && ListedOk(q, t.(listed := Listing(q)))
  {
    var t' := t.(listed := Listing(q));
    assert forall j, e :: DidIn(t', j, e) <==> DidIn(t, j, e);
    assert Current(q, t') ==> Current(q, t);
  }

  lemma TakeStep(q: Queue, s: Step)
    requires Inv(q) && Enabled(q, s) && s.TakeJobs?
    ensures Inv(Do(q, s))
  {
    var t := q.txns[s.worker];
    ExclusiveStep(q, s);
    assert TxnOk(q, t) && ListedOk(q, t);
    TakeTxn(q, t, Won(q, t, s.ids), s.order);
    SetTxnKeeps(q, s.worker, Taken(q, t, Won(q, t, s.ids), s.order));
  }

  lemma ProcessStep(q: Queue, s: Step)
    requires Inv(q) && Enabled(q, s) && s.Process?
    ensures Inv(Do(q, s))
  {
    var t := q.txns[s.worker];
    ExclusiveStep(q, s);
    assert TxnOk(q, t) && ListedOk(q, t);
    ProcessTxn(q, t, s.result);
    SetTxnKeeps(q, s.worker, AfterProcess(t, s.result));
  }

  lemma {:induction false} EveryEventOnce(q: Queue, steps: seq<Step>)
    requires Inv(q) && NeverStale(q, steps)
    ensures Inv(Run(q, steps))
    decreases |steps|
  {
    if steps != [] {
      StepKeeps(q, steps[0]);
      EveryEventOnce(Do(q, steps[0]), steps[1..]);
    }
  }

  // Exactly once at every point of a run.
  ghost predicate AlwaysOnce(q: Queue, steps: seq<Step>) {
    forall k :: 0 <= k <= |steps| ==> ExactlyOnce(Run(q, steps[..k]))
  }

  lemma AlwaysOnceUnrolls(q: Queue, steps: seq<Step>)
    requires steps != []
    ensures AlwaysOnce(q, steps) <==> ExactlyOnce(q) && AlwaysOnce(Do(q, steps[0]), steps[1..])
  {
    var rest := steps[1..];
    assert Run(q, steps[..0]) == q;
    forall k | 0 <= k <= |rest| ensures Run(q, steps[..k + 1]) == Run(Do(q, steps[0]), rest[..k]) {
      assert steps[..k + 1][1..] == rest[..k];
    }
    if ExactlyOnce(q) && AlwaysOnce(Do(q, steps[0]), rest) {
      forall k | 0 <= k <= |steps| ensures ExactlyOnce(Run(q, steps[..k])) {
        if k > 0 {
          assert Run(q, steps[..(k - 1) + 1]) == Run(Do(q, steps[0]), rest[..k - 1]);
        }
      }
    }
  }

  // In every interleaving of claims, results, rate limits, commits and crashes,
  // each event is processed once or queued once at every point if and only if no
  // commit is stale.
  lemma {:induction false} ExactlyOnceIffNeverStale(q: Queue, steps: seq<Step>)
    requires Inv(q)
    ensures AlwaysOnce(q, steps) <==> NeverStale(q, steps)
    decreases |steps|
  {
    if steps == [] {
      assert steps[..0] == [];
    } else {
      AlwaysOnceUnrolls(q, steps);
      var q' := Do(q, steps[0]);
      if Stale(q, steps[0]) {
        assert TxnOk(q, q.txns[steps[0].worker]);
        var e := StaleCommitBreaks(q, steps[0]);
        RepeatedIsNotOnce(q', e);
        assert Run(q', steps[1..][..0]) == q';
      } else {
        StepKeeps(q, steps[0]);
        ExactlyOnceIffNeverStale(q', steps[1..]);
      }
    }
  }

  lemma EveryEventOnceFromStart(steps: seq<Step>, e: EventId)
    requires NeverStale(START, steps) && e in Run(START, steps).captured
    ensures var q := Run(START, steps);
            q.processed[e] == (if InQueue(q, e) then 0 else 1)
    ensures var q := Run(START, steps); forall j, k :: Queued(q, j, e) && Queued(q, k, e) ==> j == k
  {
    assert Inv(START);
    EveryEventOnce(START, steps);
    var q := Run(START, steps);
    if InQueue(q, e) {
      var j :| Queued(q, j, e);
    }
  }

  // Runs that take the payload with the claimed row never work on a stale one.
  predicate Global(s: Step) {
    s.Begin? ==> s.only.None?
  }

  ghost predicate AllGlobal(q: Queue) {
    && Exclusive(q)
    && forall w :: w in q.txns ==>
         && q.txns[w].only.None?
         && forall j :: j in q.txns[w].owned ==> j in q.jobs && q.txns[w].owned[j].payload == q.jobs[j].queued
  }

  lemma {:induction false} GlobalRunsAreNeverStale(q: Queue, steps: seq<Step>)
    requires AllGlobal(q) && forall s :: s in steps ==> Global(s)
    ensures NeverStale(q, steps) && AllGlobal(Run(q, steps))
    decreases |steps|
  {
    if steps != [] {
      assert Global(steps[0]);
      GlobalStep(q, steps[0]);
      GlobalRunsAreNeverStale(Do(q, steps[0]), steps[1..]);
    }
  }

  lemma GlobalStep(q: Queue, s: Step)
    requires AllGlobal(q) && Global(s)
    ensures AllGlobal(Do(q, s)) && !Stale(q, s)
  {
    ExclusiveStep(q, s);
    if Enabled(q, s) && s.Commit? {
      GlobalCommit(q, s.worker, Do(q, s));
    }
  }

  // A commit touches no job that another transaction holds.
  lemma GlobalCommit(q: Queue, w: Worker, q': Queue)
    requires AllGlobal(q) && w in q.txns && q'.jobs == Merged(q.jobs, q.txns[w].owned) && q'.txns == q.txns - {w}
    ensures AllGlobal(q')
  {
    forall v, j | v in q'.txns && j in q'.txns[v].owned ensures j in q'.jobs && q'.jobs[j] == q.jobs[j] {
      assert j !in q.txns[w].owned;
    }
  }

  // A running job always says when it was claimed, so the wait is bounded.
  ghost predicate Stamped(j: Job) {
    j.status == Running ==> j.startedAt.Some?
  }

  ghost predicate AllStamped(q: Queue) {
    && (forall j :: j in q.jobs ==> Stamped(q.jobs[j]))
    && (forall w, j :: w in q.txns && j in q.txns[w].owned ==> Stamped(q.txns[w].owned[j].row))
  }

  lemma {:induction false} RunningIsStamped(q: Queue, steps: seq<Step>)
    requires AllStamped(q)
    ensures AllStamped(Run(q, steps))
    decreases |steps|
  {
    if steps != [] {
      StampedStep(q, steps[0]);
      RunningIsStamped(Do(q, steps[0]), steps[1..]);
    }
  }

  lemma StampedStep(q: Queue, s: Step)
    requires AllStamped(q)
    ensures AllStamped(Do(q, s))
  {
  }
}
