// What every interleaving of the job queue keeps, stale commits included: no
// captured event is ever lost (app/consolidator/__init__.py:1740-1970).
module AtLeastOnce {
  import opened Rows
  import opened Draining
  import opened Jobs

  // Two sets of events that differ by processed ones only.
  ghost predicate Agree(q: Queue, a: set<EventId>, b: set<EventId>) {
    forall e :: e !in q.processed ==> (e in a <==> e in b)
  }

  // A held job: its payload agrees with the committed queue, and what it has not
  // done of the payload it leaves queued.
  ghost predicate Covers(q: Queue, committed: Job, o: Owned) {
    && committed.status != Done && Agree(q, committed.queued, o.payload)
    && (forall e :: e !in q.processed && e !in o.did ==> (e in o.payload <==> e in o.row.queued))
    && (o.row.status == Done ==> forall e :: e in o.payload && e !in o.did ==> e in q.processed)
  }

  ghost predicate HoldingsKept(q: Queue, t: Txn) {
    && (forall j :: j in t.owned ==> j in q.jobs && Covers(q, q.jobs[j], t.owned[j]))
    && (forall j, e :: DidIn(t, j, e) ==> e in t.did)
  }

  ghost predicate ListingKept(q: Queue, t: Txn) {
    forall j :: j in t.listed ==> j in q.jobs && Agree(q, q.jobs[j].queued, t.listed[j])
  }

  ghost predicate NoneLost(q: Queue) {
    forall e {:trigger InQueue(q, e)} :: e in q.captured ==> e in q.processed || InQueue(q, e)
  }

  ghost predicate TxnsKept(q: Queue) {
    Exclusive(q) && forall w :: w in q.txns ==> HoldingsKept(q, q.txns[w]) && ListingKept(q, q.txns[w])
  }

  ghost predicate Kept(q: Queue) {
    NoneLost(q) && TxnsKept(q)
  }

  lemma StillQueued(q: Queue, q': Queue, e: EventId)
    requires InQueue(q, e) && forall j :: Queued(q, j, e) ==> Queued(q', j, e)
    ensures InQueue(q', e)
  {
    var j :| Queued(q, j, e);
    assert Queued(q', j, e);
  }

  // More jobs, and nothing else.
  lemma MoreJobsKeep(q: Queue, q': Queue, t: Txn)
    requires HoldingsKept(q, t) && ListingKept(q, t) && q'.processed == q.processed
    requires forall j :: j in q.jobs ==> j in q'.jobs && q'.jobs[j] == q.jobs[j]
    ensures HoldingsKept(q', t) && ListingKept(q', t)
  {
    forall j | j in t.owned ensures Covers(q', q'.jobs[j], t.owned[j]) {
      assert Covers(q, q.jobs[j], t.owned[j]);
    }
    forall j | j in t.listed ensures Agree(q', q'.jobs[j].queued, t.listed[j]) {
      assert Agree(q, q.jobs[j].queued, t.listed[j]);
    }
  }

  lemma EnqueueNoneLost(q: Queue, q': Queue, j: JobId, events: set<EventId>)
    requires NoneLost(q) && j !in q.jobs && q'.jobs == q.jobs[j := Job(Pending, events, None)]
    requires q'.processed == q.processed && q'.captured == q.captured + events
    ensures NoneLost(q')
  {
    forall e | e in q'.captured && e !in q'.processed ensures InQueue(q', e) {
      if e in events {
        assert Queued(q', j, e);
      } else {
        assert InQueue(q, e);
        StillQueued(q, q', e);
      }
    }
  }

  lemma SameNoneLost(q: Queue, q': Queue)
    requires NoneLost(q) && q'.jobs == q.jobs && q'.processed == q.processed && q'.captured == q.captured
    ensures NoneLost(q')
  {
    forall e | e in q'.captured && e !in q'.processed ensures InQueue(q', e) {
      assert InQueue(q, e);
      StillQueued(q, q', e);
    }
  }

  // The commit of any transaction, stale or not.
  lemma CommitNoneLost(q: Queue, q': Queue, t: Txn)
    requires NoneLost(q) && HoldingsKept(q, t)
    requires q'.jobs == Merged(q.jobs, t.owned) && q'.processed == q.processed + t.did && q'.captured == q.captured
    ensures NoneLost(q')
  {
    forall e | e in q'.captured && e !in q'.processed ensures InQueue(q', e) {
      assert InQueue(q, e);
      forall j | Queued(q, j, e) ensures Queued(q', j, e) {
        if j in t.owned {
          assert Covers(q, q.jobs[j], t.owned[j]);
          assert !DidIn(t, j, e);
        }
      }
      StillQueued(q, q', e);
    }
  }

  // A committed job agrees with what it was, up to the events now processed.
  lemma CommittedAgrees(q: Queue, q': Queue, t: Txn, j: JobId)
    requires HoldingsKept(q, t) && j in q.jobs
    requires q'.jobs == Merged(q.jobs, t.owned) && q'.processed == q.processed + t.did
    ensures j in q'.jobs && Agree(q', q.jobs[j].queued, q'.jobs[j].queued)
  {
    if j in t.owned {
      assert Covers(q, q.jobs[j], t.owned[j]);
      forall e | e !in q'.processed ensures !DidIn(t, j, e) {
      }
    }
  }

  lemma CommitOthers(q: Queue, q': Queue, t: Txn, v: Txn)
    requires HoldingsKept(q, t) && HoldingsKept(q, v) && ListingKept(q, v) && t.owned.Keys !! v.owned.Keys
    requires q'.jobs == Merged(q.jobs, t.owned) && q'.processed == q.processed + t.did
    ensures HoldingsKept(q', v) && ListingKept(q', v)
  {
    forall j | j in v.owned ensures j in q'.jobs && Covers(q', q'.jobs[j], v.owned[j]) {
      assert Covers(q, q.jobs[j], v.owned[j]) && j !in t.owned;
    }
    forall j | j in v.listed ensures j in q'.jobs && Agree(q', q'.jobs[j].queued, v.listed[j]) {
      assert Agree(q, q.jobs[j].queued, v.listed[j]);
      CommittedAgrees(q, q', t, j);
    }
  }

  lemma CommitKeeps(q: Queue, w: Worker, q': Queue)
    requires Kept(q) && w in q.txns && q'.txns == q.txns - {w} && q'.captured == q.captured
    requires q'.jobs == Merged(q.jobs, q.txns[w].owned) && q'.processed == q.processed + q.txns[w].did
    ensures Kept(q')
  {
    CommitNoneLost(q, q', q.txns[w]);
    forall v | v in q'.txns ensures HoldingsKept(q', q'.txns[v]) && ListingKept(q', q'.txns[v]) {
      assert q.txns[w].owned.Keys !! q.txns[v].owned.Keys;
      CommitOthers(q, q', q.txns[w], q.txns[v]);
    }
  }

  // Finishing a job, whatever the result, on whatever payload.
  lemma FinishCovers(q: Queue, committed: Job, o: Owned, only: Option<set<EventId>>, r: Result)
    requires Covers(q, committed, o)
    ensures Covers(q, committed, Finish(o, only, r))
  {
    if r == Success && only.Some? {
      WithinScope(o.payload, only.value);
    }
  }

  lemma ProcessKeeps(q: Queue, t: Txn, r: Result)
    requires HoldingsKept(q, t) && t.todo != [] && t.todo[0] in t.owned
    ensures HoldingsKept(q, AfterProcess(t, r))
  {
    var j, t' := t.todo[0], AfterProcess(t, r);
    assert Covers(q, q.jobs[j], t.owned[j]);
    FinishCovers(q, q.jobs[j], t.owned[j], t.only, r);
    forall k, e | DidIn(t', k, e) ensures e in t'.did {
      if k != j || r != Success {
        assert DidIn(t, k, e);
      }
    }
  }

  lemma TakeKeeps(q: Queue, t: Txn, won: set<JobId>, order: seq<JobId>)
    requires ListingKept(q, t) && won <= q.jobs.Keys && forall j :: j in won ==> q.jobs[j].status != Done
    ensures HoldingsKept(q, Taken(q, t, won, order))
  {
    forall j | j in won ensures Agree(q, q.jobs[j].queued, PayloadOf(q, t, j)) {
    }
  }

  // One transaction changed or dropped, nothing committed.
  lemma OneTxnKept(q: Queue, q': Queue, w: Worker)
    requires Kept(q) && Exclusive(q') && q'.jobs == q.jobs && q'.processed == q.processed && q'.captured == q.captured
    requires forall v :: v in q'.txns && v != w ==> v in q.txns && q'.txns[v] == q.txns[v]
    requires w in q'.txns ==> HoldingsKept(q, q'.txns[w]) && ListingKept(q, q'.txns[w])
    ensures Kept(q')
  {
    SameNoneLost(q, q');
    forall v | v in q'.txns ensures HoldingsKept(q', q'.txns[v]) && ListingKept(q', q'.txns[v]) {
      MoreJobsKeep(q, q', q'.txns[v]);
    }
  }

  lemma EnqueueKeeps(q: Queue, j: JobId, events: set<EventId>)
    requires Kept(q) && j !in q.jobs
    ensures Kept(q.(jobs := q.jobs[j := Job(Pending, events, None)], captured := q.captured + events))
  {
    var q' := q.(jobs := q.jobs[j := Job(Pending, events, None)], captured := q.captured + events);
    EnqueueNoneLost(q, q', j, events);
    forall v | v in q'.txns ensures HoldingsKept(q', q'.txns[v]) && ListingKept(q', q'.txns[v]) {
      MoreJobsKeep(q, q', q.txns[v]);
    }
  }

  lemma TxnsOkAt(q: Queue, w: Worker)
    requires Kept(q) && w in q.txns
    ensures HoldingsKept(q, q.txns[w]) && ListingKept(q, q.txns[w])
  {
  }

  // The step of one transaction that commits nothing.
  lemma OpenStepKeeps(q: Queue, s: Step)
    requires Kept(q) && Enabled(q, s) && (s.Begin? || s.List? || s.Crash?)
    ensures Kept(Do(q, s))
  {
    ExclusiveStep(q, s);
    if s.List? {
      TxnsOkAt(q, s.worker);
    }
    OneTxnKept(q, Do(q, s), s.worker);
  }

  lemma TakeStepKeeps(q: Queue, s: Step)
    requires Kept(q) && Enabled(q, s) && s.TakeJobs?
    ensures Kept(Do(q, s))
  {
    ExclusiveStep(q, s);
    TxnsOkAt(q, s.worker);
    TakeKeeps(q, q.txns[s.worker], Won(q, q.txns[s.worker], s.ids), s.order);
    OneTxnKept(q, Do(q, s), s.worker);
  }

  lemma ProcessStepKeeps(q: Queue, s: Step)
    requires Kept(q) && Enabled(q, s) && s.Process?
    ensures Kept(Do(q, s))
  {
    ExclusiveStep(q, s);
    TxnsOkAt(q, s.worker);
    ProcessKeeps(q, q.txns[s.worker], s.result);
    OneTxnKept(q, Do(q, s), s.worker);
  }

  lemma StepKeeps(q: Queue, s: Step)
    requires Kept(q)
    ensures Kept(Do(q, s))
  {
    if Enabled(q, s) {
      match s
      case Enqueue(j, events) => EnqueueKeeps(q, j, events);
      case TakeJobs(_, _, _) => TakeStepKeeps(q, s);
      case Process(_, _) => ProcessStepKeeps(q, s);
      case Commit(w) => CommitKeeps(q, w, Do(q, s));
      case _ => OpenStepKeeps(q, s);
    }
  }

  lemma {:induction false} RunKeeps(q: Queue, steps: seq<Step>)
    requires Kept(q)
    ensures Kept(Run(q, steps))
    decreases |steps|
  {
    if steps != [] {
      StepKeeps(q, steps[0]);
      RunKeeps(Do(q, steps[0]), steps[1..]);
    }
  }

  // In every interleaving, stale commits included, a captured event has been
  // processed or is queued in some job that is not done.
  lemma NoEventIsLost(steps: seq<Step>, e: EventId)
    requires e in Run(START, steps).captured
    ensures e in Run(START, steps).processed || InQueue(Run(START, steps), e)
  {
    assert Kept(START);
    RunKeeps(START, steps);
  }

  // And every reachable queue can be drained: every job ends done, and every
  // captured event has been processed.
  lemma EveryQueueDrains(steps: seq<Step>)
    ensures exists more: seq<Step> :: Emptied(steps, more)
  {
    var q := Run(START, steps);
    var crashes := AllCrash(q);
    RunOn(START, steps, crashes);
    ReachableIsStamped(steps + crashes);
    var drain := CalmDrains(Run(q, crashes));
    RunOn(START, steps + crashes, drain);
    assert steps + crashes + drain == steps + (crashes + drain);
    EmptyIsProcessed(steps + (crashes + drain));
    assert Emptied(steps, crashes + drain);
  }

  ghost predicate Emptied(steps: seq<Step>, more: seq<Step>) {
    var q, r := Run(START, steps), Run(START, steps + more);
    && r.captured == q.captured && (forall j :: j in r.jobs ==> r.jobs[j].status == Done)
    && forall e :: e in r.captured ==> e in r.processed
  }

  lemma EmptyIsProcessed(steps: seq<Step>)
    requires Unfinished(Run(START, steps)) == {}
    ensures var q := Run(START, steps);
            && (forall j :: j in q.jobs ==> q.jobs[j].status == Done)
            && (forall e :: e in q.captured ==> e in q.processed)
  {
    var q := Run(START, steps);
    forall j | j in q.jobs ensures q.jobs[j].status == Done {
      assert j !in Unfinished(q);
    }
    forall e | e in q.captured ensures e in q.processed {
      NoEventIsLost(steps, e);
      assert forall j :: !Queued(q, j, e);
    }
  }
}
