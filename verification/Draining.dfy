// What becomes of the queue: every unfinished job can be claimed, every
// reachable queue can be drained, and a run whose commit is stale.
module Draining {
  import opened Rows
  import opened Jobs

  lemma {:induction false} RunOn(q: Queue, s: seq<Step>, t: seq<Step>)
    ensures Run(q, s + t) == Run(Run(q, s), t)
    decreases |s|
  {
    if s == [] {
      assert s + t == t;
    } else {
      RunOn(Do(q, s[0]), s[1..], t);
      assert (s + t)[0] == s[0] && (s + t)[1..] == s[1..] + t;
    }
  }

  lemma {:induction false} NeverStaleOn(q: Queue, s: seq<Step>, t: seq<Step>)
    requires NeverStale(q, s) && NeverStale(Run(q, s), t)
    ensures NeverStale(q, s + t)
    decreases |s|
  {
    if s == [] {
      assert s + t == t;
    } else {
      NeverStaleOn(Do(q, s[0]), s[1..], t);
      assert (s + t)[0] == s[0] && (s + t)[1..] == s[1..] + t;
    }
  }

  lemma ReachableIsStamped(steps: seq<Step>)
    ensures AllStamped(Run(START, steps))
  {
    RunningIsStamped(START, steps);
  }

  // No job is ever stuck: in every reachable queue an unlocked job that is not
  // done is won by every transaction that begins more than STALE_CLAIM_AFTER
  // after some instant.
  lemma NotDoneIsClaimable(steps: seq<Step>, j: JobId)
    requires var q := Run(START, steps); j in q.jobs && q.jobs[j].status != Done && !Locked(q, j)
    ensures exists since: int :: WonAfter(Run(START, steps), j, since)
  {
    var q := Run(START, steps);
    ReachableIsStamped(steps);
    assert Stamped(q.jobs[j]);
    assert WonAfter(q, j, q.jobs[j].startedAt.GetOr(0));
  }

  ghost predicate WonAfter(q: Queue, j: JobId, since: int) {
    forall t: Txn :: t.begun > since + STALE_CLAIM_AFTER ==> Won(q, t, {j}) == {j}
  }

  // An order for any finite set of jobs, and an instant after every stamp.
  lemma {:induction false} SomeOrder(ids: set<JobId>) returns (order: seq<JobId>)
    ensures Orders(order, ids)
    decreases |ids|
  {
    if ids == {} {
      order := [];
    } else {
      var j :| j in ids;
      var rest := SomeOrder(ids - {j});
      order := [j] + rest;
      assert j !in Elements(rest);
      assert Elements(order) == {j} + Elements(rest);
      assert forall k :: k in rest ==> k in Elements(rest);
    }
  }

  lemma {:induction false} SomeInstant(jobs: map<JobId, Job>, ids: set<JobId>) returns (now: int)
    requires ids <= jobs.Keys
    ensures forall j :: j in ids && jobs[j].startedAt.Some? ==> jobs[j].startedAt.value < now
    decreases |ids|
  {
    if ids == {} {
      now := 0;
    } else {
      var j :| j in ids;
      now := SomeInstant(jobs, ids - {j});
      var s := jobs[j].startedAt.GetOr(0);
      now := if s < now then now else s + 1;
    }
  }

  function Unfinished(q: Queue): set<JobId> {
    set j | j in q.jobs && q.jobs[j].status != Done
  }

  function AllDone(w: Worker, n: nat): seq<Step> {
    if n == 0 then [] else [Process(w, Success)] + AllDone(w, n - 1)
  }

  // A global transaction that holds its claimed jobs and works through them.
  ghost predicate Working(q: Queue, w: Worker, ids: set<JobId>) {
    && w in q.txns && q.txns[w].only.None? && q.txns[w].owned.Keys == ids
    && (forall j :: j in q.txns[w].todo ==> j in ids)
    && (forall j :: j in ids && j !in q.txns[w].todo ==> q.txns[w].owned[j].row.status == Done)
  }

  // r is what q becomes while w works: only w's transaction has changed.
  ghost predicate Worked(q: Queue, r: Queue, w: Worker, ids: set<JobId>) {
    Working(r, w, ids) && r.jobs == q.jobs && r.captured == q.captured && r.txns.Keys == q.txns.Keys
  }

  lemma {:induction false} WorksThrough(q: Queue, w: Worker, ids: set<JobId>, n: nat)
    requires Working(q, w, ids) && n == |q.txns[w].todo|
    ensures var r := Run(q, AllDone(w, n)); Worked(q, r, w, ids) && r.txns[w].todo == []
    decreases n
  {
    if n > 0 {
      var q' := Do(q, Process(w, Success));
      OneMoreDone(q, w, ids, q');
      WorksThrough(q', w, ids, n - 1);
      FirstDone(q, w, n);
    }
  }

  lemma FirstDone(q: Queue, w: Worker, n: nat)
    requires n > 0
    ensures Run(q, AllDone(w, n)) == Run(Do(q, Process(w, Success)), AllDone(w, n - 1))
  {
    assert AllDone(w, n)[1..] == AllDone(w, n - 1);
  }

  lemma OneMoreDone(q: Queue, w: Worker, ids: set<JobId>, r: Queue)
    requires Working(q, w, ids) && q.txns[w].todo != [] && r == Do(q, Process(w, Success))
    ensures Worked(q, r, w, ids) && r.txns[w].todo == q.txns[w].todo[1..]
  {
    var t := q.txns[w];
    assert Do(q, Process(w, Success)) == SetTxn(q, w, AfterProcess(t, Success));
    assert t.todo == [t.todo[0]] + t.todo[1..];
  }

  // One global worker that begins late enough, takes everything unfinished,
  // succeeds on all of it and commits.
  function DrainBy(w: Worker, now: int, ids: set<JobId>, order: seq<JobId>): seq<Step> {
    [Begin(w, now, None), TakeJobs(w, ids, order)] + AllDone(w, |order|) + [Commit(w)]
  }

  lemma {:induction false} DoneAreGlobal(w: Worker, n: nat)
    ensures forall s :: s in AllDone(w, n) ==> Global(s)
  {
    if n > 0 {
      DoneAreGlobal(w, n - 1);
    }
  }

  lemma DrainIsGlobal(w: Worker, now: int, ids: set<JobId>, order: seq<JobId>)
    ensures forall s :: s in DrainBy(w, now, ids, order) ==> Global(s)
  {
    DoneAreGlobal(w, |order|);
  }

  lemma BeginsAndTakes(q: Queue, w: Worker, now: int, order: seq<JobId>)
    requires AllStamped(q) && q.txns == map[] && Orders(order, Unfinished(q))
    requires forall j :: j in Unfinished(q) && q.jobs[j].startedAt.Some? ==>
               q.jobs[j].startedAt.value + STALE_CLAIM_AFTER < now
    ensures var r := Run(q, [Begin(w, now, None), TakeJobs(w, Unfinished(q), order)]);
            && Working(r, w, Unfinished(q)) && r.txns[w].todo == order
            && r.jobs == q.jobs && r.captured == q.captured && r.txns.Keys == {w}
  {
    var ids, steps := Unfinished(q), [Begin(w, now, None), TakeJobs(w, Unfinished(q), order)];
    var t := Txn(now, None, map[], map[], [], multiset{});
    var q1 := Do(q, steps[0]);
    assert q1 == SetTxn(q, w, t);
    assert forall j :: j in ids ==> Stamped(q.jobs[j]);
    assert Won(q1, t, ids) == ids;
    var q2 := Do(q1, steps[1]);
    assert q2 == SetTxn(q1, w, Taken(q1, t, ids, order));
    assert steps[1..] == [steps[1]] && steps[1..][1..] == [];
    assert Run(q1, steps[1..]) == Run(q2, []);
    assert forall j :: j in ids <==> j in Elements(order);
  }

  lemma CommitsAll(q: Queue, w: Worker, ids: set<JobId>)
    requires Working(q, w, ids) && q.txns[w].todo == [] && q.txns.Keys == {w} && Unfinished(q) == ids
    ensures var r := Run(q, [Commit(w)]); Unfinished(r) == {} && r.txns == map[] && r.captured == q.captured
  {
    assert [Commit(w)][1..] == [];
    var r := Do(q, Commit(w));
    assert Run(q, [Commit(w)]) == Run(r, []);
    assert r.txns.Keys == {};
  }

  lemma DrainFinishes(q: Queue, w: Worker, now: int, order: seq<JobId>)
    requires AllStamped(q) && q.txns == map[] && Orders(order, Unfinished(q))
    requires forall j :: j in Unfinished(q) && q.jobs[j].startedAt.Some? ==>
               q.jobs[j].startedAt.value + STALE_CLAIM_AFTER < now
    ensures var r := Run(q, DrainBy(w, now, Unfinished(q), order));
            Unfinished(r) == {} && r.txns == map[] && r.captured == q.captured
  {
    var ids := Unfinished(q);
    var open := [Begin(w, now, None), TakeJobs(w, ids, order)];
    BeginsAndTakes(q, w, now, order);
    var q2 := Run(q, open);
    WorksThrough(q2, w, ids, |order|);
    var q3 := Run(q2, AllDone(w, |order|));
    CommitsAll(q3, w, ids);
    RunOn(q, open, AllDone(w, |order|));
    RunOn(q, open + AllDone(w, |order|), [Commit(w)]);
  }

  // Crashes drop every open transaction, whatever it was doing.
  lemma {:induction false} AllCrash(q: Queue) returns (steps: seq<Step>)
    ensures var r := Run(q, steps); r.txns == map[] && r.jobs == q.jobs && r.captured == q.captured
    ensures NeverStale(q, steps)
    decreases |q.txns|
  {
    if q.txns == map[] {
      steps := [];
    } else {
      var w :| w in q.txns;
      var q' := Do(q, Crash(w));
      assert q'.txns.Keys == q.txns.Keys - {w};
      assert |q'.txns.Keys| < |q.txns.Keys|;
      var rest := AllCrash(q');
      steps := [Crash(w)] + rest;
      assert steps[1..] == rest;
    }
  }

  lemma CalmDrains(q: Queue) returns (drain: seq<Step>)
    requires AllStamped(q) && q.txns == map[]
    ensures var r := Run(q, drain); Unfinished(r) == {} && r.captured == q.captured
    ensures NeverStale(q, drain)
  {
    var ids := Unfinished(q);
    var order := SomeOrder(ids);
    var instant := SomeInstant(q.jobs, ids);
    drain := DrainBy(0, instant + STALE_CLAIM_AFTER, ids, order);
    DrainFinishes(q, 0, instant + STALE_CLAIM_AFTER, order);
    DrainIsGlobal(0, instant + STALE_CLAIM_AFTER, ids, order);
    GlobalRunsAreNeverStale(q, drain);
  }

  // Whatever a run without stale commits did, and whichever workers are still
  // open, the queue can be drained: every job ends done and every captured event
  // has been processed exactly once.
  lemma QueueDrains(steps: seq<Step>)
    requires NeverStale(START, steps)
    ensures exists more: seq<Step> :: Drains(steps, more)
  {
    var q := Run(START, steps);
    var crashes := AllCrash(q);
    var calm := Run(q, crashes);
    RunOn(START, steps, crashes);
    NeverStaleOn(START, steps, crashes);
    ReachableIsStamped(steps + crashes);
    var drain := CalmDrains(calm);
    RunOn(START, steps + crashes, drain);
    NeverStaleOn(START, steps + crashes, drain);
    assert steps + crashes + drain == steps + (crashes + drain);
    DrainedIsProcessed(steps + (crashes + drain));
    assert Drains(steps, crashes + drain);
  }

  ghost predicate Drains(steps: seq<Step>, more: seq<Step>) {
    var q, r := Run(START, steps), Run(START, steps + more);
    && r.captured == q.captured && (forall j :: j in r.jobs ==> r.jobs[j].status == Done)
    && forall e :: e in r.captured ==> r.processed[e] == 1
  }

  lemma DrainedIsProcessed(steps: seq<Step>)
    requires NeverStale(START, steps) && Unfinished(Run(START, steps)) == {}
    ensures var q := Run(START, steps);
            && (forall j :: j in q.jobs ==> q.jobs[j].status == Done)
            && (forall e :: e in q.captured ==> q.processed[e] == 1)
  {
    var q := Run(START, steps);
    forall j | j in q.jobs ensures q.jobs[j].status == Done {
      assert j !in Unfinished(q);
    }
    forall e | e in q.captured ensures q.processed[e] == 1 {
      EveryEventOnceFromStart(steps, e);
    }
  }

  // Two workers scoped to event 0 list the same job, which holds events 0 and 1.
  // The first narrows it; the second claims it with its old listing and
  // processes event 0 again.
  const FIRST: seq<Step> :=
    [Enqueue(0, {0, 1}), Begin(0, 0, Some({0})), Begin(1, 0, Some({0})), List(0), List(1)]

  function WorkOn(w: Worker): seq<Step> {
    [TakeJobs(w, {0}, [0]), Process(w, Success), Commit(w)]
  }

  const LISTED: Txn := Txn(0, Some({0}), map[0 := {0, 1}], map[], [], multiset{})

  lemma BothListed()
    ensures Run(START, FIRST)
            == Queue(map[0 := Job(Pending, {0, 1}, None)], map[0 := LISTED, 1 := LISTED], multiset{}, {0, 1})
  {
    var q1 := Do(START, Enqueue(0, {0, 1}));
    var q2 := Do(q1, Begin(0, 0, Some({0})));
    var q3 := Do(q2, Begin(1, 0, Some({0})));
    var q4 := Do(q3, List(0));
    assert Listing(q3) == map[0 := {0, 1}] && Listing(q4) == map[0 := {0, 1}];
    var q5 := Do(q4, List(1));
    FiveSteps(START, FIRST[0], FIRST[1], FIRST[2], FIRST[3], FIRST[4]);
  }

  lemma ThreeSteps(q: Queue, a: Step, b: Step, c: Step)
    ensures Run(q, [a, b, c]) == Do(Do(Do(q, a), b), c)
  {
    var s := [a, b, c];
    assert s[1..] == [b, c] && [b, c][1..] == [c] && [c][1..] == [];
    assert Run(Do(q, a), [b, c]) == Run(Do(Do(q, a), b), [c]) == Run(Do(Do(Do(q, a), b), c), []);
  }

  lemma FiveSteps(q: Queue, a: Step, b: Step, c: Step, d: Step, e: Step)
    ensures Run(q, [a, b, c, d, e]) == Do(Do(Do(Do(Do(q, a), b), c), d), e)
  {
    var s := [a, b, c, d, e];
    assert s[1..] == [b, c, d, e] && [b, c, d, e][1..] == [c, d, e];
    assert Run(q, s) == Run(Do(q, a), [b, c, d, e]) == Run(Do(Do(q, a), b), [c, d, e]);
    ThreeSteps(Do(Do(q, a), b), c, d, e);
  }

  // What working on the job does when the listing says {0, 1}.
  lemma WorkDone(q: Queue, w: Worker, queued: set<EventId>)
    requires q.jobs == map[0 := Job(Pending, queued, None)] && w in q.txns && q.txns[w] == LISTED
    requires forall v :: v in q.txns ==> q.txns[v].owned == map[]
    ensures Run(q, WorkOn(w))
         == Queue(map[0 := Job(Pending, {1}, None)], q.txns - {w}, q.processed + multiset{0}, q.captured)
  {
    assert Elements([0]) == {0};
    assert Won(q, LISTED, {0}) == {0};
    var q1 := Do(q, TakeJobs(w, {0}, [0]));
    var held := Owned(Job(Running, queued, Some(0)), {0, 1}, {});
    var t1 := Txn(0, Some({0}), map[0 := {0, 1}], map[0 := held], [0], multiset{});
    assert Taken(q, LISTED, {0}, [0]) == t1;
    assert q1 == SetTxn(q, w, t1);
    var o := Finish(t1.owned[0], Some({0}), Success);
    assert {0, 1} - {0} == {1} && {0, 1} * {0} == {0};
    assert o == Owned(Job(Pending, {1}, None), {0, 1}, {0});
    var q2 := Do(q1, Process(w, Success));
    assert multiset({0}) == multiset{0};
    assert q2 == SetTxn(q1, w, AfterProcess(t1, Success));
    var q3 := Do(q2, Commit(w));
    assert q3.txns == q.txns - {w};
    ThreeSteps(q, TakeJobs(w, {0}, [0]), Process(w, Success), Commit(w));
  }

  lemma BothWork()
    ensures Run(START, FIRST + WorkOn(0) + WorkOn(1)).processed[0] == 2
  {
    BothListed();
    var q := Run(START, FIRST);
    WorkDone(q, 0, {0, 1});
    RunOn(START, FIRST, WorkOn(0));
    var r := Run(START, FIRST + WorkOn(0));
    WorkDone(r, 1, {1});
    RunOn(START, FIRST + WorkOn(0), WorkOn(1));
  }

  lemma StaleRunProcessesTwice()
    ensures Run(START, FIRST + WorkOn(0) + WorkOn(1)).processed[0] == 2
    ensures !NeverStale(START, FIRST + WorkOn(0) + WorkOn(1))
  {
    BothWork();
    var all := FIRST + WorkOn(0) + WorkOn(1);
    if NeverStale(START, all) {
      EveryEventOnce(START, all);
    }
  }
}
