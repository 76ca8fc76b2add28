// claim_jobs and _run_jobs as one worker runs them, updating its session's rows
// in place; proved against the protocol's transaction steps.
module WorkerSession {
  import opened Rows
  import opened Jobs

  // The batch run to its end: every result in order, nothing after a rate limit.
  function Drain(t: Txn, results: seq<Result>): Txn
    decreases |results|
  {
    if results == [] || t.todo == [] || t.todo[0] !in t.owned then t
    else Drain(AfterProcess(t, results[0]), results[1..])
  }

  function Successes(results: seq<Result>): nat {
    if results == [] then 0
    else (if results[0] == Success then 1 else 0) + (if results[0] == RateLimited then 0 else Successes(results[1..]))
  }

  function WonInOrder(q: Queue, t: Txn, wanted: seq<JobId>): seq<JobId> {
    if wanted == [] then []
    else
      var r, j := WonInOrder(q, t, wanted[..|wanted| - 1]), wanted[|wanted| - 1];
      if j in q.jobs && Claimable(q.jobs[j], t.begun) && !Locked(q, j) then r + [j] else r
  }

  lemma {:induction false} WonInOrderOrders(q: Queue, t: Txn, wanted: seq<JobId>)
    requires forall a, b :: 0 <= a < b < |wanted| ==> wanted[a] != wanted[b]
    ensures Orders(WonInOrder(q, t, wanted), Won(q, t, Elements(wanted)))
  {
    if wanted != [] {
      var head, j := wanted[..|wanted| - 1], wanted[|wanted| - 1];
      WonInOrderOrders(q, t, head);
      assert wanted == head + [j];
      var r := WonInOrder(q, t, head);
      assert Elements(wanted) == Elements(head) + {j} && j !in Elements(head);
      assert Elements(r + [j]) == Elements(r) + {j};
      if j in q.jobs && Claimable(q.jobs[j], t.begun) && !Locked(q, j) {
        assert Won(q, t, Elements(wanted)) == Won(q, t, Elements(head)) + {j};
        assert forall k :: k in r ==> k in Elements(r);
      } else {
        assert Won(q, t, Elements(wanted)) == Won(q, t, Elements(head));
      }
    }
  }

  class Session {
    var txn: Txn

    constructor (begun: int, only: Option<set<EventId>>)
      ensures txn == Txn(begun, only, map[], map[], [], multiset{})
    {
      txn := Txn(begun, only, map[], map[], [], multiset{});
    }

    // FOR UPDATE SKIP LOCKED over the wanted rows, in creation order.
    method ClaimJobs(q: Queue, wanted: seq<JobId>)
      requires txn.owned == map[] && forall a, b :: 0 <= a < b < |wanted| ==> wanted[a] != wanted[b]
      modifies this
      ensures txn == Taken(q, old(txn), Won(q, old(txn), Elements(wanted)), WonInOrder(q, old(txn), wanted))
      ensures Orders(txn.todo, Won(q, old(txn), Elements(wanted)))
    {
      var claimed: seq<JobId>, owned: map<JobId, Owned> := [], map[];
      for i := 0 to |wanted|
        invariant claimed == WonInOrder(q, txn, wanted[..i]) && txn == old(txn)
        invariant owned == map j | j in Won(q, txn, Elements(claimed)) ::
                  Owned(Claimed(q.jobs[j], txn.begun), PayloadOf(q, txn, j), {})
      {
        var j := wanted[i];
        assert wanted[..i + 1][..i] == wanted[..i];
        if j in q.jobs && Claimable(q.jobs[j], txn.begun) && !Locked(q, j) {
          assert Elements(claimed + [j]) == Elements(claimed) + {j};
          assert Won(q, txn, Elements(claimed + [j])) == Won(q, txn, Elements(claimed)) + {j};
          claimed := claimed + [j];
          owned := owned[j := Owned(Claimed(q.jobs[j], txn.begun), PayloadOf(q, txn, j), {})];
        }
      }
      assert wanted[..|wanted|] == wanted;
      WonInOrderOrders(q, txn, wanted);
      assert Won(q, txn, Elements(claimed)) == Won(q, txn, Elements(wanted));
      txn := txn.(owned := owned, todo := claimed);
    }

    // One savepoint per job; a rate limit stops the batch.
    method RunJobs(results: seq<Result>) returns (done: nat)
      requires |results| == |txn.todo| && forall j :: j in txn.todo ==> j in txn.owned
      modifies this
      ensures txn == Drain(old(txn), results) && txn.todo == []
      ensures done == Successes(results)
    {
      var jobs := txn.todo;
      done := 0;
      ghost var start := txn;
      for i := 0 to |jobs|
        invariant txn.todo == jobs[i..] && forall j :: j in txn.todo ==> j in txn.owned
        invariant Drain(start, results) == Drain(txn, results[i..])
        invariant done + Successes(results[i..]) == Successes(results)
      {
        var j, r := jobs[i], results[i];
        ghost var before := txn;
        assert results[i..][0] == r;
        var o := txn.owned[j];
        assert results[i..][1..] == results[i + 1..] && jobs[i..][1..] == jobs[i + 1..];
        if r == Success {
          var did, remaining := InScope(o.payload, txn.only), Remaining(o.payload, txn.only);
          if remaining != {} {
            o := o.(row := Job(Pending, remaining, None), did := did);
          } else {
            o := o.(row := o.row.(status := Done, queued := o.payload), did := did);
          }
          txn := txn.(owned := txn.owned[j := o], todo := txn.todo[1..], did := txn.did + multiset(did));
          done := done + 1;
        } else {
          o := o.(row := o.row.(status := Failed, queued := o.payload));
          txn := txn.(owned := txn.owned[j := o], todo := if r == RateLimited then [] else txn.todo[1..]);
          if r == RateLimited {
            assert txn == AfterProcess(before, r);
            return;
          }
        }
        assert txn == AfterProcess(before, r);
      }
    }
  }
}
