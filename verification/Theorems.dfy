// The ledger's promises over whole runs, from the empty ledger.
module Theorems {
  import opened Rows
  import opened Lifecycle
  import opened Matching
  import opened Adjudication
  import opened Invariants
  import opened Verdicts
  import opened Guarantees
  import opened Runs

  function Serving(t: Tables): set<FactId> {
    set i | i in t.facts && t.facts[i].status == Active
  }

  function Seen(n: Tally): nat {
    n.rejected + n.duplicates + n.reinforced + n.quarantined + n.created + n.conflicts
  }

  // The counters explain how the tables grew since `t`.
  ghost predicate Balanced(t: Tables, pr: Progress) {
    && |pr.tables.facts| == |t.facts| + pr.tally.created + pr.tally.conflicts + pr.tally.quarantined
    && |Serving(pr.tables)| == |Serving(t)| + pr.tally.created - pr.tally.superseded + pr.tally.reclassified
  }

  // The served facts after a change: those gained, less those lost.
  lemma ServingChanged(t: Tables, t': Tables, gained: set<FactId>, lost: set<FactId>)
    requires gained !! Serving(t) && lost <= Serving(t)
    requires forall i :: i in gained ==> i in t'.facts && t'.facts[i].status == Active
    requires forall i :: i in lost ==> i !in t'.facts || t'.facts[i].status != Active
    requires forall i :: i !in gained && i !in lost ==>
               ((i in t'.facts && t'.facts[i].status == Active) <==> (i in t.facts && t.facts[i].status == Active))
    ensures |Serving(t')| == |Serving(t)| + |gained| - |lost|
  {
    assert Serving(t') == (Serving(t) - lost) + gained;
  }

  lemma ExplainedServing(t: Tables, e: SourceEvent, v: Verdict)
    requires Numbered(t) && Explained(t, e, v) && !v.outcome.Aborted?
    ensures var m := Count(ZERO, v.outcome);
            |Serving(v.tables)| == |Serving(t)| + m.created - m.superseded + m.reclassified
  {
    match v.outcome
    case Duplicate(_) =>
    case Reinforced(_) => ServingChanged(t, v.tables, {}, {});
    case Held(id, _) => WaitingServing(t, e, v);
    case Contested(id, _, _) => WaitingServing(t, e, v);
    case Mislabelled(id) => EnteringServing(t, e, v);
    case Activated(id) => EnteringServing(t, e, v);
    case Succeeded(old_, id) => SucceededServing(t, e, v);
    case Overflowed(id, _, other, _) => OverflowServing(t, e, v);
  }

  lemma WaitingServing(t: Tables, e: SourceEvent, v: Verdict)
    requires Numbered(t) && Explained(t, e, v) && (v.outcome.Held? || v.outcome.Contested?)
    ensures |Serving(v.tables)| == |Serving(t)|
  {
    ServingChanged(t, v.tables, {}, {});
  }

  lemma EnteringServing(t: Tables, e: SourceEvent, v: Verdict)
    requires Numbered(t) && Explained(t, e, v) && (v.outcome.Mislabelled? || v.outcome.Activated?)
    ensures |Serving(v.tables)| == |Serving(t)| + 1
  {
    ServingChanged(t, v.tables, {v.outcome.id}, {});
  }

  lemma SucceededServing(t: Tables, e: SourceEvent, v: Verdict)
    requires Numbered(t) && Explained(t, e, v) && v.outcome.Succeeded?
    ensures |Serving(v.tables)| == |Serving(t)|
  {
    ServingChanged(t, v.tables, {v.outcome.id}, {v.outcome.old_});
  }

  lemma OverflowServing(t: Tables, e: SourceEvent, v: Verdict)
    requires Numbered(t) && Explained(t, e, v) && v.outcome.Overflowed?
    ensures |Serving(v.tables)| == |Serving(t)| + 2
  {
    var id, other := v.outcome.id, v.outcome.other;
    ServingChanged(t, v.tables, {id, other}, {});
    assert |{id, other}| == 2;
  }

  lemma ExplainedCounts(t: Tables, e: SourceEvent, v: Verdict, n: Tally)
    requires Numbered(t) && Explained(t, e, v) && !v.outcome.Aborted?
    ensures var m := Count(n, v.outcome);
            && Seen(m) == Seen(n) + 1
            && |v.tables.facts|
               == |t.facts| + (m.created + m.conflicts + m.quarantined) - (n.created + n.conflicts + n.quarantined)
            && |Serving(v.tables)|
               == |Serving(t)|
                   + (m.created - m.superseded + m.reclassified) - (n.created - n.superseded + n.reclassified)
  {
    ExplainedServing(t, e, v);
    ExplainedSize(t, e, v);
  }

  lemma ExplainedSize(t: Tables, e: SourceEvent, v: Verdict)
    requires Numbered(t) && Explained(t, e, v) && !v.outcome.Aborted?
    ensures var m := Count(ZERO, v.outcome); |v.tables.facts| == |t.facts| + m.created + m.conflicts + m.quarantined
  {
    assert |v.tables.facts| == |v.tables.facts.Keys| && |t.facts| == |t.facts.Keys|;
  }

  lemma FeedCounts(t: Tables, pr: Progress, e: SourceEvent, raw: Raw)
    requires Inv(pr.tables) && (!pr.failed ==> Balanced(t, pr))
    ensures var r := Feed(pr, e, raw); !r.failed ==> !pr.failed && Balanced(t, r) && Seen(r.tally) == Seen(pr.tally) + 1
  {
    if !pr.failed && !Screened(e, raw) {
      var v := Apply(pr.tables, raw.claim, e, raw.picks);
      ApplyStep(pr.tables, raw.claim, e, raw.picks);
      if !v.outcome.Aborted? {
        ExplainedCounts(pr.tables, e, v, pr.tally);
      }
    }
  }

  lemma {:induction false} FeedAllCounts(t: Tables, pr: Progress, e: SourceEvent, raws: seq<Raw>)
    requires Inv(pr.tables) && (!pr.failed ==> Balanced(t, pr))
    ensures var r := FeedAll(pr, e, raws);
            !r.failed ==> !pr.failed && Balanced(t, r) && Seen(r.tally) == Seen(pr.tally) + |raws|
  {
    if raws != [] {
      FeedAllCounts(t, pr, e, raws[..|raws| - 1]);
      FeedAllStep(pr, e, raws[..|raws| - 1]);
      FeedCounts(t, FeedAll(pr, e, raws[..|raws| - 1]), e, raws[|raws| - 1]);
    }
  }

  function Proposals(batch: seq<Extraction>): nat {
    if batch == [] then 0 else Proposals(batch[..|batch| - 1]) + |batch[|batch| - 1].raws|
  }

  lemma {:induction false} FeedBatchCounts(t: Tables, pr: Progress, batch: seq<Extraction>)
    requires Inv(pr.tables) && (!pr.failed ==> Balanced(t, pr))
    ensures var r := FeedBatch(pr, batch);
            !r.failed ==> !pr.failed && Balanced(t, r) && Seen(r.tally) == Seen(pr.tally) + Proposals(batch)
  {
    if batch != [] {
      FeedBatchCounts(t, pr, batch[..|batch| - 1]);
      FeedBatchStep(pr, batch[..|batch| - 1]);
      var last := batch[|batch| - 1];
      FeedAllCounts(t, FeedBatch(pr, batch[..|batch| - 1]), last.event, last.raws);
    }
  }

  // A job that completes counts every raw candidate exactly once, and its
  // counters say by how much the ledger and the served facts grew.
  lemma JobAccounting(t: Tables, now: int, batch: seq<Extraction>)
    requires Inv(t)
    ensures var r := Consolidated(t, now, batch);
            && (r.failed ==> r.tables == t)
            && (!r.failed ==> Balanced(t, r) && Seen(r.tally) == Proposals(batch))
  {
    var t1 := t.(now := now);
    InvIgnoresAliases(t, t1);
    assert Serving(t1) == Serving(t);
    FeedBatchCounts(t, Progress(t1, ZERO, false), batch);
  }

  // In every reachable ledger at most one active state-form fact has an identity.
  lemma OneServedPerIdentity(steps: seq<Step>, i: FactId, j: FactId)
    requires var t := Run(EMPTY, steps); i in t.facts && j in t.facts && Clash(t.facts[i], t.facts[j])
    ensures i == j
  {
    EmptyOk();
    RunKeeps(EMPTY, steps);
  }

  // In every reachable ledger an open set is a held fact alone or a pair with
  // at most one active member, and open sets share no member.
  lemma OpenSetsArePairs(steps: seq<Step>, s: SetId, r: SetId)
    requires var t := Run(EMPTY, steps);
             s in t.sets && r in t.sets && t.sets[s].status == Open && t.sets[r].status == Open
    ensures var t := Run(EMPTY, steps); var c := t.sets[s];
            && |c.members| == (if c.kind == Quarantine then 1 else 2)
            && (forall m :: m in c.members ==> m in t.facts)
            && (forall m, k ::
               m in c.members && k in c.members && t.facts[m].status == Active && t.facts[k].status == Active ==>
                   m == k)
            && (s != r ==> forall m :: m in c.members ==> m !in t.sets[r].members)
  {
    EmptyOk();
    RunKeeps(EMPTY, steps);
    var t := Run(EMPTY, steps);
    assert SetOk(t, t.sets[s]);
    forall m | m in t.sets[s].members && m in t.sets[r].members ensures s == r {
      assert SharedMember(t, s, r, m);
    }
  }

  // A dissolved set keeps three event-form facts, and no candidate row is ever
  // left outside an open set.
  lemma DissolvedSetsAreEvents(steps: seq<Step>, s: SetId, i: FactId)
    requires var t := Run(EMPTY, steps); s in t.sets && t.sets[s].status == ReclassifiedEvent && i in t.facts
    ensures var t := Run(EMPTY, steps);
            && |t.sets[s].members| == 3
            && (forall m :: m in t.sets[s].members ==> m in t.facts && t.facts[m].form == EventForm)
            && (t.facts[i].status == Candidate ==> InOpenSet(t, i))
  {
    EmptyOk();
    RunKeeps(EMPTY, steps);
    var t := Run(EMPTY, steps);
    assert SetOk(t, t.sets[s]);
    assert InOpenSet(t, i) || t.facts[i].status != Candidate;
  }

  // Fact n links up a chain of fact o: o was replaced, directly or not, by n.
  predicate Descends(t: Tables, n: FactId, o: FactId)
    decreases n
  {
    n in t.facts && t.facts[n].supersedes.Some? && t.facts[n].supersedes.value < n
    && (t.facts[n].supersedes.value == o || Descends(t, t.facts[n].supersedes.value, o))
  }

  // Along a chain the scope stays, the rank never drops, ids only grow -- so no
  // chain is a cycle -- and nothing but the newest fact can be active.
  lemma {:induction false} ChainsGoUp(t: Tables, n: FactId, o: FactId)
    requires Inv(t) && Descends(t, n, o)
    ensures o < n && o in t.facts && t.facts[o].scope == t.facts[n].scope
    ensures Rank(t.facts[o].origin) <= Rank(t.facts[n].origin) && t.facts[o].status != Active
    decreases n
  {
    var m := t.facts[n].supersedes.value;
    assert Replaces(t, n, m);
    if m != o {
      ChainsGoUp(t, m, o);
    }
  }

  // In every reachable ledger the interval of a replaced fact ends where its
  // successor's starts, and never before its own start.
  lemma ReplacedIntervalCloses(steps: seq<Step>, i: FactId, o: FactId)
    requires Replaces(Run(EMPTY, steps), i, o)
    ensures var t := Run(EMPTY, steps);
            && o in t.facts && i in t.facts && t.facts[o].validTo.Some?
            && var start, end := t.facts[o].validFrom, t.facts[o].validTo.value;
               end >= start && end == if start <= t.facts[i].validFrom then t.facts[i].validFrom else start
  {
    EmptyOk();
    RunKeeps(EMPTY, steps);
    var t := Run(EMPTY, steps);
    assert LinkOk(t.facts[o], t.facts[i]);
  }

  lemma {:induction false} DirectSuccessorIsFirst(t: Tables, n: FactId, k: FactId, o: FactId)
    requires Inv(t) && Replaces(t, n, o) && Descends(t, k, o)
    ensures n == k || Descends(t, k, n)
    decreases k
  {
    var l := t.facts[k].supersedes.value;
    assert Replaces(t, k, l);
    if l != o {
      DirectSuccessorIsFirst(t, n, l, o);
    }
  }

  // Two facts that descend from a third lie on one chain: chains never fork.
  lemma {:induction false} ChainsNeverFork(t: Tables, n: FactId, k: FactId, o: FactId)
    requires Inv(t) && Descends(t, n, o) && Descends(t, k, o)
    ensures n == k || Descends(t, n, k) || Descends(t, k, n)
    decreases n
  {
    var m := t.facts[n].supersedes.value;
    assert Replaces(t, n, m);
    if m == o {
      DirectSuccessorIsFirst(t, n, k, o);
    } else {
      ChainsNeverFork(t, m, k, o);
      if m != k && !Descends(t, m, k) {
        DirectSuccessorIsFirst(t, n, k, m);
      }
    }
  }

  // Once superseded or deleted, a fact is never served again, whatever follows.
  lemma NeverServedAgain(before: seq<Step>, after: seq<Step>, id: FactId)
    requires var t := Run(EMPTY, before);
             id in t.facts && (t.facts[id].status == Superseded || t.facts[id].status == Deleted)
    requires id in Run(Run(EMPTY, before), after).facts
    ensures Run(Run(EMPTY, before), after).facts[id].status != Active
  {
    EmptyOk();
    RunKeeps(EMPTY, before);
    var t := Run(EMPTY, before);
    RunKeeps(t, after);
    assert Replaced(t, id) || t.facts[id].status == Deleted;
    var t' := Run(t, after);
    assert Retired(t', id);
    if Replaced(t', id) {
      var i :| Replaces(t', i, id);
      assert LinkOk(t'.facts[id], t'.facts[i]);
    }
  }

  // Untrusted content is never served, and every fact has one source event for
  // its creation and one for each counted reinforcement.
  lemma ProvenanceHolds(steps: seq<Step>, id: FactId)
    requires id in Run(EMPTY, steps).facts
    ensures var f := Run(EMPTY, steps).facts[id];
            && (f.origin == Untrusted ==> f.status != Active)
            && |f.sources| == f.reinforcements + 1 && Distinct(f.sources)
  {
    EmptyOk();
    RunKeeps(EMPTY, steps);
    assert RowOk(Run(EMPTY, steps).facts[id]);
  }
}
