// Where the packet meets the ledger: the split of open conflicts that feeds the
// packing loop (app/context/__init__.py:914-1002) over an adjudicated ledger.
module LedgerPackets {
  import opened Rows
  import opened Invariants
  import opened Packing

  const CONTESTED_CONFLICT_MIN_MEMBERS := 2

  // The open conflict sets of a scope, in whatever order the query returned them.
  ghost predicate OpenSets(t: Tables, s: Scope, open: seq<SetId>) {
    && Distinct(open)
    && (forall x :: x in open <==> x in t.sets && t.sets[x].status == Open && t.sets[x].scope == s)
  }

  function Marked(m: map<FactId, seq<FactId>>, ids: seq<FactId>, members: seq<FactId>): map<FactId, seq<FactId>> {
    m + map f | f in ids :: members
  }

  // contested_conflict_by_fact: a later set overwrites an earlier one.
  function Contested(t: Tables, open: seq<SetId>): map<FactId, seq<FactId>>
    requires forall x :: x in open ==> x in t.sets
  {
    if open == [] then map[]
    else
      var before, c := Contested(t, open[..|open| - 1]), t.sets[open[|open| - 1]];
      if |c.members| >= CONTESTED_CONFLICT_MIN_MEMBERS then Marked(before, c.members, c.members) else before
  }

  // quarantined_ids: the members of every smaller set.
  function Quarantined(t: Tables, open: seq<SetId>): set<FactId>
    requires forall x :: x in open ==> x in t.sets
  {
    set x, f | x in open && f in t.sets[x].members && |t.sets[x].members| < CONTESTED_CONFLICT_MIN_MEMBERS :: f
  }

  method SplitConflicts(t: Tables, open: seq<SetId>)
    returns (contested: map<FactId, seq<FactId>>, quarantined: set<FactId>)
    requires forall x :: x in open ==> x in t.sets
    ensures contested == Contested(t, open) && quarantined == Quarantined(t, open)
  {
    contested, quarantined := map[], {};
    for k := 0 to |open|
      invariant contested == Contested(t, open[..k]) && quarantined == Quarantined(t, open[..k])
    {
      assert open[..k + 1][..k] == open[..k] && open[..k + 1] == open[..k] + [open[k]];
      var conflict := t.sets[open[k]];
      if |conflict.members| >= CONTESTED_CONFLICT_MIN_MEMBERS {
        contested := Marked(contested, conflict.members, conflict.members);
      } else {
        quarantined := quarantined + (set f | f in conflict.members);
      }
    }
    assert open[..|open|] == open;
  }

  predicate IsForgotten(f: Fact) {
    f.status == Disabled || f.status == Deleted
  }

  predicate TouchedWith(contested: map<FactId, seq<FactId>>, rows: set<FactId>, f: FactId, m: FactId) {
    f in contested && m in contested[f] && exists r :: r in contested[f] && r in rows
  }

  // contested_rows_by_id: the members of every contested set that touches a
  // retrieved row.
  ghost function Hydrated(t: Tables, contested: map<FactId, seq<FactId>>, rows: set<FactId>): map<FactId, bool> {
    map m | m in t.facts && (exists f :: TouchedWith(contested, rows, f, m)) :: IsForgotten(t.facts[m])
  }

  ghost function ContextFor(t: Tables, open: seq<SetId>, rows: set<FactId>, budget: nat, size: Line -> nat): Context
    requires forall x :: x in open ==> x in t.sets
  {
    var contested := Contested(t, open);
    Context(budget, contested, Hydrated(t, contested, rows), size)
  }

  // What retrieval and ranking hand over: distinct entries whose facts are
  // active rows of the scope that are not quarantined.
  ghost predicate Eligible(t: Tables, s: Scope, open: seq<SetId>, rows: set<FactId>, pool: seq<Entry>)
    requires forall x :: x in open ==> x in t.sets
  {
    && Distinct(pool)
    && (forall r :: r in rows ==> r in t.facts && t.facts[r].scope == s && t.facts[r].status == Active)
    && (forall f :: FactEntry(f) in pool ==> f in rows && f !in Quarantined(t, open))
  }

  // A contested fact's entry is the member list of the one open set it is in.
  lemma {:induction false} ContestedSound(t: Tables, open: seq<SetId>, f: FactId)
    requires forall x :: x in open ==> x in t.sets
    requires f in Contested(t, open)
    ensures exists x ::
            x in open && f in t.sets[x].members && |t.sets[x].members| >= 2
                && Contested(t, open)[f] == t.sets[x].members
  {
    var last := open[|open| - 1];
    if f in t.sets[last].members && |t.sets[last].members| >= 2 {
      assert last in open;
    } else {
      ContestedSound(t, open[..|open| - 1], f);
    }
  }

  // In a ledger that keeps its invariant, an active contested fact comes first
  // in its pair and its rival waits, never superseded.
  lemma RivalWaits(t: Tables, s: Scope, open: seq<SetId>, f: FactId, m: FactId)
    requires Inv(t) && OpenSets(t, s, open)
    requires f in Contested(t, open) && f in t.facts && t.facts[f].status == Active && m in Contested(t, open)[f]
             && m != f
    ensures m in t.facts && t.facts[m].scope == s && t.facts[m].origin != Untrusted
    ensures t.facts[m].status != Active && t.facts[m].status != Superseded
    ensures Contested(t, open)[f] == [f, m]
  {
    ContestedSound(t, open, f);
    var x :| x in open && f in t.sets[x].members && |t.sets[x].members| >= 2
        && Contested(t, open)[f] == t.sets[x].members;
    assert SetOk(t, t.sets[x]);
    assert Waiting(t, t.sets[x].members[1]);
  }

  ghost predicate Servable(t: Tables, s: Scope, x: FactId) {
    && x in t.facts && t.facts[x].scope == s && t.facts[x].origin != Untrusted
    && (t.facts[x].status == Active || t.facts[x].status == Candidate || t.facts[x].status == Disputed)
  }

  predicate SideBySide(t: Tables, open: seq<SetId>, pool: seq<Entry>, f: FactId, x: FactId)
    requires forall y :: y in open ==> y in t.sets
  {
    FactEntry(f) in pool && f in Contested(t, open) && Contested(t, open)[f] == [f, x]
  }

  // A packet over an adjudicated ledger serves no fact twice, and only active
  // facts of the scope or the waiting rival of one: nothing untrusted,
  // superseded, disabled or deleted.
  lemma PacketsServeTheLedger(t: Tables, s: Scope, open: seq<SetId>, rows: set<FactId>, pool: seq<Entry>, budget: nat,
      size: Line -> nat)
    requires Inv(t) && OpenSets(t, s, open) && Eligible(t, s, open, rows, pool)
    ensures var p := Pack(pool, ContextFor(t, open, rows, budget, size));
            && DistinctFacts(p.facts)
            && (forall x :: x in p.packed ==> Servable(t, s, x))
            && (forall x :: x in p.packed && t.facts[x].status != Active ==>
                  exists f: FactId :: SideBySide(t, open, pool, f, x))
  {
    var c := ContextFor(t, open, rows, budget, size);
    forall f: FactId, m: FactId | FactEntry(f) in pool && f in c.conflicts && m in c.conflicts[f] && m != f
      ensures FactEntry(m) !in pool
    {
      RivalWaits(t, s, open, f, m);
    }
    assert NoRivals(pool, c);
    NoFactTwice(pool, c);
    var p := Pack(pool, c);
    forall x | x in p.packed
      ensures Servable(t, s, x)
      ensures t.facts[x].status != Active ==> exists f: FactId :: SideBySide(t, open, pool, f, x)
    {
      if FactEntry(x) in pool {
        assert RowOk(t.facts[x]);
      } else {
        assert Rival(x, pool, c);
        var f :| RivalOf(x, f, pool, c);
        RivalWaits(t, s, open, f, x);
        assert SideBySide(t, open, pool, f, x);
      }
    }
  }

  // The rival of a contested fact is always hydrated: unless the fact itself was
  // dropped for the budget, its rival is served beside it or the trace says why not.
  lemma RivalsAreAnswered(t: Tables, s: Scope, open: seq<SetId>, rows: set<FactId>, pool: seq<Entry>, budget: nat,
                          size: Line -> nat,
                          f: FactId, m: FactId)
    requires Inv(t) && OpenSets(t, s, open) && Eligible(t, s, open, rows, pool)
    requires FactEntry(f) in pool && f in Contested(t, open) && m in Contested(t, open)[f]
    ensures var p := Pack(pool, ContextFor(t, open, rows, budget, size));
            Traced(p, FactEntry(f)) && (Dropped(p, f) || m == f || m in p.packed || Traced(p, FactEntry(m)))
  {
    var c := ContextFor(t, open, rows, budget, size);
    EveryEntryAnswered(pool, c);
    assert Answered(Pack(pool, c), FactEntry(f), c);
    if m != f {
      RivalWaits(t, s, open, f, m);
      assert TouchedWith(c.conflicts, rows, f, m);
    }
  }
}
