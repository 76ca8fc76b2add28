// What a subject merge does to the ledger (app/ledger/subjects.py:188-212): every
// fact and conflict set of one scope moves to another.
module Rescoping {
  import opened Rows
  import opened Matching
  import opened Invariants

  function Rescoped(s: Scope, from: Scope, to: Scope): Scope {
    if s == from then to else s
  }

  function RescopedLedger(t: Tables, from: Scope, to: Scope): Tables {
    t.(facts := map i | i in t.facts :: t.facts[i].(scope := Rescoped(t.facts[i].scope, from, to)),
       sets := map s | s in t.sets :: t.sets[s].(scope := Rescoped(t.sets[s].scope, from, to)))
  }

  // The update of subject_id on facts meets the partial unique index.
  predicate IndexRefuses(t: Tables) {
    exists i, j :: i in t.facts && j in t.facts && i != j && Clash(t.facts[i], t.facts[j])
  }

  lemma RescopedLinks(t: Tables, from: Scope, to: Scope)
    ensures var t' := RescopedLedger(t, from, to);
            && (forall i, o :: Replaces(t', i, o) <==> Replaces(t, i, o))
            && (forall o :: Replaced(t', o) <==> Replaced(t, o))
  {
    var t' := RescopedLedger(t, from, to);
    forall o ensures Replaced(t', o) <==> Replaced(t, o) {
      if Replaced(t, o) {
        var i :| Replaces(t, i, o);
        assert Replaces(t', i, o);
      }
      if Replaced(t', o) {
        var i :| Replaces(t', i, o);
        assert Replaces(t, i, o);
      }
    }
  }

  // Chains and sets move as one, so a move that the index lets through keeps the
  // whole invariant.
  lemma RescopeKeeps(t: Tables, from: Scope, to: Scope)
    requires Inv(t) && !IndexRefuses(RescopedLedger(t, from, to))
    ensures Inv(RescopedLedger(t, from, to))
  {
    var t' := RescopedLedger(t, from, to);
    assert Numbered(t');
    RescopedLinks(t, from, to);
    assert RowsOk(t') by { RescopedRows(t, from, to); }
    assert ChainsOk(t');
    RescopedSets(t, from, to);
    assert NoOrphans(t') by { RescopedCandidates(t, from, to); }
  }

  lemma RescopedRows(t: Tables, from: Scope, to: Scope)
    requires RowsOk(t)
    ensures RowsOk(RescopedLedger(t, from, to))
  {
    var t' := RescopedLedger(t, from, to);
    forall i | i in t'.facts ensures RowOk(t'.facts[i]) {
      assert RowOk(t.facts[i]);
    }
  }

  lemma RescopedSets(t: Tables, from: Scope, to: Scope)
    requires SetsOk(t)
    ensures SetsOk(RescopedLedger(t, from, to))
  {
    var t' := RescopedLedger(t, from, to);
    RescopedLinks(t, from, to);
    forall s | s in t'.sets ensures SetOk(t', t'.sets[s]) {
      assert SetOk(t, t.sets[s]);
      forall m | m in t.sets[s].members && Waiting(t, m) ensures Waiting(t', m) {
      }
    }
    forall a, b, m | SharedMember(t', a, b, m) ensures a == b {
      assert SharedMember(t, a, b, m);
    }
  }

  lemma RescopedCandidates(t: Tables, from: Scope, to: Scope)
    requires NoOrphans(t)
    ensures NoOrphans(RescopedLedger(t, from, to))
  {
    var t' := RescopedLedger(t, from, to);
    forall i | i in t'.facts && t'.facts[i].status == Candidate ensures InOpenSet(t', i) {
      assert InOpenSet(t, i);
      var s :| s in t.sets && t.sets[s].status == Open && i in t.sets[s].members;
      assert t'.sets[s].status == Open && i in t'.sets[s].members;
    }
  }
}
