// The invariant the ledger keeps and its preservation by every outcome of a
// claim (app/consolidator/__init__.py:1012-1449).
module Invariants {
  import opened Rows
  import opened Lifecycle
  import opened Matching
  import opened Adjudication

  // Every counted reinforcement has its own source event; untrusted content is
  // never in service.
  ghost predicate RowOk(f: Fact) {
    && |f.sources| == f.reinforcements + 1
    && Distinct(f.sources)
    && (f.origin == Untrusted ==> f.status != Active)
  }

  ghost predicate RowsOk(t: Tables) {
    forall i {:trigger RowOk(t.facts[i])} :: i in t.facts ==> RowOk(t.facts[i])
  }

  // At most one active state-form fact per identity.
  ghost predicate OneActive(t: Tables) {
    forall i, j {:trigger Clash(t.facts[i], t.facts[j])} ::
      i in t.facts && j in t.facts && Clash(t.facts[i], t.facts[j]) ==> i == j
  }

  predicate Replaces(t: Tables, i: FactId, o: FactId) {
    i in t.facts && t.facts[i].supersedes == Some(o)
  }

  // A supersession link stays in one scope, never lowers the rank, and closes
  // the old interval at the new start without turning it negative.
  ghost predicate LinkOk(old_: Fact, new_: Fact) {
    && old_.scope == new_.scope
    && old_.status != Active && old_.status != Candidate
    && old_.validTo == Some(Max(old_.validFrom, new_.validFrom))
    && Rank(old_.origin) <= Rank(new_.origin)
  }

  ghost predicate Replaced(t: Tables, o: FactId) {
    exists i :: Replaces(t, i, o)
  }

  // Links point to older rows, no row has two successors, and a superseded row
  // has one.
  ghost predicate ChainsOk(t: Tables) {
    && (forall i, o :: Replaces(t, i, o) ==> o in t.facts && o < i && LinkOk(t.facts[o], t.facts[i]))
    && (forall i, j, o :: Replaces(t, i, o) && Replaces(t, j, o) ==> i == j)
    && (forall o {:trigger Replaced(t, o)} :: o in t.facts && t.facts[o].status == Superseded ==> Replaced(t, o))
  }

  ghost predicate Waiting(t: Tables, id: FactId) {
    id in t.facts && t.facts[id].status != Active && !Replaced(t, id)
  }

  ghost predicate MembersIn(t: Tables, c: ConflictSet) {
    forall m :: m in c.members ==> m in t.facts && t.facts[m].scope == c.scope
  }

  // An open contradiction is a pair whose second member never served; an open
  // quarantine is one held fact; a dissolved set is three event-form facts.
  ghost predicate SetOk(t: Tables, c: ConflictSet) {
    && MembersIn(t, c)
    && Distinct(c.members)
    && match c.status
       case ReclassifiedEvent => |c.members| == 3 && forall m :: m in c.members ==> t.facts[m].form == EventForm
       case Open =>
         match c.kind
         case Quarantine => |c.members| == 1 && Waiting(t, c.members[0])
         case Contradiction =>
           && |c.members| == 2 && Waiting(t, c.members[1])
           && forall m :: m in c.members ==> t.facts[m].form == StateForm && t.facts[m].origin != Untrusted
  }

  ghost predicate SharedMember(t: Tables, a: SetId, b: SetId, m: FactId) {
    && a in t.sets && b in t.sets
    && t.sets[a].status == Open && t.sets[b].status == Open
    && m in t.sets[a].members && m in t.sets[b].members
  }

  ghost predicate SetsOk(t: Tables) {
    && (forall s {:trigger SetOk(t, t.sets[s])} :: s in t.sets ==> SetOk(t, t.sets[s]))
    && (forall a, b, m :: SharedMember(t, a, b, m) ==> a == b)
  }

  ghost predicate InOpenSet(t: Tables, id: FactId) {
    exists s :: s in t.sets && t.sets[s].status == Open && id in t.sets[s].members
  }

  // A candidate row is always waiting in some open set: no orphan is left behind.
  ghost predicate NoOrphans(t: Tables) {
    forall i {:trigger InOpenSet(t, i)} :: i in t.facts && t.facts[i].status == Candidate ==> InOpenSet(t, i)
  }

  ghost predicate Inv(t: Tables) {
    Numbered(t) && RowsOk(t) && OneActive(t) && ChainsOk(t) && SetsOk(t) && NoOrphans(t)
  }

  // Frames: what a change must leave alone for each part of the invariant.

  // The columns no outcome ever rewrites.
  ghost predicate SameBirth(f: Fact, g: Fact) {
    f.scope == g.scope && f.origin == g.origin && f.validFrom == g.validFrom && f.pred == g.pred
    && f.qualifiers == g.qualifiers && f.value == g.value && f.recordedFrom == g.recordedFrom
  }

  ghost predicate RowsKept(t: Tables, t': Tables) {
    forall i :: i in t.facts ==> i in t'.facts && SameBirth(t.facts[i], t'.facts[i])
  }

  ghost predicate SameLinks(t: Tables, t': Tables) {
    forall i, o :: Replaces(t', i, o) <==> Replaces(t, i, o)
  }

  lemma ChainsFramed(t: Tables, t': Tables)
    requires ChainsOk(t) && RowsKept(t, t') && SameLinks(t, t')
    requires forall o :: o in t.facts && Replaced(t, o) ==>
               t'.facts[o].validTo == t.facts[o].validTo && t'.facts[o].status != Active
                   && t'.facts[o].status != Candidate
    requires forall o :: o in t'.facts && t'.facts[o].status == Superseded ==>
             o in t.facts && t.facts[o].status == Superseded
    ensures ChainsOk(t')
    ensures forall o :: Replaced(t', o) <==> Replaced(t, o)
  {
    forall o ensures Replaced(t', o) <==> Replaced(t, o) {
      if Replaced(t, o) {
        var i :| Replaces(t, i, o);
        assert Replaces(t', i, o);
      }
    }
  }

  // A set stays well-formed while its members keep their form and its waiting
  // member keeps waiting.
  lemma SetFramed(t: Tables, t': Tables, c: ConflictSet)
    requires SetOk(t, c) && RowsKept(t, t')
    requires forall m :: m in c.members ==> t'.facts[m].form == t.facts[m].form
    requires forall m :: m in c.members && Waiting(t, m) ==> Waiting(t', m)
    ensures SetOk(t', c)
  {
  }

  lemma SetsFramed(t: Tables, t': Tables)
    requires SetsOk(t) && RowsKept(t, t') && t'.sets == t.sets
    requires forall m :: m in t.facts ==> t'.facts[m].form == t.facts[m].form
    requires forall m :: Waiting(t, m) ==> Waiting(t', m)
    ensures SetsOk(t')
  {
    forall s | s in t'.sets ensures SetOk(t', t'.sets[s]) {
      SetFramed(t, t', t.sets[s]);
    }
    assert forall a, b, m :: SharedMember(t', a, b, m) ==> SharedMember(t, a, b, m);
  }

  lemma OrphansFramed(t: Tables, t': Tables)
    requires NoOrphans(t)
    requires forall s :: s in t.sets && t.sets[s].status == Open ==> s in t'.sets && t'.sets[s] == t.sets[s]
    requires forall i :: i in t'.facts && t'.facts[i].status == Candidate ==>
               i in t.facts && t.facts[i].status == Candidate
    ensures NoOrphans(t')
  {
    forall i | i in t'.facts && t'.facts[i].status == Candidate ensures InOpenSet(t', i) {
      if InOpenSet(t, i) {
        var s :| s in t.sets && t.sets[s].status == Open && i in t.sets[s].members;
        assert t'.sets[s] == t.sets[s];
      }
    }
  }

  // The index holds after a change that only takes entries out or adds `id`
  // where no other row occupies the entry.
  lemma IndexFramed(t: Tables, t': Tables, id: FactId)
    requires OneActive(t) && RowsKept(t, t')
    requires forall i :: i in t'.facts && i != id && Indexed(t'.facts[i]) ==> i in t.facts && Indexed(t.facts[i])
    requires id in t'.facts && Indexed(t'.facts[id]) ==> !Occupied(t', id, t'.facts[id])
    ensures OneActive(t')
  {
    forall i, j | i in t'.facts && j in t'.facts && Clash(t'.facts[i], t'.facts[j]) ensures i == j {
      if i != id && j != id {
        assert Clash(t.facts[i], t.facts[j]);
      } else if i == id {
        assert Clash(t'.facts[j], t'.facts[i]);
      }
    }
  }

  // One row rewritten or added, with nothing else changed.
  ghost predicate OneRow(t: Tables, t': Tables, id: FactId, g: Fact) {
    && t' == t.(facts := t.facts[id := g], nextFact := t'.nextFact) && t.nextFact <= t'.nextFact && id < t'.nextFact
    && (id !in t.facts ==> g.supersedes.None? && g.status != Candidate && g.status != Superseded)
    && (id in t.facts ==> Rewritten(t.facts[id], g))
  }

  // A row may only leave service, or stay in it; its link and interval stay.
  ghost predicate Rewritten(f: Fact, g: Fact) {
    && SameBirth(f, g) && f.form == g.form && f.supersedes == g.supersedes && f.validTo == g.validTo
    && (f.status != g.status ==> g.status != Active && g.status != Candidate && g.status != Superseded)
  }

  lemma OneRowLinks(t: Tables, t': Tables, id: FactId, g: Fact)
    requires ChainsOk(t) && OneRow(t, t', id, g)
    ensures ChainsOk(t') && RowsKept(t, t') && forall o :: Replaced(t', o) <==> Replaced(t, o)
  {
    assert SameLinks(t, t');
    ChainsFramed(t, t');
  }

  lemma OneRowSets(t: Tables, t': Tables, id: FactId, g: Fact)
    requires SetsOk(t) && NoOrphans(t) && OneRow(t, t', id, g) && forall o :: Replaced(t', o) <==> Replaced(t, o)
    ensures SetsOk(t') && NoOrphans(t')
  {
    OrphansFramed(t, t');
    SetsFramed(t, t');
  }

  lemma OneRowKeeps(t: Tables, t': Tables, id: FactId, g: Fact)
    requires Inv(t) && OneRow(t, t', id, g) && RowOk(g) && !Occupied(t', id, g)
    ensures Inv(t')
  {
    OneRowLinks(t, t', id, g);
    OneRowSets(t, t', id, g);
    IndexFramed(t, t', id);
    assert RowsOk(t') by {
      assert forall i :: i in t.facts ==> RowOk(t.facts[i]);
    }
  }

  // An active row that hears a new event counts it; the freshness clock moves only
  // for an event of at least the row's rank, and only forwards. Anything else
  // changes nothing.
  lemma ReassertKeeps(t: Tables, id: FactId, e: SourceEvent)
    requires Inv(t) && id in t.facts
    ensures Inv(Reassert(t, id, e).tables)
    ensures var v, f := Reassert(t, id, e), t.facts[id];
            && (v.outcome.Reinforced? <==> f.status == Active && e.id !in f.sources)
            && (!v.outcome.Reinforced? ==> v.tables == t)
            && id in v.tables.facts
            && var g := v.tables.facts[id];
               (g.lastReinforced != f.lastReinforced <==> v.outcome.Reinforced? && MovesClock(f, e))
               && (MovesClock(f, e) && v.outcome.Reinforced? ==> g.lastReinforced == Some(e.occurredAt))
  {
    var f, t' := t.facts[id], Reassert(t, id, e).tables;
    if t' != t {
      assert RowOk(f);
      var g := Strengthen(f, e);
      assert RowOk(g);
      UnindexedOrSame(t, t', id, g);
      OneRowKeeps(t, t', id, g);
    }
  }

  predicate MovesClock(f: Fact, e: SourceEvent) {
    Rank(e.origin) >= Rank(f.origin) && (f.lastReinforced.None? || e.occurredAt > f.lastReinforced.value)
  }

  lemma UnindexedOrSame(t: Tables, t': Tables, id: FactId, g: Fact)
    requires OneActive(t) && id in t.facts && t'.facts == t.facts[id := g]
    requires SameBirth(t.facts[id], g) && g.form == t.facts[id].form
             && (g.status == t.facts[id].status || g.status != Active)
    ensures !Occupied(t', id, g)
  {
    forall other | other in t'.facts && other != id ensures !Clash(t'.facts[other], g) {
      assert Clash(t.facts[other], t.facts[id]) ==> other == id;
    }
  }

  // Taking a row out of service, as feedback and forget do.
  ghost predicate Withdrawn(s: Status) {
    s == Disputed || s == Disabled || s == Deleted
  }

  lemma WithdrawKeeps(t: Tables, id: FactId, to: Status)
    requires Inv(t) && id in t.facts && Withdrawn(to)
    ensures Inv(WithFact(t, id, Moved(t.facts[id], to, t.now)))
  {
    var g := Moved(t.facts[id], to, t.now);
    var t' := WithFact(t, id, g);
    assert RowOk(t.facts[id]);
    UnindexedOrSame(t, t', id, g);
    OneRowKeeps(t, t', id, g);
  }

  // A new row

  ghost predicate Fresh(draft: Fact) {
    draft.status == Candidate && draft.supersedes.None? && |draft.sources| == 1 && draft.reinforcements == 0
  }

  // Inserting a candidate breaks nothing but NoOrphans, which a set repairs.
  ghost predicate InvBut(t: Tables, id: FactId) {
    && Numbered(t) && RowsOk(t) && OneActive(t) && ChainsOk(t) && SetsOk(t) && Waiting(t, id)
    && (forall s :: s in t.sets ==> id !in t.sets[s].members)
    && (forall i {:trigger InOpenSet(t, i)} :: i in t.facts && t.facts[i].status == Candidate && i != id ==>
       InOpenSet(t, i))
  }

  lemma InsertLinks(t: Tables, draft: Fact)
    requires Numbered(t) && ChainsOk(t) && Fresh(draft)
    ensures var t' := Insert(t, draft);
            && RowsKept(t, t') && SameLinks(t, t') && ChainsOk(t') && Waiting(t', t.nextFact)
            && forall o :: Replaced(t', o) <==> Replaced(t, o)
  {
    var t' := Insert(t, draft);
    assert SameLinks(t, t');
    assert !Replaced(t, t.nextFact);
    ChainsFramed(t, t');
  }

  lemma InsertSets(t: Tables, draft: Fact)
    requires Numbered(t) && SetsOk(t) && forall o :: Replaced(Insert(t, draft), o) <==> Replaced(t, o)
    ensures SetsOk(Insert(t, draft)) && forall s :: s in t.sets ==> t.nextFact !in t.sets[s].members
  {
    SetsFramed(t, Insert(t, draft));
    assert forall s :: s in t.sets ==> SetOk(t, t.sets[s]);
  }

  lemma InsertKeeps(t: Tables, draft: Fact)
    requires Inv(t) && Fresh(draft)
    ensures InvBut(Insert(t, draft), t.nextFact)
    ensures RowsKept(t, Insert(t, draft)) && SameLinks(t, Insert(t, draft))
  {
    var t' := Insert(t, draft);
    InsertLinks(t, draft);
    InsertSets(t, draft);
    IndexFramed(t, t', t.nextFact);
    assert RowsOk(t') by {
      assert RowOk(draft);
      assert forall i :: i in t.facts ==> RowOk(t.facts[i]);
    }
    forall i | i in t'.facts && t'.facts[i].status == Candidate && i != t.nextFact ensures InOpenSet(t', i) {
      assert InOpenSet(t, i);
    }
  }

  lemma NewSetKeeps(t: Tables, id: FactId, c: ConflictSet)
    requires InvBut(t, id)
    requires id in c.members && c.status == Open && SetOk(t, c)
    requires forall m :: m in c.members ==> !InOpenSet(t, m)
    ensures Inv(InsertSet(t, c))
  {
    var t' := InsertSet(t, c);
    assert SameLinks(t, t');
    ChainsFramed(t, t');
    NewSetSets(t, c);
    forall i, j | i in t'.facts && j in t'.facts && Clash(t'.facts[i], t'.facts[j]) ensures i == j {
      assert Clash(t.facts[i], t.facts[j]);
    }
    NewSetCandidates(t, id, c);
  }

  lemma NewSetSets(t: Tables, c: ConflictSet)
    requires SetsOk(t) && SetOk(t, c) && c.status == Open
    requires forall s :: s in t.sets ==> s < t.nextSet
    requires forall m :: m in c.members ==> !InOpenSet(t, m)
    ensures SetsOk(InsertSet(t, c))
  {
    var t' := InsertSet(t, c);
    assert SameLinks(t, t');
    assert forall o :: Replaced(t', o) ==> Replaced(t, o) by {
      forall o | Replaced(t', o) ensures Replaced(t, o) {
        var i :| Replaces(t', i, o);
        assert Replaces(t, i, o);
      }
    }
    forall s | s in t'.sets ensures SetOk(t', t'.sets[s]) {
      SetFramed(t, t', t'.sets[s]);
    }
    forall r, m | r in t.sets && t.sets[r].status == Open && m in t.sets[r].members ensures m !in c.members {
      assert InOpenSet(t, m);
    }
    forall a, b, m | SharedMember(t', a, b, m) ensures a == b {
      if a != t.nextSet && b != t.nextSet {
        assert SharedMember(t, a, b, m);
      }
    }
  }

  lemma NewSetCandidates(t: Tables, id: FactId, c: ConflictSet)
    requires Numbered(t) && id in c.members && c.status == Open
    requires forall i {:trigger InOpenSet(t, i)} :: i in t.facts && t.facts[i].status == Candidate && i != id ==>
             InOpenSet(t, i)
    ensures NoOrphans(InsertSet(t, c))
  {
    var t' := InsertSet(t, c);
    forall i | i in t'.facts && t'.facts[i].status == Candidate ensures InOpenSet(t', i) {
      if i == id {
        assert t'.sets[t.nextSet] == c;
      } else {
        assert InOpenSet(t, i);
        var s :| s in t.sets && t.sets[s].status == Open && i in t.sets[s].members;
        assert t'.sets[s] == t.sets[s];
      }
    }
  }

  lemma HoldKeeps(t: Tables, draft: Fact)
    requires Inv(t) && Fresh(draft)
    ensures var v := Hold(t, draft);
            && Inv(v.tables) && v.outcome == Held(t.nextFact, t.nextSet)
            && InOpenSet(v.tables, t.nextFact) && t.nextFact in v.tables.facts
               && v.tables.facts[t.nextFact].status == Candidate
            && forall i :: i in t.facts ==> i in v.tables.facts && v.tables.facts[i] == t.facts[i]
  {
    InsertKeeps(t, draft);
    NewSetKeeps(Insert(t, draft), t.nextFact, ConflictSet(draft.scope, [t.nextFact], Open, Quarantine));
  }

  // A row entering service directly.
  lemma ActivateKeeps(t: Tables, draft: Fact, outcome: Outcome)
    requires Inv(t) && Fresh(draft) && draft.origin != Untrusted
    ensures Inv(Activate(t, draft, outcome).tables)
  {
    var t' := Activate(t, draft, outcome).tables;
    if t' != t {
      OneRowKeeps(t, t', t.nextFact, Moved(draft, Active, t.now));
    }
  }

  // Supersession

  // The two rows a supersession writes, and the state before the new one enters
  // service.
  function Closed(f: Fact, start: int, now: int): Fact {
    Moved(f, Superseded, now).(validTo := Some(Max(f.validFrom, start)))
  }

  function Successor(draft: Fact, f: Fact, old_: FactId): Fact {
    draft.(value := CarryForward(f.value, draft.value), supersedes := Some(old_))
  }

  function HandedOver(t: Tables, draft: Fact, old_: FactId): Tables
    requires old_ in t.facts
  {
    var f := t.facts[old_];
    WithFact(Insert(t, Successor(draft, f, old_)), old_, Closed(f, draft.validFrom, t.now))
  }

  lemma ReplaceIs(t: Tables, draft: Fact, old_: FactId)
    requires Numbered(t) && draft.status == Candidate && old_ in t.facts
    ensures Replace(t, draft, old_) ==
            if Superseded !in AllowedTransitions(t.facts[old_].status)
            then Verdict(t, Aborted(IllegalTransition(t.facts[old_].status, Superseded)))
            else match Transition(HandedOver(t, draft, old_), t.nextFact, Active)
                 case Refused(why) => Verdict(t, Aborted(why))
                 case Flushed(t4) => Verdict(t4, Succeeded(old_, t.nextFact))
  {
    var id, f := t.nextFact, t.facts[old_];
    var t0 := Insert(t, draft.(value := CarryForward(f.value, draft.value)));
    if Superseded in AllowedTransitions(f.status) {
      NeedsNoEntry(t0, old_, Superseded);
      var t1 := WithFact(t0, old_, Moved(f, Superseded, t.now));
      var t2 := WithFact(t1, old_, Closed(f, draft.validFrom, t.now));
      assert WithFact(t2, id, t2.facts[id].(supersedes := Some(old_))) == HandedOver(t, draft, old_);
    }
  }

  // The state a supersession leaves, spelled out.
  lemma ReplaceState(t: Tables, draft: Fact, old_: FactId)
    requires Numbered(t) && draft.status == Candidate && old_ in t.facts
    requires Replace(t, draft, old_).outcome.Succeeded?
    ensures var v, id, f := Replace(t, draft, old_), t.nextFact, t.facts[old_];
            && v.outcome == Succeeded(old_, id)
            && v.tables.sets == t.sets && v.tables.nextSet == t.nextSet && v.tables.nextFact == id + 1
            && v.tables.aliases == t.aliases && v.tables.now == t.now
            && v.tables.facts.Keys == t.facts.Keys + {id}
            && (forall i :: i in t.facts && i != old_ ==> v.tables.facts[i] == t.facts[i])
            && v.tables.facts[old_] == Moved(f, Superseded, t.now).(validTo := Some(Max(f.validFrom, draft.validFrom)))
            && v.tables.facts[id]
               == Moved(draft.(value := CarryForward(f.value, draft.value), supersedes := Some(old_)), Active, t.now)
            && !Occupied(v.tables, id, v.tables.facts[id])
  {
    ReplaceIs(t, draft, old_);
    var t3 := HandedOver(t, draft, old_);
    SameOccupied(t3, t.nextFact, Moved(t3.facts[t.nextFact], Active, t.now));
  }

  // What a row itself holds takes no entry from it.
  lemma SameOccupied(t: Tables, id: FactId, f: Fact)
    ensures Occupied(WithFact(t, id, f), id, f) <==> Occupied(t, id, f)
  {
    if other :| other in t.facts && other != id && Clash(t.facts[other], f) {
      assert Clash(WithFact(t, id, f).facts[other], f);
    }
  }

  lemma ReplaceKeeps(t: Tables, draft: Fact, old_: FactId)
    requires Inv(t) && Fresh(draft) && draft.origin != Untrusted && old_ in t.facts && t.facts[old_].status == Active
    requires t.facts[old_].scope == draft.scope && Rank(t.facts[old_].origin) <= Rank(draft.origin)
    ensures Inv(Replace(t, draft, old_).tables)
  {
    var v := Replace(t, draft, old_);
    if v.outcome.Succeeded? {
      ReplaceState(t, draft, old_);
      ReplacedKeeps(t, v.tables, draft, old_);
    }
  }

  lemma ReplacedKeeps(t: Tables, t': Tables, draft: Fact, old_: FactId)
    requires Inv(t) && Fresh(draft) && draft.origin != Untrusted && old_ in t.facts && t.facts[old_].status == Active
    requires t.facts[old_].scope == draft.scope && Rank(t.facts[old_].origin) <= Rank(draft.origin)
    requires t'.sets == t.sets && t'.nextSet == t.nextSet && t'.nextFact == t.nextFact + 1
    requires t'.facts.Keys == t.facts.Keys + {t.nextFact}
    requires forall i :: i in t.facts && i != old_ ==> t'.facts[i] == t.facts[i]
    requires t'.facts[old_]
             == Moved(t.facts[old_], Superseded, t.now).(validTo := Some(Max(t.facts[old_].validFrom, draft.validFrom)))
    requires exists value ::
             t'.facts[t.nextFact] == Moved(draft.(value := value, supersedes := Some(old_)), Active, t.now)
    requires !Occupied(t', t.nextFact, t'.facts[t.nextFact])
    ensures Inv(t')
  {
    var id := t.nextFact;
    assert Numbered(t');
    assert RowsOk(t') by {
      assert RowOk(t.facts[old_]) && RowOk(t'.facts[id]);
      assert forall i :: i in t.facts ==> RowOk(t.facts[i]);
    }
    assert NoOrphans(t') by { OrphansFramed(t, t'); }
    assert OneActive(t') by { IndexFramed(t, t', id); }
    ReplaceChains(t, t', old_, id);
    assert SetsOk(t') by { SetsFramed(t, t'); }
  }

  lemma ReplaceChains(t: Tables, t': Tables, old_: FactId, id: FactId)
    requires Numbered(t) && ChainsOk(t) && RowsKept(t, t')
    requires old_ in t.facts && t.facts[old_].status == Active && id == t.nextFact
             && t'.facts.Keys == t.facts.Keys + {id}
    requires forall i :: i in t.facts && i != old_ ==> t'.facts[i] == t.facts[i]
    requires t'.facts[old_].supersedes == t.facts[old_].supersedes && t'.facts[old_].status == Superseded
    requires t'.facts[id].supersedes == Some(old_) && t'.facts[id].status == Active
             && LinkOk(t'.facts[old_], t'.facts[id])
    ensures ChainsOk(t') && forall m :: Waiting(t, m) ==> Waiting(t', m)
  {
    assert forall i, o :: Replaces(t', i, o) <==> Replaces(t, i, o) || (i == id && o == old_);
    assert !Replaced(t, old_);
    forall o | o in t'.facts && t'.facts[o].status == Superseded ensures Replaced(t', o) {
      if o != old_ {
        assert Replaced(t, o);
        var i :| Replaces(t, i, o);
        assert Replaces(t', i, o);
      } else {
        assert Replaces(t', id, old_);
      }
    }
    forall m | Replaced(t', m) ensures Replaced(t, m) || m == old_ {
      var i :| Replaces(t', i, m);
      assert Replaces(t, i, m) || m == old_;
    }
  }

  // Contradiction

  lemma OpenSetFound(t: Tables, scope: Scope, id: FactId)
    requires Numbered(t)
    ensures var r := OpenSetOf(t, scope, id);
            && (r.Some? ==> r.value in t.sets && OpenWith(t.sets[r.value], scope, id))
            && (r.None? ==> forall s :: s in t.sets ==> !OpenWith(t.sets[s], scope, id))
  {
    OpenSetBelowFinds(t, scope, id, t.nextSet);
  }

  // The open set of an active fact is a contradiction with that fact first, so
  // a third value always finds it full.
  lemma OpenSetOfActive(t: Tables, c: ConflictSet, id: FactId)
    requires SetOk(t, c) && c.status == Open && id in c.members && t.facts[id].status == Active
    ensures c.kind == Contradiction && |c.members| == 2 && c.members[0] == id
    ensures OtherMember(c.members, id) == Some(c.members[1]) && Waiting(t, c.members[1])
  {
    if c.kind == Contradiction {
      assert c.members == [c.members[0], c.members[1]];
      assert OtherMember(c.members[1..], id) == Some(c.members[1]);
    }
  }

  lemma ContestKeeps(t: Tables, draft: Fact, rival: FactId)
    requires Inv(t) && Fresh(draft) && draft.origin != Untrusted && draft.form == StateForm
    requires rival in t.facts && t.facts[rival].status == Active && t.facts[rival].form == StateForm
    requires t.facts[rival].scope == draft.scope && forall s :: s in t.sets ==> !OpenWith(t.sets[s], draft.scope, rival)
    ensures Inv(InsertSet(Insert(t, draft), ConflictSet(draft.scope, [rival, t.nextFact], Open, Contradiction)))
  {
    InsertKeeps(t, draft);
    var t1 := Insert(t, draft);
    assert RowOk(t.facts[rival]);
    forall s | s in t.sets && rival in t.sets[s].members ensures t.sets[s].scope == draft.scope {
      assert SetOk(t, t.sets[s]);
    }
    assert !InOpenSet(t1, rival);
    NewSetKeeps(t1, t.nextFact, ConflictSet(draft.scope, [rival, t.nextFact], Open, Contradiction));
  }

  lemma ContradictKeeps(t: Tables, draft: Fact, rival: FactId)
    requires Inv(t) && Fresh(draft) && draft.origin != Untrusted && draft.form == StateForm
    requires rival in t.facts && t.facts[rival].status == Active && t.facts[rival].form == StateForm
    requires t.facts[rival].scope == draft.scope
    ensures Inv(Contradict(t, draft, rival).tables)
    ensures !Contradict(t, draft, rival).outcome.Appended?
  {
    OpenSetFound(t, draft.scope, rival);
    match OpenSetOf(t, draft.scope, rival)
    case None => ContestKeeps(t, draft, rival);
    case Some(s) =>
      OpenSetOfActive(t, t.sets[s], rival);
      OverflowKeeps(t, draft, rival, s);
  }

  // The rows of the three members after an overflow.
  function Overflown(t: Tables, draft: Fact, rival: FactId, other: FactId): map<FactId, Fact>
    requires rival in t.facts && other in t.facts
  {
    t.facts[t.nextFact := Moved(AsEvent(draft, t.now), Active, t.now)]
           [rival := AsEvent(t.facts[rival], t.now)]
           [other := Moved(AsEvent(t.facts[other], t.now), Active, t.now)]
  }

  lemma OverflowIs(t: Tables, draft: Fact, rival: FactId, other: FactId, s: SetId)
    requires Numbered(t) && draft.status == Candidate && rival in t.facts && other in t.facts && rival != other
    requires s in t.sets && t.sets[s].members == [rival, other] && t.facts[other].status != Active
    ensures Overflow(t, draft, rival, s) ==
            if Active !in AllowedTransitions(t.facts[other].status)
            then Verdict(t, Aborted(IllegalTransition(t.facts[other].status, Active)))
            else
              var c := t.sets[s].(members := [rival, other, t.nextFact], status := ReclassifiedEvent);
              Verdict(t.(facts := Overflown(t, draft, rival, other), nextFact := t.nextFact + 1,
                  sets := t.sets[s := c]),
                      Overflowed(t.nextFact, rival, other, s))
  {
    var id := t.nextFact;
    PairOther([rival, other]);
    var t1 := WithFact(Insert(t, AsEvent(draft, t.now)), rival, AsEvent(t.facts[rival], t.now));
    NeedsNoEntry(t1, id, Active);
    var t2 := WithFact(t1, id, Moved(t1.facts[id], Active, t.now));
    var t3 := WithFact(t2, other, AsEvent(t.facts[other], t.now));
    NeedsNoEntry(t3, other, Active);
    var t4 := WithFact(t3, other, Moved(t3.facts[other], Active, t.now));
    assert t4.facts == Overflown(t, draft, rival, other);
    assert [rival, other] + [id] == [rival, other, id];
  }

  // The state an overflow leaves, spelled out.
  lemma OverflowState(t: Tables, draft: Fact, rival: FactId, s: SetId)
    requires Numbered(t) && draft.status == Candidate
    requires rival in t.facts && s in t.sets && Overflow(t, draft, rival, s).outcome.Overflowed?
    requires |t.sets[s].members| == 2 && t.sets[s].members[0] == rival
    requires t.sets[s].members[1] != rival && t.sets[s].members[1] in t.facts
             && t.facts[t.sets[s].members[1]].status != Active
    ensures var v, other, id := Overflow(t, draft, rival, s), t.sets[s].members[1], t.nextFact;
            && v.outcome == Overflowed(id, rival, other, s)
            && v.tables.nextFact == id + 1 && v.tables.nextSet == t.nextSet
            && v.tables.aliases == t.aliases && v.tables.now == t.now
            && t.sets[s].members + [id] == [rival, other, id]
            && v.tables.sets
               == t.sets[s := t.sets[s].(members := t.sets[s].members + [id], status := ReclassifiedEvent)]
            && v.tables.facts.Keys == t.facts.Keys + {id}
            && (forall i :: i in t.facts && i != rival && i != other ==> v.tables.facts[i] == t.facts[i])
            && v.tables.facts[rival] == AsEvent(t.facts[rival], t.now)
            && v.tables.facts[other] == Moved(AsEvent(t.facts[other], t.now), Active, t.now)
            && v.tables.facts[id] == Moved(AsEvent(draft, t.now), Active, t.now)
            && Active in AllowedTransitions(t.facts[other].status)
  {
    var other := t.sets[s].members[1];
    assert t.sets[s].members == [rival, other];
    OverflowIs(t, draft, rival, other, s);
  }

  lemma PairOther(members: seq<FactId>)
    requires |members| == 2 && members[0] != members[1]
    ensures OtherMember(members, members[0]) == Some(members[1]) && members == [members[0], members[1]]
  {
    assert OtherMember(members[1..], members[0]) == Some(members[1]);
  }

  // A dissolved set: three facts, all served, all in event form.
  ghost predicate AllServed(t: Tables, c: ConflictSet) {
    && c.status == ReclassifiedEvent && |c.members| == 3
    && forall m :: m in c.members ==> m in t.facts && t.facts[m].status == Active && t.facts[m].form == EventForm
  }

  lemma OverflowKeeps(t: Tables, draft: Fact, rival: FactId, s: SetId)
    requires Inv(t) && Fresh(draft) && draft.origin != Untrusted
    requires rival in t.facts && t.facts[rival].status == Active && t.facts[rival].scope == draft.scope
    requires s in t.sets && OpenWith(t.sets[s], draft.scope, rival)
    ensures Inv(Overflow(t, draft, rival, s).tables)
    ensures var v := Overflow(t, draft, rival, s);
            v.outcome.Overflowed? ==> s in v.tables.sets && AllServed(v.tables, v.tables.sets[s])
  {
    var v := Overflow(t, draft, rival, s);
    if v.outcome.Overflowed? {
      assert SetOk(t, t.sets[s]);
      OpenSetOfActive(t, t.sets[s], rival);
      OverflowState(t, draft, rival, s);
      OverflownKeeps(t, v.tables, draft, rival, t.sets[s].members[1], s);
      OverflownServes(t, v.tables, draft, rival, t.sets[s].members[1], s);
    }
  }

  lemma OverflownServes(t: Tables, t': Tables, draft: Fact, rival: FactId, other: FactId, s: SetId)
    requires rival in t.facts && other in t.facts && rival != other && t.facts[rival].status == Active
    requires t.nextFact !in t.facts && s in t.sets
    requires t'.sets == t.sets[s := t.sets[s].(members := [rival, other, t.nextFact], status := ReclassifiedEvent)]
    requires t'.facts.Keys == t.facts.Keys + {t.nextFact} && t'.facts[rival] == AsEvent(t.facts[rival], t.now)
    requires t'.facts[other] == Moved(AsEvent(t.facts[other], t.now), Active, t.now)
    requires t'.facts[t.nextFact] == Moved(AsEvent(draft, t.now), Active, t.now)
    ensures AllServed(t', t'.sets[s])
  {
  }

  lemma OverflownKeeps(t: Tables, t': Tables, draft: Fact, rival: FactId, other: FactId, s: SetId)
    requires Inv(t) && Fresh(draft) && draft.origin != Untrusted
    requires rival in t.facts && t.facts[rival].status == Active && t.facts[rival].scope == draft.scope
    requires s in t.sets && t.sets[s].status == Open && t.sets[s].scope == draft.scope
             && t.sets[s].members == [rival, other]
    requires Waiting(t, other) && t.facts[other].origin != Untrusted && rival != other
    requires t'.nextSet == t.nextSet && t'.nextFact == t.nextFact + 1 && t'.facts.Keys == t.facts.Keys + {t.nextFact}
    requires t'.sets == t.sets[s := t.sets[s].(members := [rival, other, t.nextFact], status := ReclassifiedEvent)]
    requires forall i :: i in t.facts && i != rival && i != other ==> t'.facts[i] == t.facts[i]
    requires t'.facts[rival] == AsEvent(t.facts[rival], t.now)
    requires t'.facts[other] == Moved(AsEvent(t.facts[other], t.now), Active, t.now)
    requires t'.facts[t.nextFact] == Moved(AsEvent(draft, t.now), Active, t.now)
    ensures Inv(t')
  {
    var id := t.nextFact;
    assert Numbered(t');
    assert NoOrphans(t') by { OverflowCandidates(t, t', rival, other, id, s); }
    assert OneActive(t') by { OverflowIndex(t, t', rival, other, id); }
    OverflowRows(t, t', draft, rival, other);
    OverflowLinks(t, t', rival, other, id);
    OverflowSets(t, t', rival, other, id, s);
  }

  lemma OverflowRows(t: Tables, t': Tables, draft: Fact, rival: FactId, other: FactId)
    requires RowsOk(t) && Fresh(draft) && draft.origin != Untrusted && t'.facts.Keys == t.facts.Keys + {t.nextFact}
    requires rival in t.facts && other in t.facts && t.facts[other].origin != Untrusted
    requires forall i :: i in t.facts && i != rival && i != other ==> t'.facts[i] == t.facts[i]
    requires t'.facts[rival] == AsEvent(t.facts[rival], t.now)
    requires t'.facts[other] == Moved(AsEvent(t.facts[other], t.now), Active, t.now)
    requires t'.facts[t.nextFact] == Moved(AsEvent(draft, t.now), Active, t.now)
    ensures RowsOk(t') && RowsKept(t, t')
  {
    assert RowOk(t.facts[rival]) && RowOk(t.facts[other]);
    assert RowOk(t'.facts[t.nextFact]) && RowOk(t'.facts[rival]) && RowOk(t'.facts[other]);
  }

  lemma OverflowIndex(t: Tables, t': Tables, rival: FactId, other: FactId, id: FactId)
    requires OneActive(t) && rival in t'.facts && other in t'.facts && id in t'.facts
    requires forall i :: i in t'.facts && i != rival && i != other && i != id ==>
             i in t.facts && t'.facts[i] == t.facts[i]
    requires t'.facts[rival].form == EventForm && t'.facts[other].form == EventForm && t'.facts[id].form == EventForm
    ensures OneActive(t')
  {
    forall i, j | i in t'.facts && j in t'.facts && Clash(t'.facts[i], t'.facts[j]) ensures i == j {
      assert Clash(t.facts[i], t.facts[j]);
    }
  }

  lemma OverflowLinks(t: Tables, t': Tables, rival: FactId, other: FactId, id: FactId)
    requires Numbered(t) && ChainsOk(t) && RowsKept(t, t') && id == t.nextFact && t'.facts.Keys == t.facts.Keys + {id}
    requires rival in t.facts && t.facts[rival].status == Active && Waiting(t, other)
    requires forall i :: i in t.facts && i != rival && i != other ==> t'.facts[i] == t.facts[i]
    requires t'.facts[id].supersedes.None? && t'.facts[rival].supersedes == t.facts[rival].supersedes
    requires t'.facts[other].supersedes == t.facts[other].supersedes
    requires t'.facts[rival].status == t'.facts[other].status == t'.facts[id].status == Active
    ensures ChainsOk(t') && SameLinks(t, t') && forall o :: Replaced(t', o) <==> Replaced(t, o)
  {
    assert SameLinks(t, t');
    assert !Replaced(t, rival);
    ChainsFramed(t, t');
  }

  lemma OverflowSets(t: Tables, t': Tables, rival: FactId, other: FactId, id: FactId, s: SetId)
    requires SetsOk(t) && RowsKept(t, t') && s in t.sets && t.sets[s].status == Open
             && t.sets[s].members == [rival, other]
    requires id in t'.facts && id !in t.facts && t'.facts[id].scope == t.sets[s].scope
    requires t'.sets == t.sets[s := t.sets[s].(members := [rival, other, id], status := ReclassifiedEvent)]
    requires forall m :: m in t.facts && m != rival && m != other ==> t'.facts[m] == t.facts[m]
    requires forall m :: m in t.facts && t.facts[m].form == EventForm ==> t'.facts[m].form == EventForm
    requires t'.facts[id].form == EventForm
             && forall m :: m in t.sets[s].members && m in t'.facts ==> t'.facts[m].form == EventForm
    requires forall o :: Replaced(t', o) <==> Replaced(t, o)
    ensures SetsOk(t')
  {
    assert SetOk(t, t.sets[s]);
    forall r | r in t'.sets ensures SetOk(t', t'.sets[r]) {
      assert SetOk(t, t.sets[r]);
      if r != s {
        if t.sets[r].status == Open {
          assert rival in t.sets[r].members ==> SharedMember(t, r, s, rival);
          assert other in t.sets[r].members ==> SharedMember(t, r, s, other);
          SetFramed(t, t', t.sets[r]);
        }
      }
    }
    assert forall a, b, m :: SharedMember(t', a, b, m) ==> SharedMember(t, a, b, m);
  }

  lemma OverflowCandidates(t: Tables, t': Tables, rival: FactId, other: FactId, id: FactId, s: SetId)
    requires NoOrphans(t) && s in t.sets && t.sets[s].members == [rival, other]
    requires forall r :: r in t.sets && r != s ==> r in t'.sets && t'.sets[r] == t.sets[r]
    requires forall i :: i in t'.facts && t'.facts[i].status == Candidate ==>
               i in t.facts && i != rival && i != other && t.facts[i].status == Candidate
    ensures NoOrphans(t')
  {
    forall i | i in t'.facts && t'.facts[i].status == Candidate ensures InOpenSet(t', i) {
      assert InOpenSet(t, i);
      var r :| r in t.sets && t.sets[r].status == Open && i in t.sets[r].members;
      assert t'.sets[r] == t.sets[r];
    }
  }

  lemma InvIgnoresAliases(t: Tables, t': Tables)
    requires Inv(t) && t'.facts == t.facts && t'.sets == t.sets && t'.nextFact == t.nextFact && t'.nextSet == t.nextSet
    ensures Inv(t')
  {
    assert Numbered(t');
    assert RowsOk(t') by {
      assert forall i :: i in t.facts ==> RowOk(t.facts[i]);
    }
    assert SameLinks(t, t');
    assert NoOrphans(t') by { OrphansFramed(t, t'); }
    assert OneActive(t') by {
      assert forall i, j :: i in t.facts && j in t.facts && Clash(t.facts[i], t.facts[j]) ==> i == j;
    }
    ChainsFramed(t, t');
    assert SetsOk(t') by { SetsFramed(t, t'); }
  }
}
