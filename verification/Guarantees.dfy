// What a single claim may and may not do to facts that are already stored.
module Guarantees {
  import opened Rows
  import opened Lifecycle
  import opened Matching
  import opened Adjudication
  import opened Invariants
  import opened Verdicts

  // Rows only ever gain: identity, value, origin, start and link of a stored
  // fact are never rewritten, an event-form fact stays one, and the freshness
  // clock never runs backwards.
  ghost predicate Lasting(f: Fact, g: Fact) {
    && SameBirth(f, g) && f.supersedes == g.supersedes && (f.form == EventForm ==> g.form == EventForm)
    && (f.lastReinforced.Some? ==> g.lastReinforced.Some? && f.lastReinforced.value <= g.lastReinforced.value)
  }

  ghost predicate Grows(t: Tables, t': Tables) {
    && t.nextFact <= t'.nextFact
    && (forall i :: i in t.facts ==> i in t'.facts && Lasting(t.facts[i], t'.facts[i]))
    && (forall i :: i in t'.facts && i < t.nextFact ==> i in t.facts)
  }

  lemma ExplainedGrows(t: Tables, e: SourceEvent, v: Verdict)
    requires Numbered(t) && Explained(t, e, v)
    ensures Grows(t, v.tables)
  {
  }

  lemma ExplainedRank(t: Tables, e: SourceEvent, v: Verdict, id: FactId)
    requires Inv(t) && Explained(t, e, v) && id in t.facts && Rank(e.origin) < Rank(t.facts[id].origin)
    ensures id in v.tables.facts
    ensures v.tables.facts[id]
            == t.facts[id].(reinforcements := v.tables.facts[id].reinforcements, sources := v.tables.facts[id].sources)
            <==> !(v.outcome.Overflowed? && v.outcome.other == id)
    ensures forall s :: s in v.tables.sets && id in v.tables.sets[s].members ==> s in t.sets && id in t.sets[s].members
  {
  }

  lemma ExplainedRevival(t: Tables, e: SourceEvent, v: Verdict, id: FactId)
    requires Numbered(t) && Explained(t, e, v) && id in t.facts && t.facts[id].status != Active
    ensures id in v.tables.facts
    ensures v.tables.facts[id].status == Active <==> v.outcome.Overflowed? && v.outcome.other == id
    ensures (v.outcome.Overflowed? && v.outcome.other == id) || v.tables.facts[id] == t.facts[id]
    ensures t.facts[id].status == Superseded || t.facts[id].status == Deleted ==> v.tables.facts[id] == t.facts[id]
  {
  }

  predicate Holds(t: Tables, i: FactId, key: Identity) {
    i in t.facts && Indexed(t.facts[i]) && IdentityOf(t.facts[i]) == key
  }

  // The new row would need an index entry that a row other than the one it
  // replaces already holds.
  ghost predicate EntryTaken(t: Tables, c: Claim, e: SourceEvent, found: Option<FactId>) {
    exists i: FactId :: Some(i) != found && Holds(t, i, Identity(e.scope, c.pred, IdentityQualifiers(c.qualifiers)))
  }

  predicate GoesLive(t: Tables, c: Claim, e: SourceEvent, found: Option<FactId>)
    requires found.Some? ==> found.value in t.facts
  {
    var existing := if found.Some? then Some(t.facts[found.value]) else None;
    !HeldBack(e, existing) && (c.action == Supersede || existing.None?)
        && Draft(c, e, existing, t.now).form == StateForm
  }

  lemma DraftIdentity(c: Claim, e: SourceEvent, existing: Option<Fact>, now: int)
    ensures IdentityOf(Draft(c, e, existing, now)) == Identity(e.scope, c.pred, IdentityQualifiers(c.qualifiers))
  {
    var q := Draft(c, e, existing, now).qualifiers;
    assert IdentityQualifiers(q) == IdentityQualifiers(c.qualifiers);
  }

  // The index refuses a claim exactly when its row is to go live in state form
  // under an identity that some row other than the replaced one already serves.
  lemma IndexRefusesIff(t: Tables, found: Option<FactId>, c: Claim, e: SourceEvent)
    requires Inv(t)
    requires found.Some? ==>
             found.value in t.facts && t.facts[found.value].scope == e.scope && t.facts[found.value].status == Active
    ensures Settle(t, found, c, e).outcome == Aborted(UniqueViolation) <==>
            GoesLive(t, c, e, found) && EntryTaken(t, c, e, found)
  {
    var existing := if found.Some? then Some(t.facts[found.value]) else None;
    var draft := Draft(c, e, existing, t.now);
    DraftIdentity(c, e, existing, t.now);
    if c.action == Create && existing.Some? && existing.value.form != EventForm && existing.value.value == c.value {
    } else if HeldBack(e, existing) {
    } else if c.action == Supersede && existing.Some? {
      assert (exists i :: i != found.value && Holds(t, i, IdentityOf(draft))) <==> EntryTaken(t, c, e, found);
      ReplaceRefusal(t, draft, found.value);
    } else if c.action == Supersede || draft.form == EventForm || existing.None? {
      assert existing.None? ==> ((exists i :: Holds(t, i, IdentityOf(draft))) <==> EntryTaken(t, c, e, found));
      ActivateRefusal(t, draft);
    } else {
      ContradictRefusal(t, draft, found.value);
    }
  }

  // How a claim runs, read off the tables before it: it is counted on a row that
  // already says this, or weighed against a counterpart with the action it ends
  // up with.
  datatype Course = Counted(id: FactId) | Weighed(action: Action, found: Option<FactId>)

  function CourseOf(t: Tables, c: Claim, e: SourceEvent, p: Picks): Course {
    var twin := Select(t, DuplicateQuery(e.scope, c.pred, c.qualifiers, c.value), p.duplicate);
    if twin.None? || twin.value !in t.facts then Weighed(c.action, Existing(t, c, e, p).found)
    else if t.facts[twin.value].status == Active then Counted(twin.value)
    else
      var r := Resolve(t, e.scope, Target(c), c.qualifiers, p);
      if r.found.None? then Counted(twin.value)
      else Weighed(Supersede, Existing(r.tables, c.(action := Supersede), e, p).found)
  }

  lemma AdjudicateRefusedIff(t: Tables, c: Claim, e: SourceEvent, p: Picks)
    requires Inv(t)
    ensures var found := Existing(t, c, e, p).found;
            && (found.Some? ==> found.value in t.facts)
            && (Adjudicate(t, c, e, p).outcome == Aborted(UniqueViolation) <==>
               GoesLive(t, c, e, found) && EntryTaken(t, c, e, found))
  {
    var r := Existing(t, c, e, p);
    ExistingSound(t, c, e, p);
    InvIgnoresAliases(t, r.tables);
    IndexRefusesIff(r.tables, r.found, c, e);
    SameEntry(t, r.tables, c, e, r.found);
  }

  lemma SameEntry(t: Tables, t': Tables, c: Claim, e: SourceEvent, found: Option<FactId>)
    requires t'.facts == t.facts && t'.now == t.now && (found.Some? ==> found.value in t.facts)
    ensures GoesLive(t', c, e, found) == GoesLive(t, c, e, found)
            && EntryTaken(t', c, e, found) == EntryTaken(t, c, e, found)
  {
    assert forall i, key :: Holds(t', i, key) == Holds(t, i, key);
  }

  // A claim aborts on the unique index if and only if it is weighed, its row is to
  // go live in state form, and another row than its counterpart already serves
  // that identity.
  lemma ClaimRefusedIff(t: Tables, c: Claim, e: SourceEvent, p: Picks)
    requires Inv(t)
    ensures var w := CourseOf(t, c, e, p);
            && (w.Weighed? && w.found.Some? ==> w.found.value in t.facts)
            && (Apply(t, c, e, p).outcome == Aborted(UniqueViolation) <==>
                w.Weighed? && GoesLive(t, c.(action := w.action), e, w.found) && EntryTaken(t, c, e, w.found))
  {
    var q := DuplicateQuery(e.scope, c.pred, c.qualifiers, c.value);
    SelectBest(t, q, p.duplicate);
    var twin := Select(t, q, p.duplicate);
    if twin.None? {
      AdjudicateRefusedIff(t, c, e, p);
    } else if t.facts[twin.value].status != Active {
      var r := Resolve(t, e.scope, Target(c), c.qualifiers, p);
      ResolveSound(t, e.scope, Target(c), c.qualifiers, p);
      if r.found.Some? {
        ReturningRefusedIff(t, r.tables, c.(action := Supersede), e, p);
      }
    }
  }

  lemma ReturningRefusedIff(t: Tables, t': Tables, c: Claim, e: SourceEvent, p: Picks)
    requires Inv(t) && t' == t.(aliases := t'.aliases)
    ensures var found := Existing(t', c, e, p).found;
            && (found.Some? ==> found.value in t.facts)
            && (Adjudicate(t', c, e, p).outcome == Aborted(UniqueViolation) <==>
               GoesLive(t, c, e, found) && EntryTaken(t, c, e, found))
  {
    InvIgnoresAliases(t, t');
    AdjudicateRefusedIff(t', c, e, p);
    SameEntry(t, t', c, e, Existing(t', c, e, p).found);
  }

  lemma ActivateRefusal(t: Tables, draft: Fact)
    requires Numbered(t) && draft.status == Candidate
    ensures var none := Activate(t, draft, Activated(t.nextFact)).outcome;
            var mis := Activate(t, draft, Mislabelled(t.nextFact)).outcome;
            && (none == Aborted(UniqueViolation) <==>
                 draft.form == StateForm && exists i :: Holds(t, i, IdentityOf(draft)))
            && (mis == Aborted(UniqueViolation) <==>
                 draft.form == StateForm && exists i :: Holds(t, i, IdentityOf(draft)))
  {
    var id := t.nextFact;
    var t1 := Insert(t, draft);
    var g := Moved(draft, Active, t.now);
    if draft.form == StateForm && exists i :: Holds(t, i, IdentityOf(draft)) {
      var i :| Holds(t, i, IdentityOf(draft));
      assert Clash(t1.facts[i], g);
    }
    if Occupied(t1, id, g) {
      var i :| i in t1.facts && i != id && Clash(t1.facts[i], g);
      assert Holds(t, i, IdentityOf(draft));
    }
  }

  lemma ReplaceRefusal(t: Tables, draft: Fact, old_: FactId)
    requires Inv(t) && Fresh(draft) && old_ in t.facts && t.facts[old_].status == Active
    ensures Replace(t, draft, old_).outcome == Aborted(UniqueViolation) <==>
            draft.form == StateForm && exists i :: i != old_ && Holds(t, i, IdentityOf(draft))
  {
    ReplaceIs(t, draft, old_);
    var id, t3 := t.nextFact, HandedOver(t, draft, old_);
    var g := Moved(t3.facts[id], Active, t.now);
    if draft.form == StateForm && exists i :: i != old_ && Holds(t, i, IdentityOf(draft)) {
      var i :| i != old_ && Holds(t, i, IdentityOf(draft));
      assert Clash(t3.facts[i], g);
    }
    if Occupied(t3, id, g) {
      var i :| i in t3.facts && i != id && Clash(t3.facts[i], g);
      assert i != old_ && Holds(t, i, IdentityOf(draft));
    }
  }

  lemma ContradictRefusal(t: Tables, draft: Fact, rival: FactId)
    requires Inv(t) && Fresh(draft) && rival in t.facts && t.facts[rival].status == Active
             && t.facts[rival].scope == draft.scope
    ensures Contradict(t, draft, rival).outcome != Aborted(UniqueViolation)
  {
    OpenSetFound(t, draft.scope, rival);
  }

  // A claim whose supersedes_predicate is absent or its own predicate is never
  // refused by the index.
  lemma OwnPredicateNeverRefused(t: Tables, c: Claim, e: SourceEvent, p: Picks)
    requires Inv(t) && Target(c) == c.pred
    ensures Apply(t, c, e, p).outcome != Aborted(UniqueViolation)
  {
    var q := DuplicateQuery(e.scope, c.pred, c.qualifiers, c.value);
    SelectBest(t, q, p.duplicate);
    var twin := Select(t, q, p.duplicate);
    AdjudicateOwn(t, c, e, p);
    if twin.Some? && t.facts[twin.value].status != Active {
      var r := Resolve(t, e.scope, Target(c), c.qualifiers, p);
      ResolveSound(t, e.scope, Target(c), c.qualifiers, p);
      InvIgnoresAliases(t, r.tables);
      AdjudicateOwn(r.tables, c.(action := Supersede), e, p);
    }
  }

  lemma AdjudicateOwn(t: Tables, c: Claim, e: SourceEvent, p: Picks)
    requires Inv(t) && Target(c) == c.pred
    ensures Adjudicate(t, c, e, p).outcome != Aborted(UniqueViolation)
  {
    var r := Existing(t, c, e, p);
    ExistingSound(t, c, e, p);
    InvIgnoresAliases(t, r.tables);
    IndexRefusesIff(r.tables, r.found, c, e);
    if GoesLive(r.tables, c, e, r.found) && EntryTaken(r.tables, c, e, r.found) {
      var other :| Some(other) != r.found
          && Holds(t, other, Identity(e.scope, c.pred, IdentityQualifiers(c.qualifiers)));
      assert Matches(t.facts[other], CurrentQuery(e.scope, Target(c), c.qualifiers));
      assert Clash(t.facts[other], t.facts[r.found.value]);
    }
  }

  // The only other refusal: the waiting member of the overflowing set was
  // deleted. A disputed or disabled one goes back into service.
  lemma OverflowRefusedIff(t: Tables, draft: Fact, rival: FactId)
    requires Inv(t) && Fresh(draft) && draft.form == StateForm
    requires rival in t.facts && t.facts[rival].status == Active && t.facts[rival].scope == draft.scope
    ensures var v := Contradict(t, draft, rival);
            (v.outcome.Aborted? <==>
              exists s :: s in t.sets && OpenWith(t.sets[s], draft.scope, rival) && |t.sets[s].members| == 2
                          && t.sets[s].members[1] in t.facts && t.facts[t.sets[s].members[1]].status == Deleted)
    ensures var v := Contradict(t, draft, rival);
            forall s :: s in t.sets && OpenWith(t.sets[s], draft.scope, rival) && |t.sets[s].members| == 2
                        && t.sets[s].members[1] in t.facts && t.facts[t.sets[s].members[1]].status != Deleted ==>
              v.outcome.Overflowed? && v.outcome.other == t.sets[s].members[1]
  {
    OpenSetFound(t, draft.scope, rival);
    match OpenSetOf(t, draft.scope, rival)
    case None =>
    case Some(s) =>
      assert SetOk(t, t.sets[s]);
      OpenSetOfActive(t, t.sets[s], rival);
      forall r | r in t.sets && OpenWith(t.sets[r], draft.scope, rival) ensures r == s {
        assert SharedMember(t, r, s, rival);
      }
  }

  // The waiting member of the open pair of an active fact.
  ghost predicate WaitsBehind(t: Tables, scope: Scope, rival: FactId, id: FactId) {
    id in t.facts && t.facts[id].status != Deleted
    && exists s :: s in t.sets && OpenWith(t.sets[s], scope, rival) && t.sets[s].members == [rival, id]
  }

  // A counterpart that a created claim contradicts with enough authority.
  predicate Contradicted(t: Tables, found: Option<FactId>, c: Claim, e: SourceEvent) {
    && c.action == Create && found.Some? && found.value in t.facts
    && var f := t.facts[found.value]; f.form == StateForm && f.value != c.value && !HeldBack(e, Some(f))
  }

  // Before the claim: no stored row already says this, and the fact the claim
  // meets is contradicted by it while `id` waits behind that fact.
  ghost predicate AboutToOverflow(t: Tables, c: Claim, e: SourceEvent, p: Picks, id: FactId) {
    && Select(t, DuplicateQuery(e.scope, c.pred, c.qualifiers, c.value), p.duplicate).None?
    && Contradicted(t, Existing(t, c, e, p).found, c, e)
    && WaitsBehind(t, e.scope, Existing(t, c, e, p).found.value, id)
  }

  lemma ContradictOverflowsIff(t: Tables, draft: Fact, rival: FactId, id: FactId)
    requires Inv(t) && Fresh(draft) && draft.form == StateForm
    requires rival in t.facts && t.facts[rival].status == Active && t.facts[rival].scope == draft.scope
    ensures var o := Contradict(t, draft, rival).outcome;
            o.Overflowed? && o.other == id <==> WaitsBehind(t, draft.scope, rival, id)
  {
    OpenSetFound(t, draft.scope, rival);
    OverflowRefusedIff(t, draft, rival);
    forall s | s in t.sets && OpenWith(t.sets[s], draft.scope, rival)
      ensures |t.sets[s].members| == 2 && t.sets[s].members == [rival, t.sets[s].members[1]]
              && t.sets[s].members[1] in t.facts
    {
      assert SetOk(t, t.sets[s]);
      OpenSetOfActive(t, t.sets[s], rival);
    }
    if s :| s in t.sets && OpenWith(t.sets[s], draft.scope, rival) && t.facts[t.sets[s].members[1]].status != Deleted {
      OnlyOpenSet(t, draft.scope, rival, s);
    }
  }

  // A fact is in one open set at most.
  lemma OnlyOpenSet(t: Tables, scope: Scope, id: FactId, s: SetId)
    requires SetsOk(t) && s in t.sets && OpenWith(t.sets[s], scope, id)
    ensures forall r :: r in t.sets && OpenWith(t.sets[r], scope, id) ==> r == s
  {
    forall r | r in t.sets && OpenWith(t.sets[r], scope, id) ensures r == s {
      assert SharedMember(t, r, s, id);
    }
  }

  lemma SettleOverflowsIff(t: Tables, found: Option<FactId>, c: Claim, e: SourceEvent, id: FactId)
    requires Inv(t)
    requires found.Some? ==>
             found.value in t.facts && t.facts[found.value].scope == e.scope && t.facts[found.value].status == Active
    ensures var o := Settle(t, found, c, e).outcome;
            o.Overflowed? && o.other == id <==> Contradicted(t, found, c, e) && WaitsBehind(t, e.scope, found.value, id)
  {
    if Contradicted(t, found, c, e) {
      ContradictOverflowsIff(t, Draft(c, e, Some(t.facts[found.value]), t.now), found.value, id);
    }
  }

  lemma AdjudicateOverflowsIff(t: Tables, c: Claim, e: SourceEvent, p: Picks, id: FactId)
    requires Inv(t)
    ensures var o := Adjudicate(t, c, e, p).outcome; var found := Existing(t, c, e, p).found;
            o.Overflowed? && o.other == id <==> Contradicted(t, found, c, e) && WaitsBehind(t, e.scope, found.value, id)
  {
    var r := Existing(t, c, e, p);
    ExistingSound(t, c, e, p);
    InvIgnoresAliases(t, r.tables);
    SettleOverflowsIff(r.tables, r.found, c, e, id);
  }

  // A claim overflows onto a waiting fact if and only if it was about to.
  lemma OverflowsIff(t: Tables, c: Claim, e: SourceEvent, p: Picks, v: Verdict, id: FactId)
    requires Inv(t) && v == Apply(t, c, e, p)
    ensures v.outcome.Overflowed? && v.outcome.other == id <==> AboutToOverflow(t, c, e, p, id)
  {
    var q := DuplicateQuery(e.scope, c.pred, c.qualifiers, c.value);
    SelectBest(t, q, p.duplicate);
    var twin := Select(t, q, p.duplicate);
    if twin.None? {
      AdjudicateOverflowsIff(t, c, e, p, id);
    } else if t.facts[twin.value].status != Active {
      var r := Resolve(t, e.scope, Target(c), c.qualifiers, p);
      ResolveSound(t, e.scope, Target(c), c.qualifiers, p);
      InvIgnoresAliases(t, r.tables);
      AdjudicateOverflowsIff(r.tables, c.(action := Supersede), e, p, id);
    }
  }

  // A claim from an event of strictly lower rank leaves a fact's row as it was,
  // counters and sources apart, if and only if the claim is not about to
  // overflow onto it; it never puts the fact in a new set.
  lemma LowerRankIsPowerless(t: Tables, c: Claim, e: SourceEvent, p: Picks, v: Verdict, id: FactId)
    requires Inv(t) && id in t.facts && Rank(e.origin) < Rank(t.facts[id].origin) && v == Apply(t, c, e, p)
    ensures id in v.tables.facts
    ensures v.tables.facts[id]
              == t.facts[id].(reinforcements := v.tables.facts[id].reinforcements,
                  sources := v.tables.facts[id].sources)
            <==> !AboutToOverflow(t, c, e, p, id)
    ensures forall s :: s in v.tables.sets && id in v.tables.sets[s].members ==> s in t.sets && id in t.sets[s].members
  {
    ApplyStep(t, c, e, p);
    ExplainedRank(t, e, v, id);
    OverflowsIff(t, c, e, p, v, id);
  }

  // A stored fact comes into service if and only if a claim is about to overflow
  // onto it. A superseded or deleted fact never does.
  lemma RevivalOnlyByOverflow(t: Tables, c: Claim, e: SourceEvent, p: Picks, v: Verdict, id: FactId)
    requires Inv(t) && id in t.facts && t.facts[id].status != Active && v == Apply(t, c, e, p)
    ensures id in v.tables.facts
    ensures v.tables.facts[id].status == Active <==> AboutToOverflow(t, c, e, p, id)
    ensures t.facts[id].status == Superseded || t.facts[id].status == Deleted ==> v.tables.facts[id] == t.facts[id]
  {
    ApplyStep(t, c, e, p);
    ExplainedRevival(t, e, v, id);
    OverflowsIff(t, c, e, p, v, id);
  }

  // The value, form and classes of a fact that takes over from f.
  ghost predicate CarriesForward(f: Fact, c: Claim, g: Fact) {
    && (forall k :: k in g.value <==> if k in c.value then c.value[k] != Null else k in f.value && f.value[k] != Null)
    && (forall k :: k in g.value ==> g.value[k] == if k in c.value then c.value[k] else f.value[k])
    && g.form == f.form && g.supersedes.Some?
    && g.kind == c.kind.GetOr(f.kind) && g.volatility == c.volatility.GetOr(f.volatility)
    && (c.range.Some? ==> g.range == c.range) && (c.range.None? && f.range.Some? ==> g.range == f.range)
  }

  ghost predicate CarriedForward(t: Tables, c: Claim, v: Verdict) {
    v.outcome.Succeeded? ==>
      && v.outcome.old_ in t.facts && v.outcome.id in v.tables.facts
      && CarriesForward(t.facts[v.outcome.old_], c, v.tables.facts[v.outcome.id])
  }

  lemma SettleCarriesForward(t: Tables, found: Option<FactId>, c: Claim, e: SourceEvent)
    requires Numbered(t) && (found.Some? ==> found.value in t.facts)
    ensures CarriedForward(t, c, Settle(t, found, c, e))
  {
    SettleReplaces(t, found, c, e);
    if c.action == Supersede && found.Some? {
      ReplaceCarriesForward(t, found.value, c, e);
    }
  }

  lemma SettleReplaces(t: Tables, found: Option<FactId>, c: Claim, e: SourceEvent)
    requires found.Some? ==> found.value in t.facts
    ensures Settle(t, found, c, e).outcome.Succeeded? ==>
              && c.action == Supersede && found.Some?
              && Settle(t, found, c, e) == Replace(t, Draft(c, e, Some(t.facts[found.value]), t.now), found.value)
  {
  }

  lemma ReplaceCarriesForward(t: Tables, old_: FactId, c: Claim, e: SourceEvent)
    requires Numbered(t) && old_ in t.facts && c.action == Supersede
    ensures CarriedForward(t, c, Replace(t, Draft(c, e, Some(t.facts[old_]), t.now), old_))
  {
    var f := t.facts[old_];
    var draft := Draft(c, e, Some(f), t.now);
    if Replace(t, draft, old_).outcome.Succeeded? {
      ReplaceState(t, draft, old_);
      SuccessorCarriesForward(f, c, e, old_, t.now);
    }
  }

  lemma SuccessorCarriesForward(f: Fact, c: Claim, e: SourceEvent, old_: FactId, now: int)
    requires c.action == Supersede
    ensures CarriesForward(f, c, Moved(Successor(Draft(c, e, Some(f), now), f, old_), Active, now))
  {
  }

  lemma AdjudicateCarriesForward(t: Tables, c: Claim, e: SourceEvent, p: Picks)
    requires Numbered(t)
    ensures CarriedForward(t, c, Adjudicate(t, c, e, p))
  {
    var r := Existing(t, c, e, p);
    ExistingSound(t, c, e, p);
    SettleCarriesForward(r.tables, r.found, c, e);
  }

  // A claim that replaces a fact, asked to or not, keeps what it does not restate:
  // a key survives from the old value unless the claim sets it, an explicit null
  // removes it, and the form is the identity's own.
  lemma SupersedeCarriesForward(t: Tables, c: Claim, e: SourceEvent, p: Picks, v: Verdict)
    requires Inv(t) && v == Apply(t, c, e, p)
    ensures CarriedForward(t, c, v)
  {
    var q := DuplicateQuery(e.scope, c.pred, c.qualifiers, c.value);
    SelectBest(t, q, p.duplicate);
    var twin := Select(t, q, p.duplicate);
    if twin.None? {
      AdjudicateCarriesForward(t, c, e, p);
    } else if t.facts[twin.value].status != Active {
      ResolveSound(t, e.scope, Target(c), c.qualifiers, p);
      AdjudicateCarriesForward(Resolve(t, e.scope, Target(c), c.qualifiers, p).tables, c.(action := Supersede), e, p);
    }
  }

  // A claim moves the freshness clock of a stored fact only by counting it again,
  // for an event of at least its rank, and only forwards, to the event's time.
  lemma FreshnessClock(t: Tables, c: Claim, e: SourceEvent, p: Picks, v: Verdict, id: FactId)
    requires Inv(t) && id in t.facts && v == Apply(t, c, e, p)
    ensures id in v.tables.facts
    ensures v.tables.facts[id].lastReinforced
         == if v.outcome == Reinforced(id) && MovesClock(t.facts[id], e) then Some(e.occurredAt)
            else t.facts[id].lastReinforced
  {
    ApplyStep(t, c, e, p);
  }

  // A value that comes back while another one is active replaces it, or is held
  // or refused as any update would be; it is never just counted.
  lemma ReturningValueIsAnUpdate(t: Tables, c: Claim, e: SourceEvent, p: Picks)
    requires Inv(t)
    requires var twin := Select(t, DuplicateQuery(e.scope, c.pred, c.qualifiers, c.value), p.duplicate);
             twin.Some? && twin.value in t.facts && t.facts[twin.value].status != Active
    requires Resolve(t, e.scope, Target(c), c.qualifiers, p).found.Some?
    ensures var o := Apply(t, c, e, p).outcome; o.Held? || o.Succeeded? || o == Aborted(UniqueViolation)
  {
    var r := Resolve(t, e.scope, Target(c), c.qualifiers, p);
    ResolveSound(t, e.scope, Target(c), c.qualifiers, p);
    InvIgnoresAliases(t, r.tables);
    ResolvedAgain(t, e.scope, Target(c), c.qualifiers, p);
    var c' := c.(action := Supersede);
    ExistingSound(r.tables, c', e, p);
    SupersedeOutcomes(Existing(r.tables, c', e, p).tables, Existing(r.tables, c', e, p).found, c', e);
  }

  lemma SupersedeOutcomes(t: Tables, found: Option<FactId>, c: Claim, e: SourceEvent)
    requires Numbered(t) && found.Some? && found.value in t.facts && t.facts[found.value].status == Active
             && c.action == Supersede
    ensures var o := Settle(t, found, c, e).outcome; o.Held? || o.Succeeded? || o == Aborted(UniqueViolation)
  {
  }

  // Resolving once more after an alias was learned still finds a counterpart.
  lemma ResolvedAgain(t: Tables, scope: Scope, pred: string, qualifiers: Object, p: Picks)
    requires Numbered(t) && Resolve(t, scope, pred, qualifiers, p).found.Some?
    ensures Resolve(Resolve(t, scope, pred, qualifiers, p).tables, scope, pred, qualifiers, p).found.Some?
  {
    var r := Resolve(t, scope, pred, qualifiers, p);
    SelectIgnoresAliases(t, r.tables, CurrentQuery(scope, pred, qualifiers), p.exact, t.nextFact);
    var key := AliasKey(scope, pred);
    if key in t.aliases {
      SelectIgnoresAliases(t, r.tables, CurrentQuery(scope, t.aliases[key], qualifiers), p.aliased, t.nextFact);
    }
  }

  lemma {:induction false} SelectIgnoresAliases(t: Tables, t': Tables, q: Query, favoured: FactId, n: nat)
    requires t'.facts == t.facts
    ensures SelectBelow(t', q, favoured, n) == SelectBelow(t, q, favoured, n)
  {
    if n > 0 {
      SelectIgnoresAliases(t, t', q, favoured, n - 1);
    }
  }

  lemma ActivatedRow(t: Tables, found: Option<FactId>, c: Claim, e: SourceEvent)
    requires found.Some? ==> found.value in t.facts
    requires var o := Settle(t, found, c, e).outcome; o.Activated? || o.Mislabelled?
    ensures var v := Settle(t, found, c, e);
            v.outcome.id == t.nextFact && v.outcome.id in v.tables.facts && CameFrom(v.tables.facts[v.outcome.id], c, e)
  {
    DraftIdentity(c, e, if found.Some? then Some(t.facts[found.value]) else None, t.now);
  }

  predicate CameFrom(f: Fact, c: Claim, e: SourceEvent) {
    && f.value == c.value && f.status == Active && e.id in f.sources
    && IdentityOf(f) == Identity(e.scope, c.pred, IdentityQualifiers(c.qualifiers))
  }

  lemma ApplyActivates(t: Tables, c: Claim, e: SourceEvent, p: Picks, v: Verdict)
    requires Inv(t) && v == Apply(t, c, e, p) && (v.outcome.Activated? || v.outcome.Mislabelled?)
    ensures v.outcome.id in v.tables.facts && CameFrom(v.tables.facts[v.outcome.id], c, e)
  {
    var twin := Select(t, DuplicateQuery(e.scope, c.pred, c.qualifiers, c.value), p.duplicate);
    if twin.None? || twin.value !in t.facts {
      AdjudicateActivates(t, c, e, p);
    } else {
      AdjudicateActivates(Resolve(t, e.scope, Target(c), c.qualifiers, p).tables, c.(action := Supersede), e, p);
    }
  }

  lemma AdjudicateActivates(t: Tables, c: Claim, e: SourceEvent, p: Picks)
    ensures var v := Adjudicate(t, c, e, p);
            v.outcome.Activated? || v.outcome.Mislabelled? ==>
              v.outcome.id in v.tables.facts && CameFrom(v.tables.facts[v.outcome.id], c, e)
  {
    var v, r := Adjudicate(t, c, e, p), Existing(t, c, e, p);
    if v.outcome.Activated? || v.outcome.Mislabelled? {
      ActivatedRow(r.tables, if r.found.Some? && r.found.value in r.tables.facts then r.found else None, c, e);
    }
  }

  // Replaying the claim that activated a state-form fact changes nothing,
  // whatever rows the database returns first.
  lemma ReplayChangesNothing(t: Tables, c: Claim, e: SourceEvent, p: Picks, again: Picks, v: Verdict)
    requires Inv(t) && v == Apply(t, c, e, p) && (v.outcome.Activated? || v.outcome.Mislabelled?)
    requires v.outcome.id in v.tables.facts && v.tables.facts[v.outcome.id].form == StateForm
    ensures Apply(v.tables, c, e, again) == Verdict(v.tables, Duplicate(v.outcome.id))
  {
    ApplyStep(t, c, e, p);
    ApplyActivates(t, c, e, p, v);
    AlreadyHere(v.tables, c, e, again, v.outcome.id);
  }

  lemma AlreadyHere(t: Tables, c: Claim, e: SourceEvent, p: Picks, id: FactId)
    requires Inv(t) && id in t.facts && CameFrom(t.facts[id], c, e) && t.facts[id].form == StateForm
    ensures Apply(t, c, e, p) == Verdict(t, Duplicate(id))
  {
    var q := DuplicateQuery(e.scope, c.pred, c.qualifiers, c.value);
    SelectBest(t, q, p.duplicate);
    var twin := Select(t, q, p.duplicate);
    assert Matches(t.facts[id], q);
    assert Clash(t.facts[twin.value], t.facts[id]);
  }
}
