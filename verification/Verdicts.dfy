// What one claim can do to the ledger: every outcome spelled out on the rows,
// and the properties of a single step that follow from it.
module Verdicts {
  import opened Rows
  import opened Lifecycle
  import opened Matching
  import opened Adjudication
  import opened Invariants

  // The rows and sets after a claim, outcome by outcome.
  ghost predicate Explained(t: Tables, e: SourceEvent, v: Verdict) {
    var t' := v.tables;
    && t'.now == t.now && t.nextFact <= t'.nextFact
    && (forall k :: k in t.aliases ==> k in t'.aliases && t'.aliases[k] == t.aliases[k])
    && match v.outcome
       case Duplicate(id) => id in t.facts && t'.facts == t.facts && t'.sets == t.sets
           && (t.facts[id].status != Active || e.id in t.facts[id].sources)
       case Aborted(_) => t'.facts == t.facts && t'.sets == t.sets
       case Reinforced(id) =>
         && id in t.facts && t.facts[id].status == Active && e.id !in t.facts[id].sources
            && t.facts[id].scope == e.scope
         && t'.facts == t.facts[id := Strengthen(t.facts[id], e)] && t'.sets == t.sets
       case Held(id, s) =>
         && Entered(t, t', e, id) && t'.facts[id].status == Candidate
         && s == t.nextSet && t'.sets == t.sets[s := ConflictSet(e.scope, [id], Open, Quarantine)]
         && (forall i :: i in t.facts ==> t'.facts[i] == t.facts[i])
       case Mislabelled(id) => InService(t, t', e, id)
       case Activated(id) => InService(t, t', e, id)
       case Succeeded(old_, id) =>
         && Entered(t, t', e, id) && Serves(t'.facts[id], e) && t'.sets == t.sets
            && t'.facts[id].supersedes == Some(old_)
         && Outranked(t, old_, e) && t.facts[old_].status == Active
         && t'.facts[old_]
            == Moved(t.facts[old_], Superseded, t.now).(validTo := Some(Max(t.facts[old_].validFrom, e.occurredAt)))
         && (forall i :: i in t.facts && i != old_ ==> t'.facts[i] == t.facts[i])
       case Contested(id, rival, s) =>
         && Entered(t, t', e, id) && t'.facts[id].status == Candidate && e.origin != Untrusted
         && Outranked(t, rival, e) && t.facts[rival].status == Active && t.facts[rival].value != t'.facts[id].value
         && s == t.nextSet && t'.sets == t.sets[s := ConflictSet(e.scope, [rival, id], Open, Contradiction)]
         && (forall i :: i in t.facts ==> t'.facts[i] == t.facts[i])
       case Overflowed(id, rival, other, s) =>
         && Entered(t, t', e, id) && Serves(t'.facts[id], e)
         && Outranked(t, rival, e) && t.facts[rival].status == Active && rival != other
         && s in t.sets && t.sets[s].status == Open && t.sets[s].members == [rival, other]
         && t'.sets == t.sets[s := t.sets[s].(members := t.sets[s].members + [id], status := ReclassifiedEvent)]
         && Waiting(t, other) && t.facts[other].status != Superseded && t.facts[other].status != Deleted
         && t'.facts[rival] == AsEvent(t.facts[rival], t.now)
         && t'.facts[other] == Moved(AsEvent(t.facts[other], t.now), Active, t.now)
         && (forall i :: i in t.facts && i != rival && i != other ==> t'.facts[i] == t.facts[i])
       case Appended(_, _, _) => false
  }

  // Exactly one row was added, from this event.
  ghost predicate Entered(t: Tables, t': Tables, e: SourceEvent, id: FactId) {
    && id == t.nextFact && id !in t.facts && t'.facts.Keys == t.facts.Keys + {id}
    && var f := t'.facts[id];
       f.scope == e.scope && f.origin == e.origin && f.validFrom == e.occurredAt && f.sources == [e.id]
  }

  predicate Serves(f: Fact, e: SourceEvent) {
    f.status == Active && e.origin != Untrusted
  }

  ghost predicate InService(t: Tables, t': Tables, e: SourceEvent, id: FactId) {
    && Entered(t, t', e, id) && Serves(t'.facts[id], e) && t'.sets == t.sets
    && (forall i :: i in t.facts ==> t'.facts[i] == t.facts[i])
  }

  // A fact of the event's own scope that the event has the authority to touch.
  predicate Outranked(t: Tables, id: FactId, e: SourceEvent) {
    id in t.facts && t.facts[id].scope == e.scope && Rank(t.facts[id].origin) <= Rank(e.origin)
  }

  lemma FindAmbiguousSound(t: Tables, scope: Scope, pred: string, qualifiers: Object, value: Object, p: Picks)
    requires Numbered(t)
    ensures var r := FindAmbiguous(t, scope, pred, qualifiers, value, p);
            r.Some? ==> r.value in t.facts && t.facts[r.value].scope == scope && t.facts[r.value].status == Active
                        && t.facts[r.value].value != value
  {
    SelectBest(t, AmbiguousQuery(scope, pred, qualifiers, value), p.ambiguous);
    var key := AliasKey(scope, pred);
    if key in t.aliases {
      SelectBest(t, AmbiguousQuery(scope, t.aliases[key], qualifiers, value), p.ambiguousAlias);
    }
  }

  // The fact a claim meets is always an active one of the event's scope; with
  // none, no active fact carries the target predicate and the claim's qualifiers.
  lemma ExistingSound(t: Tables, c: Claim, e: SourceEvent, p: Picks)
    requires Numbered(t)
    ensures var r := Existing(t, c, e, p);
            && r.tables == t.(aliases := r.tables.aliases)
            && (forall k :: k in t.aliases ==> k in r.tables.aliases && r.tables.aliases[k] == t.aliases[k])
            && (r.found.Some? ==>
                 r.found.value in t.facts && t.facts[r.found.value].scope == e.scope
                 && t.facts[r.found.value].status == Active)
            && (r.found.None? || t.facts[r.found.value].pred != Target(c) ==>
                  forall i :: i in t.facts ==> !Matches(t.facts[i], CurrentQuery(e.scope, Target(c), c.qualifiers)))
            && (r.found.Some? && t.facts[r.found.value].pred == Target(c) && c.action == Supersede ==>
                  Neighbour(t, e.scope, c.qualifiers, r.found.value))
  {
    ResolveSound(t, e.scope, Target(c), c.qualifiers, p);
    var r := Resolve(t, e.scope, Target(c), c.qualifiers, p);
    FindAmbiguousSound(r.tables, e.scope, Target(c), c.qualifiers, c.value, p);
  }

  lemma OverflowExplained(t: Tables, draft: Fact, rival: FactId, s: SetId, e: SourceEvent)
    requires Inv(t) && Fresh(draft) && draft.origin == e.origin != Untrusted && draft.form == StateForm
    requires draft.scope == e.scope && draft.validFrom == e.occurredAt && draft.sources == [e.id]
    requires Outranked(t, rival, e) && t.facts[rival].status == Active && t.facts[rival].form == StateForm
    requires OpenSetOf(t, draft.scope, rival) == Some(s) && s in t.sets
    ensures Explained(t, e, Overflow(t, draft, rival, s))
  {
    OpenSetFound(t, draft.scope, rival);
    assert SetOk(t, t.sets[s]);
    OpenSetOfActive(t, t.sets[s], rival);
    var v := Overflow(t, draft, rival, s);
    if v.outcome.Overflowed? {
      OverflowState(t, draft, rival, s);
      OverflownExplained(t, draft, rival, t.sets[s].members[1], s, e, v);
    }
  }

  lemma OverflownExplained(t: Tables, draft: Fact, rival: FactId, other: FactId, s: SetId, e: SourceEvent, v: Verdict)
    requires Numbered(t) && ChainsOk(t) && draft.origin == e.origin != Untrusted
    requires draft.scope == e.scope && draft.validFrom == e.occurredAt && draft.sources == [e.id]
    requires Outranked(t, rival, e) && t.facts[rival].status == Active && Waiting(t, other) && rival != other
    requires s in t.sets && t.sets[s].status == Open && t.sets[s].members == [rival, other]
    requires v.outcome == Overflowed(t.nextFact, rival, other, s)
    requires v.tables.nextFact == t.nextFact + 1 && v.tables.aliases == t.aliases && v.tables.now == t.now
    requires v.tables.sets
             == t.sets[s := t.sets[s].(members := t.sets[s].members + [t.nextFact], status := ReclassifiedEvent)]
    requires v.tables.facts.Keys == t.facts.Keys + {t.nextFact}
    requires forall i :: i in t.facts && i != rival && i != other ==> v.tables.facts[i] == t.facts[i]
    requires v.tables.facts[rival] == AsEvent(t.facts[rival], t.now)
    requires v.tables.facts[other] == Moved(AsEvent(t.facts[other], t.now), Active, t.now)
    requires v.tables.facts[t.nextFact] == Moved(AsEvent(draft, t.now), Active, t.now)
    requires Active in AllowedTransitions(t.facts[other].status)
    ensures Explained(t, e, v)
  {
    assert Replaced(t, other) || t.facts[other].status != Superseded;
  }

  lemma ContradictExplained(t: Tables, draft: Fact, rival: FactId, e: SourceEvent)
    requires Inv(t) && Fresh(draft) && draft.origin == e.origin != Untrusted && draft.form == StateForm
    requires draft.scope == e.scope && draft.validFrom == e.occurredAt && draft.sources == [e.id]
    requires Outranked(t, rival, e) && t.facts[rival].status == Active && t.facts[rival].form == StateForm
    requires t.facts[rival].value != draft.value
    ensures Explained(t, e, Contradict(t, draft, rival))
  {
    OpenSetFound(t, draft.scope, rival);
    match OpenSetOf(t, draft.scope, rival)
    case None =>
    case Some(s) =>
      assert SetOk(t, t.sets[s]);
      OpenSetOfActive(t, t.sets[s], rival);
      OverflowExplained(t, draft, rival, s, e);
  }

  lemma ActivateExplained(t: Tables, draft: Fact, outcome: Outcome, e: SourceEvent)
    requires Inv(t) && Fresh(draft) && draft.origin == e.origin != Untrusted
    requires draft.scope == e.scope && draft.validFrom == e.occurredAt && draft.sources == [e.id]
    requires outcome == Mislabelled(t.nextFact) || outcome == Activated(t.nextFact)
    ensures var v := Activate(t, draft, outcome); Inv(v.tables) && Explained(t, e, v)
  {
    ActivateKeeps(t, draft, outcome);
    ActivateReads(t, draft, outcome, e, Activate(t, draft, outcome));
  }

  lemma ActivateReads(t: Tables, draft: Fact, outcome: Outcome, e: SourceEvent, v: Verdict)
    requires Numbered(t) && draft.status == Candidate && draft.origin == e.origin != Untrusted
    requires draft.scope == e.scope && draft.validFrom == e.occurredAt && draft.sources == [e.id]
    requires outcome == Mislabelled(t.nextFact) || outcome == Activated(t.nextFact)
    requires v == Activate(t, draft, outcome)
    ensures Explained(t, e, v)
  {
    assert !v.outcome.Aborted? ==> v.tables.facts[t.nextFact] == Moved(draft, Active, t.now);
  }

  lemma ReplaceExplained(t: Tables, draft: Fact, old_: FactId, e: SourceEvent)
    requires Inv(t) && Fresh(draft) && draft.origin == e.origin != Untrusted
    requires draft.scope == e.scope && draft.validFrom == e.occurredAt && draft.sources == [e.id]
    requires Outranked(t, old_, e) && t.facts[old_].status == Active
    ensures var v := Replace(t, draft, old_); Inv(v.tables) && Explained(t, e, v)
  {
    ReplaceKeeps(t, draft, old_);
    ReplaceReads(t, draft, old_, e, Replace(t, draft, old_));
  }

  lemma ReplaceReads(t: Tables, draft: Fact, old_: FactId, e: SourceEvent, v: Verdict)
    requires Numbered(t) && draft.status == Candidate && draft.origin == e.origin != Untrusted
    requires draft.scope == e.scope && draft.validFrom == e.occurredAt && draft.sources == [e.id]
    requires Outranked(t, old_, e) && t.facts[old_].status == Active && v == Replace(t, draft, old_)
    ensures Explained(t, e, v)
  {
    ReplaceIs(t, draft, old_);
    if v.outcome.Succeeded? {
      ReplaceState(t, draft, old_);
    }
  }

  lemma HoldExplained(t: Tables, draft: Fact, e: SourceEvent)
    requires Inv(t) && Fresh(draft) && draft.origin == e.origin
    requires draft.scope == e.scope && draft.validFrom == e.occurredAt && draft.sources == [e.id]
    ensures var v := Hold(t, draft); Inv(v.tables) && Explained(t, e, v)
  {
    HoldKeeps(t, draft);
  }

  lemma SettleStep(t: Tables, found: Option<FactId>, c: Claim, e: SourceEvent)
    requires Inv(t)
    requires found.Some? ==>
             found.value in t.facts && t.facts[found.value].scope == e.scope && t.facts[found.value].status == Active
    ensures var v := Settle(t, found, c, e); Inv(v.tables) && Explained(t, e, v)
  {
    var existing := if found.Some? then Some(t.facts[found.value]) else None;
    var draft := Draft(c, e, existing, t.now);
    if c.action == Create && existing.Some? && existing.value.form != EventForm && existing.value.value == c.value {
      ReassertKeeps(t, found.value, e);
    } else if HeldBack(e, existing) {
      HoldExplained(t, draft, e);
    } else if c.action == Supersede {
      if existing.Some? {
        ReplaceExplained(t, draft, found.value, e);
      } else {
        ActivateExplained(t, draft, Mislabelled(t.nextFact), e);
      }
    } else if draft.form == EventForm || existing.None? {
      ActivateExplained(t, draft, Activated(t.nextFact), e);
    } else {
      ContradictKeeps(t, draft, found.value);
      ContradictExplained(t, draft, found.value, e);
    }
  }

  // Learning an alias first changes nothing a later outcome reports.
  lemma ExplainedFrom(t0: Tables, t: Tables, e: SourceEvent, v: Verdict)
    requires Explained(t, e, v) && t == t0.(aliases := t.aliases)
    requires forall k :: k in t0.aliases ==> k in t.aliases && t.aliases[k] == t0.aliases[k]
    ensures Explained(t0, e, v)
  {
    assert forall i, o :: Replaces(t, i, o) <==> Replaces(t0, i, o);
    if v.outcome.Overflowed? && Replaced(t0, v.outcome.other) {
      var i :| Replaces(t0, i, v.outcome.other);
      assert Replaces(t, i, v.outcome.other);
    }
  }

  lemma AdjudicateStep(t: Tables, c: Claim, e: SourceEvent, p: Picks)
    requires Inv(t)
    ensures var v := Adjudicate(t, c, e, p); Inv(v.tables) && Explained(t, e, v)
  {
    var r := Existing(t, c, e, p);
    ExistingSound(t, c, e, p);
    InvIgnoresAliases(t, r.tables);
    SettleStep(r.tables, r.found, c, e);
    ExplainedFrom(t, r.tables, e, Settle(r.tables, r.found, c, e));
  }

  // A value that comes back from an inactive row while something else is served.
  lemma ReturningStep(t: Tables, c: Claim, e: SourceEvent, p: Picks, r: Resolved)
    requires Inv(t) && r == Resolve(t, e.scope, Target(c), c.qualifiers, p)
    ensures var v := Adjudicate(r.tables, c.(action := Supersede), e, p); Inv(v.tables) && Explained(t, e, v)
  {
    ResolveSound(t, e.scope, Target(c), c.qualifiers, p);
    InvIgnoresAliases(t, r.tables);
    AdjudicateStep(r.tables, c.(action := Supersede), e, p);
    ExplainedFrom(t, r.tables, e, Adjudicate(r.tables, c.(action := Supersede), e, p));
  }

  // Every claim keeps the invariant and has one of the outcomes above; the
  // branch that appends to a set below its cap is never taken.
  lemma ApplyStep(t: Tables, c: Claim, e: SourceEvent, p: Picks)
    requires Inv(t)
    ensures var v := Apply(t, c, e, p); Inv(v.tables) && Explained(t, e, v)
  {
    var q := DuplicateQuery(e.scope, c.pred, c.qualifiers, c.value);
    SelectBest(t, q, p.duplicate);
    var twin := Select(t, q, p.duplicate);
    if twin.None? {
      AdjudicateStep(t, c, e, p);
    } else if t.facts[twin.value].status == Active {
      ReassertKeeps(t, twin.value, e);
    } else {
      var r := Resolve(t, e.scope, Target(c), c.qualifiers, p);
      ResolveSound(t, e.scope, Target(c), c.qualifiers, p);
      if r.found.Some? {
        ReturningStep(t, c, e, p, r);
      } else {
        InvIgnoresAliases(t, r.tables);
      }
    }
  }
}
