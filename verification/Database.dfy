// The write path as the program runs it: tables updated in place, queries as
// loops over the rows, one savepoint per job. Every method is proved against
// the function of the same step.
module Database {
  import opened Rows
  import opened Lifecycle
  import opened Matching
  import opened Adjudication
  import opened Invariants
  import opened Runs

  class Ledger {
    var facts: map<FactId, Fact>
    var sets: map<SetId, ConflictSet>
    var aliases: map<AliasKey, string>
    var nextFact: FactId
    var nextSet: SetId
    var now: int

    function View(): Tables
      reads this
    {
      Tables(facts, sets, aliases, nextFact, nextSet, now)
    }

    constructor ()
      ensures View() == EMPTY
    {
      facts, sets, aliases, nextFact, nextSet, now := map[], map[], map[], 0, 0, 0;
    }

    // transition_fact_status: the failure raised, or none.
    method TransitionFactStatus(id: FactId, to: Status) returns (raised: Option<Failure>)
      requires id in facts
      modifies this`facts
      ensures match Transition(old(View()), id, to)
              case Flushed(t) => raised == None && View() == t
              case Refused(why) => raised == Some(why) && View() == old(View())
    {
      var f := facts[id];
      if to !in AllowedTransitions(f.status) {
        return Some(IllegalTransition(f.status, to));
      }
      var g := f.(status := to, version := f.version + 1);
      if to == Deleted {
        g := g.(recordedTo := Some(now));
      }
      if Occupied(View(), id, g) {
        return Some(UniqueViolation);
      }
      facts := facts[id := g];
      return None;
    }

    method CreateFact(draft: Fact) returns (id: FactId)
      modifies this`facts, this`nextFact
      ensures id == old(nextFact) && View() == Insert(old(View()), draft)
    {
      id := nextFact;
      facts := facts[id := draft];
      nextFact := nextFact + 1;
    }

    method AddConflictSet(c: ConflictSet) returns (s: SetId)
      modifies this`sets, this`nextSet
      ensures s == old(nextSet) && View() == InsertSet(old(View()), c)
    {
      s := nextSet;
      sets := sets[s := c];
      nextSet := nextSet + 1;
    }

    // One filtered query and the row the caller takes from it.
    method SelectFact(q: Query, favoured: FactId) returns (best: Option<FactId>)
      ensures best == Select(View(), q, favoured)
    {
      best := None;
      for i := 0 to nextFact
        invariant best == SelectBelow(View(), q, favoured, i)
      {
        if i in facts && Matches(facts[i], q) {
          if best.None? || best.value !in facts {
            best := Some(i);
          } else {
            var p, b := Priority(facts[i], q), Priority(facts[best.value], q);
            if p > b || (p == b && i == favoured) {
              best := Some(i);
            }
          }
        }
      }
    }

    method ResolveExistingFact(scope: Scope, pred: string, qualifiers: Object, p: Picks) returns (found: Option<FactId>)
      modifies this`aliases
      ensures Resolve(old(View()), scope, pred, qualifiers, p) == Resolved(View(), found)
    {
      var exact := SelectFact(CurrentQuery(scope, pred, qualifiers), p.exact);
      if exact.Some? {
        return exact;
      }
      var key := AliasKey(scope, pred);
      if key in aliases {
        var aliased := SelectFact(CurrentQuery(scope, aliases[key], qualifiers), p.aliased);
        if aliased.Some? {
          return aliased;
        }
      }
      if p.near.None? || !Neighbour(View(), scope, qualifiers, p.near.value.id)
         || p.near.value.distance > SEMANTIC_MATCH_MAX_DISTANCE {
        return None;
      }
      var m := p.near.value.id;
      if facts[m].pred != pred && p.near.value.distance <= ALIAS_LEARN_MAX_DISTANCE && key !in aliases {
        aliases := aliases[key := facts[m].pred];
      }
      return Some(m);
    }

    method FindQualifierAmbiguousActiveFact(scope: Scope, pred: string, qualifiers: Object, value: Object, p: Picks)
      returns (found: Option<FactId>)
      ensures found == FindAmbiguous(View(), scope, pred, qualifiers, value, p)
    {
      found := SelectFact(AmbiguousQuery(scope, pred, qualifiers, value), p.ambiguous);
      var key := AliasKey(scope, pred);
      if found.None? && key in aliases && aliases[key] != pred {
        found := SelectFact(AmbiguousQuery(scope, aliases[key], qualifiers, value), p.ambiguousAlias);
      }
    }

    method OpenConflictSet(scope: Scope, id: FactId) returns (found: Option<SetId>)
      ensures found == OpenSetOf(View(), scope, id)
    {
      found := None;
      for s := 0 to nextSet
        invariant found == OpenSetBelow(View(), scope, id, s)
      {
        if found.None? && s in sets && OpenWith(sets[s], scope, id) {
          found := Some(s);
        }
      }
    }

    method ReinforceOrCountDuplicate(id: FactId, e: SourceEvent) returns (outcome: Outcome)
      requires id in facts
      modifies this`facts
      ensures Verdict(View(), outcome) == Reassert(old(View()), id, e)
    {
      var f := facts[id];
      if f.status != Active || e.id in f.sources {
        return Duplicate(id);
      }
      f := f.(reinforcements := f.reinforcements + 1);
      if Rank(e.origin) >= Rank(f.origin) && (f.lastReinforced.None? || e.occurredAt > f.lastReinforced.value) {
        f := f.(lastReinforced := Some(e.occurredAt));
      }
      f := f.(sources := f.sources + [e.id]);
      facts := facts[id := f];
      return Reinforced(id);
    }

    // The supersession: the old fact leaves service, its interval is closed, the
    // new one is linked and enters service. A refusal leaves a partial write,
    // which the caller's savepoint undoes.
    method SupersedeFact(draft: Fact, old_: FactId) returns (outcome: Outcome)
      requires old_ in facts && old_ < nextFact
      modifies this
      ensures var v := Replace(old(View()), draft, old_);
              outcome == v.outcome && (!outcome.Aborted? ==> View() == v.tables)
    {
      var id := CreateFact(draft.(value := CarryForward(facts[old_].value, draft.value)));
      var raised := TransitionFactStatus(old_, Superseded);
      if raised.Some? {
        return Aborted(raised.value);
      }
      var f := facts[old_];
      if draft.validFrom < f.validFrom {
        facts := facts[old_ := f.(validTo := Some(f.validFrom))];
      } else {
        facts := facts[old_ := f.(validTo := Some(draft.validFrom))];
      }
      facts := facts[id := facts[id].(supersedes := Some(old_))];
      raised := TransitionFactStatus(id, Active);
      if raised.Some? {
        return Aborted(raised.value);
      }
      return Succeeded(old_, id);
    }

    method ActivateFact(draft: Fact, mislabelled: bool) returns (outcome: Outcome)
      modifies this
      ensures var v := Activate(old(View()), draft, if mislabelled then Mislabelled(old(nextFact))
              else Activated(old(nextFact)));
              outcome == v.outcome && (!outcome.Aborted? ==> View() == v.tables)
    {
      var id := CreateFact(draft);
      var raised := TransitionFactStatus(id, Active);
      if raised.Some? {
        return Aborted(raised.value);
      }
      return if mislabelled then Mislabelled(id) else Activated(id);
    }

    // The conflict overflow: the whole identity turns event-form.
    method ReclassifyConflict(draft: Fact, rival: FactId, s: SetId) returns (outcome: Outcome)
      requires rival in facts && rival < nextFact && s in sets
      modifies this
      ensures var v := Overflow(old(View()), draft, rival, s);
              outcome == v.outcome && (!outcome.Aborted? ==> View() == v.tables)
    {
      var other := OtherMember(sets[s].members, rival);
      if other.None? {
        return Aborted(NoOtherMember);
      }
      var id := CreateFact(AsEvent(draft, now));
      facts := facts[rival := AsEvent(facts[rival], now)];
      var raised := TransitionFactStatus(id, Active);
      if raised.Some? {
        return Aborted(raised.value);
      }
      if other.value in facts {
        facts := facts[other.value := AsEvent(facts[other.value], now)];
        if facts[other.value].status != Active {
          raised := TransitionFactStatus(other.value, Active);
          if raised.Some? {
            return Aborted(raised.value);
          }
        }
      }
      sets := sets[s := sets[s].(members := sets[s].members + [id], status := ReclassifiedEvent)];
      return Overflowed(id, rival, other.value, s);
    }

    method ContradictFact(draft: Fact, rival: FactId) returns (outcome: Outcome)
      requires rival in facts && rival < nextFact
      modifies this
      ensures var v := Contradict(old(View()), draft, rival);
              outcome == v.outcome && (!outcome.Aborted? ==> View() == v.tables)
    {
      var found := OpenConflictSet(draft.scope, rival);
      if found.None? {
        var id := CreateFact(draft);
        var s := AddConflictSet(ConflictSet(draft.scope, [rival, id], Open, Contradiction));
        return Contested(id, rival, s);
      }
      var s := found.value;
      if s !in sets {
        return Aborted(NoOtherMember);
      }
      if |sets[s].members| >= CONFLICT_SET_MAX_MEMBERS {
        outcome := ReclassifyConflict(draft, rival, s);
        return;
      }
      var id := CreateFact(draft);
      sets := sets[s := sets[s].(members := sets[s].members + [id])];
      return Appended(id, rival, s);
    }

    method SettleCandidate(found: Option<FactId>, c: Claim, e: SourceEvent) returns (outcome: Outcome)
      requires found.Some? ==> found.value in facts && found.value < nextFact
      modifies this
      ensures var v := Settle(old(View()), found, c, e);
              outcome == v.outcome && (!outcome.Aborted? ==> View() == v.tables)
    {
      var existing := if found.Some? then Some(facts[found.value]) else None;
      if c.action == Create && existing.Some? && existing.value.form != EventForm && existing.value.value == c.value {
        outcome := ReinforceOrCountDuplicate(found.value, e);
        return;
      }
      var draft := Draft(c, e, existing, now);
      if HeldBack(e, existing) {
        var id := CreateFact(draft);
        var s := AddConflictSet(ConflictSet(draft.scope, [id], Open, Quarantine));
        return Held(id, s);
      }
      if c.action == Supersede {
        if existing.Some? {
          outcome := SupersedeFact(draft, found.value);
        } else {
          outcome := ActivateFact(draft, true);
        }
        return;
      }
      if draft.form == EventForm || existing.None? {
        outcome := ActivateFact(draft, false);
        return;
      }
      outcome := ContradictFact(draft, found.value);
    }

    // _apply_candidate
    method ApplyCandidate(c0: Claim, e: SourceEvent, p: Picks) returns (outcome: Outcome)
      requires Numbered(View())
      modifies this
      ensures var v := Apply(old(View()), c0, e, p);
              outcome == v.outcome && (!outcome.Aborted? ==> View() == v.tables)
    {
      var c := c0;
      var twin := SelectFact(DuplicateQuery(e.scope, c.pred, c.qualifiers, c.value), p.duplicate);
      SelectBest(View(), DuplicateQuery(e.scope, c.pred, c.qualifiers, c.value), p.duplicate);
      if twin.Some? {
        var returning := false;
        if facts[twin.value].status != Active {
          var current := ResolveExistingFact(e.scope, Target(c), c.qualifiers, p);
          returning := current.Some?;
        }
        if !returning {
          outcome := ReinforceOrCountDuplicate(twin.value, e);
          return;
        }
        c := c.(action := Supersede);
      }
      ResolveSound(View(), e.scope, Target(c), c.qualifiers, p);
      var found := ResolveExistingFact(e.scope, Target(c), c.qualifiers, p);
      if found.None? && c.action == Create {
        found := FindQualifierAmbiguousActiveFact(e.scope, Target(c), c.qualifiers, c.value, p);
        SelectBest(View(), AmbiguousQuery(e.scope, Target(c), c.qualifiers, c.value), p.ambiguous);
        if AliasKey(e.scope, Target(c)) in aliases {
          SelectBest(View(), AmbiguousQuery(e.scope, aliases[AliasKey(e.scope, Target(c))], c.qualifiers, c.value),
              p.ambiguousAlias);
        }
      }
      outcome := SettleCandidate(found, c, e);
    }

    // The candidates of one event, in the extractor's order.
    method ProcessEvent(e: SourceEvent, raws: seq<Raw>, tally0: Tally) returns (tally: Tally, failed: bool)
      requires Inv(View())
      modifies this
      ensures var r := FeedAll(Progress(old(View()), tally0, false), e, raws);
              failed == r.failed && (!failed ==> r == Progress(View(), tally, false) && Inv(View()))
    {
      tally, failed := tally0, false;
      ghost var start := Progress(View(), tally0, false);
      for i := 0 to |raws|
        invariant Inv(View()) && !failed
        invariant FeedAll(start, e, raws[..i]) == Progress(View(), tally, false)
      {
        FeedAllPrefix(start, e, raws, i + 1);
        FeedStep(Progress(View(), tally, false), e, raws[i]);
        if Screened(e, raws[i]) {
          tally := tally.(rejected := tally.rejected + 1);
        } else {
          var outcome := ApplyCandidate(raws[i].claim, e, raws[i].picks);
          if outcome.Aborted? {
            FeedAllFails(start, e, raws, i + 1);
            failed := true;
            return;
          }
          tally := Count(tally, outcome);
        }
      }
      assert raws[..|raws|] == raws;
    }

    // The extractions of one job.
    method ProcessBatch(batch: seq<Extraction>) returns (tally: Tally, failed: bool)
      requires Inv(View())
      modifies this
      ensures var r := FeedBatch(Progress(old(View()), ZERO, false), batch);
              failed == r.failed && (!failed ==> r == Progress(View(), tally, false) && Inv(View()))
    {
      tally, failed := ZERO, false;
      ghost var start := Progress(View(), ZERO, false);
      for i := 0 to |batch|
        invariant Inv(View()) && !failed
        invariant FeedBatch(start, batch[..i]) == Progress(View(), tally, false)
      {
        FeedBatchPrefix(start, batch, i + 1);
        tally, failed := ProcessEvent(batch[i].event, batch[i].raws, tally);
        if failed {
          FeedBatchFails(start, batch, i + 1);
          return;
        }
      }
      assert batch[..|batch|] == batch;
    }

    method RollBack(savepoint: Tables)
      modifies this
      ensures View() == savepoint
    {
      facts, sets, aliases := savepoint.facts, savepoint.sets, savepoint.aliases;
      nextFact, nextSet, now := savepoint.nextFact, savepoint.nextSet, savepoint.now;
    }

    // _process_job inside the savepoint of _run_jobs: a failure puts every table
    // back as the job found it.
    method ConsolidateJob(startedAt: int, batch: seq<Extraction>) returns (tally: Tally, failed: bool)
      requires Inv(View())
      modifies this
      ensures Consolidated(old(View()), startedAt, batch) == Progress(View(), if failed then ZERO else tally, failed)
      ensures Inv(View())
    {
      var savepoint := View();
      now := startedAt;
      InvIgnoresAliases(savepoint, View());
      tally, failed := ProcessBatch(batch);
      if failed {
        RollBack(savepoint);
      }
    }

    // submit_feedback with rating "incorrect"; false for an unknown or foreign id.
    method SubmitIncorrect(project: string, id: FactId) returns (found: bool)
      requires Inv(View())
      modifies this`facts
      ensures found <==> id in old(facts) && old(facts)[id].scope.project == project
      ensures View() == Disputed_(old(View()), project, id) && Inv(View())
    {
      FeedbackStep(View(), project, id);
      if id !in facts || facts[id].scope.project != project {
        return false;
      }
      if Disputed in AllowedTransitions(facts[id].status) {
        NeedsNoEntry(View(), id, Disputed);
        var raised := TransitionFactStatus(id, Disputed);
      }
      return true;
    }

    // _forget_fact: how many rows were changed, or none when it raises.
    method Forget(project: string, id: FactId, m: Mode) returns (changed: Option<nat>)
      requires Inv(View())
      modifies this`facts
      ensures View() == ForgottenFact(old(View()), project, id, m) && Inv(View())
      ensures changed.Some? ==> changed.value == (if View() == old(View()) then 0 else 1)
      ensures changed.None? <==>
              id !in old(facts) || old(facts)[id].scope.project != project
                  || (old(facts)[id].status == Deleted && m == Disable)
    {
      ForgetFactStep(View(), project, id, m);
      if id !in facts || facts[id].scope.project != project {
        return None;
      }
      var target := ForgetTarget(m);
      if facts[id].status == target {
        return Some(0);
      }
      NeedsNoEntry(View(), id, target);
      var raised := TransitionFactStatus(id, target);
      if raised.Some? {
        return None;
      }
      assert facts[id].status == target;
      return Some(1);
    }

    // One row of the loop of _forget_subject.
    method DisableRow(scope: Scope, i: FactId)
      modifies this`facts
      ensures View() == DisabledOne(old(View()), scope, i)
    {
      if i in facts && facts[i].scope == scope && (facts[i].status == Active || facts[i].status == Candidate) {
        NeedsNoEntry(View(), i, Disabled);
        var raised := TransitionFactStatus(i, Disabled);
      }
    }

    // _forget_subject
    method ForgetEverything(scope: Scope, m: Mode)
      requires Inv(View())
      modifies this`facts, this`sets, this`aliases
      ensures View() == ForgottenSubject(old(View()), scope, m) && Inv(View())
    {
      ForgetSubjectStep(View(), scope, m);
      if m == Delete {
        facts := map i | i in facts && facts[i].scope != scope :: facts[i];
        sets := map s | s in sets && sets[s].scope != scope :: sets[s];
        aliases := map k | k in aliases && k.scope != scope :: aliases[k];
        return;
      }
      for i := 0 to nextFact
        invariant View() == DisabledBelow(old(View()), scope, i)
      {
        DisableRow(scope, i);
      }
    }
  }

  lemma FeedAllPrefix(pr: Progress, e: SourceEvent, raws: seq<Raw>, n: nat)
    requires 0 < n <= |raws|
    ensures FeedAll(pr, e, raws[..n]) == Feed(FeedAll(pr, e, raws[..n - 1]), e, raws[n - 1])
  {
    assert raws[..n][..n - 1] == raws[..n - 1];
  }

  // Once a job has failed, the rest of its input changes nothing.
  lemma {:induction false} FeedAllFails(pr: Progress, e: SourceEvent, raws: seq<Raw>, n: nat)
    requires n <= |raws| && FeedAll(pr, e, raws[..n]).failed
    ensures FeedAll(pr, e, raws) == FeedAll(pr, e, raws[..n])
    decreases |raws| - n
  {
    if n == |raws| {
      assert raws[..n] == raws;
    } else {
      FeedAllPrefix(pr, e, raws, n + 1);
      FeedAllFails(pr, e, raws, n + 1);
    }
  }

  lemma FeedBatchPrefix(pr: Progress, batch: seq<Extraction>, n: nat)
    requires 0 < n <= |batch|
    ensures FeedBatch(pr, batch[..n]) == FeedAll(FeedBatch(pr, batch[..n - 1]), batch[n - 1].event, batch[n - 1].raws)
  {
    assert batch[..n][..n - 1] == batch[..n - 1];
  }

  lemma {:induction false} FeedBatchFails(pr: Progress, batch: seq<Extraction>, n: nat)
    requires n <= |batch| && FeedBatch(pr, batch[..n]).failed
    ensures FeedBatch(pr, batch).failed
    decreases |batch| - n
  {
    if n == |batch| {
      assert batch[..n] == batch;
    } else {
      FeedBatchPrefix(pr, batch, n + 1);
      var q := FeedBatch(pr, batch[..n]);
      assert batch[n].raws[..0] == [];
      FeedAllFails(q, batch[n].event, batch[n].raws, 0);
      FeedBatchFails(pr, batch, n + 1);
    }
  }
}
