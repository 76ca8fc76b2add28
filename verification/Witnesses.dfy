// Concrete runs in which the write path does less than its comments promise.
module Witnesses {
  import opened Rows
  import opened Lifecycle
  import opened Matching
  import opened Adjudication
  import opened Invariants
  import opened Rescoping
  import opened Runs
  import Subjects

  const HERE := Scope("project", "subject")
  const NO_PICKS := Picks(0, 0, 0, None, 0, 0)

  function Says(pred: string, v: string): Claim {
    Claim(pred, map["v" := Data(v)], map[], Create, None, None, None, None, None, None)
  }

  function From(id: EventId, o: Origin): SourceEvent {
    SourceEvent(id, HERE, id, o, None)
  }

  function ToldBy(e: SourceEvent, c: Claim): Step {
    Consolidate(0, [Extraction(e, [Proposed(c, false, false, NO_PICKS)])])
  }

  function Told(pred: string, v: string, id: EventId, o: Origin): Step {
    ToldBy(From(id, o), Says(pred, v))
  }

  lemma OneClaim(t: Tables, c: Claim, e: SourceEvent)
    requires t.now == 0 && c.kind.None?
    ensures var r, v := Consolidated(t, 0, [Extraction(e, [Proposed(c, false, false, NO_PICKS)])]),
            Apply(t, c, e, NO_PICKS);
            r.failed == v.outcome.Aborted? && r.tables == if v.outcome.Aborted? then t else v.tables
  {
    var raws := [Proposed(c, false, false, NO_PICKS)];
    var batch := [Extraction(e, raws)];
    var pr := Progress(t, ZERO, false);
    assert t.(now := 0) == t;
    assert raws[..0] == [] && batch[..0] == [];
    assert FeedAll(pr, e, raws) == Feed(pr, e, raws[0]);
    assert FeedBatch(pr, batch) == FeedAll(FeedBatch(pr, batch[..0]), e, raws);
  }

  const FIRST := Moved(Draft(Says("city", "A"), From(0, ThirdParty), None, 0), Active, 0)
  const SECOND := Draft(Says("city", "B"), From(1, Trusted), Some(FIRST), 0)
  const ONE_FACT := Tables(map[0 := FIRST], map[], map[], 1, 0, 0)
  const PAIR := ConflictSet(HERE, [0, 1], Open, Contradiction)
  const CONTESTED := Tables(map[0 := FIRST, 1 := SECOND], map[0 := PAIR], map[], 2, 1, 0)

  lemma FirstIsActivated()
    ensures Apply(EMPTY, Says("city", "A"), From(0, ThirdParty), NO_PICKS) == Verdict(ONE_FACT, Activated(0))
  {
    var draft := Draft(Says("city", "A"), From(0, ThirdParty), None, 0);
    assert !Occupied(Insert(EMPTY, draft), 0, FIRST);
    assert WithFact(Insert(EMPTY, draft), 0, FIRST) == ONE_FACT;
  }

  lemma NotTheSameValue()
    ensures Says("city", "A").value != Says("city", "B").value && Says("city", "A").value != Says("city", "C").value
    ensures Says("city", "B").value != Says("city", "C").value
    ensures IdentityQualifiers(FIRST.qualifiers) == map[] && IdentityQualifiers(SECOND.qualifiers) == map[]
  {
    assert Says("city", "A").value["v"] == Data("A") && Says("city", "B").value["v"] == Data("B");
    assert Says("city", "C").value["v"] == Data("C");
    assert "A" != "B" && "A" != "C" && "B" != "C";
  }

  lemma SecondIsContested()
    ensures Apply(ONE_FACT, Says("city", "B"), From(1, Trusted), NO_PICKS) == Verdict(CONTESTED, Contested(1, 0, 0))
  {
    NotTheSameValue();
    var q := CurrentQuery(HERE, "city", map[]);
    assert SelectBelow(ONE_FACT, q, 0, 0) == None;
    assert Select(ONE_FACT, q, 0) == Some(0);
    var d := DuplicateQuery(HERE, "city", map[], Says("city", "B").value);
    assert SelectBelow(ONE_FACT, d, 0, 0) == None;
    assert Select(ONE_FACT, d, 0) == None;
    assert OpenSetOf(ONE_FACT, HERE, 0) == None;
    assert Existing(ONE_FACT, Says("city", "B"), From(1, Trusted), NO_PICKS) == Resolved(ONE_FACT, Some(0));
    assert Contradict(ONE_FACT, SECOND, 0) == Verdict(CONTESTED, Contested(1, 0, 0));
  }

  function Dispute(second: Fact): Tables {
    CONTESTED.(facts := map[0 := FIRST, 1 := second])
  }

  // A third value meets the first fact of the dispute, and their open set.
  lemma ThirdMeetsFirst(second: Fact)
    requires second.pred == "city" && second.value == Says("city", "B").value && second.status != Active
    ensures var t, c, e := Dispute(second), Says("city", "C"), From(2, ThirdParty);
            && Select(t, DuplicateQuery(HERE, "city", map[], c.value), 0) == None
            && Existing(t, c, e, NO_PICKS) == Resolved(t, Some(0)) && OpenSetOf(t, HERE, 0) == Some(0)
  {
    NotTheSameValue();
    var t, c := Dispute(second), Says("city", "C");
    var q, d := CurrentQuery(HERE, "city", map[]), DuplicateQuery(HERE, "city", map[], c.value);
    assert SelectBelow(t, q, 0, 0) == None && SelectBelow(t, q, 0, 1) == Some(0);
    assert Select(t, q, 0) == Some(0);
    assert SelectBelow(t, d, 0, 0) == None && SelectBelow(t, d, 0, 1) == None;
    assert OpenSetBelow(t, HERE, 0, 0) == None;
  }

  lemma ThirdSettles(second: Fact)
    requires second.pred == "city" && second.value == Says("city", "B").value && second.status != Active
    ensures var t, c, e := Dispute(second), Says("city", "C"), From(2, ThirdParty);
            Apply(t, c, e, NO_PICKS) == Overflow(t, Draft(c, e, Some(FIRST), 0), 0, 0)
  {
    ThirdMeetsFirst(second);
    ThirdContradicts(Dispute(second));
  }

  lemma ThirdContradicts(t: Tables)
    requires 0 in t.facts && t.facts[0] == FIRST && t.now == 0 && OpenSetOf(t, HERE, 0) == Some(0)
    requires 0 in t.sets && |t.sets[0].members| == 2
    ensures var c, e := Says("city", "C"), From(2, ThirdParty);
            Settle(t, Some(0), c, e) == Overflow(t, Draft(c, e, Some(FIRST), 0), 0, 0)
  {
    NotTheSameValue();
  }

  lemma ThirdOverflows()
    ensures var v := Apply(CONTESTED, Says("city", "C"), From(2, ThirdParty), NO_PICKS);
            v.outcome == Overflowed(2, 0, 1, 0) && 1 in v.tables.facts && v.tables.facts[1].status == Active
  {
    ThirdSettles(SECOND);
    OverflowOfPair(Draft(Says("city", "C"), From(2, ThirdParty), Some(FIRST), 0));
  }

  lemma OverflowOfPair(draft: Fact)
    requires draft.status == Candidate
    ensures var v := Overflow(CONTESTED, draft, 0, 0);
            v.outcome == Overflowed(2, 0, 1, 0) && 1 in v.tables.facts && v.tables.facts[1].status == Active
  {
    OverflowIs(CONTESTED, draft, 0, 1, 0);
  }

  lemma RunTwo(t: Tables, a: Step, b: Step)
    ensures Run(t, [a, b]) == Do(Do(t, a), b)
  {
    assert [a, b][1..] == [b] && [b][1..] == [];
    assert Run(Do(t, a), [b]) == Run(Do(Do(t, a), b), []);
  }

  lemma TwoSteps()
    ensures Run(EMPTY, [Told("city", "A", 0, ThirdParty), Told("city", "B", 1, Trusted)]) == CONTESTED
  {
    FirstIsActivated();
    SecondIsContested();
    OneClaim(EMPTY, Says("city", "A"), From(0, ThirdParty));
    OneClaim(ONE_FACT, Says("city", "B"), From(1, Trusted));
    var steps := [Told("city", "A", 0, ThirdParty), Told("city", "B", 1, Trusted)];
    RunTwo(EMPTY, steps[0], steps[1]);
  }

  // A third party states a value, the subject disputes it, and a third party's
  // next value puts the subject's held fact into service: an event of lower rank
  // does change a higher-ranked fact's status.
  lemma ThirdPartyActivatesTrustedFact()
    ensures var before := Run(EMPTY, [Told("city", "A", 0, ThirdParty), Told("city", "B", 1, Trusted)]);
            var after := Do(before, Told("city", "C", 2, ThirdParty));
            && 1 in before.facts && before.facts[1].origin == Trusted && before.facts[1].status == Candidate
            && 1 in after.facts && after.facts[1].status == Active
  {
    TwoSteps();
    ThirdOverflows();
    OneClaim(CONTESTED, Says("city", "C"), From(2, ThirdParty));
  }

  // The subject's held fact is forgotten while it waits.
  const FORGOTTEN := Moved(SECOND, Deleted, 0)
  const DISPUTE_FORGOTTEN := Dispute(FORGOTTEN)

  lemma ThirdIsRefused()
    ensures Apply(DISPUTE_FORGOTTEN, Says("city", "C"), From(2, ThirdParty), NO_PICKS).outcome
         == Aborted(IllegalTransition(Deleted, Active))
  {
    ThirdSettles(FORGOTTEN);
    RefusedOverflow(Draft(Says("city", "C"), From(2, ThirdParty), Some(FIRST), 0));
  }

  lemma RefusedOverflow(draft: Fact)
    requires draft.status == Candidate
    ensures Overflow(DISPUTE_FORGOTTEN, draft, 0, 0).outcome == Aborted(IllegalTransition(Deleted, Active))
  {
    OverflowIs(DISPUTE_FORGOTTEN, draft, 0, 1, 0);
  }

  lemma RunThree(t: Tables, a: Step, b: Step, c: Step)
    ensures Run(t, [a, b, c]) == Do(Do(Do(t, a), b), c)
  {
    assert [a, b, c][1..] == [b, c];
    RunTwo(Do(t, a), b, c);
  }

  // Once the waiting fact of a dispute has been deleted, the next value makes
  // its whole job fail.
  lemma DeletedWaiterBlocksTheJob()
    ensures var steps := [Told("city", "A", 0, ThirdParty), Told("city", "B", 1, Trusted),
            ForgetFact("project", 1, Delete)];
            var before := Run(EMPTY, steps);
            var job := Told("city", "C", 2, ThirdParty);
            Consolidated(before, job.now, job.batch).failed && Do(before, job) == before
  {
    TwoSteps();
    var a, b, c := Told("city", "A", 0, ThirdParty), Told("city", "B", 1, Trusted), ForgetFact("project", 1, Delete);
    RunTwo(EMPTY, a, b);
    RunThree(EMPTY, a, b, c);
    assert Do(CONTESTED, c) == DISPUTE_FORGOTTEN;
    ThirdIsRefused();
    OneClaim(DISPUTE_FORGOTTEN, Says("city", "C"), From(2, ThirdParty));
  }

  // The same person under two ids, with a city each.
  const THERE := Scope("project", "other")
  const ELSEWHERE := SourceEvent(1, THERE, 1, ThirdParty, None)
  const MOVED_IN := Moved(Draft(Says("city", "B"), ELSEWHERE, None, 0), Active, 0)
  const TWO_CITIES := Tables(map[0 := FIRST, 1 := MOVED_IN], map[], map[], 2, 0, 0)

  lemma OtherIsActivated()
    ensures Apply(ONE_FACT, Says("city", "B"), ELSEWHERE, NO_PICKS) == Verdict(TWO_CITIES, Activated(1))
  {
    var c := Says("city", "B");
    var q, d := CurrentQuery(THERE, "city", map[]), DuplicateQuery(THERE, "city", map[], c.value);
    var a := AmbiguousQuery(THERE, "city", map[], c.value);
    assert SelectBelow(ONE_FACT, q, 0, 0) == None && SelectBelow(ONE_FACT, d, 0, 0) == None
           && SelectBelow(ONE_FACT, a, 0, 0) == None;
    assert Select(ONE_FACT, q, 0) == None && Select(ONE_FACT, d, 0) == None && Select(ONE_FACT, a, 0) == None;
    assert Existing(ONE_FACT, c, ELSEWHERE, NO_PICKS) == Resolved(ONE_FACT, None);
    var draft := Draft(c, ELSEWHERE, None, 0);
    assert !Occupied(Insert(ONE_FACT, draft), 1, MOVED_IN);
    assert WithFact(Insert(ONE_FACT, draft), 1, MOVED_IN) == TWO_CITIES;
  }

  lemma CitiesClash()
    ensures IndexRefuses(RescopedLedger(TWO_CITIES, HERE, THERE))
  {
    var t := RescopedLedger(TWO_CITIES, HERE, THERE);
    assert IdentityQualifiers(FIRST.qualifiers) == IdentityQualifiers(MOVED_IN.qualifiers);
    assert Clash(t.facts[0], t.facts[1]);
  }

  // Two ids of one person that each have a city cannot be merged, whatever else
  // is stored about them.
  lemma TwoCitiesCannotMerge(r: Subjects.Registry)
    requires r.ledger == Run(EMPTY, [Told("city", "A", 0, ThirdParty), ToldBy(ELSEWHERE, Says("city", "B"))])
    ensures Subjects.MergeSubjects(r, "project", "subject", "other") == Subjects.MergeRefused
  {
    FirstIsActivated();
    OtherIsActivated();
    OneClaim(EMPTY, Says("city", "A"), From(0, ThirdParty));
    OneClaim(ONE_FACT, Says("city", "B"), ELSEWHERE);
    RunTwo(EMPTY, Told("city", "A", 0, ThirdParty), ToldBy(ELSEWHERE, Says("city", "B")));
    CitiesClash();
  }
}
