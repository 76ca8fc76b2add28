// Whole runs of the ledger: consolidation jobs (app/consolidator/__init__.py:1471-1731),
// feedback (app/ledger/feedback.py:54-69), forget (app/ledger/forget.py:94-231) and
// subject merges (app/ledger/subjects.py:143-212).
module Runs {
  import opened Rows
  import opened Lifecycle
  import opened Matching
  import opened Adjudication
  import opened Invariants
  import opened Verdicts
  import opened Guarantees
  import opened Rescoping

  // One raw candidate of the extractor. `directive` and `echo` are what the text
  // pattern net and the anti-echo search answer for it.
  datatype Raw = Invalid | Declined | Proposed(claim: Claim, directive: bool, echo: bool, picks: Picks)

  // The write gate: everything that never reaches the ledger.
  predicate Screened(e: SourceEvent, raw: Raw) {
    match raw
    case Invalid => true
    case Declined => true
    case Proposed(c, directive, echo, _) =>
      || directive
      || (c.kind == Some(Instruction) && Rank(e.origin) < Rank(SemiTrusted))
      || (echo && c.action != Supersede)
  }

  datatype Tally = Tally(
    rejected: nat, duplicates: nat, reinforced: nat, quarantined: nat, created: nat, conflicts: nat,
    superseded: nat, reclassified: nat, mislabelled: nat)

  const ZERO := Tally(0, 0, 0, 0, 0, 0, 0, 0, 0)

  function Count(n: Tally, o: Outcome): Tally {
    match o
    case Duplicate(_) => n.(duplicates := n.duplicates + 1)
    case Reinforced(_) => n.(reinforced := n.reinforced + 1)
    case Held(_, _) => n.(quarantined := n.quarantined + 1)
    case Succeeded(_, _) => n.(created := n.created + 1, superseded := n.superseded + 1)
    case Mislabelled(_) => n.(created := n.created + 1, mislabelled := n.mislabelled + 1)
    case Activated(_) => n.(created := n.created + 1)
    case Contested(_, _, _) => n.(conflicts := n.conflicts + 1)
    case Appended(_, _, _) => n.(conflicts := n.conflicts + 1)
    case Overflowed(_, _, _, _) => n.(created := n.created + 1, reclassified := n.reclassified + 1)
    case Aborted(_) => n
  }

  // A job under way; `failed` once an exception has been raised.
  datatype Progress = Progress(tables: Tables, tally: Tally, failed: bool)

  function Feed(pr: Progress, e: SourceEvent, raw: Raw): Progress {
    if pr.failed then pr
    else if Screened(e, raw) then pr.(tally := pr.tally.(rejected := pr.tally.rejected + 1))
    else
      var v := Apply(pr.tables, raw.claim, e, raw.picks);
      if v.outcome.Aborted? then pr.(failed := true)
      else Progress(v.tables, Count(pr.tally, v.outcome), false)
  }

  function FeedAll(pr: Progress, e: SourceEvent, raws: seq<Raw>): Progress {
    if raws == [] then pr else Feed(FeedAll(pr, e, raws[..|raws| - 1]), e, raws[|raws| - 1])
  }

  datatype Extraction = Extraction(event: SourceEvent, raws: seq<Raw>)

  function FeedBatch(pr: Progress, batch: seq<Extraction>): Progress {
    if batch == [] then pr
    else
      var last := batch[|batch| - 1];
      FeedAll(FeedBatch(pr, batch[..|batch| - 1]), last.event, last.raws)
  }

  // One job inside its savepoint: a failure undoes everything it wrote.
  function Consolidated(t: Tables, now: int, batch: seq<Extraction>): Progress {
    var pr := FeedBatch(Progress(t.(now := now), ZERO, false), batch);
    if pr.failed then Progress(t, ZERO, true) else pr
  }

  datatype Mode = Disable | Delete

  function ForgetTarget(m: Mode): Status {
    if m == Disable then Disabled else Deleted
  }

  // rating "incorrect": a fact that may become disputed does.
  function Disputed_(t: Tables, project: string, id: FactId): Tables {
    if id !in t.facts || t.facts[id].scope.project != project || Disputed !in AllowedTransitions(t.facts[id].status)
        then t
    else WithFact(t, id, Moved(t.facts[id], Disputed, t.now))
  }

  function ForgottenFact(t: Tables, project: string, id: FactId, m: Mode): Tables {
    if id !in t.facts || t.facts[id].scope.project != project || t.facts[id].status == ForgetTarget(m)
       || ForgetTarget(m) !in AllowedTransitions(t.facts[id].status) then t
    else WithFact(t, id, Moved(t.facts[id], ForgetTarget(m), t.now))
  }

  function DisabledOne(t: Tables, scope: Scope, i: FactId): Tables {
    if i in t.facts && t.facts[i].scope == scope && (t.facts[i].status == Active || t.facts[i].status == Candidate)
    then WithFact(t, i, Moved(t.facts[i], Disabled, t.now)) else t
  }

  function DisabledBelow(t: Tables, scope: Scope, n: nat): Tables {
    if n == 0 then t else DisabledOne(DisabledBelow(t, scope, n - 1), scope, n - 1)
  }

  function Erased(t: Tables, scope: Scope): Tables {
    t.(facts := map i | i in t.facts && t.facts[i].scope != scope :: t.facts[i],
       sets := map s | s in t.sets && t.sets[s].scope != scope :: t.sets[s],
       aliases := map k | k in t.aliases && k.scope != scope :: t.aliases[k])
  }

  function ForgottenSubject(t: Tables, scope: Scope, m: Mode): Tables {
    if m == Disable then DisabledBelow(t, scope, t.nextFact) else Erased(t, scope)
  }

  // A merge that is invalid or that the index refuses rolls back.
  function MergedLedger(t: Tables, project: string, source: string, target: string): Tables {
    var moved := RescopedLedger(t, Scope(project, source), Scope(project, target));
    if source == "" || target == "" || source == target || IndexRefuses(moved) then t else moved
  }

  datatype Step =
    | Consolidate(now: int, batch: seq<Extraction>)
    | Feedback(project: string, id: FactId)
    | ForgetFact(project: string, id: FactId, mode: Mode)
    | ForgetSubject(scope: Scope, mode: Mode)
    | Merge(project: string, source: string, target: string)

  function Do(t: Tables, s: Step): Tables {
    match s
    case Consolidate(now, batch) => Consolidated(t, now, batch).tables
    case Feedback(project, id) => Disputed_(t, project, id)
    case ForgetFact(project, id, m) => ForgottenFact(t, project, id, m)
    case ForgetSubject(scope, m) => ForgottenSubject(t, scope, m)
    case Merge(project, source, target) => MergedLedger(t, project, source, target)
  }

  function Run(t: Tables, steps: seq<Step>): Tables
    decreases |steps|
  {
    if steps == [] then t else Run(Do(t, steps[0]), steps[1..])
  }

  // A row that remains keeps what it was born with, its subject apart: a merge
  // may move it to another one of the same project.
  ghost predicate Endures(f: Fact, g: Fact) {
    g.scope.project == f.scope.project && Lasting(f, g.(scope := f.scope))
  }

  // What every step guarantees between two states: no number is reused, rows
  // that remain endure, and a retired row stays retired.
  ghost predicate Retired(t: Tables, id: FactId) {
    id in t.facts && (t.facts[id].status == Deleted || Replaced(t, id))
  }

  ghost predicate Later(t: Tables, t': Tables) {
    && t.nextFact <= t'.nextFact
    && (forall i :: i in t'.facts && i < t.nextFact ==> i in t.facts && Endures(t.facts[i], t'.facts[i]))
    && (forall i :: i in t'.facts && Retired(t, i) ==> Retired(t', i))
  }

  lemma LaterTransitive(a: Tables, b: Tables, c: Tables)
    requires Later(a, b) && Later(b, c) && Numbered(a)
    ensures Later(a, c)
  {
  }

  lemma FeedStep(pr: Progress, e: SourceEvent, raw: Raw)
    requires Inv(pr.tables)
    ensures var r := Feed(pr, e, raw); Inv(r.tables) && Later(pr.tables, r.tables)
  {
    if !pr.failed && !Screened(e, raw) {
      var v := Apply(pr.tables, raw.claim, e, raw.picks);
      ApplyStep(pr.tables, raw.claim, e, raw.picks);
      ExplainedLater(pr.tables, e, v);
    }
  }

  lemma ExplainedLater(t: Tables, e: SourceEvent, v: Verdict)
    requires Inv(t) && Explained(t, e, v)
    ensures Later(t, v.tables)
  {
    ExplainedGrows(t, e, v);
    var t' := v.tables;
    forall i | i in t'.facts && Retired(t, i) ensures Retired(t', i) {
      if Replaced(t, i) {
        var j :| Replaces(t, j, i);
        assert Replaces(t', j, i);
      } else {
        ExplainedRevival(t, e, v, i);
      }
    }
  }

  lemma {:induction false} FeedAllStep(pr: Progress, e: SourceEvent, raws: seq<Raw>)
    requires Inv(pr.tables)
    ensures var r := FeedAll(pr, e, raws); Inv(r.tables) && Later(pr.tables, r.tables)
  {
    if raws != [] {
      FeedAllStep(pr, e, raws[..|raws| - 1]);
      var q := FeedAll(pr, e, raws[..|raws| - 1]);
      FeedStep(q, e, raws[|raws| - 1]);
      LaterTransitive(pr.tables, q.tables, Feed(q, e, raws[|raws| - 1]).tables);
    }
  }

  lemma {:induction false} FeedBatchStep(pr: Progress, batch: seq<Extraction>)
    requires Inv(pr.tables)
    ensures var r := FeedBatch(pr, batch); Inv(r.tables) && Later(pr.tables, r.tables)
  {
    if batch != [] {
      FeedBatchStep(pr, batch[..|batch| - 1]);
      var q, last := FeedBatch(pr, batch[..|batch| - 1]), batch[|batch| - 1];
      FeedAllStep(q, last.event, last.raws);
      LaterTransitive(pr.tables, q.tables, FeedAll(q, last.event, last.raws).tables);
    }
  }

  lemma WithdrawStep(t: Tables, id: FactId, to: Status)
    requires Inv(t) && id in t.facts && Withdrawn(to) && (t.facts[id].status == Deleted ==> to == Deleted)
    ensures var t' := WithFact(t, id, Moved(t.facts[id], to, t.now)); Inv(t') && Later(t, t')
  {
    WithdrawKeeps(t, id, to);
    var t' := WithFact(t, id, Moved(t.facts[id], to, t.now));
    forall i | i in t'.facts && Retired(t, i) ensures Retired(t', i) {
      if Replaced(t, i) {
        var j :| Replaces(t, j, i);
        assert Replaces(t', j, i);
      }
    }
  }

  ghost predicate Reaches(t: Tables, r: Tables) {
    Inv(r) && Later(t, r)
  }

  lemma DisabledOneStep(t: Tables, r: Tables, scope: Scope, i: FactId)
    requires Inv(t) && Reaches(t, r)
    ensures Reaches(t, DisabledOne(r, scope, i))
  {
    if DisabledOne(r, scope, i) != r {
      WithdrawStep(r, i, Disabled);
      LaterTransitive(t, r, DisabledOne(r, scope, i));
    }
  }

  lemma {:induction false} DisabledBelowStep(t: Tables, scope: Scope, n: nat)
    requires Inv(t) && Reaches(t, t)
    ensures Reaches(t, DisabledBelow(t, scope, n))
  {
    if n > 0 {
      DisabledBelowStep(t, scope, n - 1);
      DisabledOneStep(t, DisabledBelow(t, scope, n - 1), scope, n - 1);
    }
  }

  // Erasing a subject breaks no link: chains never leave their scope.
  lemma ErasedStep(t: Tables, scope: Scope)
    requires Inv(t)
    ensures Inv(Erased(t, scope)) && Later(t, Erased(t, scope))
  {
    var t' := Erased(t, scope);
    ErasedLinks(t, scope);
    ErasedSets(t, scope);
    assert RowsOk(t') by {
      assert forall i :: i in t.facts ==> RowOk(t.facts[i]);
    }
    forall i, j | i in t'.facts && j in t'.facts && Clash(t'.facts[i], t'.facts[j]) ensures i == j {
      assert Clash(t.facts[i], t.facts[j]);
    }
  }

  lemma ErasedLinks(t: Tables, scope: Scope)
    requires Numbered(t) && ChainsOk(t)
    ensures ChainsOk(Erased(t, scope)) && Later(t, Erased(t, scope))
  {
    var t' := Erased(t, scope);
    assert forall i, o :: Replaces(t', i, o) ==> Replaces(t, i, o);
    forall o | o in t'.facts && Replaced(t, o) ensures Replaced(t', o) {
      var i :| Replaces(t, i, o);
      assert Replaces(t', i, o);
    }
  }

  lemma ErasedSets(t: Tables, scope: Scope)
    requires SetsOk(t) && NoOrphans(t) && ChainsOk(t)
    ensures SetsOk(Erased(t, scope)) && NoOrphans(Erased(t, scope))
  {
    var t' := Erased(t, scope);
    forall o | Replaced(t', o) ensures Replaced(t, o) {
      var i :| Replaces(t', i, o);
      assert Replaces(t, i, o);
    }
    forall s | s in t'.sets ensures SetOk(t', t'.sets[s]) {
      assert SetOk(t, t.sets[s]);
    }
    assert forall a, b, m :: SharedMember(t', a, b, m) ==> SharedMember(t, a, b, m);
    forall i | i in t'.facts && t'.facts[i].status == Candidate ensures InOpenSet(t', i) {
      assert InOpenSet(t, i);
      var s :| s in t.sets && t.sets[s].status == Open && i in t.sets[s].members;
      assert SetOk(t, t.sets[s]);
      assert s in t'.sets && t'.sets[s] == t.sets[s];
    }
  }

  lemma MergeStep(t: Tables, project: string, source: string, target: string)
    requires Inv(t)
    ensures var t' := MergedLedger(t, project, source, target); Inv(t') && Later(t, t')
  {
    var from, to := Scope(project, source), Scope(project, target);
    if !IndexRefuses(RescopedLedger(t, from, to)) {
      RescopeKeeps(t, from, to);
      RescopedLater(t, from, to);
    }
  }

  lemma RescopedLater(t: Tables, from: Scope, to: Scope)
    requires from.project == to.project
    ensures Later(t, RescopedLedger(t, from, to))
  {
    var t' := RescopedLedger(t, from, to);
    RescopedLinks(t, from, to);
    forall i | i in t.facts ensures Endures(t.facts[i], t'.facts[i]) {
    }
    forall i | i in t'.facts && Retired(t, i) ensures Retired(t', i) {
    }
  }

  lemma ConsolidateStep(t: Tables, now: int, batch: seq<Extraction>)
    requires Inv(t)
    ensures var t' := Consolidated(t, now, batch).tables; Inv(t') && Later(t, t')
  {
    var t1 := t.(now := now);
    InvIgnoresAliases(t, t1);
    assert Later(t, t1) by {
      assert forall i, o :: Replaces(t1, i, o) <==> Replaces(t, i, o);
    }
    FeedBatchStep(Progress(t1, ZERO, false), batch);
    LaterTransitive(t, t1, FeedBatch(Progress(t1, ZERO, false), batch).tables);
  }

  lemma FeedbackStep(t: Tables, project: string, id: FactId)
    requires Inv(t)
    ensures var t' := Disputed_(t, project, id); Inv(t') && Later(t, t')
  {
    if Disputed_(t, project, id) != t {
      WithdrawStep(t, id, Disputed);
    }
  }

  lemma ForgetFactStep(t: Tables, project: string, id: FactId, m: Mode)
    requires Inv(t)
    ensures var t' := ForgottenFact(t, project, id, m); Inv(t') && Later(t, t')
  {
    if ForgottenFact(t, project, id, m) != t {
      WithdrawStep(t, id, ForgetTarget(m));
    }
  }

  lemma ForgetSubjectStep(t: Tables, scope: Scope, m: Mode)
    requires Inv(t)
    ensures var t' := ForgottenSubject(t, scope, m); Inv(t') && Later(t, t')
  {
    if m == Disable {
      assert Reaches(t, t);
      DisabledBelowStep(t, scope, t.nextFact);
    } else {
      ErasedStep(t, scope);
    }
  }

  lemma DoStep(t: Tables, s: Step)
    requires Inv(t)
    ensures Inv(Do(t, s)) && Later(t, Do(t, s))
  {
    match s
    case Consolidate(now, batch) => ConsolidateStep(t, now, batch);
    case Feedback(project, id) => FeedbackStep(t, project, id);
    case ForgetFact(project, id, m) => ForgetFactStep(t, project, id, m);
    case ForgetSubject(scope, m) => ForgetSubjectStep(t, scope, m);
    case Merge(project, source, target) => MergeStep(t, project, source, target);
  }

  // The invariant holds after every run, from the empty ledger on.
  lemma {:induction false} RunKeeps(t: Tables, steps: seq<Step>)
    requires Inv(t)
    ensures Inv(Run(t, steps)) && Later(t, Run(t, steps))
    decreases |steps|
  {
    if steps != [] {
      var t1 := Do(t, steps[0]);
      DoStep(t, steps[0]);
      RunKeeps(t1, steps[1..]);
      LaterTransitive(t, t1, Run(t1, steps[1..]));
    }
  }

  lemma EmptyOk()
    ensures Inv(EMPTY)
  {
    assert forall o :: !Replaced(EMPTY, o);
  }
}
