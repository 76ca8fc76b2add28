// Channel aliases and subject merges (app/ledger/subjects.py:43-280).
module Subjects {
  import opened Rows
  import opened Matching
  import opened Invariants
  import opened Rescoping

  const TOMBSTONE_KIND := "subject"

  datatype AliasRef = AliasRef(project: string, kind: string, value: string)
  type Aliases = map<AliasRef, string>

  datatype Answer =
    | Found(canonical: string)
    | Registered(canonical: string)
    | Unknown
    | AliasConflict
    | SelfRegistrationTooLong

  // One alias lookup. `raced` is the id a concurrent registration committed
  // between the read and the insert, which then does nothing.
  function ResolveAlias(a: Aliases, ref: AliasRef, canonical: Option<string>, register: bool,
      raced: Option<string>): (Aliases, Answer) {
    if ref in a then
      (a, if canonical.Some? && canonical.value != a[ref] then AliasConflict else Found(a[ref]))
    else if !register then (a, Unknown)
    else
      var c := if canonical.None? || canonical.value == "" then ref.kind + ":" + ref.value else canonical.value;
      if canonical.None? && |c| > 128 then (a, SelfRegistrationTooLong)
      else if raced.None? then (a[ref := c], Registered(c))
      else (a[ref := raced.value], if canonical.Some? && raced.value != c then AliasConflict else Found(raced.value))
  }

  // Resolution never re-points an alias, and once an alias is known every later
  // caller that names no id, or the right one, finds the same id.
  lemma ResolutionIsStable(a: Aliases, ref: AliasRef, c: Option<string>, reg: bool, raced: Option<string>,
                           c': Option<string>, reg': bool, raced': Option<string>)
    ensures var (b, r) := ResolveAlias(a, ref, c, reg, raced);
            && (forall k :: k in a ==> k in b && b[k] == a[k])
            && (forall k :: k in b && k != ref ==> k in a)
            && (r.Found? || r.Registered? ==> ref in b && b[ref] == r.canonical)
            && (ref in b ==> ResolveAlias(b, ref, c', reg', raced')
                               == (b, if c'.None? || c'.value == b[ref] then Found(b[ref]) else AliasConflict))
  {
  }

  datatype Chunk = Chunk(event: EventId, scope: Scope)
  datatype Receipt = Receipt(from: Scope, to: Scope, events: set<EventId>, facts: set<FactId>, sets: set<SetId>,
                             traces: set<nat>, aliases: set<AliasRef>)
  datatype Registry = Registry(ledger: Tables, events: map<EventId, Scope>, chunks: map<nat, Chunk>,
                               traces: map<nat, Scope>, aliases: Aliases, receipts: seq<Receipt>)

  function Repointed(a: Aliases, project: string, source: string, target: string): Aliases {
    map k | k in a :: if k.project == project && a[k] == source then target else a[k]
  }

  // The tombstone insert does nothing when the key is taken.
  function Buried(a: Aliases, project: string, source: string, target: string): Aliases {
    var k := AliasRef(project, TOMBSTONE_KIND, source);
    if k in a then a else a[k := target]
  }

  // What the merge is about to change.
  function ReceiptOf(r: Registry, from: Scope, to: Scope): Receipt {
    Receipt(from, to,
      set e | e in r.events && r.events[e] == from,
      set f | f in r.ledger.facts && r.ledger.facts[f].scope == from,
      set s | s in r.ledger.sets && r.ledger.sets[s].scope == from,
      set x | x in r.traces && r.traces[x] == from,
      set k | k in r.aliases && k.project == from.project && r.aliases[k] == from.subject)
  }

  datatype MergeResult = Merged(registry: Registry) | InvalidMerge | MergeRefused

  function MergeSubjects(r: Registry, project: string, source: string, target: string): MergeResult {
    if source == "" || target == "" || source == target then InvalidMerge
    else
      var from, to := Scope(project, source), Scope(project, target);
      var ledger := RescopedLedger(r.ledger, from, to);
      if IndexRefuses(ledger) then MergeRefused
      else
        Merged(Registry(ledger,
          map e | e in r.events :: Rescoped(r.events[e], from, to),
          map c | c in r.chunks :: r.chunks[c].(scope := Rescoped(r.chunks[c].scope, from, to)),
          map x | x in r.traces :: Rescoped(r.traces[x], from, to),
          Buried(Repointed(r.aliases, project, source, target), project, source, target),
          r.receipts + [ReceiptOf(r, from, to)]))
  }

  // The receipt lists exactly the rows and aliases that the merge changed.
  lemma ReceiptIsExact(r: Registry, project: string, source: string, target: string)
    requires MergeSubjects(r, project, source, target).Merged?
    ensures var n := MergeSubjects(r, project, source, target).registry; var c := n.receipts[|r.receipts|];
            && n.receipts == r.receipts + [c]
            && (forall e :: e in c.events <==> e in r.events && n.events[e] != r.events[e])
            && (forall f :: f in c.facts <==> f in r.ledger.facts && n.ledger.facts[f] != r.ledger.facts[f])
            && (forall s :: s in c.sets <==> s in r.ledger.sets && n.ledger.sets[s] != r.ledger.sets[s])
            && (forall x :: x in c.traces <==> x in r.traces && n.traces[x] != r.traces[x])
            && (forall k :: k in c.aliases <==> k in r.aliases && n.aliases[k] != r.aliases[k])
  {
  }

  // A merge is refused by the index if and only if source and target each serve
  // a state-form fact for one predicate and one set of qualifiers.
  lemma MergeRefusedIff(r: Registry, project: string, source: string, target: string)
    requires Inv(r.ledger) && source != "" && target != "" && source != target
    ensures MergeSubjects(r, project, source, target) == MergeRefused
       <==> exists i, j :: Collide(r.ledger, Scope(project, source), Scope(project, target), i, j)
  {
    var t, from, to := r.ledger, Scope(project, source), Scope(project, target);
    if IndexRefuses(RescopedLedger(t, from, to)) {
      RefusalMeansCollision(t, from, to);
    }
    if i, j :| Collide(t, from, to, i, j) {
      assert Clash(RescopedLedger(t, from, to).facts[i], RescopedLedger(t, from, to).facts[j]);
    }
  }

  lemma RefusalMeansCollision(t: Tables, from: Scope, to: Scope)
    requires OneActive(t) && from != to && IndexRefuses(RescopedLedger(t, from, to))
    ensures exists i, j :: Collide(t, from, to, i, j)
  {
    var t' := RescopedLedger(t, from, to);
    var i, j :| i in t'.facts && j in t'.facts && i != j && Clash(t'.facts[i], t'.facts[j]);
    assert !Clash(t.facts[i], t.facts[j]);
    assert Collide(t, from, to, i, j) || Collide(t, from, to, j, i);
  }

  predicate Collide(t: Tables, from: Scope, to: Scope, i: FactId, j: FactId) {
    && i in t.facts && j in t.facts && t.facts[i].scope == from && t.facts[j].scope == to
    && Indexed(t.facts[i]) && Indexed(t.facts[j]) && t.facts[i].pred == t.facts[j].pred
    && IdentityQualifiers(t.facts[i].qualifiers) == IdentityQualifiers(t.facts[j].qualifiers)
  }

  // A merge that goes through keeps the whole invariant of the ledger: chains
  // and conflict sets move as one.
  lemma MergeKeepsLedger(r: Registry, project: string, source: string, target: string)
    requires Inv(r.ledger) && MergeSubjects(r, project, source, target).Merged?
    ensures Inv(MergeSubjects(r, project, source, target).registry.ledger)
  {
    RescopeKeeps(r.ledger, Scope(project, source), Scope(project, target));
  }

  // Chunks carry a copy of their event's subject.
  ghost predicate ChunksInStep(r: Registry) {
    forall c :: c in r.chunks ==> r.chunks[c].event in r.events && r.chunks[c].scope == r.events[r.chunks[c].event]
  }

  // Where an id leads: its tombstone's target, or itself.
  function HomeOf(a: Aliases, s: Scope): Scope {
    var k := AliasRef(s.project, TOMBSTONE_KIND, s.subject);
    if k in a then Scope(s.project, a[k]) else s
  }

  predicate Live(a: Aliases, s: Scope) {
    HomeOf(a, s) == s
  }

  // Every alias leads to a live id: one hop always suffices.
  ghost predicate OneHop(a: Aliases) {
    forall k :: k in a ==> Live(a, Scope(k.project, a[k]))
  }

  function AliasesAfter(a: Aliases, project: string, source: string, target: string): Aliases {
    Buried(Repointed(a, project, source, target), project, source, target)
  }

  // A merge keeps every alias one hop from a live id and makes the source lead
  // to the target if and only if the source was live and the target live or
  // buried under the source, or the source was already buried under the target.
  lemma MergeDeliversIff(a: Aliases, project: string, source: string, target: string)
    requires OneHop(a) && source != target
    ensures var b := AliasesAfter(a, project, source, target);
            var from, to := Scope(project, source), Scope(project, target);
            (OneHop(b) && HomeOf(b, from) == to)
            <==> ((Live(a, from) && (Live(a, to) || HomeOf(a, to) == from)) || HomeOf(a, from) == to)
  {
    var b := AliasesAfter(a, project, source, target);
    var from, to := Scope(project, source), Scope(project, target);
    var kf, kt := AliasRef(project, TOMBSTONE_KIND, source), AliasRef(project, TOMBSTONE_KIND, target);
    assert kf in b;
    if HomeOf(a, from) == to {
      assert kf in a;
      assert Live(a, to);
      OnlyLiveNames(a, project, source, target);
    } else if Live(a, from) && (Live(a, to) || HomeOf(a, to) == from) {
      CleanMergeHomes(a, project, source, target);
    }
  }

  // No alias names a buried id, so merging one away moves no alias.
  lemma OnlyLiveNames(a: Aliases, project: string, source: string, target: string)
    requires OneHop(a) && !Live(a, Scope(project, source))
    ensures AliasesAfter(a, project, source, target) == a
  {
    forall k | k in a && k.project == project ensures a[k] != source {
      assert Live(a, Scope(k.project, a[k]));
    }
    assert Repointed(a, project, source, target) == a;
  }

  predicate CleanMerge(a: Aliases, project: string, source: string, target: string) {
    var from, to := Scope(project, source), Scope(project, target);
    source != target && Live(a, from) && (Live(a, to) || HomeOf(a, to) == from)
  }

  // Merging a live subject into a live one, or back into one it had absorbed,
  // substitutes the target for the source in every resolution.
  lemma CleanMergeHomes(a: Aliases, project: string, source: string, target: string)
    requires OneHop(a) && CleanMerge(a, project, source, target)
    ensures var b := AliasesAfter(a, project, source, target);
            && OneHop(b)
            && forall s :: HomeOf(b, s) == Rescoped(HomeOf(a, s), Scope(project, source), Scope(project, target))
  {
    var b := AliasesAfter(a, project, source, target);
    var from, to := Scope(project, source), Scope(project, target);
    forall s ensures HomeOf(b, s) == Rescoped(HomeOf(a, s), from, to) {
      var k := AliasRef(s.project, TOMBSTONE_KIND, s.subject);
      if k !in a && s != from {
        assert k !in b;
      }
    }
    forall k | k in b ensures Live(b, Scope(k.project, b[k])) {
      var s := Scope(k.project, b[k]);
      if k in a {
        assert Live(a, Scope(k.project, a[k]));
        assert HomeOf(b, s) == Rescoped(HomeOf(a, s), from, to);
      } else {
        assert s == to;
        assert HomeOf(b, s) == Rescoped(HomeOf(a, s), from, to);
      }
    }
  }

  datatype Step =
    | Resolve(ref: AliasRef, canonical: Option<string>, register: bool, raced: Option<string>)
    | Merge(project: string, source: string, target: string)

  // A merge that fails rolls back.
  function Do(r: Registry, x: Step): Registry {
    match x
    case Resolve(ref, c, reg, raced) => r.(aliases := ResolveAlias(r.aliases, ref, c, reg, raced).0)
    case Merge(p, s, t) =>
      match MergeSubjects(r, p, s, t)
      case Merged(n) => n
      case _ => r
  }

  function Run(r: Registry, steps: seq<Step>): Registry {
    if steps == [] then r else Do(Run(r, steps[..|steps| - 1]), steps[|steps| - 1])
  }

  // The merges of a run that went through, as one substitution on ids.
  function Followed(r: Registry, steps: seq<Step>, s: Scope): Scope {
    if steps == [] then s
    else
      var before, x := Run(r, steps[..|steps| - 1]), steps[|steps| - 1];
      var s' := Followed(r, steps[..|steps| - 1], s);
      if x.Merge? && MergeSubjects(before, x.project, x.source, x.target).Merged?
      then Rescoped(s', Scope(x.project, x.source), Scope(x.project, x.target)) else s'
  }

  // The same rows and at least the same aliases, each with its subject mapped by f.
  ghost predicate Shifted(r: Registry, n: Registry, f: Scope -> Scope) {
    && n.events.Keys == r.events.Keys && n.ledger.facts.Keys == r.ledger.facts.Keys
    && n.ledger.sets.Keys == r.ledger.sets.Keys && n.traces.Keys == r.traces.Keys
    && (forall e :: e in r.events ==> n.events[e] == f(r.events[e]))
    && (forall i :: i in r.ledger.facts ==>
       n.ledger.facts[i] == r.ledger.facts[i].(scope := f(r.ledger.facts[i].scope)))
    && (forall s :: s in r.ledger.sets ==> n.ledger.sets[s] == r.ledger.sets[s].(scope := f(r.ledger.sets[s].scope)))
    && (forall x :: x in r.traces ==> n.traces[x] == f(r.traces[x]))
    && (forall k :: k in r.aliases ==>
       k in n.aliases && Scope(k.project, n.aliases[k]) == f(Scope(k.project, r.aliases[k])))
  }

  lemma ShiftedTwice(r: Registry, m: Registry, n: Registry, f: Scope -> Scope, g: Scope -> Scope, h: Scope -> Scope)
    requires Shifted(r, m, f) && Shifted(m, n, g) && forall s :: h(s) == g(f(s))
    ensures Shifted(r, n, h)
  {
    forall k | k in r.aliases
      ensures k in n.aliases && Scope(k.project, n.aliases[k]) == h(Scope(k.project, r.aliases[k]))
    {
      assert k in m.aliases;
    }
  }

  lemma AliasesShift(a: Aliases, project: string, source: string, target: string, k: AliasRef)
    requires k in a
    ensures var b := AliasesAfter(a, project, source, target);
            k in b && Scope(k.project, b[k])
                == Rescoped(Scope(k.project, a[k]), Scope(project, source), Scope(project, target))
  {
  }

  lemma MergeShifts(r: Registry, project: string, source: string, target: string)
    requires ChunksInStep(r) && MergeSubjects(r, project, source, target).Merged?
    ensures var n := MergeSubjects(r, project, source, target).registry;
            ChunksInStep(n) && Shifted(r, n, (s: Scope) => Rescoped(s, Scope(project, source), Scope(project, target)))
  {
    var n := MergeSubjects(r, project, source, target).registry;
    assert n.aliases == AliasesAfter(r.aliases, project, source, target);
    forall k | k in r.aliases
      ensures k in n.aliases
      ensures Scope(k.project, n.aliases[k])
              == Rescoped(Scope(k.project, r.aliases[k]), Scope(project, source), Scope(project, target))
    {
      AliasesShift(r.aliases, project, source, target, k);
    }
  }

  lemma ResolveShifts(r: Registry, x: Step)
    requires ChunksInStep(r) && x.Resolve?
    ensures ChunksInStep(Do(r, x)) && Shifted(r, Do(r, x), (s: Scope) => s)
  {
  }

  lemma ShiftedAlike(r: Registry, n: Registry, f: Scope -> Scope, g: Scope -> Scope)
    requires Shifted(r, n, f) && forall s :: f(s) == g(s)
    ensures Shifted(r, n, g)
  {
  }

  // What one step does to every subject.
  function Moves(r: Registry, x: Step): Scope -> Scope {
    (s: Scope) => if x.Merge? && MergeSubjects(r, x.project, x.source, x.target).Merged?
                  then Rescoped(s, Scope(x.project, x.source), Scope(x.project, x.target)) else s
  }

  lemma StepShifts(r: Registry, x: Step)
    requires ChunksInStep(r)
    ensures ChunksInStep(Do(r, x)) && Shifted(r, Do(r, x), Moves(r, x))
  {
    if x.Resolve? {
      ResolveShifts(r, x);
      ShiftedAlike(r, Do(r, x), (s: Scope) => s, Moves(r, x));
    } else if MergeSubjects(r, x.project, x.source, x.target).Merged? {
      MergeShifts(r, x.project, x.source, x.target);
      ShiftedAlike(r, Do(r, x), (s: Scope) => Rescoped(s, Scope(x.project, x.source), Scope(x.project, x.target)),
          Moves(r, x));
    }
  }

  // Every row and every alias follows the merges, in order, whatever else runs;
  // chunks stay in step with their events.
  lemma {:induction false} EverythingFollows(r: Registry, steps: seq<Step>)
    requires ChunksInStep(r)
    ensures ChunksInStep(Run(r, steps)) && Shifted(r, Run(r, steps), (s: Scope) => Followed(r, steps, s))
  {
    if steps != [] {
      var m, x := Run(r, steps[..|steps| - 1]), steps[|steps| - 1];
      EverythingFollows(r, steps[..|steps| - 1]);
      StepShifts(m, x);
      ShiftedTwice(r, m, Do(m, x), (s: Scope) => Followed(r, steps[..|steps| - 1], s), Moves(m, x),
          (s: Scope) => Followed(r, steps, s));
    }
  }

  // What keeps ids in step with rows: a registration that names a live id -- under
  // the reserved kind, only itself -- and a merge whose source is already buried,
  // or whose target is live or buried under the source.
  predicate Clean(r: Registry, x: Step) {
    var a := r.aliases;
    match x
    case Resolve(ref, c, reg, raced) =>
      var b := ResolveAlias(a, ref, c, reg, raced).0;
      ref !in a && ref in b ==>
          Live(a, Scope(ref.project, b[ref])) && (ref.kind == TOMBSTONE_KIND ==> b[ref] == ref.value)
    case Merge(p, s, t) =>
      MergeSubjects(r, p, s, t).Merged? && Live(a, Scope(p, s)) ==>
          Live(a, Scope(p, t)) || HomeOf(a, Scope(p, t)) == Scope(p, s)
  }

  predicate CleanRun(r: Registry, steps: seq<Step>) {
    steps == [] || (CleanRun(r, steps[..|steps| - 1]) && Clean(Run(r, steps[..|steps| - 1]), steps[|steps| - 1]))
  }

  // Every id leads, in one hop, to where the merges of the run took its rows.
  ghost predicate InStep(r: Registry, steps: seq<Step>) {
    var a := Run(r, steps).aliases;
    OneHop(a) && forall s :: HomeOf(a, s) == Followed(r, steps, s)
  }

  ghost predicate AlwaysInStep(r: Registry, steps: seq<Step>) {
    forall n :: 0 <= n <= |steps| ==> InStep(r, steps[..n])
  }

  // From no aliases, ids stay in step with rows at every point of a run if and
  // only if every step of it is clean.
  lemma {:induction false} IdsFollowMergesIff(r: Registry, steps: seq<Step>)
    requires r.aliases == map[]
    ensures AlwaysInStep(r, steps) <==> CleanRun(r, steps)
  {
    if steps == [] {
      assert InStep(r, steps[..0]);
      assert AlwaysInStep(r, steps) by {
        forall n | 0 <= n <= 0 ensures InStep(r, steps[..n]) {
          assert steps[..n] == [];
        }
      }
    } else {
      var head := steps[..|steps| - 1];
      IdsFollowMergesIff(r, head);
      AlwaysUnrolls(r, steps);
      if AlwaysInStep(r, head) {
        assert head[..|head|] == head;
        StepStaysIff(r, steps);
      }
    }
  }

  lemma AlwaysUnrolls(r: Registry, steps: seq<Step>)
    requires steps != []
    ensures AlwaysInStep(r, steps) <==> AlwaysInStep(r, steps[..|steps| - 1]) && InStep(r, steps)
  {
    var head := steps[..|steps| - 1];
    if AlwaysInStep(r, head) && InStep(r, steps) {
      forall n | 0 <= n <= |steps| ensures InStep(r, steps[..n]) {
        if n < |steps| {
          SamePrefix(steps, n);
          assert InStep(r, head[..n]);
        } else {
          assert steps[..n] == steps;
        }
      }
    }
    if AlwaysInStep(r, steps) {
      assert InStep(r, steps[..|steps|]) && steps[..|steps|] == steps;
      forall n | 0 <= n <= |head| ensures InStep(r, head[..n]) {
        SamePrefix(steps, n);
        assert InStep(r, steps[..n]);
      }
    }
  }

  lemma SamePrefix(steps: seq<Step>, n: nat)
    requires n < |steps|
    ensures steps[..|steps| - 1][..n] == steps[..n]
  {
  }

  lemma StepStaysIff(r: Registry, steps: seq<Step>)
    requires steps != [] && InStep(r, steps[..|steps| - 1])
    ensures InStep(r, steps) <==> Clean(Run(r, steps[..|steps| - 1]), steps[|steps| - 1])
  {
    var m, x := Run(r, steps[..|steps| - 1]), steps[|steps| - 1];
    StepFollowsIff(m, x);
    var a, b := m.aliases, Do(m, x).aliases;
    forall s ensures HomeOf(b, s) == Followed(r, steps, s) <==> HomeOf(b, s) == Moves(m, x)(HomeOf(a, s)) {
    }
  }

  // One step moves every id where it moves the rows if and only if it is clean.
  lemma StepFollowsIff(r: Registry, x: Step)
    requires OneHop(r.aliases)
    ensures var b := Do(r, x).aliases;
            (OneHop(b) && forall s :: HomeOf(b, s) == Moves(r, x)(HomeOf(r.aliases, s))) <==> Clean(r, x)
  {
    if x.Resolve? {
      var b := Do(r, x).aliases;
      if x.ref !in r.aliases && x.ref in b {
        RegistrationFollowsIff(r.aliases, x.ref, b[x.ref]);
      }
    } else if MergeSubjects(r, x.project, x.source, x.target).Merged? {
      MergeFollowsIff(r.aliases, x.project, x.source, x.target);
    }
  }

  // A new alias leaves every id where it led, one hop away, if and only if it
  // names a live id and, under the reserved kind, the very id it is about.
  lemma RegistrationFollowsIff(a: Aliases, k: AliasRef, c: string)
    requires OneHop(a) && k !in a
    ensures var b := a[k := c];
            (OneHop(b) && forall s :: HomeOf(b, s) == HomeOf(a, s))
            <==> Live(a, Scope(k.project, c)) && (k.kind == TOMBSTONE_KIND ==> c == k.value)
  {
    var b := a[k := c];
    var home := Scope(k.project, c);
    if OneHop(b) && forall s :: HomeOf(b, s) == HomeOf(a, s) {
      assert k in b && Live(b, home);
      assert HomeOf(b, Scope(k.project, k.value)) == HomeOf(a, Scope(k.project, k.value));
    }
    if Live(a, home) && (k.kind == TOMBSTONE_KIND ==> c == k.value) {
      forall s ensures HomeOf(b, s) == HomeOf(a, s) {
      }
      forall l | l in b ensures Live(b, Scope(l.project, b[l])) {
        assert l != k ==> Live(a, Scope(l.project, a[l]));
      }
    }
  }

  lemma MergeFollowsIff(a: Aliases, project: string, source: string, target: string)
    requires OneHop(a) && source != target
    ensures var b := AliasesAfter(a, project, source, target);
            var from, to := Scope(project, source), Scope(project, target);
            (OneHop(b) && forall s :: HomeOf(b, s) == Rescoped(HomeOf(a, s), from, to))
            <==> (Live(a, from) ==> Live(a, to) || HomeOf(a, to) == from)
  {
    var b := AliasesAfter(a, project, source, target);
    var from, to := Scope(project, source), Scope(project, target);
    if !Live(a, from) {
      OnlyLiveNames(a, project, source, target);
      forall s ensures HomeOf(a, s) != from {
        LandsLive(a, s);
      }
    } else if Live(a, to) || HomeOf(a, to) == from {
      CleanMergeHomes(a, project, source, target);
    } else {
      MergeDeliversIff(a, project, source, target);
      assert HomeOf(b, from) == Rescoped(HomeOf(a, from), from, to) ==> HomeOf(b, from) == to;
    }
  }

  lemma LandsLive(a: Aliases, s: Scope)
    requires OneHop(a)
    ensures Live(a, HomeOf(a, s))
  {
  }

  // What a registration under the reserved kind breaks: the id looks merged away,
  // while its rows are where they were.
  lemma ReservedRegistrationMisleads(r: Registry, project: string, source: string, target: string)
    requires r.aliases == map[] && source != target && target != ""
    ensures var steps := [Resolve(AliasRef(project, TOMBSTONE_KIND, source), Some(target), true, None)];
            && HomeOf(Run(r, steps).aliases, Scope(project, source)) == Scope(project, target)
            && Followed(r, steps, Scope(project, source)) == Scope(project, source)
            && Run(r, steps).ledger == r.ledger && Run(r, steps).events == r.events
  {
    var x := Resolve(AliasRef(project, TOMBSTONE_KIND, source), Some(target), true, None);
    assert [x][..0] == [];
    assert Run(r, [x]) == Do(r, x);
  }

  // The rows and aliases of one database, updated in place.
  class SubjectDirectory {
    var ledger: Tables
    var events: map<EventId, Scope>
    var chunks: map<nat, Chunk>
    var traces: map<nat, Scope>
    var aliases: Aliases
    var receipts: seq<Receipt>

    function View(): Registry
      reads this
    {
      Registry(ledger, events, chunks, traces, aliases, receipts)
    }

    method Resolve(ref: AliasRef, canonical: Option<string>, register: bool, raced: Option<string>)
      returns (answer: Answer)
      modifies this`aliases
      ensures (aliases, answer) == ResolveAlias(old(aliases), ref, canonical, register, raced)
    {
      if ref in aliases {
        if canonical.Some? && canonical.value != aliases[ref] {
          return AliasConflict;
        }
        return Found(aliases[ref]);
      }
      if !register {
        return Unknown;
      }
      var derived := canonical.None? || canonical.value == "";
      var id := if derived then ref.kind + ":" + ref.value else canonical.value;
      if canonical.None? && |id| > 128 {
        return SelfRegistrationTooLong;
      }
      aliases := aliases[ref := raced.GetOr(id)];
      if raced.None? {
        return Registered(id);
      }
      if canonical.Some? && aliases[ref] != id {
        return AliasConflict;
      }
      return Found(aliases[ref]);
    }

    method Merge(project: string, source: string, target: string) returns (result: MergeResult)
      modifies this
      ensures result == MergeSubjects(old(View()), project, source, target)
      ensures View() == if result.Merged? then result.registry else old(View())
    {
      if source == "" || target == "" || source == target {
        return InvalidMerge;
      }
      var from, to := Scope(project, source), Scope(project, target);
      var receipt := ReceiptOf(View(), from, to);
      var rescoped := RescopedLedger(ledger, from, to);
      if IndexRefuses(rescoped) {
        return MergeRefused;
      }
      events := map e | e in events :: Rescoped(events[e], from, to);
      chunks := map c | c in chunks :: chunks[c].(scope := Rescoped(chunks[c].scope, from, to));
      ledger := rescoped;
      traces := map x | x in traces :: Rescoped(traces[x], from, to);
      aliases := Repointed(aliases, project, source, target);
      aliases := Buried(aliases, project, source, target);
      receipts := receipts + [receipt];
      return Merged(View());
    }
  }
}
