// How a claim is matched against the stored facts: _active_fact, _find_duplicate,
// _resolve_existing_fact, _find_qualifier_ambiguous_active_fact and
// _open_conflict_set of app/consolidator/__init__.py.
//
// Where the database may return rows in any order, the caller passes the row it
// happens to return first among equals; SelectAnyTie shows that this lets every
// tied row win.
module Matching {
  import opened Rows

  // The three row filters. `duplicate` prefers active rows, `current` the most
  // recently recorded one, `ambiguous` has no preference.
  datatype Query =
    | CurrentQuery(scope: Scope, pred: string, qualifiers: Object)
    | DuplicateQuery(scope: Scope, pred: string, qualifiers: Object, value: Object)
    | AmbiguousQuery(scope: Scope, pred: string, qualifiers: Object, value: Object)

  predicate Matches(f: Fact, q: Query) {
    && f.scope == q.scope
    && f.pred == q.pred
    && match q
       case CurrentQuery(_, _, _) =>
         f.status == Active && IdentityQualifiers(f.qualifiers) == IdentityQualifiers(q.qualifiers)
       case DuplicateQuery(_, _, _, v) =>
         && f.status != Deleted && f.form != EventForm && f.value == v
         && IdentityQualifiers(f.qualifiers) == IdentityQualifiers(q.qualifiers)
       case AmbiguousQuery(_, _, _, v) =>
         && f.status == Active && f.value != v
         && (IdentityQualifiers(f.qualifiers) == map[]) != (IdentityQualifiers(q.qualifiers) == map[])
  }

  function Priority(f: Fact, q: Query): int {
    match q
    case CurrentQuery(_, _, _) => f.recordedFrom
    case DuplicateQuery(_, _, _, _) => if f.status == Active then 1 else 0
    case AmbiguousQuery(_, _, _, _) => 0
  }

  // The best matching row among those with an id below n.
  function SelectBelow(t: Tables, q: Query, favoured: FactId, n: nat): Option<FactId> {
    if n == 0 then None
    else
      var best := SelectBelow(t, q, favoured, n - 1);
      var i := n - 1;
      if i !in t.facts || !Matches(t.facts[i], q) then best
      else if best.None? || best.value !in t.facts then Some(i)
      else
        var p, b := Priority(t.facts[i], q), Priority(t.facts[best.value], q);
        if p > b || (p == b && i == favoured) then Some(i) else best
  }

  function Select(t: Tables, q: Query, favoured: FactId): Option<FactId> {
    SelectBelow(t, q, favoured, t.nextFact)
  }

  lemma {:induction false} SelectBelowBest(t: Tables, q: Query, favoured: FactId, n: nat)
    ensures var r := SelectBelow(t, q, favoured, n);
            && (r.Some? ==> r.value in t.facts && r.value < n && Matches(t.facts[r.value], q))
            && (forall i :: i in t.facts && i < n && Matches(t.facts[i], q) ==>
                  r.Some? && Priority(t.facts[i], q) <= Priority(t.facts[r.value], q))
            && ((favoured in t.facts && favoured < n && Matches(t.facts[favoured], q) && r.Some?
                 && Priority(t.facts[favoured], q) == Priority(t.facts[r.value], q)) ==> r.value == favoured)
  {
    if n > 0 {
      SelectBelowBest(t, q, favoured, n - 1);
    }
  }

  ghost predicate Numbered(t: Tables) {
    && (forall i :: i in t.facts ==> i < t.nextFact)
    && (forall s :: s in t.sets ==> s < t.nextSet)
  }

  // Select finds a matching row of the highest priority, and finds one whenever
  // there is one.
  lemma SelectBest(t: Tables, q: Query, favoured: FactId)
    requires Numbered(t)
    ensures var r := Select(t, q, favoured);
            && (r.Some? ==> r.value in t.facts && Matches(t.facts[r.value], q))
            && (forall i :: i in t.facts && Matches(t.facts[i], q) ==>
                  r.Some? && Priority(t.facts[i], q) <= Priority(t.facts[r.value], q))
  {
    SelectBelowBest(t, q, favoured, t.nextFact);
  }

  // Every row of the highest priority is selected under some row order.
  lemma SelectAnyTie(t: Tables, q: Query, i: FactId)
    requires Numbered(t) && i in t.facts && Matches(t.facts[i], q)
    requires forall j :: j in t.facts && Matches(t.facts[j], q) ==> Priority(t.facts[j], q) <= Priority(t.facts[i], q)
    ensures Select(t, q, i) == Some(i)
  {
    SelectBelowBest(t, q, i, t.nextFact);
  }

  // The nearest neighbour the vector search returns, with its cosine distance.
  datatype Near = Near(id: FactId, distance: real)
  datatype Picks = Picks(
    duplicate: FactId,
    exact: FactId,
    aliased: FactId,
    near: Option<Near>,
    ambiguous: FactId,
    ambiguousAlias: FactId)

  const SEMANTIC_MATCH_MAX_DISTANCE := 0.28
  const ALIAS_LEARN_MAX_DISTANCE := 0.23

  // The rows the semantic search ranges over: any predicate, same scope, same
  // identity qualifiers.
  predicate Neighbour(t: Tables, scope: Scope, qualifiers: Object, id: FactId) {
    && id in t.facts
    && t.facts[id].scope == scope
    && t.facts[id].status == Active
    && IdentityQualifiers(t.facts[id].qualifiers) == IdentityQualifiers(qualifiers)
  }

  datatype Resolved = Resolved(tables: Tables, found: Option<FactId>)

  function Learn(t: Tables, key: AliasKey, canonical: string): Tables {
    if key in t.aliases then t else t.(aliases := t.aliases[key := canonical])
  }

  function Resolve(t: Tables, scope: Scope, pred: string, qualifiers: Object, p: Picks): Resolved {
    var key := AliasKey(scope, pred);
    var exact := Select(t, CurrentQuery(scope, pred, qualifiers), p.exact);
    var aliased := if key in t.aliases then Select(t, CurrentQuery(scope, t.aliases[key], qualifiers), p.aliased)
        else None;
    if exact.Some? then Resolved(t, exact)
    else if aliased.Some? then Resolved(t, aliased)
    else if p.near.None? || !Neighbour(t, scope, qualifiers, p.near.value.id)
            || p.near.value.distance > SEMANTIC_MATCH_MAX_DISTANCE then Resolved(t, None)
    else
      var m := p.near.value.id;
      if t.facts[m].pred != pred && p.near.value.distance <= ALIAS_LEARN_MAX_DISTANCE
      then Resolved(Learn(t, key, t.facts[m].pred), Some(m))
      else Resolved(t, Some(m))
  }

  function FindAmbiguous(t: Tables, scope: Scope, pred: string, qualifiers: Object, value: Object,
      p: Picks): Option<FactId> {
    var key := AliasKey(scope, pred);
    var direct := Select(t, AmbiguousQuery(scope, pred, qualifiers, value), p.ambiguous);
    if direct.Some? then direct
    else if key in t.aliases && t.aliases[key] != pred
    then Select(t, AmbiguousQuery(scope, t.aliases[key], qualifiers, value), p.ambiguousAlias)
    else None
  }

  predicate OpenWith(c: ConflictSet, scope: Scope, id: FactId) {
    c.scope == scope && c.status == Open && id in c.members
  }

  function OpenSetBelow(t: Tables, scope: Scope, id: FactId, n: nat): Option<SetId> {
    if n == 0 then None
    else
      var r := OpenSetBelow(t, scope, id, n - 1);
      if r.Some? then r
      else if n - 1 in t.sets && OpenWith(t.sets[n - 1], scope, id) then Some(n - 1)
      else None
  }

  function OpenSetOf(t: Tables, scope: Scope, id: FactId): Option<SetId> {
    OpenSetBelow(t, scope, id, t.nextSet)
  }

  lemma {:induction false} OpenSetBelowFinds(t: Tables, scope: Scope, id: FactId, n: nat)
    ensures var r := OpenSetBelow(t, scope, id, n);
            && (r.Some? ==> r.value in t.sets && OpenWith(t.sets[r.value], scope, id))
            && (r.None? ==> forall s :: s in t.sets && s < n ==> !OpenWith(t.sets[s], scope, id))
  {
    if n > 0 {
      OpenSetBelowFinds(t, scope, id, n - 1);
    }
  }

  // What a resolved match is: an active row of the claim's scope whose identity
  // qualifiers agree; with no match there is no active row under the predicate.
  lemma ResolveSound(t: Tables, scope: Scope, pred: string, qualifiers: Object, p: Picks)
    requires Numbered(t)
    ensures var r := Resolve(t, scope, pred, qualifiers, p);
            && r.tables.facts == t.facts && r.tables.sets == t.sets && r.tables.nextFact == t.nextFact
            && r.tables.nextSet == t.nextSet && r.tables.now == t.now
            && (r.found.Some? ==> Neighbour(t, scope, qualifiers, r.found.value))
            && (r.found.None? ==> r.tables == t)
            && (r.found.None? || t.facts[r.found.value].pred != pred ==>
                  forall i :: i in t.facts ==> !Matches(t.facts[i], CurrentQuery(scope, pred, qualifiers)))
  {
    SelectBest(t, CurrentQuery(scope, pred, qualifiers), p.exact);
    var key := AliasKey(scope, pred);
    if key in t.aliases {
      SelectBest(t, CurrentQuery(scope, t.aliases[key], qualifiers), p.aliased);
    }
  }

  predicate Served(t: Tables, scope: Scope, pred: string, qualifiers: Object) {
    exists i :: i in t.facts && Matches(t.facts[i], CurrentQuery(scope, pred, qualifiers))
  }

  // Resolution tries the predicate itself, then its alias, and only when neither
  // is served the nearest neighbour, which must be near enough; that is also the
  // only case in which an alias is learned, and only a closer match teaches one.
  lemma ResolveOrder(t: Tables, scope: Scope, pred: string, qualifiers: Object, p: Picks)
    requires Numbered(t)
    ensures var r, key := Resolve(t, scope, pred, qualifiers, p), AliasKey(scope, pred);
            var aliased := key in t.aliases && Served(t, scope, t.aliases[key], qualifiers);
            if Served(t, scope, pred, qualifiers) then
              r.tables == t && r.found.Some? && r.found.value in t.facts && t.facts[r.found.value].pred == pred
            else if aliased then
              r.tables == t && r.found.Some? && r.found.value in t.facts
                  && t.facts[r.found.value].pred == t.aliases[key]
            else
              var close := p.near.Some? && Neighbour(t, scope, qualifiers, p.near.value.id)
                  && p.near.value.distance <= 0.28;
              && r.found == (if close then Some(p.near.value.id) else None)
              && (r.tables != t <==> close && key !in t.aliases && p.near.value.distance <= 0.23)
              && (r.tables != t ==> key in r.tables.aliases && r.tables.aliases[key] == t.facts[p.near.value.id].pred)
  {
    SelectBest(t, CurrentQuery(scope, pred, qualifiers), p.exact);
    var key := AliasKey(scope, pred);
    if key in t.aliases {
      SelectBest(t, CurrentQuery(scope, t.aliases[key], qualifiers), p.aliased);
    }
    if p.near.Some? && Neighbour(t, scope, qualifiers, p.near.value.id) && t.facts[p.near.value.id].pred == pred {
      assert Matches(t.facts[p.near.value.id], CurrentQuery(scope, pred, qualifiers));
    }
  }
}
