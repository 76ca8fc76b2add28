// The bounded cache of the local embedder (app/providers/local.py:210-293).
module Embedder {
  import opened Rows

  type Vector = seq<real>

  const CACHE_MAX_ENTRIES: nat := 1024

  // What the shared cache returns for one key: nothing, a payload that does not
  // parse, one that makes the reader raise, or some vector.
  datatype Payload = Absent | Malformed | Raises | Stored(vector: Vector)

  // A text as the cache keys it.
  datatype Text = Text(chars: string)

  function Removed<T(==)>(s: seq<T>, x: T): seq<T> {
    if s == [] then [] else if s[0] == x then s[1..] else [s[0]] + Removed(s[1..], x)
  }

  lemma NotInTail<T>(s: seq<T>)
    requires Distinct(s) && s != []
    ensures s[0] !in s[1..]
  {
    assert forall i :: 0 <= i < |s[1..]| ==> s[1..][i] == s[i + 1] != s[0];
  }

  lemma DistinctCons<T>(x: T, s: seq<T>)
    requires Distinct(s) && x !in s
    ensures Distinct([x] + s)
  {
  }

  lemma DistinctSnoc<T>(s: seq<T>, x: T)
    requires Distinct(s) && x !in s
    ensures Distinct(s + [x])
  {
  }

  lemma PartsDisjoint<T>(a: seq<T>, b: seq<T>, x: T)
    requires Distinct(a + b) && x in a
    ensures x !in b
  {
    var i :| 0 <= i < |a| && a[i] == x;
    assert (a + b)[i] == x;
    assert forall j :: 0 <= j < |b| ==> b[j] == (a + b)[|a| + j];
  }

  lemma {:induction false} RemovedSound<T>(s: seq<T>, x: T)
    requires Distinct(s)
    ensures Distinct(Removed(s, x)) && forall y :: y in Removed(s, x) <==> y in s && y != x
  {
    if s != [] {
      assert s == [s[0]] + s[1..];
      if s[0] != x {
        RemovedSound(s[1..], x);
        NotInTail(s);
        DistinctCons(s[0], Removed(s[1..], x));
      }
    }
  }

  lemma {:induction false} RemovedSplit<T>(a: seq<T>, b: seq<T>, x: T)
    ensures Removed(a + b, x) == if x in a then Removed(a, x) + b else a + Removed(b, x)
  {
    if a == [] {
      assert a + b == b;
    } else {
      RemovedSplit(a[1..], b, x);
      assert (a + b)[1..] == a[1..] + b;
      assert a == [a[0]] + a[1..];
      assert a[0] != x && x in a ==> [a[0]] + (Removed(a[1..], x) + b) == Removed(a, x) + b;
      assert x !in a ==> [a[0]] + (a[1..] + Removed(b, x)) == a + Removed(b, x);
    }
  }

  // The most recent uses, in order.
  predicate EndsWith<T(==)>(order: seq<T>, recent: seq<T>) {
    |recent| <= |order| && order[|order| - |recent|..] == recent
  }

  function Used<T(==)>(recent: seq<T>, x: T): seq<T> {
    Removed(recent, x) + [x]
  }

  lemma NotThere<T>(s: seq<T>, x: T)
    requires x !in s
    ensures Removed(s, x) == s
  {
    if s != [] {
      assert x !in s[1..];
      NotThere(s[1..], x);
    }
  }

  lemma UsedEndsWith<T>(order: seq<T>, recent: seq<T>, x: T)
    requires Distinct(order) && EndsWith(order, recent) && x in order
    ensures EndsWith(Used(order, x), Used(recent, x))
  {
    var rest := order[..|order| - |recent|];
    assert order == rest + recent;
    RemovedSplit(rest, recent, x);
    if x in rest {
      PartsDisjoint(rest, recent, x);
      NotThere(recent, x);
      assert Used(order, x) == Removed(rest, x) + (recent + [x]);
    } else {
      assert Used(order, x) == rest + Used(recent, x);
    }
  }

  function Elements<T>(s: seq<T>): set<T> {
    set x | x in s
  }

  lemma {:induction false} DistinctFit<T>(s: seq<T>, bound: set<T>)
    requires Distinct(s) && forall x :: x in s ==> x in bound
    ensures |s| <= |bound|
  {
    if s != [] {
      var n := |s| - 1;
      assert forall x :: x in s[..n] ==> x != s[n];
      DistinctFit(s[..n], bound - {s[n]});
    }
  }

  // An ordered dictionary, least recently used first.
  datatype Cache = Cache(order: seq<Text>, vectors: map<Text, Vector>)

  // Every entry is the model's own vector for its text.
  ghost predicate Coherent(c: Cache, model: Text -> Vector) {
    && Distinct(c.order)
    && (forall t :: t in c.order <==> t in c.vectors)
    && (forall t :: t in c.vectors ==> c.vectors[t] == model(t))
  }

  ghost predicate Bounded(c: Cache) {
    |c.order| <= CACHE_MAX_ENTRIES
  }

  lemma UseKeeps(c: Cache, t: Text, recent: seq<Text>, model: Text -> Vector)
    requires Coherent(c, model) && Bounded(c) && t in c.vectors && EndsWith(c.order, recent)
    ensures var d := c.(order := Used(c.order, t));
            && Coherent(d, model) && Bounded(d) && EndsWith(d.order, Used(recent, t))
            && forall x :: x in Used(recent, t) <==> x in recent || x == t
  {
    UsedEndsWith(c.order, recent, t);
    RemovedSound(c.order, t);
    SuffixDistinct(c.order, recent);
    RemovedSound(recent, t);
    DistinctLength(c.order, t);
  }

  lemma SuffixDistinct<T>(order: seq<T>, recent: seq<T>)
    requires Distinct(order) && EndsWith(order, recent)
    ensures Distinct(recent) && forall x :: x in recent ==> x in order
  {
    var n := |order| - |recent|;
    assert forall i :: 0 <= i < |recent| ==> recent[i] == order[n + i];
  }

  lemma {:induction false} DistinctLength<T>(s: seq<T>, x: T)
    requires x in s
    ensures |Removed(s, x)| == |s| - 1
  {
    if s[0] != x {
      assert s == [s[0]] + s[1..];
      DistinctLength(s[1..], x);
    }
  }

  // Assignment keeps the place of a known key and appends a new one.
  function Assigned(c: Cache, t: Text, v: Vector): Cache {
    Cache(if t in c.vectors then c.order else c.order + [t], c.vectors[t := v])
  }

  lemma AssignKeeps(c: Cache, t: Text, model: Text -> Vector)
    requires Coherent(c, model)
    ensures Coherent(Assigned(c, t, model(t)), model)
  {
  }

  function Evicted(c: Cache): Cache
    requires c.order != []
  {
    Cache(c.order[1..], c.vectors - {c.order[0]})
  }

  // Eviction takes the oldest entry, so recent uses stay while there is
  // anything else.
  lemma EvictKeeps(c: Cache, recent: seq<Text>, model: Text -> Vector)
    requires Coherent(c, model) && c.order != []
    ensures Coherent(Evicted(c), model)
    ensures EndsWith(c.order, recent) && |recent| < |c.order| ==> EndsWith(Evicted(c).order, recent)
  {
    assert c.order == [c.order[0]] + c.order[1..];
  }

  function Prefixed(texts: seq<Text>, prefix: string): seq<Text> {
    seq(|texts|, i requires 0 <= i < |texts| => Text(prefix + texts[i].chars))
  }

  function Embedded(texts: seq<Text>, model: Text -> Vector): seq<Vector> {
    seq(|texts|, i requires 0 <= i < |texts| => model(texts[i]))
  }

  // A shared entry that reads as a vector of the right width was stored by the
  // same model for the same text: both are in its key.
  ghost predicate Trustworthy(shared: map<Text, Payload>, dim: nat, model: Text -> Vector) {
    forall t :: Usable(t, shared, dim) ==> shared[t].vector == model(t)
  }

  // A payload that makes the reader raise, and a stored vector of the right width.
  predicate Raising(t: Text, shared: map<Text, Payload>) {
    t in shared && shared[t].Raises?
  }

  predicate AnyRaises(missing: seq<Text>, shared: map<Text, Payload>) {
    exists t :: t in missing && Raising(t, shared)
  }

  predicate Usable(t: Text, shared: map<Text, Payload>, dim: nat) {
    t in shared && shared[t].Stored? && |shared[t].vector| == dim
  }

  // The texts the running call has used are the most recent ones.
  ghost predicate Fresh(c: Cache, recent: seq<Text>, results: map<Text, Vector>) {
    EndsWith(c.order, recent) && forall t :: t in recent <==> t in results
  }

  lemma AssignFresh(c: Cache, t: Text, recent: seq<Text>, results: map<Text, Vector>, model: Text -> Vector)
    requires Coherent(c, model) && Fresh(c, recent, results) && (t in c.vectors ==> t in results)
    ensures Fresh(Assigned(c, t, model(t)), if t in c.vectors then recent else recent + [t], results[t := model(t)])
  {
    if t !in c.vectors {
      var d := Assigned(c, t, model(t)).order;
      assert d[|d| - (|recent| + 1)..] == recent + [t];
    }
  }

  lemma FreshFits(c: Cache, recent: seq<Text>, results: map<Text, Vector>, asked: set<Text>)
    requires Distinct(c.order) && Fresh(c, recent, results) && forall x :: x in results ==> x in asked
    ensures |recent| <= |asked|
  {
    SuffixDistinct(c.order, recent);
    DistinctFit(recent, asked);
  }

  class LocalEmbedder {
    var order: seq<Text>
    var vectors: map<Text, Vector>
    const dim: nat

    function View(): Cache
      reads this
    {
      Cache(order, vectors)
    }

    constructor (dim: nat)
      ensures View() == Cache([], map[]) && this.dim == dim
    {
      this.dim := dim;
      order, vectors := [], map[];
    }

    // Stores one vector and evicts down to the bound. While the call's texts
    // fit the cache (`fits`) none of them is evicted.
    method Store(t: Text, v: Vector, results: map<Text, Vector>, ghost recent: seq<Text>, ghost fits: bool,
                 ghost asked: set<Text>, ghost model: Text -> Vector)
      returns (results': map<Text, Vector>, ghost recent': seq<Text>)
      requires Coherent(View(), model) && Bounded(View()) && v == model(t) && t in asked
      requires forall x :: x in results ==> x in asked
      requires fits ==>
               Fresh(View(), recent, results) && |asked| <= CACHE_MAX_ENTRIES && (t in vectors ==> t in results)
      modifies this
      ensures Coherent(View(), model) && Bounded(View())
      ensures results' == results[t := v]
      ensures fits ==> Fresh(View(), recent', results')
      ensures forall x :: x in vectors ==> x in old(vectors) || x == t
    {
      ghost var before := View();
      AssignKeeps(before, t, model);
      order := if t in vectors then order else order + [t];
      vectors := vectors[t := v];
      results' := results[t := v];
      recent' := if t in before.vectors then recent else recent + [t];
      if fits {
        AssignFresh(before, t, recent, results, model);
        FreshFits(View(), recent', results', asked);
      }
      while |order| > CACHE_MAX_ENTRIES
        invariant Coherent(View(), model) && forall x :: x in vectors ==> x in old(vectors) || x == t
        invariant fits ==> EndsWith(order, recent')
      {
        EvictKeeps(View(), recent', model);
        vectors := vectors - {order[0]};
        order := order[1..];
      }
    }

    // Fills `results` from the shared cache and returns what is still missing:
    // everything, when the cache is unreachable or a payload makes it raise.
    method SharedLookup(missing: seq<Text>, results: map<Text, Vector>, reachable: bool, shared: map<Text, Payload>,
                        ghost recent: seq<Text>, ghost fits: bool, ghost asked: set<Text>, ghost model: Text -> Vector)
      returns (stillMissing: seq<Text>, results': map<Text, Vector>, ghost recent': seq<Text>)
      requires Coherent(View(), model) && Bounded(View()) && Trustworthy(shared, dim, model) && Distinct(missing)
      requires forall t :: t in results ==> t in asked && results[t] == model(t)
      requires forall t :: t in missing ==> t in asked && t !in vectors && t !in results
      requires fits ==> Fresh(View(), recent, results) && |asked| <= CACHE_MAX_ENTRIES
      modifies this
      ensures Coherent(View(), model) && Bounded(View())
      ensures forall t :: t in results' ==> t in asked && results'[t] == model(t)
      ensures forall t :: t in results' <==> t in results || (t in missing && t in results')
      ensures Distinct(stillMissing) && forall t :: t in stillMissing ==> t in missing
      ensures forall t :: t in missing ==> t in results' || t in stillMissing
      ensures !reachable || AnyRaises(missing, shared) ==> stillMissing == missing
      ensures reachable && !AnyRaises(missing, shared) ==>
                forall t :: t in missing ==> (t in stillMissing <==> !Usable(t, shared, dim))
      ensures fits ==> Fresh(View(), recent', results')
      ensures forall t :: t in vectors ==> t in old(vectors) || t in results'
    {
      stillMissing, results', recent' := [], results, recent;
      if !reachable {
        return missing, results, recent;
      }
      for k := 0 to |missing|
        invariant Coherent(View(), model) && Bounded(View())
        invariant forall t :: t in results' ==> t in asked && results'[t] == model(t)
        invariant forall t :: t in results ==> t in results'
        invariant forall t :: t in results' ==> t in results || t in missing[..k]
        invariant forall t :: t in vectors ==> t in old(vectors) || t in results'
        invariant Distinct(stillMissing) && forall t :: t in stillMissing ==> t in missing[..k]
        invariant forall t :: t in missing[..k] ==> t in results' || t in stillMissing
        invariant forall t :: t in missing[..k] ==>
                  !Raising(t, shared) && (t in stillMissing <==> !Usable(t, shared, dim))
        invariant fits ==> Fresh(View(), recent', results')
      {
        var t := missing[k];
        assert missing[..k + 1] == missing[..k] + [t];
        assert t !in missing[..k];
        DistinctSnoc(stillMissing, t);
        match if t in shared then shared[t] else Absent
        case Raises =>
          return missing, results', recent';
        case Stored(v) =>
          if |v| != dim {
            stillMissing := stillMissing + [t];
          } else {
            results', recent' := Store(t, v, results', recent', fits, asked, model);
          }
        case _ =>
          stillMissing := stillMissing + [t];
      }
      assert missing[..|missing|] == missing;
    }

    // First pass: hits move to the recent end; each distinct miss is noted once.
    method Hits(wanted: seq<Text>, ghost model: Text -> Vector)
      returns (results: map<Text, Vector>, missing: seq<Text>, ghost recent: seq<Text>)
      requires Coherent(View(), model) && Bounded(View())
      modifies this`order
      ensures Coherent(View(), model) && Bounded(View()) && Fresh(View(), recent, results)
      ensures forall t :: t in results <==> t in wanted && t in vectors
      ensures forall t :: t in results ==> results[t] == model(t)
      ensures Distinct(missing) && forall t :: t in missing <==> t in wanted && t !in vectors
    {
      results, missing, recent := map[], [], [];
      for k := 0 to |wanted|
        invariant Coherent(View(), model) && Bounded(View()) && Fresh(View(), recent, results)
        invariant forall t :: t in results <==> t in wanted[..k] && t in vectors
        invariant forall t :: t in results ==> results[t] == model(t)
        invariant Distinct(missing) && forall t :: t in missing <==> t in wanted[..k] && t !in vectors
      {
        var t := wanted[k];
        assert wanted[..k + 1] == wanted[..k] + [t];
        if t in vectors {
          UseKeeps(View(), t, recent, model);
          order, recent := Used(order, t), Used(recent, t);
          results := results[t := vectors[t]];
        } else if t !in results && t !in missing {
          missing := missing + [t];
        }
      }
      assert wanted[..|wanted|] == wanted;
    }

    // The misses, from the shared cache first; the texts the model is run on
    // come back as `computed`.
    method Misses(missing: seq<Text>, hits: map<Text, Vector>, reachable: bool, shared: map<Text, Payload>,
                  ghost recent: seq<Text>, ghost fits: bool, ghost asked: set<Text>, model: Text -> Vector)
      returns (results: map<Text, Vector>, computed: seq<Text>, ghost recent': seq<Text>)
      requires Coherent(View(), model) && Bounded(View()) && Trustworthy(shared, dim, model) && Distinct(missing)
      requires forall t :: t in hits ==> t in asked && hits[t] == model(t)
      requires forall t :: t in missing ==> t in asked && t !in vectors && t !in hits
      requires fits ==> Fresh(View(), recent, hits) && |asked| <= CACHE_MAX_ENTRIES
      modifies this
      ensures Coherent(View(), model) && Bounded(View())
      ensures forall t :: t in hits || t in missing ==> t in results
      ensures forall t :: t in results ==> results[t] == model(t)
      ensures Distinct(computed) && forall t :: t in computed ==> t in missing
      ensures fits ==> Fresh(View(), recent', results)
    {
      computed, results, recent' := SharedLookup(missing, hits, reachable, shared, recent, fits, asked, model);
      ghost var had := vectors;
      for k := 0 to |computed|
        invariant Coherent(View(), model) && Bounded(View())
        invariant forall t :: t in results ==> t in asked && results[t] == model(t)
        invariant forall t :: t in hits || t in missing ==> t in results || t in computed[k..]
        invariant fits ==> Fresh(View(), recent', results)
        invariant forall t :: t in missing && t in vectors ==> t in results
      {
        var t := computed[k];
        assert computed[k..] == [t] + computed[k + 1..];
        results, recent' := Store(t, model(t), results, recent', fits, asked, model);
      }
    }

    // Embedding a batch returns the model's vectors of the prefixed texts, in
    // order and with duplicates, whatever was cached or shared; the model runs
    // at most once on each distinct miss; and a batch that fits the cache is in
    // it afterwards.
    method Embed(texts: seq<Text>, prefix: string, reachable: bool, shared: map<Text, Payload>, model: Text -> Vector)
      returns (result: seq<Vector>, computed: seq<Text>)
      requires Coherent(View(), model) && Bounded(View()) && Trustworthy(shared, dim, model)
      modifies this
      ensures Coherent(View(), model) && Bounded(View())
      ensures result == Embedded(Prefixed(texts, prefix), model)
      ensures Distinct(computed) && forall t :: t in computed ==> t in Prefixed(texts, prefix) && t !in old(vectors)
      ensures |Elements(Prefixed(texts, prefix))| <= CACHE_MAX_ENTRIES ==>
                forall t :: t in Prefixed(texts, prefix) ==> t in vectors
    {
      if texts == [] {
        return [], [];
      }
      var wanted := Prefixed(texts, prefix);
      ghost var asked := Elements(wanted);
      ghost var recent;
      var results, missing;
      results, missing, recent := Hits(wanted, model);
      computed := [];
      if missing != [] {
        results, computed, recent :=
          Misses(missing, results, reachable, shared, recent, |asked| <= CACHE_MAX_ENTRIES, asked, model);
      }
      assert forall t :: t in wanted ==> t in results;
      if |asked| <= CACHE_MAX_ENTRIES {
        SuffixDistinct(order, recent);
      }
      result := seq(|wanted|, i requires 0 <= i < |wanted| && wanted[i] in results => results[wanted[i]]);
    }
  }
}
