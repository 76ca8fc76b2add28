// The fusion sort and the rerank block of build_context
// (app/context/ranking.py:78-111, app/context/__init__.py:366-412,1194-1265),
// over the reals.
module Ranking {
  import opened Rows
  import opened Ordering
  import opened Reals

  const W_SIMILARITY := 0.65
  const W_FULLTEXT := 0.35
  const ENTITY_MATCH_BOOST := 1.0
  const ENTITY_MISMATCH_PENALTY := 0.7
  const RERANK_TOP_K: nat := 50

  function Low(v: seq<real>): (m: real)
    requires v != []
    ensures m in v && forall i :: 0 <= i < |v| ==> m <= v[i]
  {
    if |v| == 1 then v[0]
    else
      var m := Low(v[1..]);
      assert forall i :: 1 <= i < |v| ==> v[i] == v[1..][i - 1];
      if v[0] < m then v[0] else m
  }

  function High(v: seq<real>): (m: real)
    requires v != []
    ensures m in v && forall i :: 0 <= i < |v| ==> v[i] <= m
  {
    if |v| == 1 then v[0]
    else
      var m := High(v[1..]);
      assert forall i :: 1 <= i < |v| ==> v[i] == v[1..][i - 1];
      if m < v[0] then v[0] else m
  }

  // One value of an axis that spans [low, high]; a flat axis moves nothing.
  function Scaled(x: real, low: real, high: real): real {
    if high <= low then 0.0 else (x - low) / (high - low)
  }

  function Normalize(v: seq<real>): (n: seq<real>)
    ensures |n| == |v|
  {
    if v == [] then [] else seq(|v|, i requires 0 <= i < |v| => Scaled(v[i], Low(v), High(v)))
  }

  // None is the ValueError on axes of different lengths.
  function Relevance(similarity: seq<real>, fulltext: seq<real>): Option<seq<real>> {
    if |similarity| != |fulltext| then None
    else
      var s, f := Normalize(similarity), Normalize(fulltext);
      Some(seq(|s|, i requires 0 <= i < |s| => W_SIMILARITY * s[i] + W_FULLTEXT * f[i]))
  }

  lemma ScaledMonotone(x: real, y: real, low: real, high: real)
    requires x <= y
    ensures Scaled(x, low, high) <= Scaled(y, low, high)
    ensures x < y && low < high ==> Scaled(x, low, high) < Scaled(y, low, high)
  {
    if low < high {
      var d := high - low;
      var p := Quotient(x - low, d);
      var q := Quotient(y - low, d);
      assert (q - p) * d == y - x;
      Sign(q - p, d);
    }
  }

  lemma ScaledEnds(low: real, high: real)
    requires low < high
    ensures Scaled(low, low, high) == 0.0 && Scaled(high, low, high) == 1.0
  {
    var q := Quotient(high - low, high - low);
    Sign(q - 1.0, high - low);
  }

  lemma ScaledBounds(x: real, low: real, high: real)
    requires low <= x <= high
    ensures 0.0 <= Scaled(x, low, high) <= 1.0
  {
    if low < high {
      ScaledEnds(low, high);
      ScaledMonotone(low, x, low, high);
      ScaledMonotone(x, high, low, high);
    }
  }

  function Affine(x: real, a: real, b: real): real {
    a * x + b
  }

  lemma AffineMonotone(x: real, y: real, a: real, b: real)
    requires a > 0.0
    ensures Affine(x, a, b) < Affine(y, a, b) <==> x < y
    ensures Affine(x, a, b) <= Affine(y, a, b) <==> x <= y
    ensures Affine(y, a, b) - Affine(x, a, b) == (y - x) * a
  {
    Sign(y - x, a);
  }

  lemma ScaledAffine(x: real, low: real, high: real, a: real, b: real)
    requires a > 0.0
    ensures Scaled(Affine(x, a, b), Affine(low, a, b), Affine(high, a, b)) == Scaled(x, low, high)
  {
    AffineMonotone(low, high, a, b);
    AffineMonotone(low, x, a, b);
    if low < high {
      SameQuotient(x - low, high - low, a);
    }
  }

  lemma SameQuotient(x: real, d: real, a: real)
    requires d > 0.0 && a > 0.0
    ensures d * a > 0.0 && (x * a) / (d * a) == x / d
  {
    Sign(d, a);
    var q := Quotient(x, d);
    var r := Quotient(x * a, d * a);
    assert (r - q) * (d * a) == r * (d * a) - q * d * a;
    Sign(r - q, d * a);
  }

  // Scores stay in [0, 1].
  lemma RelevanceBounds(s: seq<real>, f: seq<real>, i: nat)
    requires |s| == |f| && i < |s|
    ensures 0.0 <= Relevance(s, f).value[i] <= 1.0
  {
    ScaledBounds(s[i], Low(s), High(s));
    ScaledBounds(f[i], Low(f), High(f));
  }

  // At least as good on both axes is never scored lower, and better on an axis
  // is then scored higher.
  lemma RelevanceMonotone(s: seq<real>, f: seq<real>, i: nat, j: nat)
    requires |s| == |f| && i < |s| && j < |s| && s[i] <= s[j] && f[i] <= f[j]
    ensures Relevance(s, f).value[i] <= Relevance(s, f).value[j]
    ensures s[i] < s[j] || f[i] < f[j] ==> Relevance(s, f).value[i] < Relevance(s, f).value[j]
  {
    ScaledMonotone(s[i], s[j], Low(s), High(s));
    ScaledMonotone(f[i], f[j], Low(f), High(f));
  }

  // An axis that is not flat spans exactly [0, 1].
  lemma NormalizeSpans(v: seq<real>, i: nat, j: nat)
    requires i < |v| && j < |v| && v[i] == Low(v) < v[j] == High(v)
    ensures Normalize(v)[i] == 0.0 && Normalize(v)[j] == 1.0
  {
    ScaledEnds(Low(v), High(v));
  }

  // The best candidate on one axis alone gets that axis's weight, and the best on
  // both gets 1.
  lemma RelevanceWeighs(s: seq<real>, f: seq<real>, i: nat)
    requires |s| == |f| && i < |s| && Low(s) < High(s) && Low(f) < High(f)
    ensures s[i] == High(s) && f[i] == Low(f) ==> Relevance(s, f).value[i] == 0.65
    ensures s[i] == Low(s) && f[i] == High(f) ==> Relevance(s, f).value[i] == 0.35
    ensures s[i] == High(s) && f[i] == High(f) ==> Relevance(s, f).value[i] == 1.0
  {
    ScaledEnds(Low(s), High(s));
    ScaledEnds(Low(f), High(f));
  }

  function Rescaled(v: seq<real>, a: real, b: real): seq<real> {
    seq(|v|, i requires 0 <= i < |v| => Affine(v[i], a, b))
  }

  lemma EndsAre(w: seq<real>, low: real, high: real)
    requires low in w && high in w && forall i :: 0 <= i < |w| ==> low <= w[i] <= high
    ensures Low(w) == low && High(w) == high
  {
  }

  lemma RescaledEnds(v: seq<real>, a: real, b: real)
    requires a > 0.0 && v != []
    ensures Low(Rescaled(v, a, b)) == Affine(Low(v), a, b)
    ensures High(Rescaled(v, a, b)) == Affine(High(v), a, b)
  {
    var w, low, high := Rescaled(v, a, b), Low(v), High(v);
    var i :| 0 <= i < |v| && v[i] == low;
    var j :| 0 <= j < |v| && v[j] == high;
    assert w[i] == Affine(low, a, b) && w[j] == Affine(high, a, b);
    forall k | 0 <= k < |w| ensures Affine(low, a, b) <= w[k] <= Affine(high, a, b) {
      RescaledWithin(v[k], low, high, a, b);
    }
    EndsAre(w, Affine(low, a, b), Affine(high, a, b));
  }

  lemma RescaledWithin(x: real, low: real, high: real, a: real, b: real)
    requires a > 0.0 && low <= x <= high
    ensures Affine(low, a, b) <= Affine(x, a, b) <= Affine(high, a, b)
  {
    AffineMonotone(low, x, a, b);
    AffineMonotone(x, high, a, b);
  }

  // A positive affine change of units on an axis changes no normalized value.
  lemma NormalizeAffine(v: seq<real>, a: real, b: real)
    requires a > 0.0
    ensures Normalize(Rescaled(v, a, b)) == Normalize(v)
  {
    if v != [] {
      RescaledEnds(v, a, b);
      forall i | 0 <= i < |v| ensures Normalize(Rescaled(v, a, b))[i] == Normalize(v)[i] {
        ScaledAffine(v[i], Low(v), High(v), a, b);
      }
    }
  }

  datatype RowKind = FactRow | EpisodeRow
  // A candidate of the pool; `person` is the tag of a fact's value, when it is a
  // non-empty string.
  datatype Row = Row(kind: RowKind, id: string, similarity: real, fulltext: real, recency: real,
                     ordinal: real, content: string, person: Option<string>)

  // The names the query mentions, and how a person tag splits into names.
  datatype Query = Query(entities: set<string>, tokens: string -> set<string>)

  function EntityAdjusted(score: real, person: Option<string>, q: Query): real {
    if q.entities == {} || person.None? then score
    else
      var tokens := q.tokens(person.value);
      var matched := if tokens != {} then tokens * q.entities != {} else person.value in q.entities;
      score * (if matched then ENTITY_MATCH_BOOST else ENTITY_MISMATCH_PENALTY)
  }

  // The adjustment never raises a score, and lowers a positive one exactly for a
  // fact about somebody the query does not name.
  lemma EntityOnlyDemotes(score: real, person: Option<string>, q: Query)
    requires 0.0 <= score <= 1.0
    ensures 0.0 <= 0.7 * score <= EntityAdjusted(score, person, q) <= score
    ensures score > 0.0 ==>
              (EntityAdjusted(score, person, q) < score <==>
                  q.entities != {} && person.Some? && q.entities !! Names(person.value, q))
  {
    if person.Some? {
      MatchesByName(person.value, q);
    }
  }

  lemma MatchesByName(person: string, q: Query)
    ensures (if q.tokens(person) != {} then q.tokens(person) * q.entities != {} else person in q.entities)
         <==> !(q.entities !! Names(person, q))
  {
    var tokens := q.tokens(person);
    if tokens == {} {
      assert person in Names(person, q);
    } else if tokens * q.entities != {} {
      var x :| x in tokens * q.entities;
      assert x in q.entities && x in Names(person, q);
    } else {
      forall x | x in q.entities ensures x !in Names(person, q) {
        assert x !in tokens * q.entities;
      }
    }
  }

  // The names a person tag stands for: its tokens, or itself when it has none.
  function Names(person: string, q: Query): set<string> {
    if q.tokens(person) != {} then q.tokens(person) else {person}
  }

  function Similarities(rows: seq<Row>): seq<real> {
    seq(|rows|, i requires 0 <= i < |rows| => rows[i].similarity)
  }

  function Fulltexts(rows: seq<Row>): seq<real> {
    seq(|rows|, i requires 0 <= i < |rows| => rows[i].fulltext)
  }

  function Scores(rows: seq<Row>, q: Query): (s: seq<real>)
    ensures |s| == |rows|
  {
    var r := Relevance(Similarities(rows), Fulltexts(rows)).value;
    seq(|rows|, i requires 0 <= i < |rows| => EntityAdjusted(r[i], rows[i].person, q))
  }

  datatype Scored = Scored(score: real, row: Row)

  function Pool(rows: seq<Row>, q: Query): seq<Scored> {
    var s := Scores(rows, q);
    seq(|rows|, i requires 0 <= i < |rows| => Scored(s[i], rows[i]))
  }

  // The sort key: relevance, recency, content, then id.
  function KeyOf(x: Scored): Key {
    Key(-x.score, -x.row.recency, if x.row.kind == EpisodeRow then -x.row.ordinal else 0.0, x.row.content, x.row.id)
  }

  predicate Before(x: Scored, y: Scored) {
    KeyLeq(KeyOf(x), KeyOf(y))
  }

  function Ranked(rows: seq<Row>, q: Query): seq<Scored> {
    SortBy(Pool(rows, q), Before)
  }

  // No two rows of a pool share an id.
  ghost predicate DistinctIds(rows: seq<Row>) {
    forall i, j :: 0 <= i < j < |rows| ==> rows[i].id != rows[j].id
  }

  // The score of one row, from the ends of the axes alone.
  function ScoreIn(r: Row, ls: real, hs: real, lf: real, hf: real, q: Query): real {
    EntityAdjusted(W_SIMILARITY * Scaled(r.similarity, ls, hs) + W_FULLTEXT * Scaled(r.fulltext, lf, hf), r.person, q)
  }

  lemma SameEnds(a: seq<Row>, b: seq<Row>)
    requires multiset(a) == multiset(b) && a != []
    ensures b != []
    ensures Low(Similarities(a)) == Low(Similarities(b)) && High(Similarities(a)) == High(Similarities(b))
    ensures Low(Fulltexts(a)) == Low(Fulltexts(b)) && High(Fulltexts(a)) == High(Fulltexts(b))
  {
    assert a[0] in multiset(b);
    EndsWithin(a, b);
    EndsWithin(b, a);
  }

  lemma EndsWithin(a: seq<Row>, b: seq<Row>)
    requires multiset(a) == multiset(b) && a != [] && b != []
    ensures Low(Similarities(b)) <= Low(Similarities(a)) && High(Similarities(a)) <= High(Similarities(b))
    ensures Low(Fulltexts(b)) <= Low(Fulltexts(a)) && High(Fulltexts(a)) <= High(Fulltexts(b))
  {
    forall i | 0 <= i < |a|
      ensures Low(Similarities(b)) <= a[i].similarity <= High(Similarities(b))
      ensures Low(Fulltexts(b)) <= a[i].fulltext <= High(Fulltexts(b))
    {
      assert a[i] in multiset(b);
      var j :| 0 <= j < |b| && b[j] == a[i];
      assert Similarities(b)[j] == a[i].similarity && Fulltexts(b)[j] == a[i].fulltext;
    }
  }

  lemma {:induction false} SameScoresSamePool(a: seq<Row>, s: seq<Scored>, ls: real, hs: real, lf: real, hf: real,
      q: Query)
    requires |s| == |a|
    requires forall i :: 0 <= i < |a| ==> s[i] == Scored(ScoreIn(a[i], ls, hs, lf, hf, q), a[i])
    ensures forall x: Scored ::
            multiset(s)[x] == (if x.score == ScoreIn(x.row, ls, hs, lf, hf, q) then multiset(a)[x.row] else 0)
  {
    if a != [] {
      var n := |a| - 1;
      SameScoresSamePool(a[..n], s[..n], ls, hs, lf, hf, q);
      assert a == a[..n] + [a[n]] && s == s[..n] + [s[n]];
    }
  }

  lemma SamePools(a: seq<Row>, b: seq<Row>, q: Query)
    requires multiset(a) == multiset(b) && a != []
    ensures multiset(Pool(a, q)) == multiset(Pool(b, q))
  {
    SameEnds(a, b);
    var ls, hs, lf, hf := Low(Similarities(a)), High(Similarities(a)), Low(Fulltexts(a)), High(Fulltexts(a));
    PoolScores(a, q, ls, hs, lf, hf);
    PoolScores(b, q, ls, hs, lf, hf);
    SameScoresSamePool(a, Pool(a, q), ls, hs, lf, hf, q);
    SameScoresSamePool(b, Pool(b, q), ls, hs, lf, hf, q);
  }

  lemma PoolScores(a: seq<Row>, q: Query, ls: real, hs: real, lf: real, hf: real)
    requires a != [] && ls == Low(Similarities(a)) && hs == High(Similarities(a)) && lf == Low(Fulltexts(a))
             && hf == High(Fulltexts(a))
    ensures forall i :: 0 <= i < |a| ==> Pool(a, q)[i] == Scored(ScoreIn(a[i], ls, hs, lf, hf, q), a[i])
  {
  }

  // The pool, and so the packet, does not depend on the order the rows came in.
  lemma OrderForgotten(a: seq<Row>, b: seq<Row>, q: Query)
    requires multiset(a) == multiset(b) && DistinctIds(a)
    ensures Ranked(a, q) == Ranked(b, q)
  {
    if a == [] {
      assert |multiset(b)| == 0;
      assert b == [];
    } else {
      SamePools(a, b, q);
      BeforeIsTotal(a, q);
      SortForgetsOrder(Pool(a, q), Pool(b, q), Before);
    }
  }

  // Over one pool the key separates any two rows, whatever the ties.
  lemma BeforeIsTotal(rows: seq<Row>, q: Query)
    requires DistinctIds(rows)
    ensures Orders(Before, Pool(rows, q))
  {
    var p := Pool(rows, q);
    forall x, y | x in p && y in p ensures Before(x, y) || Before(y, x) {
      EitherBefore(x, y);
    }
    forall x, y | x in p && y in p && Before(x, y) && Before(y, x) ensures x == y {
      SeparatedById(rows, q, x, y);
    }
    forall x, y, z | x in p && y in p && z in p && Before(x, y) && Before(y, z) ensures Before(x, z) {
      BeforeTransitive(x, y, z);
    }
  }

  lemma EitherBefore(x: Scored, y: Scored)
    ensures Before(x, y) || Before(y, x)
  {
    KeyTotal(KeyOf(x), KeyOf(y));
  }

  lemma BeforeTransitive(x: Scored, y: Scored, z: Scored)
    requires Before(x, y) && Before(y, z)
    ensures Before(x, z)
  {
    KeyTransitive(KeyOf(x), KeyOf(y), KeyOf(z));
  }

  lemma SameKeySameId(x: Scored, y: Scored)
    requires Before(x, y) && Before(y, x)
    ensures x.row.id == y.row.id
  {
    KeyAntisymmetric(KeyOf(x), KeyOf(y));
  }

  lemma SeparatedById(rows: seq<Row>, q: Query, x: Scored, y: Scored)
    requires DistinctIds(rows) && x in Pool(rows, q) && y in Pool(rows, q) && Before(x, y) && Before(y, x)
    ensures x == y
  {
    SameKeySameId(x, y);
    SameIdSame(rows, q, x, y);
  }

  lemma SameIdSame(rows: seq<Row>, q: Query, x: Scored, y: Scored)
    requires DistinctIds(rows) && x in Pool(rows, q) && y in Pool(rows, q) && x.row.id == y.row.id
    ensures x == y
  {
    var i := PlaceOf(rows, q, x);
    var j := PlaceOf(rows, q, y);
    assert rows[i].id == rows[j].id;
  }

  lemma PlaceOf(rows: seq<Row>, q: Query, x: Scored) returns (i: nat)
    requires x in Pool(rows, q)
    ensures i < |rows| && Pool(rows, q)[i] == x && rows[i] == x.row
  {
    i :| 0 <= i < |rows| && Pool(rows, q)[i] == x;
  }

  // Ranked order: nothing lost or invented, and a row that beats another on
  // score comes first; on equal scores the more recent one does.
  lemma RankedIsSorted(rows: seq<Row>, q: Query)
    requires DistinctIds(rows)
    ensures multiset(Ranked(rows, q)) == multiset(Pool(rows, q))
    ensures forall i, j :: 0 <= i < j < |Ranked(rows, q)| ==>
              var x, y := Ranked(rows, q)[i], Ranked(rows, q)[j];
              x.score > y.score || (x.score == y.score && x.row.recency >= y.row.recency)
  {
    BeforeIsTotal(rows, q);
    SortBySorts(Pool(rows, q), Before);
  }

  function WithAxes(rows: seq<Row>, a: real, b: real, c: real, d: real): seq<Row> {
    seq(|rows|, i requires 0 <= i < |rows| =>
      rows[i].(similarity := Affine(rows[i].similarity, a, b), fulltext := Affine(rows[i].fulltext, c, d)))
  }

  // Rescaling either axis by a positive affine map changes no score.
  lemma ScoresForgetUnits(rows: seq<Row>, q: Query, a: real, b: real, c: real, d: real)
    requires a > 0.0 && c > 0.0
    ensures Scores(WithAxes(rows, a, b, c, d), q) == Scores(rows, q)
  {
    var w := WithAxes(rows, a, b, c, d);
    NormalizeAffine(Similarities(rows), a, b);
    NormalizeAffine(Fulltexts(rows), c, d);
    assert Similarities(w) == Rescaled(Similarities(rows), a, b);
    assert Fulltexts(w) == Rescaled(Fulltexts(rows), c, d);
  }

  // What is left of a candidate once its axes have been read.
  function Bare(r: Row): Row {
    r.(similarity := 0.0, fulltext := 0.0)
  }

  function BareScored(x: Scored): Scored {
    Scored(x.score, Bare(x.row))
  }

  // Rescaling either axis leaves the order of the pool and every score in it:
  // candidate by candidate, the two ranked pools differ in the axes alone.
  lemma UnitsForgotten(rows: seq<Row>, q: Query, a: real, b: real, c: real, d: real)
    requires a > 0.0 && c > 0.0
    ensures Mapped(Ranked(WithAxes(rows, a, b, c, d), q), BareScored) == Mapped(Ranked(rows, q), BareScored)
  {
    PoolsBareAlike(rows, q, a, b, c, d);
    SortedBare(Pool(WithAxes(rows, a, b, c, d), q));
    SortedBare(Pool(rows, q));
  }

  lemma PoolsBareAlike(rows: seq<Row>, q: Query, a: real, b: real, c: real, d: real)
    requires a > 0.0 && c > 0.0
    ensures Mapped(Pool(WithAxes(rows, a, b, c, d), q), BareScored) == Mapped(Pool(rows, q), BareScored)
  {
    ScoresForgetUnits(rows, q, a, b, c, d);
  }

  // The key reads no axis but through the score.
  lemma BareKey(x: Scored)
    ensures KeyOf(BareScored(x)) == KeyOf(x)
  {
  }

  lemma SortedBare(pool: seq<Scored>)
    ensures Mapped(SortBy(pool, Before), BareScored) == SortBy(Mapped(pool, BareScored), Before)
  {
    forall x, y | x in pool && y in pool ensures Before(x, y) <==> Before(BareScored(x), BareScored(y)) {
      BareKey(x);
      BareKey(y);
    }
    SortMaps(pool, BareScored, Before, Before);
  }

  // The rerank block: the head is sorted by its new scores, the tail is left.
  // zip stops at the shorter of the scores and the head.
  datatype Placed = Placed(score: real, place: int, row: Row)

  function Block(pool: seq<Scored>): nat {
    if |pool| < RERANK_TOP_K then |pool| else RERANK_TOP_K
  }

  function Zipped(pool: seq<Scored>, scores: seq<real>): seq<Placed> {
    seq(if |scores| < Block(pool) then |scores| else Block(pool),
        i requires 0 <= i < |scores| && i < |pool| => Placed(scores[i], i, pool[i].row))
  }

  predicate NotBelow(x: Placed, y: Placed) {
    x.score >= y.score
  }

  function Strip(s: seq<Placed>): seq<Scored> {
    seq(|s|, i requires 0 <= i < |s| => Scored(s[i].score, s[i].row))
  }

  function Reranked(pool: seq<Scored>, scores: seq<real>): seq<Scored> {
    Strip(SortBy(Zipped(pool, scores), NotBelow)) + pool[Block(pool)..]
  }

  function RowsOf(s: seq<Scored>): seq<Row> {
    seq(|s|, i requires 0 <= i < |s| => s[i].row)
  }

  function PlacedRows(s: seq<Placed>): seq<Row> {
    seq(|s|, i requires 0 <= i < |s| => s[i].row)
  }

  lemma {:induction false} InsertKeepsRows(x: Placed, s: seq<Placed>)
    ensures multiset(PlacedRows(InsertBy(x, s, NotBelow))) == multiset([x.row] + PlacedRows(s))
  {
    if s == [] {
      assert PlacedRows([x]) == [x.row] + PlacedRows([]);
    } else {
      assert PlacedRows(s) == [s[0].row] + PlacedRows(s[1..]);
      if NotBelow(x, s[0]) {
        assert PlacedRows([x] + s) == [x.row] + PlacedRows(s);
      } else {
        InsertKeepsRows(x, s[1..]);
        assert PlacedRows([s[0]] + InsertBy(x, s[1..], NotBelow))
               == [s[0].row] + PlacedRows(InsertBy(x, s[1..], NotBelow));
      }
    }
  }

  lemma {:induction false} SortKeepsRows(s: seq<Placed>)
    ensures multiset(PlacedRows(SortBy(s, NotBelow))) == multiset(PlacedRows(s))
  {
    if s != [] {
      SortKeepsRows(s[1..]);
      InsertKeepsRows(s[0], SortBy(s[1..], NotBelow));
      assert PlacedRows(s) == [s[0].row] + PlacedRows(s[1..]);
    }
  }

  // Reranking keeps the tail where it is behind the head block, and puts the
  // head in descending order of its new scores, ties in their old order.
  lemma RerankedOrder(pool: seq<Scored>, scores: seq<real>)
    ensures var z := SortBy(Zipped(pool, scores), NotBelow);
            && Reranked(pool, scores)[|z|..] == pool[Block(pool)..] && Reranked(pool, scores)[..|z|] == Strip(z)
            && StableSorted(z, NotBelow, (x: Placed) => x.place)
            && multiset(z) == multiset(Zipped(pool, scores))
  {
    SortIsStable(Zipped(pool, scores), NotBelow, (x: Placed) => x.place);
    SortKeepsElements(Zipped(pool, scores), NotBelow);
  }

  lemma SortLength(s: seq<Placed>)
    ensures |SortBy(s, NotBelow)| == |s|
  {
    SortKeepsElements(s, NotBelow);
    SameElements(SortBy(s, NotBelow), s);
  }

  // No candidate is lost in reranking if and only if the reranker returns a
  // score for every document of the head.
  lemma RerankLosesNothingIff(pool: seq<Scored>, scores: seq<real>)
    ensures multiset(RowsOf(Reranked(pool, scores))) == multiset(RowsOf(pool)) <==> |scores| >= Block(pool)
  {
    var z, n := Zipped(pool, scores), Block(pool);
    var r := Reranked(pool, scores);
    SortLength(z);
    if |scores| >= n {
      SortKeepsRows(z);
      assert PlacedRows(z) == RowsOf(pool)[..n];
      assert RowsOf(r) == PlacedRows(SortBy(z, NotBelow)) + RowsOf(pool)[n..];
      assert RowsOf(pool) == RowsOf(pool)[..n] + RowsOf(pool)[n..];
    } else {
      assert |RowsOf(r)| < |RowsOf(pool)|;
      assert |multiset(RowsOf(r))| == |RowsOf(r)| && |multiset(RowsOf(pool))| == |RowsOf(pool)|;
    }
  }
}
