// Stratified sampling, sharding and session truncation (eval/datasets.py:286-439),
// with exact fractions.
module Sampling {
  import opened Rows
  import opened Ordering

  // An id or a type, as text.
  datatype Label = Label(text: string)
  datatype Question = Question(qid: Label, qtype: Label, historyId: Label)

  ghost predicate DistinctIds(qs: seq<Question>) {
    forall i, j :: 0 <= i < j < |qs| ==> qs[i].qid != qs[j].qid
  }

  function Sum<T>(s: seq<T>, f: T -> int): int {
    if s == [] then 0 else Sum(s[..|s| - 1], f) + f(s[|s| - 1])
  }

  function Filter<T>(s: seq<T>, p: T -> bool): seq<T> {
    if s == [] then [] else Filter(s[..|s| - 1], p) + (if p(s[|s| - 1]) then [s[|s| - 1]] else [])
  }

  lemma {:induction false} SumAppend<T>(a: seq<T>, b: seq<T>, f: T -> int)
    ensures Sum(a + b, f) == Sum(a, f) + Sum(b, f)
  {
    if b == [] {
      assert a + b == a;
    } else {
      SumAppend(a, b[..|b| - 1], f);
      assert (a + b)[..|a + b| - 1] == a + b[..|b| - 1];
    }
  }

  lemma SumOne<T>(x: T, f: T -> int)
    ensures Sum([x], f) == f(x)
  {
    assert Sum([x][..0], f) == 0;
  }

  lemma SumAround<T>(a: seq<T>, x: T, b: seq<T>, f: T -> int)
    ensures Sum(a + [x] + b, f) == Sum(a + b, f) + f(x)
  {
    SumAppend(a + [x], b, f);
    SumAppend(a, [x], f);
    SumOne(x, f);
    SumAppend(a, b, f);
  }

  lemma {:induction false} SumPermuted<T>(a: seq<T>, b: seq<T>, f: T -> int)
    requires multiset(a) == multiset(b)
    ensures Sum(a, f) == Sum(b, f)
  {
    SameElements(a, b);
    if a != [] {
      var n, x := |a| - 1, a[|a| - 1];
      assert x in b;
      var k :| 0 <= k < |b| && b[k] == x;
      TakenOut(a, b, k);
      SumPermuted(a[..n], b[..k] + b[k + 1..], f);
      SumAround(b[..k], x, b[k + 1..], f);
      assert b == b[..k] + [x] + b[k + 1..];
    }
  }

  lemma TakenOut<T>(a: seq<T>, b: seq<T>, k: nat)
    requires multiset(a) == multiset(b) && a != [] && k < |b| && b[k] == a[|a| - 1]
    ensures multiset(a[..|a| - 1]) == multiset(b[..k] + b[k + 1..])
  {
    assert a == a[..|a| - 1] + [b[k]];
    WithoutPlace(b, k);
    OneLess(multiset(a[..|a| - 1]), multiset(b[..k] + b[k + 1..]), b[k]);
  }

  lemma OneLess<T>(m: multiset<T>, n: multiset<T>, x: T)
    requires m + multiset{x} == n + multiset{x}
    ensures m == n
  {
    assert m == m + multiset{x} - multiset{x};
  }

  lemma WithoutPlace<T>(b: seq<T>, k: nat)
    requires k < |b|
    ensures multiset(b) == multiset(b[..k] + b[k + 1..]) + multiset{b[k]}
  {
    assert b == b[..k] + ([b[k]] + b[k + 1..]);
  }

  lemma {:induction false} SumPlus<T>(s: seq<T>, f: T -> int, g: T -> int, h: T -> int)
    requires forall x :: x in s ==> h(x) == f(x) + g(x)
    ensures Sum(s, h) == Sum(s, f) + Sum(s, g)
  {
    if s != [] {
      SumPlus(s[..|s| - 1], f, g, h);
    }
  }

  lemma {:induction false} SumTimes<T>(s: seq<T>, f: T -> int, k: int, h: T -> int)
    requires forall x :: x in s ==> h(x) == f(x) * k
    ensures Sum(s, h) == Sum(s, f) * k
  {
    if s != [] {
      SumTimes(s[..|s| - 1], f, k, h);
    }
  }

  lemma {:induction false} SumBound<T>(s: seq<T>, f: T -> int, k: int)
    requires forall x :: x in s ==> 0 <= f(x) < k
    ensures 0 <= Sum(s, f) <= |s| * (k - 1)
  {
    if s != [] {
      SumBound(s[..|s| - 1], f, k);
    }
  }

  lemma {:induction false} SumZero<T>(s: seq<T>, f: T -> int)
    requires forall x :: x in s ==> f(x) == 0
    ensures Sum(s, f) == 0
  {
    if s != [] {
      SumZero(s[..|s| - 1], f);
    }
  }

  function OfType(qs: seq<Question>, t: Label): seq<Question> {
    Filter(qs, (q: Question) => q.qtype == t)
  }

  // The types in order of first appearance, as the dictionary of groups keeps them.
  function Types(qs: seq<Question>): (ts: seq<Label>)
    ensures Distinct(ts) && (forall q :: q in qs ==> q.qtype in ts) && (forall t :: t in ts ==> OfType(qs, t) != [])
  {
    if qs == [] then []
    else
      var last := qs[|qs| - 1];
      var before := Types(qs[..|qs| - 1]);
      if last.qtype in before then before else before + [last.qtype]
  }

  function Size(qs: seq<Question>): Label -> int {
    (t: Label) => |OfType(qs, t)|
  }

  // Groups add up to the whole.
  lemma {:induction false} GroupsAddUp(qs: seq<Question>, ts: seq<Label>)
    requires Distinct(ts) && forall q :: q in qs ==> q.qtype in ts
    ensures Sum(ts, Size(qs)) == |qs|
  {
    if qs == [] {
      SumZero(ts, Size(qs));
    } else {
      var n := |qs| - 1;
      GroupsAddUp(qs[..n], ts);
      var hit := (t: Label) => if t == qs[n].qtype then 1 else 0;
      assert forall t :: Size(qs)(t) == Size(qs[..n])(t) + hit(t);
      SumPlus(ts, Size(qs[..n]), hit, Size(qs));
      OneHit(ts, qs[n].qtype, hit);
    }
  }

  lemma {:induction false} OneHit(ts: seq<Label>, t: Label, hit: Label -> int)
    requires Distinct(ts) && forall x :: hit(x) == if x == t then 1 else 0
    ensures Sum(ts, hit) == if t in ts then 1 else 0
  {
    if ts != [] {
      OneHit(ts[..|ts| - 1], t, hit);
      assert ts == ts[..|ts| - 1] + [ts[|ts| - 1]];
    }
  }

  // One stratum's exact share is share / total; its quota starts at the floor.
  function Floor(qs: seq<Question>, subset: nat): Label -> int
    requires qs != []
  {
    (t: Label) => |OfType(qs, t)| * subset / |qs|
  }

  function Remainder(qs: seq<Question>, subset: nat): Label -> int
    requires qs != []
  {
    (t: Label) => |OfType(qs, t)| * subset % |qs|
  }

  function ByRemainder(qs: seq<Question>, subset: nat): (Label, Label) -> bool
    requires qs != []
  {
    (a: Label, b: Label) =>
      var r, s := |OfType(qs, a)| * subset % |qs|, |OfType(qs, b)| * subset % |qs|;
      r > s || (r == s && StringLeq(a.text, b.text))
  }

  // Types with the largest remainder first.
  function Queue(qs: seq<Question>, subset: nat): seq<Label>
    requires qs != []
  {
    SortBy(Types(qs), ByRemainder(qs, subset))
  }

  function Leftover(qs: seq<Question>, subset: nat): int
    requires qs != []
  {
    subset - Sum(Types(qs), Floor(qs, subset))
  }

  // A Python slice [:n] for a whole number n.
  function Prefix<T>(s: seq<T>, n: int): seq<T>
    requires 0 <= n
  {
    if n < |s| then s[..n] else s
  }

  lemma ByRemainderOrders(qs: seq<Question>, subset: nat)
    requires qs != []
    ensures Preorders(ByRemainder(qs, subset), Types(qs))
  {
    var leq := ByRemainder(qs, subset);
    forall a, b ensures leq(a, b) || leq(b, a) {
      StringTotal(a.text, b.text);
    }
    forall a, b, c | leq(a, b) && leq(b, c) ensures leq(a, c) {
      if StringLeq(a.text, b.text) && StringLeq(b.text, c.text) {
        StringTransitive(a.text, b.text, c.text);
      }
    }
  }

  lemma QueueSound(qs: seq<Question>, subset: nat)
    requires qs != []
    ensures var u := Queue(qs, subset);
            && multiset(u) == multiset(Types(qs)) && Distinct(u) && (forall t :: t in u <==> t in Types(qs))
            && (forall i, j :: 0 <= i < j < |u| ==> Remainder(qs, subset)(u[i]) >= Remainder(qs, subset)(u[j]))
  {
    ByRemainderOrders(qs, subset);
    SortBySorts(Types(qs), ByRemainder(qs, subset));
    var u := Queue(qs, subset);
    SameElements(u, Types(qs));
    DistinctPermuted(Types(qs), u);
    assert forall i, j :: 0 <= i < j < |u| ==> ByRemainder(qs, subset)(u[i], u[j]);
  }

  lemma DistinctPermuted<T>(a: seq<T>, b: seq<T>)
    requires Distinct(a) && multiset(a) == multiset(b)
    ensures Distinct(b)
  {
    forall i, j | 0 <= i < j < |b| ensures b[i] != b[j] {
      if b[i] == b[j] {
        var x := b[i];
        assert b == b[..i] + [x] + b[i + 1..j] + [x] + b[j + 1..];
        assert multiset(a)[x] >= 2;
        AtMostOnce(a, x);
      }
    }
  }

  lemma {:induction false} AtMostOnce<T>(a: seq<T>, x: T)
    requires Distinct(a)
    ensures multiset(a)[x] <= 1
  {
    if a != [] {
      var n := |a| - 1;
      AtMostOnce(a[..n], x);
      assert a == a[..n] + [a[n]];
      if a[n] == x {
        assert x !in a[..n];
      }
    }
  }

  // Apportionment in general: shares size(t) * s / n over the queue u, split
  // into whole places and remainders.
  ghost predicate Shares<T(!new)>(u: seq<T>, size: T -> int, s: int, n: int, whole: T -> int, rest: T -> int) {
    && n > 0 && Sum(u, size) == n
    && forall t :: t in u ==> size(t) * s == whole(t) * n + rest(t) && 0 <= rest(t) < n
  }

  // The remainders add up to the places that are left over.
  lemma RestAddsUp<T(!new)>(u: seq<T>, size: T -> int, s: int, n: int, whole: T -> int, rest: T -> int)
    requires Shares(u, size, s, n, whole, rest)
    ensures Sum(u, rest) == n * (s - Sum(u, whole))
  {
    var share, places := (t: T) => size(t) * s, (t: T) => whole(t) * n;
    SumTimes(u, size, s, share);
    SumTimes(u, whole, n, places);
    SumPlus(u, places, rest, share);
    Factor(n, s, Sum(u, whole));
  }

  lemma Factor(n: int, a: int, b: int)
    ensures n * a - b * n == n * (a - b)
  {
  }

  // There are fewer places left over than strata, and in descending order of
  // remainder each goes to a stratum with a remainder of its own.
  lemma LeftoverFits<T(!new)>(u: seq<T>, rest: T -> int, n: int, l: int)
    requires n > 0 && u != [] && Sum(u, rest) == n * l && forall t :: t in u ==> 0 <= rest(t) < n
    requires forall i, j :: 0 <= i < j < |u| ==> rest(u[i]) >= rest(u[j])
    ensures 0 <= l < |u| && forall i :: 0 <= i < l ==> rest(u[i]) > 0
  {
    SumBound(u, rest, n);
    if l < 0 {
      Negative(n, l);
    }
    Fewer(|u|, n, l);
    if l > 0 {
      RestIsEarlier(u, rest, n, l - 1);
      FewerBefore(n, l);
    }
  }

  lemma FewerBefore(n: int, l: int)
    requires n > 0 && l > 0
    ensures n * l > (l - 1) * (n - 1)
  {
    assert (l - 1) * (n - 1) == n * l - n - l + 1;
  }

  // Remainders that have run out by the k-th add up to less than k places.
  lemma RestIsEarlier<T(!new)>(u: seq<T>, rest: T -> int, n: int, k: nat)
    requires k < |u| && forall t :: t in u ==> 0 <= rest(t) < n
    requires forall i, j :: 0 <= i < j < |u| ==> rest(u[i]) >= rest(u[j])
    ensures rest(u[k]) == 0 ==> 0 <= Sum(u, rest) <= k * (n - 1)
  {
    if rest(u[k]) == 0 {
      assert u == u[..k] + u[k..];
      SumAppend(u[..k], u[k..], rest);
      assert forall t :: t in u[..k] ==> t in u;
      SumBound(u[..k], rest, n);
      forall t | t in u[k..] ensures rest(t) == 0 {
        var j :| k <= j < |u| && u[j] == t;
        assert j == k || rest(u[k]) >= rest(u[j]);
      }
      SumZero(u[k..], rest);
    }
  }

  lemma Negative(n: int, l: int)
    requires n > 0 && l < 0
    ensures n * l < 0
  {
  }

  lemma Fewer(m: int, n: int, l: int)
    requires n > 0 && m >= 0 && n * l <= m * (n - 1) && (m > 0 || l > 0)
    ensures l < m
  {
    assert n * m == m * (n - 1) + m;
    Scaled(n, m, l);
  }

  lemma Scaled(n: int, m: int, l: int)
    requires n > 0
    ensures m <= l ==> n * m <= n * l
    ensures m < l ==> n * m + n <= n * l
  {
    if m < l {
      Distribute(n, m + 1, l - m - 1);
      Distribute(n, m, 1);
    }
  }

  lemma Distribute(n: int, a: int, b: int)
    requires n > 0
    ensures n * (a + b) == n * a + n * b && (b >= 0 ==> n * b >= 0)
  {
  }

  function Quota(qs: seq<Question>, subset: nat): Label -> int
    requires qs != []
  {
    var promoted := Prefix(Queue(qs, subset), Max(Leftover(qs, subset), 0));
    (t: Label) => |OfType(qs, t)| * subset / |qs| + (if t in promoted then 1 else 0)
  }

  lemma SharesOf(qs: seq<Question>, subset: nat)
    requires qs != []
    ensures Shares(Queue(qs, subset), Size(qs), subset, |qs|, Floor(qs, subset), Remainder(qs, subset))
    ensures Leftover(qs, subset) == subset - Sum(Queue(qs, subset), Floor(qs, subset)) && Queue(qs, subset) != []
    ensures forall t :: t in Queue(qs, subset) ==> Size(qs)(t) > 0
  {
    QueueSound(qs, subset);
    var u := Queue(qs, subset);
    GroupsAddUp(qs, u);
    SumPermuted(u, Types(qs), Floor(qs, subset));
    assert qs[0].qtype in u;
    forall t ensures Size(qs)(t) * subset == Floor(qs, subset)(t) * |qs| + Remainder(qs, subset)(t) {
      Division(|OfType(qs, t)| * subset, |qs|);
    }
  }

  lemma Division(a: int, n: int)
    requires n > 0
    ensures a == a / n * n + a % n && 0 <= a % n < n
  {
  }

  // The whole part, and one more for the first l of the queue.
  ghost predicate Promotes<T(!new)>(u: seq<T>, whole: T -> int, l: nat, quota: T -> int) {
    l <= |u| && forall t :: quota(t) == whole(t) + if t in u[..l] then 1 else 0
  }

  // Each stratum gets the whole part of its exact share, or one more when the
  // share has a remainder, and no more than it has; together they get s.
  ghost predicate Fair<T(!new)>(u: seq<T>, size: T -> int, s: int, whole: T -> int, rest: T -> int, quota: T -> int) {
    && Sum(u, quota) == s
    && forall t :: t in u ==>
       0 <= quota(t) <= size(t) && (quota(t) == whole(t) || (quota(t) == whole(t) + 1 && rest(t) > 0))
  }

  // Largest-remainder apportionment is fair.
  lemma LargestRemainder<T(!new)>(u: seq<T>, size: T -> int, s: int, n: int, whole: T -> int, rest: T -> int, l: int,
                                  quota: T -> int)
    requires Shares(u, size, s, n, whole, rest) && l == s - Sum(u, whole) && Distinct(u) && u != []
    requires forall i, j :: 0 <= i < j < |u| ==> rest(u[i]) >= rest(u[j])
    requires 0 <= l <= |u| ==> Promotes(u, whole, l, quota)
    requires 0 <= s < n && forall t :: t in u ==> size(t) > 0
    ensures 0 <= l < |u| && Fair(u, size, s, whole, rest, quota)
  {
    RestAddsUp(u, size, s, n, whole, rest);
    LeftoverFits(u, rest, n, l);
    var extra := (t: T) => if t in u[..l] then 1 else 0;
    SumPlus(u, whole, extra, quota);
    PrefixCount(u, l, extra);
    forall t | t in u
      ensures 0 <= quota(t) <= size(t) && (quota(t) == whole(t) || (quota(t) == whole(t) + 1 && rest(t) > 0))
    {
      if t in u[..l] {
        var i :| 0 <= i < l && u[i] == t;
        assert rest(u[i]) > 0;
      }
      Rounded(size(t), s, n, whole(t), rest(t));
    }
  }

  // A share of less than the whole is less than what is shared.
  lemma Rounded(size: int, s: int, n: int, whole: int, rest: int)
    requires size > 0 && 0 <= s < n && size * s == whole * n + rest && 0 <= rest < n
    ensures 0 <= whole < size
  {
    Scaled(size, s, n);
    Scaled(n, size, whole);
    Scaled(n, whole, -1);
    assert size * s >= 0 && size * n == n * size && whole * n == n * whole && n * -1 == -n;
  }

  lemma QuotaPromotes(qs: seq<Question>, subset: nat)
    requires qs != []
    ensures var l := Leftover(qs, subset);
            0 <= l <= |Queue(qs, subset)| ==> Promotes(Queue(qs, subset), Floor(qs, subset), l, Quota(qs, subset))
  {
  }

  lemma FairPermuted<T(!new)>(u: seq<T>, v: seq<T>, size: T -> int, s: int, whole: T -> int, rest: T -> int,
      quota: T -> int)
    requires Fair(u, size, s, whole, rest, quota) && multiset(u) == multiset(v)
    ensures Fair(v, size, s, whole, rest, quota)
  {
    SumPermuted(u, v, quota);
    SameElements(u, v);
  }

  // So are the quotas of `select`.
  lemma QuotasAreFair(qs: seq<Question>, subset: nat)
    requires qs != [] && subset < |qs|
    ensures Fair(Types(qs), Size(qs), subset, Floor(qs, subset), Remainder(qs, subset), Quota(qs, subset))
    ensures 0 <= Leftover(qs, subset) < |Queue(qs, subset)|
  {
    var u, size, whole, rest := Queue(qs, subset), Size(qs), Floor(qs, subset), Remainder(qs, subset);
    QueueSound(qs, subset);
    SharesOf(qs, subset);
    QuotaPromotes(qs, subset);
    LargestRemainder(u, size, subset, |qs|, whole, rest, Leftover(qs, subset), Quota(qs, subset));
    FairPermuted(u, Types(qs), size, subset, whole, rest, Quota(qs, subset));
  }

  lemma Commute(a: int, b: int)
    ensures a * b == b * a
  {
  }

  lemma PrefixCount<T(!new)>(u: seq<T>, l: nat, extra: T -> int)
    requires Distinct(u) && l <= |u| && forall t :: extra(t) == if t in u[..l] then 1 else 0
    ensures Sum(u, extra) == l
  {
    assert u == u[..l] + u[l..];
    SumAppend(u[..l], u[l..], extra);
    SumZero(u[l..], extra);
    AllOnes(u[..l], extra);
  }

  lemma {:induction false} AllOnes<T>(s: seq<T>, f: T -> int)
    requires forall x :: x in s ==> f(x) == 1
    ensures Sum(s, f) == |s|
  {
    if s != [] {
      AllOnes(s[..|s| - 1], f);
    }
  }

  // A stratum's questions in the stable shuffled order of the seed.
  function Shuffle(group: seq<Question>, hash: string -> string): seq<Question> {
    SortBy(group, (a: Question, b: Question) => StringLeq(hash(a.qid.text), hash(b.qid.text)))
  }

  function Shuffled(qs: seq<Question>, t: Label, hash: string -> string): seq<Question> {
    Shuffle(OfType(qs, t), hash)
  }

  function Drawn(qs: seq<Question>, subset: nat, hash: string -> string, t: Label): seq<Question>
    requires qs != []
  {
    Prefix(Shuffled(qs, t, hash), Max(Quota(qs, subset)(t), 0))
  }

  function Ids(qs: seq<Question>): set<Label> {
    set q | q in qs :: q.qid
  }

  function UnionOver<T>(ts: seq<T>, f: T -> set<Label>): set<Label> {
    if ts == [] then {} else UnionOver(ts[..|ts| - 1], f) + f(ts[|ts| - 1])
  }

  lemma {:induction false} UnionMembers<T>(ts: seq<T>, f: T -> set<Label>, x: Label)
    ensures x in UnionOver(ts, f) <==> exists t :: t in ts && x in f(t)
  {
    if ts != [] {
      UnionMembers(ts[..|ts| - 1], f, x);
      assert ts == ts[..|ts| - 1] + [ts[|ts| - 1]];
    }
  }

  function DrawnIds(qs: seq<Question>, subset: nat, hash: string -> string): Label -> set<Label>
    requires qs != []
  {
    (t: Label) => Ids(Drawn(qs, subset, hash, t))
  }

  function Chosen(qs: seq<Question>, subset: nat, hash: string -> string): set<Label>
    requires qs != []
  {
    UnionOver(Types(qs), DrawnIds(qs, subset, hash))
  }

  function Stratified(qs: seq<Question>, subset: nat, hash: string -> string): seq<Question>
    requires qs != []
  {
    var chosen := Chosen(qs, subset, hash);
    Filter(qs, (q: Question) => q.qid in chosen)
  }

  function Select(qs: seq<Question>, subset: Option<nat>, wanted: Option<set<Label>>, stratify: bool,
      hash: string -> string): seq<Question> {
    var qs := if wanted.None? then qs else Filter(qs, (q: Question) => q.qtype in wanted.value);
    if subset.None? || subset.value >= |qs| then qs
    else if !stratify then qs[..subset.value]
    else Stratified(qs, subset.value, hash)
  }

  lemma {:induction false} FilterMembers<T>(s: seq<T>, p: T -> bool)
    ensures forall x :: x in Filter(s, p) <==> x in s && p(x)
  {
    if s != [] {
      FilterMembers(s[..|s| - 1], p);
      assert s == s[..|s| - 1] + [s[|s| - 1]];
    }
  }

  lemma {:induction false} FilterLength<T>(s: seq<T>, p: T -> bool, one: T -> int)
    requires forall x :: x in s ==> one(x) == if p(x) then 1 else 0
    ensures |Filter(s, p)| == Sum(s, one)
  {
    if s != [] {
      FilterLength(s[..|s| - 1], p, one);
    }
  }

  lemma FilterOne<T>(s: seq<T>, x: T, p: T -> bool)
    ensures Filter(s + [x], p) == Filter(s, p) + (if p(x) then [x] else [])
  {
    assert (s + [x])[..|s|] == s;
  }

  lemma {:induction false} FilterTwice<T>(s: seq<T>, p: T -> bool, r: T -> bool)
    ensures Filter(Filter(s, p), r) == Filter(Filter(s, r), p)
  {
    if s != [] {
      var n := |s| - 1;
      FilterTwice(s[..n], p, r);
      FilterOne(Filter(s[..n], p), s[n], r);
      FilterOne(Filter(s[..n], r), s[n], p);
      assert Filter(s[..n], p) + [] == Filter(s[..n], p) && Filter(s[..n], r) + [] == Filter(s[..n], r);
    }
  }

  // `a` is `b` with some elements left out.
  predicate Subsequence<T(==)>(a: seq<T>, b: seq<T>)
    decreases |b|
  {
    a == [] || (b != []
        && ((a[|a| - 1] == b[|b| - 1] && Subsequence(a[..|a| - 1], b[..|b| - 1])) || Subsequence(a, b[..|b| - 1])))
  }

  lemma {:induction false} FilterIsSubsequence<T>(s: seq<T>, p: T -> bool)
    ensures Subsequence(Filter(s, p), s)
  {
    if s != [] {
      var n := |s| - 1;
      FilterIsSubsequence(s[..n], p);
      if p(s[n]) {
        assert Filter(s, p)[..|Filter(s, p)| - 1] == Filter(s[..n], p);
      } else {
        assert Filter(s, p) == Filter(s[..n], p);
      }
    }
  }

  lemma {:induction false} IdsTellApart(qs: seq<Question>, t: Label)
    requires DistinctIds(qs)
    ensures Distinct(OfType(qs, t))
    ensures forall a, b :: a in qs && b in qs && a.qid == b.qid ==> a == b
  {
    if qs != [] {
      var n := |qs| - 1;
      IdsTellApart(qs[..n], t);
      FilterMembers(qs[..n], (q: Question) => q.qtype == t);
      assert forall x :: x in qs[..n] ==> x.qid != qs[n].qid;
      assert qs == qs[..n] + [qs[n]];
    }
  }

  // In a stratum exactly the drawn questions are chosen.
  lemma ChosenInStratum(qs: seq<Question>, subset: nat, hash: string -> string, t: Label)
    requires qs != [] && DistinctIds(qs) && t in Types(qs) && 0 <= Quota(qs, subset)(t) <= |OfType(qs, t)|
    ensures |Filter(OfType(qs, t), (q: Question) => q.qid in Chosen(qs, subset, hash))| == Quota(qs, subset)(t)
  {
    var group, order, n := OfType(qs, t), Shuffled(qs, t, hash), Quota(qs, subset)(t);
    var chosen := Chosen(qs, subset, hash);
    var one := (q: Question) => if q.qid in chosen then 1 else 0;
    ShuffledKeeps(qs, t, hash);
    FilterLength(group, (q: Question) => q.qid in chosen, one);
    SumPermuted(group, order, one);
    forall q | q in order[..n] ensures one(q) == 1 {
      UnionMembers(Types(qs), DrawnIds(qs, subset, hash), q.qid);
      assert q in Drawn(qs, subset, hash, t) && q.qid in DrawnIds(qs, subset, hash)(t);
    }
    forall q | q in order[n..] ensures one(q) == 0 {
      NotDrawn(qs, subset, hash, t, q);
    }
    OnesThenZeros(order, n, one);
  }

  lemma OnesThenZeros<T>(s: seq<T>, n: nat, f: T -> int)
    requires n <= |s| && (forall x :: x in s[..n] ==> f(x) == 1) && (forall x :: x in s[n..] ==> f(x) == 0)
    ensures Sum(s, f) == n
  {
    assert s == s[..n] + s[n..];
    SumAppend(s[..n], s[n..], f);
    AllOnes(s[..n], f);
    SumZero(s[n..], f);
  }

  lemma ShuffledKeeps(qs: seq<Question>, t: Label, hash: string -> string)
    requires DistinctIds(qs)
    ensures var u := Shuffled(qs, t, hash);
            multiset(u) == multiset(OfType(qs, t)) && |u| == |OfType(qs, t)| && Distinct(u)
                && forall x :: x in u <==> x in OfType(qs, t)
  {
    SortKeepsElements(OfType(qs, t), (a: Question, b: Question) => StringLeq(hash(a.qid.text), hash(b.qid.text)));
    SameElements(Shuffled(qs, t, hash), OfType(qs, t));
    IdsTellApart(qs, t);
    DistinctPermuted(OfType(qs, t), Shuffled(qs, t, hash));
  }

  lemma NotDrawn(qs: seq<Question>, subset: nat, hash: string -> string, t: Label, q: Question)
    requires qs != [] && DistinctIds(qs) && 0 <= Quota(qs, subset)(t) <= |OfType(qs, t)|
    requires Distinct(Shuffled(qs, t, hash)) && (forall x :: x in Shuffled(qs, t, hash) <==> x in OfType(qs, t))
    requires Quota(qs, subset)(t) <= |Shuffled(qs, t, hash)| && q in Shuffled(qs, t, hash)[Quota(qs, subset)(t)..]
    ensures q.qid !in Chosen(qs, subset, hash)
  {
    NotInPrefix(Shuffled(qs, t, hash), Quota(qs, subset)(t), q);
    assert q in OfType(qs, t);
    FilterMembers(qs, (x: Question) => x.qtype == t);
    forall u | u in Types(qs) ensures q.qid !in DrawnIds(qs, subset, hash)(u) {
      NotDrawnAs(qs, subset, hash, t, q, u);
    }
    UnionMembers(Types(qs), DrawnIds(qs, subset, hash), q.qid);
  }

  lemma NotInPrefix<T>(order: seq<T>, n: nat, x: T)
    requires Distinct(order) && n <= |order| && x in order[n..]
    ensures x !in order[..n]
  {
    var k :| n <= k < |order| && order[k] == x;
  }

  lemma NotDrawnAs(qs: seq<Question>, subset: nat, hash: string -> string, t: Label, q: Question, u: Label)
    requires qs != [] && DistinctIds(qs) && q in qs && q.qtype == t && q !in Drawn(qs, subset, hash, t)
    ensures q.qid !in DrawnIds(qs, subset, hash)(u)
  {
    forall r | r in Drawn(qs, subset, hash, u) ensures r.qid != q.qid {
      DrawnBelongs(qs, subset, hash, u, r);
    }
  }

  lemma DrawnBelongs(qs: seq<Question>, subset: nat, hash: string -> string, t: Label, q: Question)
    requires qs != [] && q in Drawn(qs, subset, hash, t)
    ensures q in qs && q.qtype == t
  {
    SortKeepsElements(OfType(qs, t), (a: Question, b: Question) => StringLeq(hash(a.qid.text), hash(b.qid.text)));
    SameElements(Shuffled(qs, t, hash), OfType(qs, t));
    assert q in Shuffled(qs, t, hash);
    FilterMembers(qs, (x: Question) => x.qtype == t);
  }

  lemma SampleOfType(qs: seq<Question>, subset: nat, hash: string -> string, t: Label)
    requires DistinctIds(qs) && subset < |qs| && t in Types(qs)
    ensures Size(Stratified(qs, subset, hash))(t) == Quota(qs, subset)(t)
  {
    var chosen := Chosen(qs, subset, hash);
    QuotasAreFair(qs, subset);
    assert Quota(qs, subset)(t) <= Size(qs)(t);
    ChosenInStratum(qs, subset, hash, t);
    FilterTwice(qs, (q: Question) => q.qid in chosen, (q: Question) => q.qtype == t);
  }

  lemma FairAgrees<T(!new)>(u: seq<T>, size: T -> int, s: int, whole: T -> int, rest: T -> int, quota: T -> int,
      taken: T -> int)
    requires Fair(u, size, s, whole, rest, quota) && forall t :: t in u ==> taken(t) == quota(t)
    ensures Fair(u, size, s, whole, rest, taken)
  {
    SumAgrees(u, taken, quota);
  }

  // A stratified sample has exactly the size asked for, keeps dataset order, and
  // takes the floor or the ceiling of its share from every type.
  lemma StratifiedSampleIsExact(qs: seq<Question>, subset: nat, hash: string -> string)
    requires DistinctIds(qs) && subset < |qs|
    ensures var r := Stratified(qs, subset, hash);
            |r| == subset && Subsequence(r, qs)
                && Fair(Types(qs), Size(qs), subset, Floor(qs, subset), Remainder(qs, subset), Size(r))
  {
    var chosen := Chosen(qs, subset, hash);
    var p := (q: Question) => q.qid in chosen;
    var r := Stratified(qs, subset, hash);
    QuotasAreFair(qs, subset);
    FilterIsSubsequence(qs, p);
    forall t | t in Types(qs) ensures Size(r)(t) == Quota(qs, subset)(t) {
      SampleOfType(qs, subset, hash, t);
    }
    FairAgrees(Types(qs), Size(qs), subset, Floor(qs, subset), Remainder(qs, subset), Quota(qs, subset), Size(r));
    FilterMembers(qs, p);
    GroupsAddUp(r, Types(qs));
  }

  lemma {:induction false} SumAgrees<T>(s: seq<T>, f: T -> int, g: T -> int)
    requires forall x :: x in s ==> f(x) == g(x)
    ensures Sum(s, f) == Sum(s, g)
  {
    if s != [] {
      SumAgrees(s[..|s| - 1], f, g);
    }
  }

  // A place left over never goes past a larger remainder.
  lemma LargestRemaindersWin(qs: seq<Question>, subset: nat, t: Label, u: Label)
    requires qs != [] && subset < |qs| && t in Types(qs) && u in Types(qs)
    requires Remainder(qs, subset)(t) > Remainder(qs, subset)(u) && Quota(qs, subset)(u) > Floor(qs, subset)(u)
    ensures Quota(qs, subset)(t) == Floor(qs, subset)(t) + 1
  {
    LeftoverIsNat(qs, subset);
    QueueSound(qs, subset);
    QuotaSplits(qs, subset, t);
    QuotaSplits(qs, subset, u);
    Ahead(Queue(qs, subset), Leftover(qs, subset), Remainder(qs, subset), t, u);
  }

  lemma Ahead(queue: seq<Label>, n: nat, rest: Label -> int, t: Label, u: Label)
    requires t in queue && u in Prefix(queue, n) && rest(t) > rest(u)
    requires forall i, j :: 0 <= i < j < |queue| ==> rest(queue[i]) >= rest(queue[j])
    ensures t in Prefix(queue, n)
  {
    var i :| 0 <= i < |queue| && queue[i] == t;
    var j :| 0 <= j < |Prefix(queue, n)| && Prefix(queue, n)[j] == u;
    assert queue[j] == u;
    assert i <= j;
  }

  // Of each stratum the questions with the least hashes are drawn.
  lemma DrawnHaveLeastHashes(qs: seq<Question>, subset: nat, hash: string -> string, t: Label, i: nat, j: nat)
    requires qs != [] && i < |Drawn(qs, subset, hash, t)| <= j < |Shuffled(qs, t, hash)|
    ensures StringLeq(hash(Drawn(qs, subset, hash, t)[i].qid.text), hash(Shuffled(qs, t, hash)[j].qid.text))
  {
    var leq := (a: Question, b: Question) => StringLeq(hash(a.qid.text), hash(b.qid.text));
    HashesPreorder(OfType(qs, t), hash);
    SortBySorts(OfType(qs, t), leq);
    assert leq(Shuffled(qs, t, hash)[i], Shuffled(qs, t, hash)[j]);
  }

  lemma HashesPreorder(group: seq<Question>, hash: string -> string)
    ensures Preorders((a: Question, b: Question) => StringLeq(hash(a.qid.text), hash(b.qid.text)), group)
  {
    var leq := (a: Question, b: Question) => StringLeq(hash(a.qid.text), hash(b.qid.text));
    forall a, b ensures leq(a, b) || leq(b, a) {
      StringTotal(hash(a.qid.text), hash(b.qid.text));
    }
    forall a, b, c | leq(a, b) && leq(b, c) ensures leq(a, c) {
      StringTransitive(hash(a.qid.text), hash(b.qid.text), hash(c.qid.text));
    }
  }

  lemma FloorIsZero(a: int, n: nat)
    requires n > 0 && a >= 0
    ensures a / n >= 0 && (a / n == 0 <==> a < n)
  {
    Division(a, n);
    Scaled(n, 1, a / n);
    Scaled(n, a / n, 0);
    Commute(a / n, n);
  }

  lemma FloorZero(qs: seq<Question>, subset: nat, t: Label)
    requires qs != []
    ensures Floor(qs, subset)(t) >= 0 && (Floor(qs, subset)(t) == 0 <==> |OfType(qs, t)| * subset < |qs|)
  {
    var share := |OfType(qs, t)| * subset;
    Scaled(|OfType(qs, t)| + 1, 0, subset);
    FloorIsZero(share, |qs|);
  }

  lemma {:induction false} DistinctSize<T>(s: seq<T>)
    requires Distinct(s)
    ensures |set x | x in s| == |s|
  {
    if s != [] {
      var n := |s| - 1;
      DistinctSize(s[..n]);
      assert s == s[..n] + [s[n]];
      assert (set x | x in s) == (set x | x in s[..n]) + {s[n]};
    }
  }

  function Preceding<T>(s: seq<T>, leq: (T, T) -> bool, t: T): set<T> {
    set x | x in s && x != t && leq(x, t)
  }

  // The place in a sorted line is the number of those who come before.
  lemma PlaceInLine<T(!new)>(u: seq<T>, leq: (T, T) -> bool, i: nat)
    requires i < |u| && Distinct(u) && Sorted(u, leq) && Orders(leq, u)
    ensures |Preceding(u, leq, u[i])| == i
  {
    forall x | x in u ensures x in u[..i] <==> x != u[i] && leq(x, u[i]) {
      var j :| 0 <= j < |u| && u[j] == x;
      if j < i {
        assert x == u[..i][j];
      } else {
        assert x !in u[..i];
        assert j == i || leq(u[i], u[j]);
      }
    }
    DistinctSize(u[..i]);
    assert Preceding(u, leq, u[i]) == set x | x in u[..i];
  }

  lemma QueueIsLine(qs: seq<Question>, subset: nat)
    requires qs != []
    ensures Sorted(Queue(qs, subset), ByRemainder(qs, subset)) && Orders(ByRemainder(qs, subset), Queue(qs, subset))
  {
    ByRemainderOrders(qs, subset);
    SortBySorts(Types(qs), ByRemainder(qs, subset));
    QueueSound(qs, subset);
    var leq := ByRemainder(qs, subset);
    forall x, y | x in Queue(qs, subset) && y in Queue(qs, subset) && leq(x, y) && leq(y, x) ensures x == y {
      StringAntisymmetric(x.text, y.text);
    }
  }

  // The types with a larger remainder than t, or an equal one and an earlier name.
  function AheadOf(qs: seq<Question>, subset: nat, t: Label): set<Label>
    requires qs != []
  {
    Preceding(Types(qs), ByRemainder(qs, subset), t)
  }

  lemma InPrefixIff<T(!new)>(u: seq<T>, ts: seq<T>, leq: (T, T) -> bool, t: T, l: nat)
    requires Distinct(u) && Sorted(u, leq) && Orders(leq, u) && t in u && forall x :: x in u <==> x in ts
    ensures t in Prefix(u, l) <==> |Preceding(ts, leq, t)| < l
  {
    var i :| 0 <= i < |u| && u[i] == t;
    PlaceInLine(u, leq, i);
    assert Preceding(ts, leq, t) == Preceding(u, leq, t);
    if i < l {
      assert Prefix(u, l)[i] == t;
    }
  }

  lemma PromotedIff(qs: seq<Question>, subset: nat, t: Label, l: nat)
    requires qs != [] && t in Types(qs)
    ensures t in Prefix(Queue(qs, subset), l) <==> |AheadOf(qs, subset, t)| < l
  {
    QueueSound(qs, subset);
    QueueIsLine(qs, subset);
    InPrefixIff(Queue(qs, subset), Types(qs), ByRemainder(qs, subset), t, l);
  }

  // The comment in `select` says no stratum is dropped. A stratum gets no place
  // if and only if its share is below one and at least as many types are ahead of
  // it, by remainder and name, as the floors leave places over.
  lemma StratumDroppedIff(qs: seq<Question>, subset: nat, t: Label)
    requires qs != [] && subset < |qs| && t in Types(qs)
    ensures Quota(qs, subset)(t) == 0
       <==> |OfType(qs, t)| * subset < |qs| && |AheadOf(qs, subset, t)| >= subset - Sum(Types(qs), Floor(qs, subset))
  {
    LeftoverIsNat(qs, subset);
    QuotaSplits(qs, subset, t);
    FloorZero(qs, subset, t);
    PromotedIff(qs, subset, t, Max(Leftover(qs, subset), 0));
  }

  lemma OneMore(qs: seq<Question>, q: Question, t: Label)
    ensures OfType(qs + [q], t) == OfType(qs, t) + (if q.qtype == t then [q] else [])
    ensures Types(qs + [q]) == if q.qtype in Types(qs) then Types(qs) else Types(qs) + [q.qtype]
  {
    FilterOne(qs, q, (x: Question) => x.qtype == t);
    assert (qs + [q])[..|qs|] == qs;
  }

  lemma SortTwo(a: Label, b: Label, leq: (Label, Label) -> bool)
    requires leq(a, b)
    ensures SortBy([a, b], leq) == [a, b]
  {
    assert [a, b][1..] == [b] && [b][1..] == [];
    assert SortBy([b], leq) == [b];
  }

  lemma TwoAndOne(q1: Question, q2: Question, q3: Question)
    requires q1.qtype == q2.qtype != q3.qtype
    ensures var qs := [q1] + [q2] + [q3];
            Types(qs) == [q1.qtype, q3.qtype] && |OfType(qs, q1.qtype)| == 2 && |OfType(qs, q3.qtype)| == 1
  {
    assert [q1] == [] + [q1];
    OneMore([], q1, q1.qtype);
    OneMore([q1], q2, q1.qtype);
    OneMore([q1] + [q2], q3, q1.qtype);
    OneMore([], q1, q3.qtype);
    OneMore([q1], q2, q3.qtype);
    OneMore([q1] + [q2], q3, q3.qtype);
  }

  lemma OnePlace(qs: seq<Question>, a: Label, b: Label)
    requires |qs| == 3 && a != b && Types(qs) == [a, b] && |OfType(qs, a)| == 2 && |OfType(qs, b)| == 1
    ensures Quota(qs, 1)(b) == 0
  {
    SumZero([a, b], Floor(qs, 1));
    SortTwo(a, b, ByRemainder(qs, 1));
    assert Prefix(Queue(qs, 1), 1) == [a];
    QuotaSplits(qs, 1, b);
  }

  // Two questions of one type and one of another, one place: the smaller type
  // is dropped.
  lemma SmallStratumDropped(q1: Question, q2: Question, q3: Question)
    requires q1.qtype == q2.qtype != q3.qtype
    ensures var qs := [q1] + [q2] + [q3]; q3.qtype in Types(qs) && Quota(qs, 1)(q3.qtype) == 0
  {
    TwoAndOne(q1, q2, q3);
    OnePlace([q1] + [q2] + [q3], q1.qtype, q3.qtype);
  }

  // `select` with its dictionaries and loops.
  method SelectQuestions(questions: seq<Question>, subset: Option<nat>, wanted: Option<set<Label>>, stratify: bool,
                         hash: string -> string)
    returns (result: seq<Question>)
    ensures result == Select(questions, subset, wanted, stratify, hash)
  {
    var qs := if wanted.None? then questions else Filter(questions, (q: Question) => q.qtype in wanted.value);
    if subset.None? || subset.value >= |qs| {
      return qs;
    }
    if !stratify {
      return qs[..subset.value];
    }
    result := SelectStratified(qs, subset.value, hash);
  }

  method SelectStratified(qs: seq<Question>, subset: nat, hash: string -> string) returns (result: seq<Question>)
    requires subset < |qs|
    ensures result == Stratified(qs, subset, hash)
  {
    var types, groups := GroupByType(qs);
    var quotas := Apportion(qs, types, groups, subset);
    QuotasDraw(qs, subset, hash, types, groups, quotas);
    var chosen := Draw(types, groups, quotas, hash, DrawnIds(qs, subset, hash));
    result := Filter(qs, (q: Question) => q.qid in chosen);
  }

  lemma DrawsAlike(qs: seq<Question>, subset: nat, hash: string -> string, t: Label, group: seq<Question>, quota: int)
    requires qs != [] && group == OfType(qs, t) && quota == Quota(qs, subset)(t) >= 0
    ensures Ids(Prefix(Shuffle(group, hash), quota)) == DrawnIds(qs, subset, hash)(t)
  {
  }

  lemma QuotasDraw(qs: seq<Question>, subset: nat, hash: string -> string, types: seq<Label>,
                   groups: map<Label, seq<Question>>,
                   quotas: map<Label, int>)
    requires qs != []
             && (forall i :: 0 <= i < |types| ==> types[i] in groups && groups[types[i]] == OfType(qs, types[i]))
    requires forall i :: 0 <= i < |types| ==> types[i] in quotas && quotas[types[i]] == Quota(qs, subset)(types[i]) >= 0
    ensures forall i :: 0 <= i < |types| ==>
              Ids(Prefix(Shuffle(groups[types[i]], hash), quotas[types[i]])) == DrawnIds(qs, subset, hash)(types[i])
  {
    forall i | 0 <= i < |types|
      ensures Ids(Prefix(Shuffle(groups[types[i]], hash), quotas[types[i]])) == DrawnIds(qs, subset, hash)(types[i])
    {
      DrawsAlike(qs, subset, hash, types[i], groups[types[i]], quotas[types[i]]);
    }
  }

  ghost predicate Grouped(qs: seq<Question>, types: seq<Label>, groups: map<Label, seq<Question>>) {
    && types == Types(qs) && (forall t :: t in groups <==> t in types)
    && forall t :: t in groups ==> groups[t] == OfType(qs, t)
  }

  lemma NoneUnseen(qs: seq<Question>, t: Label)
    requires t !in Types(qs)
    ensures OfType(qs, t) == []
  {
    FilterMembers(qs, (q: Question) => q.qtype == t);
    assert forall i :: 0 <= i < |OfType(qs, t)| ==> OfType(qs, t)[i] in OfType(qs, t);
  }

  lemma GroupedNext(qs: seq<Question>, q: Question, types: seq<Label>, groups: map<Label, seq<Question>>,
                    groups': map<Label, seq<Question>>)
    requires Grouped(qs, types, groups) && groups'.Keys == groups.Keys + {q.qtype}
    requires groups'[q.qtype] == (if q.qtype in groups then groups[q.qtype] else []) + [q]
    requires forall t :: t in groups && t != q.qtype ==> groups'[t] == groups[t]
    ensures Grouped(qs + [q], if q.qtype in groups then types else types + [q.qtype], groups')
  {
    OneMore(qs, q, q.qtype);
    forall t | t in groups' ensures groups'[t] == OfType(qs + [q], t) {
      OneMore(qs, q, t);
      if t !in groups {
        NoneUnseen(qs, t);
      } else if t != q.qtype {
        assert groups[t] + [] == groups[t];
      }
    }
  }

  method GroupByType(qs: seq<Question>) returns (types: seq<Label>, groups: map<Label, seq<Question>>)
    ensures Grouped(qs, types, groups)
  {
    types, groups := [], map[];
    for i := 0 to |qs|
      invariant Grouped(qs[..i], types, groups)
    {
      ghost var before, groupsBefore := types, groups;
      if qs[i].qtype !in groups {
        types := types + [qs[i].qtype];
        groups := groups[qs[i].qtype := []];
      }
      groups := groups[qs[i].qtype := groups[qs[i].qtype] + [qs[i]]];
      GroupedNext(qs[..i], qs[i], before, groupsBefore, groups);
      assert qs[..i + 1] == qs[..i] + [qs[i]];
    }
    assert qs[..|qs|] == qs;
  }

  method TotalOf(types: seq<Label>, m: map<Label, int>, ghost f: Label -> int) returns (total: int)
    requires forall i :: 0 <= i < |types| ==> types[i] in m && m[types[i]] == f(types[i])
    ensures total == Sum(types, f)
  {
    total := 0;
    for i := 0 to |types|
      invariant total == Sum(types[..i], f)
    {
      assert types[..i + 1][..i] == types[..i];
      total := total + m[types[i]];
    }
    assert types[..|types|] == types;
  }

  method Promote(promoted: seq<Label>, floors: map<Label, int>) returns (quotas: map<Label, int>)
    requires Distinct(promoted) && forall t :: t in promoted ==> t in floors
    ensures quotas.Keys == floors.Keys
    ensures forall t :: t in floors ==> quotas[t] == floors[t] + if t in promoted then 1 else 0
  {
    quotas := floors;
    for i := 0 to |promoted|
      invariant quotas.Keys == floors.Keys
      invariant forall t :: t in floors ==> quotas[t] == floors[t] + if t in promoted[..i] then 1 else 0
    {
      assert promoted[..i + 1] == promoted[..i] + [promoted[i]];
      quotas := quotas[promoted[i] := quotas[promoted[i]] + 1];
    }
    assert promoted[..|promoted|] == promoted;
  }

  lemma PrefixDistinct(u: seq<Label>, n: nat)
    requires Distinct(u)
    ensures Distinct(Prefix(u, n)) && forall t :: t in Prefix(u, n) ==> t in u
  {
  }

  // Floors first, then one more for each of the largest remainders.
  method Apportion(qs: seq<Question>, types: seq<Label>, groups: map<Label, seq<Question>>, subset: nat)
    returns (quotas: map<Label, int>)
    requires subset < |qs| && Grouped(qs, types, groups)
    ensures forall t :: t in types ==> t in quotas && quotas[t] == Quota(qs, subset)(t) >= 0
  {
    var floors := FloorsOf(qs, types, groups, subset, |qs|);
    var given := TotalOf(types, floors, Floor(qs, subset));
    var promoted := Promoted(qs, subset, types, subset - given);
    quotas := Promote(promoted, floors);
    QuotasMatch(qs, subset, types, floors, quotas);
  }

  method Promoted(qs: seq<Question>, subset: nat, types: seq<Label>, leftover: int) returns (promoted: seq<Label>)
    requires subset < |qs| && types == Types(qs) && leftover == Leftover(qs, subset)
    ensures leftover >= 0 && promoted == Prefix(Queue(qs, subset), leftover)
    ensures Distinct(promoted) && forall t :: t in promoted ==> t in types
  {
    LeftoverIsNat(qs, subset);
    var queue := SortBy(types, ByRemainder(qs, subset));
    PrefixDistinct(queue, leftover);
    promoted := Prefix(queue, leftover);
  }

  method FloorsOf(ghost qs: seq<Question>, types: seq<Label>, groups: map<Label, seq<Question>>, subset: nat,
      total: nat)
    returns (floors: map<Label, int>)
    requires total == |qs| > 0 && Grouped(qs, types, groups)
    ensures floors.Keys == groups.Keys && forall t :: t in types ==> t in floors && floors[t] == Floor(qs, subset)(t)
  {
    floors := map t | t in groups :: |groups[t]| * subset / total;
  }

  lemma QuotaSplits(qs: seq<Question>, subset: nat, t: Label)
    requires qs != [] && Leftover(qs, subset) >= 0
    ensures Max(Leftover(qs, subset), 0) == Leftover(qs, subset)
    ensures Quota(qs, subset)(t)
         == Floor(qs, subset)(t) + if t in Prefix(Queue(qs, subset), Leftover(qs, subset)) then 1 else 0
  {
  }

  lemma QuotasMatch(qs: seq<Question>, subset: nat, types: seq<Label>, floors: map<Label, int>, quotas: map<Label, int>)
    requires subset < |qs| && types == Types(qs) && Leftover(qs, subset) >= 0
    requires forall t :: t in types ==> t in floors && floors[t] == Floor(qs, subset)(t)
    requires quotas.Keys == floors.Keys
    requires forall t :: t in floors ==>
             quotas[t] == floors[t] + if t in Prefix(Queue(qs, subset), Leftover(qs, subset)) then 1 else 0
    ensures forall t :: t in types ==> t in quotas && quotas[t] == Quota(qs, subset)(t) >= 0
  {
    forall t | t in types ensures t in quotas && quotas[t] == Quota(qs, subset)(t) >= 0 {
      QuotaSplits(qs, subset, t);
      QuotaNotNegative(qs, subset, t);
    }
  }

  lemma LeftoverIsNat(qs: seq<Question>, subset: nat)
    requires qs != [] && subset < |qs|
    ensures Leftover(qs, subset) >= 0 && Distinct(Queue(qs, subset))
            && forall t :: t in Queue(qs, subset) <==> t in Types(qs)
  {
    QueueSound(qs, subset);
    QuotasAreFair(qs, subset);
  }

  method Draw(types: seq<Label>, groups: map<Label, seq<Question>>, quotas: map<Label, int>, hash: string -> string,
              ghost drawn: Label -> set<Label>)
    returns (chosen: set<Label>)
    requires forall i :: 0 <= i < |types| ==> types[i] in groups && types[i] in quotas && quotas[types[i]] >= 0
    requires forall i :: 0 <= i < |types| ==>
             Ids(Prefix(Shuffle(groups[types[i]], hash), quotas[types[i]])) == drawn(types[i])
    ensures chosen == UnionOver(types, drawn)
  {
    chosen := {};
    for i := 0 to |types|
      invariant chosen == UnionOver(types[..i], drawn)
    {
      assert types[..i + 1][..i] == types[..i];
      var ordered := Shuffle(groups[types[i]], hash);
      chosen := chosen + Ids(Prefix(ordered, quotas[types[i]]));
    }
    assert types[..|types|] == types;
  }

  lemma QuotaNotNegative(qs: seq<Question>, subset: nat, t: Label)
    requires qs != [] && subset < |qs| && t in Types(qs)
    ensures Quota(qs, subset)(t) >= 0
  {
    QuotasAreFair(qs, subset);
  }
}
