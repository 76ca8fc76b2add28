// A stable sort, and the key that orders the pool.
module Ordering {

  // Stable insertion: x goes before the first element it does not exceed.
  function InsertBy<T>(x: T, s: seq<T>, leq: (T, T) -> bool): seq<T> {
    if s == [] then [x]
    else if leq(x, s[0]) then [x] + s
    else [s[0]] + InsertBy(x, s[1..], leq)
  }

  function SortBy<T>(s: seq<T>, leq: (T, T) -> bool): seq<T> {
    if s == [] then [] else InsertBy(s[0], SortBy(s[1..], leq), leq)
  }

  ghost predicate Sorted<T>(s: seq<T>, leq: (T, T) -> bool) {
    forall i, j :: 0 <= i < j < |s| ==> leq(s[i], s[j])
  }

  // leq is a linear order on the elements of s.
  ghost predicate Orders<T(!new)>(leq: (T, T) -> bool, s: seq<T>) {
    && (forall x, y :: x in s && y in s ==> leq(x, y) || leq(y, x))
    && (forall x, y :: x in s && y in s && leq(x, y) && leq(y, x) ==> x == y)
    && (forall x, y, z :: x in s && y in s && z in s && leq(x, y) && leq(y, z) ==> leq(x, z))
  }

  ghost predicate Preorders<T(!new)>(leq: (T, T) -> bool, s: seq<T>) {
    && (forall x, y :: x in s && y in s ==> leq(x, y) || leq(y, x))
    && (forall x, y, z :: x in s && y in s && z in s && leq(x, y) && leq(y, z) ==> leq(x, z))
  }

  lemma {:induction false} InsertKeepsElements<T>(x: T, s: seq<T>, leq: (T, T) -> bool)
    ensures multiset(InsertBy(x, s, leq)) == multiset([x] + s)
  {
    if s != [] && !leq(x, s[0]) {
      InsertKeepsElements(x, s[1..], leq);
      assert s == [s[0]] + s[1..];
    }
  }

  lemma {:induction false} SortKeepsElements<T>(s: seq<T>, leq: (T, T) -> bool)
    ensures multiset(SortBy(s, leq)) == multiset(s)
  {
    if s != [] {
      SortKeepsElements(s[1..], leq);
      InsertKeepsElements(s[0], SortBy(s[1..], leq), leq);
      assert s == [s[0]] + s[1..];
    }
  }

  lemma SameElements<T>(a: seq<T>, b: seq<T>)
    requires multiset(a) == multiset(b)
    ensures |a| == |b| && forall x :: x in a <==> x in b
  {
    assert |multiset(a)| == |a| && |multiset(b)| == |b|;
    forall x ensures x in a <==> x in b {
      assert x in a <==> x in multiset(a);
      assert x in b <==> x in multiset(b);
    }
  }

  lemma {:induction false} InsertSorts<T(!new)>(x: T, s: seq<T>, leq: (T, T) -> bool)
    requires Sorted(s, leq) && Preorders(leq, [x] + s)
    ensures Sorted(InsertBy(x, s, leq), leq)
  {
    var all := [x] + s;
    if s == [] {
    } else if leq(x, s[0]) {
      forall j | 0 <= j < |s| ensures leq(x, s[j]) {
        assert x in all && s[0] in all && s[j] in all;
      }
    } else {
      assert x in all && s[0] in all;
      InsertSorts(x, s[1..], leq);
      InsertKeepsElements(x, s[1..], leq);
      var r := InsertBy(x, s[1..], leq);
      SameElements(r, [x] + s[1..]);
      forall j | 0 <= j < |r| ensures leq(s[0], r[j]) {
        assert r[j] in [x] + s[1..];
      }
    }
  }

  lemma {:induction false} SortBySorts<T(!new)>(s: seq<T>, leq: (T, T) -> bool)
    requires Preorders(leq, s)
    ensures Sorted(SortBy(s, leq), leq) && multiset(SortBy(s, leq)) == multiset(s)
  {
    SortKeepsElements(s, leq);
    if s != [] {
      SortBySorts(s[1..], leq);
      SameElements(SortBy(s[1..], leq), s[1..]);
      InsertSorts(s[0], SortBy(s[1..], leq), leq);
    }
  }

  lemma HeadsAgree<T(!new)>(a: seq<T>, b: seq<T>, leq: (T, T) -> bool)
    requires |a| == |b| > 0 && (forall x :: x in a <==> x in b)
    requires Sorted(a, leq) && Sorted(b, leq) && Orders(leq, a)
    ensures a[0] == b[0]
  {
    assert b[0] in a && a[0] in b;
    var i :| 0 <= i < |a| && a[i] == b[0];
    var j :| 0 <= j < |b| && b[j] == a[0];
    assert leq(a[0], b[0]) || i == 0;
    assert leq(b[0], a[0]) || j == 0;
  }

  lemma TailsAgree<T>(a: seq<T>, b: seq<T>)
    requires multiset(a) == multiset(b) && a != [] && b != [] && a[0] == b[0]
    ensures multiset(a[1..]) == multiset(b[1..])
  {
    assert a == [a[0]] + a[1..] && b == [b[0]] + b[1..];
    assert multiset(a[1..]) == multiset(a) - multiset{a[0]};
    assert multiset(b[1..]) == multiset(b) - multiset{b[0]};
  }

  lemma OrdersTail<T(!new)>(leq: (T, T) -> bool, s: seq<T>)
    requires Orders(leq, s) && s != []
    ensures Orders(leq, s[1..])
  {
    assert forall x :: x in s[1..] ==> x in s;
  }

  // Two sorted arrangements of the same elements are the same.
  lemma {:induction false} SortedIsUnique<T(!new)>(a: seq<T>, b: seq<T>, leq: (T, T) -> bool)
    requires multiset(a) == multiset(b) && Sorted(a, leq) && Sorted(b, leq) && Orders(leq, a)
    ensures a == b
  {
    SameElements(a, b);
    if a != [] {
      HeadsAgree(a, b, leq);
      TailsAgree(a, b);
      OrdersTail(leq, a);
      SortedIsUnique(a[1..], b[1..], leq);
      assert a == [a[0]] + a[1..] && b == [b[0]] + b[1..];
    }
  }

  // The order of the input is forgotten.
  lemma SortForgetsOrder<T(!new)>(a: seq<T>, b: seq<T>, leq: (T, T) -> bool)
    requires multiset(a) == multiset(b) && Orders(leq, a)
    ensures SortBy(a, leq) == SortBy(b, leq)
  {
    SameElements(a, b);
    SortBySorts(a, leq);
    SortBySorts(b, leq);
    SameElements(a, SortBy(a, leq));
    SortedIsUnique(SortBy(a, leq), SortBy(b, leq), leq);
  }

  // Sorted, and equals stay in the order of their places.
  ghost predicate StableSorted<T>(s: seq<T>, leq: (T, T) -> bool, place: T -> int) {
    forall i, j :: 0 <= i < j < |s| ==> leq(s[i], s[j]) && (leq(s[j], s[i]) ==> place(s[i]) < place(s[j]))
  }

  lemma StableCons<T>(x: T, s: seq<T>, leq: (T, T) -> bool, place: T -> int)
    requires StableSorted(s, leq, place)
    requires forall y :: y in s ==> leq(x, y) && (leq(y, x) ==> place(x) < place(y))
    ensures StableSorted([x] + s, leq, place)
  {
  }

  lemma {:induction false} InsertIsStable<T(!new)>(x: T, s: seq<T>, leq: (T, T) -> bool, place: T -> int)
    requires StableSorted(s, leq, place) && Preorders(leq, [x] + s)
    requires forall y :: y in s ==> place(x) < place(y)
    ensures StableSorted(InsertBy(x, s, leq), leq, place)
  {
    var all := [x] + s;
    assert forall y :: y in all <==> y == x || y in s;
    if s == [] {
    } else if leq(x, s[0]) {
      forall y | y in s ensures leq(x, y) {
        var j :| 0 <= j < |s| && s[j] == y;
        assert j == 0 || leq(s[0], s[j]);
      }
      StableCons(x, s, leq, place);
    } else {
      InsertIsStable(x, s[1..], leq, place);
      FirstStaysFirst(x, s, leq, place);
      StableCons(s[0], InsertBy(x, s[1..], leq), leq, place);
    }
  }

  lemma FirstStaysFirst<T(!new)>(x: T, s: seq<T>, leq: (T, T) -> bool, place: T -> int)
    requires s != [] && StableSorted(s, leq, place) && leq(s[0], x) && !leq(x, s[0])
    ensures forall y :: y in InsertBy(x, s[1..], leq) ==> leq(s[0], y) && (leq(y, s[0]) ==> place(s[0]) < place(y))
  {
    InsertKeepsElements(x, s[1..], leq);
    SameElements(InsertBy(x, s[1..], leq), [x] + s[1..]);
    forall y | y in InsertBy(x, s[1..], leq) ensures leq(s[0], y) && (leq(y, s[0]) ==> place(s[0]) < place(y)) {
      assert y in [x] + s[1..];
      if y != x {
        var j :| 1 <= j < |s| && s[j] == y;
        assert leq(s[0], s[j]);
      }
    }
  }

  lemma {:induction false} SortIsStable<T(!new)>(s: seq<T>, leq: (T, T) -> bool, place: T -> int)
    requires Preorders(leq, s) && forall i, j :: 0 <= i < j < |s| ==> place(s[i]) < place(s[j])
    ensures StableSorted(SortBy(s, leq), leq, place)
  {
    if s != [] {
      SortIsStable(s[1..], leq, place);
      SortKeepsElements(s[1..], leq);
      SameElements(SortBy(s[1..], leq), s[1..]);
      InsertIsStable(s[0], SortBy(s[1..], leq), leq, place);
    }
  }

  function Mapped<T, U>(s: seq<T>, f: T -> U): (m: seq<U>)
    ensures |m| == |s| && forall i :: 0 <= i < |s| ==> m[i] == f(s[i])
  {
    if s == [] then [] else [f(s[0])] + Mapped(s[1..], f)
  }

  lemma {:induction false} InsertMaps<T, U>(x: T, s: seq<T>, f: T -> U, leq: (T, T) -> bool, below: (U, U) -> bool)
    requires forall y :: y in s ==> (leq(x, y) <==> below(f(x), f(y)))
    ensures InsertBy(f(x), Mapped(s, f), below) == Mapped(InsertBy(x, s, leq), f)
  {
    if s == [] {
      assert Mapped([x], f) == [f(x)];
    } else if leq(x, s[0]) {
      assert ([x] + s)[1..] == s;
    } else {
      InsertMaps(x, s[1..], f, leq, below);
      assert ([s[0]] + InsertBy(x, s[1..], leq))[1..] == InsertBy(x, s[1..], leq);
    }
  }

  // Sorting commutes with a map that keeps the order of the elements.
  lemma {:induction false} SortMaps<T(!new), U>(s: seq<T>, f: T -> U, leq: (T, T) -> bool, below: (U, U) -> bool)
    requires forall x, y :: x in s && y in s ==> (leq(x, y) <==> below(f(x), f(y)))
    ensures SortBy(Mapped(s, f), below) == Mapped(SortBy(s, leq), f)
  {
    if s != [] {
      SortMaps(s[1..], f, leq, below);
      SortKeepsElements(s[1..], leq);
      SameElements(SortBy(s[1..], leq), s[1..]);
      InsertMaps(s[0], SortBy(s[1..], leq), f, leq, below);
    }
  }

  // Strings in code point order.
  predicate StringLeq(a: string, b: string) {
    a == [] || (b != [] && (a[0] < b[0] || (a[0] == b[0] && StringLeq(a[1..], b[1..]))))
  }

  lemma {:induction false} StringTotal(a: string, b: string)
    ensures StringLeq(a, b) || StringLeq(b, a)
  {
    if a != [] && b != [] {
      StringTotal(a[1..], b[1..]);
    }
  }

  lemma {:induction false} StringAntisymmetric(a: string, b: string)
    requires StringLeq(a, b) && StringLeq(b, a)
    ensures a == b
  {
    if a != [] && b != [] {
      StringAntisymmetric(a[1..], b[1..]);
      assert a == [a[0]] + a[1..] && b == [b[0]] + b[1..];
    }
  }

  lemma {:induction false} StringTransitive(a: string, b: string, c: string)
    requires StringLeq(a, b) && StringLeq(b, c)
    ensures StringLeq(a, c)
  {
    if a != [] && a[0] == b[0] == c[0] {
      StringTransitive(a[1..], b[1..], c[1..]);
    }
  }

  // The tuple the pool is sorted by, compared left to right.
  datatype Key = Key(score: real, recency: real, order: real, content: string, id: string)

  predicate KeyLeq(a: Key, b: Key) {
    a.score < b.score || (a.score == b.score &&
    (a.recency < b.recency || (a.recency == b.recency &&
    (a.order < b.order || (a.order == b.order &&
    (if a.content == b.content then StringLeq(a.id, b.id) else StringLeq(a.content, b.content)))))))
  }

  lemma KeyTotal(a: Key, b: Key)
    ensures KeyLeq(a, b) || KeyLeq(b, a)
  {
    StringTotal(a.content, b.content);
    StringTotal(a.id, b.id);
  }

  lemma KeyAntisymmetric(a: Key, b: Key)
    requires KeyLeq(a, b) && KeyLeq(b, a)
    ensures a == b
  {
    if a.content != b.content {
      StringAntisymmetric(a.content, b.content);
    } else {
      StringAntisymmetric(a.id, b.id);
    }
  }

  lemma KeyTransitive(a: Key, b: Key, c: Key)
    requires KeyLeq(a, b) && KeyLeq(b, c)
    ensures KeyLeq(a, c)
  {
    if a.score == b.score == c.score && a.recency == b.recency == c.recency && a.order == b.order == c.order {
      if a.content == b.content == c.content {
        StringTransitive(a.id, b.id, c.id);
      } else if a.content != b.content && b.content != c.content {
        StringTransitive(a.content, b.content, c.content);
        if a.content == c.content {
          StringAntisymmetric(a.content, b.content);
        }
      }
    }
  }
}
