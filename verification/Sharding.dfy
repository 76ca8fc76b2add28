// Sharding by history and truncation by session (eval/datasets.py:341-371,425-439).
module Sharding {
  import opened Rows
  import opened Sampling

  function HistoryOf(q: Question): Label {
    if q.historyId.text != "" then q.historyId else q.qid
  }

  // Histories in order of first appearance.
  function Histories(qs: seq<Question>): (hs: seq<Label>)
    ensures Distinct(hs) && forall q :: q in qs ==> HistoryOf(q) in hs
  {
    if qs == [] then []
    else
      var before, h := Histories(qs[..|qs| - 1]), HistoryOf(qs[|qs| - 1]);
      if h in before then before else before + [h]
  }

  function IndexOf<T(==)>(s: seq<T>, x: T): (i: nat)
    requires x in s
    ensures i < |s| && s[i] == x
  {
    if s[0] == x then 0
    else
      assert s == [s[0]] + s[1..];
      1 + IndexOf(s[1..], x)
  }

  // Round robin over the histories.
  function ShardOf(qs: seq<Question>, n: int, q: Question): int
    requires n > 1
  {
    if HistoryOf(q) in Histories(qs) then IndexOf(Histories(qs), HistoryOf(q)) % n else 0
  }

  function InShard(qs: seq<Question>, i: int, n: int): Question -> bool
    requires n > 1
  {
    (q: Question) => ShardOf(qs, n, q) == i
  }

  function Shard(qs: seq<Question>, i: int, n: int): seq<Question> {
    if n <= 1 then qs else Filter(qs, InShard(qs, i, n))
  }

  // Every question is in exactly one shard, each shard keeps dataset order, and
  // a history is never split.
  lemma ShardsPartition(qs: seq<Question>, n: int, q: Question, r: Question)
    requires n > 1 && q in qs && r in qs
    ensures forall i :: q in Shard(qs, i, n) <==> i == ShardOf(qs, n, q)
    ensures 0 <= ShardOf(qs, n, q) < n
    ensures forall i :: Subsequence(Shard(qs, i, n), qs)
    ensures HistoryOf(q) == HistoryOf(r) ==> ShardOf(qs, n, q) == ShardOf(qs, n, r)
  {
    forall i ensures Subsequence(Shard(qs, i, n), qs) && (q in Shard(qs, i, n) <==> i == ShardOf(qs, n, q)) {
      FilterMembers(qs, InShard(qs, i, n));
      FilterIsSubsequence(qs, InShard(qs, i, n));
    }
  }

  function Indices(n: nat): seq<int> {
    seq(n, i => i)
  }

  // The sizes of the shards add up: with duplicates counted, nothing is lost or
  // served twice.
  lemma ShardsAddUp(qs: seq<Question>, n: nat)
    requires n > 1
    ensures Sum(Indices(n), i => |Shard(qs, i, n)|) == |qs|
  {
    var class_ := (q: Question) => ShardOf(qs, n, q);
    ClassesAddUp(qs, n, class_);
    forall i ensures |Shard(qs, i, n)| == InClass(qs, class_)(i) {
      FilterAgrees(qs, InShard(qs, i, n), Is(class_, i));
    }
    SumAgrees(Indices(n), i => |Shard(qs, i, n)|, InClass(qs, class_));
  }

  lemma {:induction false} FilterAgrees<T>(s: seq<T>, p: T -> bool, r: T -> bool)
    requires forall x :: x in s ==> p(x) == r(x)
    ensures Filter(s, p) == Filter(s, r)
  {
    if s != [] {
      FilterAgrees(s[..|s| - 1], p, r);
    }
  }

  function InClass<T>(s: seq<T>, class_: T -> int): int -> int {
    i => |Filter(s, Is(class_, i))|
  }

  function Is<T>(class_: T -> int, i: int): T -> bool {
    (x: T) => class_(x) == i
  }

  lemma {:induction false} ClassesAddUp<T>(s: seq<T>, n: nat, class_: T -> int)
    requires forall x :: x in s ==> 0 <= class_(x) < n
    ensures Sum(Indices(n), InClass(s, class_)) == |s|
  {
    if s == [] {
      SumZero(Indices(n), InClass(s, class_));
    } else {
      var m := |s| - 1;
      var hit := (i: int) => if class_(s[m]) == i then 1 else 0;
      ClassesAddUp(s[..m], n, class_);
      assert forall i :: InClass(s, class_)(i) == InClass(s[..m], class_)(i) + hit(i);
      SumPlus(Indices(n), InClass(s[..m], class_), hit, InClass(s, class_));
      HitsOnce(n, class_(s[m]), hit);
    }
  }

  lemma {:induction false} HitsOnce(n: nat, k: int, hit: int -> int)
    requires forall i :: hit(i) == if k == i then 1 else 0
    ensures Sum(Indices(n), hit) == if 0 <= k < n then 1 else 0
  {
    if n > 0 {
      HitsOnce(n - 1, k, hit);
      assert Indices(n)[..n - 1] == Indices(n - 1);
    }
  }

  // How many of the first m histories go to shard i.
  function Load(m: nat, i: int, n: int): nat
    requires n > 1
  {
    if m == 0 then 0 else Load(m - 1, i, n) + (if (m - 1) % n == i then 1 else 0)
  }

  lemma {:induction false} LoadIs(m: nat, i: int, n: int)
    requires n > 1 && 0 <= i < n
    ensures Load(m, i, n) == m / n + (if i < m % n then 1 else 0)
  {
    if m == 0 {
      SameDivision(0, n, 0, 0);
    } else {
      LoadIs(m - 1, i, n);
      NextMultiple(m - 1, n);
      Division(m - 1, n);
      OneMoreDealt((m - 1) / n, (m - 1) % n, m / n, m % n, i, n);
    }
  }

  lemma OneMoreDealt(q: int, r: int, q': int, r': int, i: int, n: int)
    requires 0 <= r < n && 0 <= i < n
    requires if r + 1 < n then q' == q && r' == r + 1 else q' == q + 1 && r' == 0
    ensures q + (if i < r then 1 else 0) + (if r == i then 1 else 0) == q' + (if i < r' then 1 else 0)
  {
  }

  lemma NextMultiple(m: nat, n: int)
    requires n > 1
    ensures if m % n + 1 < n then (m + 1) / n == m / n && (m + 1) % n == m % n + 1
            else (m + 1) / n == m / n + 1 && (m + 1) % n == 0
  {
    var q, r := m / n, m % n;
    Division(m, n);
    if r + 1 < n {
      SameDivision(m + 1, n, q, r + 1);
    } else {
      assert (q + 1) * n == q * n + n;
      SameDivision(m + 1, n, q + 1, 0);
    }
  }

  lemma SameDivision(m: int, n: int, q: int, r: int)
    requires n > 0 && m == q * n + r && 0 <= r < n
    ensures m / n == q && m % n == r
  {
    Division(m, n);
    Scaled(n, m / n, q);
    Scaled(n, q, m / n);
    Commute(n, q);
    Commute(n, m / n);
  }

  function HistoriesIn(qs: seq<Question>, i: int, n: int): seq<Label>
    requires n > 1
  {
    var hs := Histories(qs);
    Filter(hs, (h: Label) => h in hs && IndexOf(hs, h) % n == i)
  }

  lemma {:induction false} LoadCounts(hs: seq<Label>, m: nat, i: int, n: int)
    requires n > 1 && Distinct(hs) && m <= |hs|
    ensures |Filter(hs[..m], (h: Label) => h in hs && IndexOf(hs, h) % n == i)| == Load(m, i, n)
  {
    if m > 0 {
      LoadCounts(hs, m - 1, i, n);
      assert hs[..m][..m - 1] == hs[..m - 1];
      assert IndexOf(hs, hs[m - 1]) == m - 1;
    }
  }

  // Histories are balanced: every shard has the floor or the ceiling of its
  // share, and an earlier shard never has fewer.
  lemma ShardsAreBalanced(qs: seq<Question>, i: int, j: int, n: int)
    requires n > 1 && 0 <= i <= j < n
    ensures |HistoriesIn(qs, j, n)| <= |HistoriesIn(qs, i, n)| <= |HistoriesIn(qs, j, n)| + 1
    ensures |HistoriesIn(qs, i, n)| == |Histories(qs)| / n + (if i < |Histories(qs)| % n then 1 else 0)
  {
    var hs := Histories(qs);
    assert hs[..|hs|] == hs;
    LoadCounts(hs, |hs|, i, n);
    LoadCounts(hs, |hs|, j, n);
    LoadIs(|hs|, i, n);
    LoadIs(|hs|, j, n);
  }

  method ListHistories(questions: seq<Question>) returns (order: seq<Label>)
    ensures order == Histories(questions)
  {
    var seen: set<Label> := {};
    order := [];
    for k := 0 to |questions|
      invariant order == Histories(questions[..k]) && forall h :: h in seen <==> h in order
    {
      assert questions[..k + 1][..k] == questions[..k];
      var key := HistoryOf(questions[k]);
      if key !in seen {
        seen := seen + {key};
        order := order + [key];
      }
    }
    assert questions[..|questions|] == questions;
  }

  method AssignShards(order: seq<Label>, shardCount: int) returns (shardByKey: map<Label, int>)
    requires Distinct(order) && shardCount > 1
    ensures forall h :: h in order ==> h in shardByKey && shardByKey[h] == IndexOf(order, h) % shardCount
  {
    shardByKey := map[];
    for k := 0 to |order|
      invariant forall j :: 0 <= j < k ==> order[j] in shardByKey && shardByKey[order[j]] == j % shardCount
    {
      shardByKey := shardByKey[order[k] := k % shardCount];
    }
    forall h | h in order ensures h in shardByKey && shardByKey[h] == IndexOf(order, h) % shardCount {
      assert order[IndexOf(order, h)] == h;
    }
  }

  method ShardQuestions(questions: seq<Question>, shardIndex: int, shardCount: int) returns (result: seq<Question>)
    ensures result == Shard(questions, shardIndex, shardCount)
  {
    if shardCount <= 1 {
      return questions;
    }
    var order := ListHistories(questions);
    var shardByKey := AssignShards(order, shardCount);
    ghost var mine := InShard(questions, shardIndex, shardCount);
    result := [];
    for k := 0 to |questions|
      invariant result == Filter(questions[..k], mine)
    {
      assert questions[..k + 1][..k] == questions[..k];
      if shardByKey[HistoryOf(questions[k])] == shardIndex {
        result := result + [questions[k]];
      }
    }
    assert questions[..|questions|] == questions;
  }

  // The most recent whole sessions that fit the budget: as many as fit, but
  // always at least one.
  method TruncateSessions<T>(sessions: seq<T>, cost: T -> nat, maxTokens: int) returns (kept: seq<T>, truncated: bool)
    ensures |kept| <= |sessions| && kept == sessions[|sessions| - |kept|..] && truncated == (|kept| < |sessions|)
    ensures sessions != [] ==> kept != []
    ensures |kept| > 1 ==> Sum(kept, x => cost(x)) <= maxTokens
    ensures truncated ==> Sum(sessions[|sessions| - |kept| - 1..], x => cost(x)) > maxTokens
  {
    kept := [];
    var total: int := 0;
    var k := |sessions|;
    while k > 0
      invariant 0 <= k <= |sessions| && kept == sessions[k..] && total == Sum(kept, x => cost(x))
      invariant |kept| > 1 ==> total <= maxTokens
    {
      var session := sessions[k - 1];
      assert sessions[k - 1..] == [session] + kept;
      SumAppend([session], kept, x => cost(x));
      SumOne(session, x => cost(x));
      if kept != [] && total + cost(session) > maxTokens {
        return kept, true;
      }
      kept := [session] + kept;
      total := total + cost(session);
      k := k - 1;
    }
    truncated := |kept| < |sessions|;
  }
}
