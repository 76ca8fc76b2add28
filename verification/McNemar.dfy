// The exact McNemar test (eval/compare_dumps.py:58-69), with exact fractions.
module McNemar {
  import opened Reals

  // C(n, k), by Pascal's rule.
  function Comb(n: nat, k: nat): nat {
    if k == 0 then 1 else if n == 0 then 0 else Comb(n - 1, k - 1) + Comb(n - 1, k)
  }

  function Pow2(n: nat): (p: nat)
    ensures p >= 1
  {
    if n == 0 then 1 else 2 * Pow2(n - 1)
  }

  // The sum of C(n, i) for i below m.
  function Tail(n: nat, m: nat): nat {
    if m == 0 then 0 else Tail(n, m - 1) + Comb(n, m - 1)
  }

  function Min(a: nat, b: nat): nat {
    if a < b then a else b
  }

  // Twice the smaller tail, before the clamp at 1.
  function TwoSided(b: nat, c: nat): real {
    2.0 * Tail(b + c, Min(b, c) + 1) as real / Pow2(b + c) as real
  }

  function PValue(b: nat, c: nat): real {
    if b + c == 0 then 1.0 else if TwoSided(b, c) > 1.0 then 1.0 else TwoSided(b, c)
  }

  // The independent reading: all outcomes of n fair coins.
  function Prefixed(x: bool, os: seq<seq<bool>>): seq<seq<bool>> {
    seq(|os|, i requires 0 <= i < |os| => [x] + os[i])
  }

  function Outcomes(n: nat): seq<seq<bool>> {
    if n == 0 then [[]] else Prefixed(true, Outcomes(n - 1)) + Prefixed(false, Outcomes(n - 1))
  }

  function Heads(o: seq<bool>): nat {
    if o == [] then 0 else (if o[0] then 1 else 0) + Heads(o[1..])
  }

  lemma {:induction false} OutcomesCover(n: nat, o: seq<bool>)
    ensures o in Outcomes(n) <==> |o| == n
  {
    if n > 0 {
      forall x: seq<bool> ensures x in Outcomes(n - 1) <==> |x| == n - 1 {
        OutcomesCover(n - 1, x);
      }
      OneLonger(Outcomes(n - 1), o, n);
    }
  }

  lemma {:induction false} OutcomesDiffer(n: nat)
    ensures forall i, j :: 0 <= i < j < |Outcomes(n)| ==> Outcomes(n)[i] != Outcomes(n)[j]
  {
    if n > 0 {
      OutcomesDiffer(n - 1);
      StillDistinct(Outcomes(n - 1));
    }
  }

  lemma {:induction false} OutcomeCount(n: nat)
    ensures |Outcomes(n)| == Pow2(n)
  {
    if n > 0 {
      OutcomeCount(n - 1);
    }
  }

  // Every outcome is listed, once.
  lemma OutcomesAreAll(n: nat, o: seq<bool>)
    ensures |Outcomes(n)| == Pow2(n) && (o in Outcomes(n) <==> |o| == n)
    ensures forall i, j :: 0 <= i < j < |Outcomes(n)| ==> Outcomes(n)[i] != Outcomes(n)[j]
  {
    OutcomeCount(n);
    OutcomesCover(n, o);
    OutcomesDiffer(n);
  }

  lemma OneLonger(os: seq<seq<bool>>, o: seq<bool>, n: nat)
    requires n > 0 && forall x: seq<bool> :: x in os <==> |x| == n - 1
    ensures o in Prefixed(true, os) + Prefixed(false, os) <==> |o| == n
  {
    if |o| == n {
      assert o == [o[0]] + o[1..] && o[1..] in os;
      var i :| 0 <= i < |os| && os[i] == o[1..];
      assert Prefixed(o[0], os)[i] == o;
      assert o in Prefixed(o[0], os);
    }
  }

  lemma StillDistinct(os: seq<seq<bool>>)
    requires forall i, j :: 0 <= i < j < |os| ==> os[i] != os[j]
    ensures var both := Prefixed(true, os) + Prefixed(false, os);
            forall i, j :: 0 <= i < j < |both| ==> both[i] != both[j]
  {
    var both := Prefixed(true, os) + Prefixed(false, os);
    forall i, j | 0 <= i < j < |both| ensures both[i] != both[j] {
      var k, l := if i < |os| then i else i - |os|, if j < |os| then j else j - |os|;
      assert both[i] == [i < |os|] + os[k] && both[j] == [j < |os|] + os[l];
      assert both[i][0] == (i < |os|) && both[j][0] == (j < |os|);
      assert both[i][1..] == os[k] && both[j][1..] == os[l];
    }
  }

  // How many outcomes have a number of heads that satisfies p.
  function Tally(os: seq<seq<bool>>, p: nat -> bool): nat {
    if os == [] then 0 else Tally(os[..|os| - 1], p) + (if p(Heads(os[|os| - 1])) then 1 else 0)
  }

  // An outcome at least as lopsided as b against c.
  function Lopsided(n: nat, k: nat): nat -> bool {
    (h: nat) => h <= k || n <= h + k
  }

  // The sum of C(n, h) over the h below m that satisfy p.
  function Weight(n: nat, p: nat -> bool, m: nat): nat {
    if m == 0 then 0 else Weight(n, p, m - 1) + (if p(m - 1) then Comb(n, m - 1) else 0)
  }

  lemma {:induction false} TallyAppend(a: seq<seq<bool>>, b: seq<seq<bool>>, p: nat -> bool)
    ensures Tally(a + b, p) == Tally(a, p) + Tally(b, p)
  {
    if b == [] {
      assert a + b == a;
    } else {
      TallyAppend(a, b[..|b| - 1], p);
      assert (a + b)[..|a + b| - 1] == a + b[..|b| - 1];
    }
  }

  lemma {:induction false} TallyPrefixed(x: bool, os: seq<seq<bool>>, p: nat -> bool, r: nat -> bool)
    requires forall h: nat :: r(h) == p(h + if x then 1 else 0)
    ensures Tally(Prefixed(x, os), p) == Tally(os, r)
  {
    if os != [] {
      var n := |os| - 1;
      TallyPrefixed(x, os[..n], p, r);
      assert Prefixed(x, os)[..n] == Prefixed(x, os[..n]);
      assert ([x] + os[n])[1..] == os[n];
    }
  }

  lemma {:induction false} WeightPascal(n: nat, p: nat -> bool, r: nat -> bool, m: nat)
    requires forall h: nat :: r(h) == p(h + 1)
    ensures Weight(n + 1, p, m + 1) == Weight(n, r, m) + Weight(n, p, m + 1)
  {
    if m > 0 {
      WeightPascal(n, p, r, m - 1);
      assert Comb(n + 1, m) == Comb(n, m - 1) + Comb(n, m);
    }
  }

  lemma {:induction false} NothingAbove(n: nat, k: nat)
    requires k > n
    ensures Comb(n, k) == 0
  {
    if n > 0 {
      NothingAbove(n - 1, k - 1);
      NothingAbove(n - 1, k);
    }
  }

  lemma NoCoins(p: nat -> bool)
    ensures Tally(Outcomes(0), p) == Weight(0, p, 1)
  {
    var one: seq<seq<bool>> := [[]];
    assert Outcomes(0) == one && one[..0] == [];
    assert Tally(one, p) == Tally([], p) + (if p(0) then 1 else 0);
    assert Weight(0, p, 1) == Weight(0, p, 0) + (if p(0) then Comb(0, 0) else 0);
  }

  // Counting outcomes is adding up binomials.
  lemma {:induction false} TallyIsWeight(n: nat, p: nat -> bool)
    ensures Tally(Outcomes(n), p) == Weight(n, p, n + 1)
    decreases n
  {
    if n == 0 {
      NoCoins(p);
    } else {
      var m: nat := n - 1;
      TallyIsWeight(m, (h: nat) => p(h + 1));
      TallyIsWeight(m, p);
      TallyStep(m, n, p, (h: nat) => p(h + 1));
    }
  }

  lemma TallyStep(m: nat, n: nat, p: nat -> bool, r: nat -> bool)
    requires n == m + 1 && forall h: nat :: r(h) == p(h + 1)
    requires Tally(Outcomes(m), r) == Weight(m, r, m + 1) && Tally(Outcomes(m), p) == Weight(m, p, m + 1)
    ensures Tally(Outcomes(n), p) == Weight(n, p, n + 1)
  {
    OneMoreCoin(m, p, r);
    WeightOneMore(m, p, r);
  }

  lemma WeightOneMore(n: nat, p: nat -> bool, r: nat -> bool)
    requires forall h: nat :: r(h) == p(h + 1)
    ensures Weight(n + 1, p, n + 2) == Weight(n, r, n + 1) + Weight(n, p, n + 1)
  {
    WeightPascal(n, p, r, n + 1);
    NothingAbove(n, n + 1);
  }

  lemma OneMoreCoin(n: nat, p: nat -> bool, r: nat -> bool)
    requires forall h: nat :: r(h) == p(h + 1)
    ensures Tally(Outcomes(n + 1), p) == Tally(Outcomes(n), r) + Tally(Outcomes(n), p)
  {
    var os := Outcomes(n);
    TallyAppend(Prefixed(true, os), Prefixed(false, os), p);
    TallyPrefixed(true, os, p, r);
    TallyPrefixed(false, os, p, p);
  }

  lemma {:induction false} CombPositive(n: nat, k: nat)
    requires k <= n
    ensures Comb(n, k) > 0
  {
    if 0 < k {
      CombPositive(n - 1, k - 1);
    }
  }

  lemma {:induction false} CombAll(n: nat)
    ensures Comb(n, n) == 1
  {
    if n > 0 {
      CombAll(n - 1);
      NothingAbove(n - 1, n);
    }
  }

  lemma {:induction false} CombSymmetric(n: nat, k: nat)
    requires k <= n
    ensures Comb(n, k) == Comb(n, n - k)
  {
    CombAll(n);
    if 0 < k < n {
      CombSymmetric(n - 1, k - 1);
      CombSymmetric(n - 1, k);
    }
  }

  lemma {:induction false} LowWeight(n: nat, p: nat -> bool, m: nat)
    requires forall h: nat :: h < m ==> p(h)
    ensures Weight(n, p, m) == Tail(n, m)
  {
    if m > 0 {
      LowWeight(n, p, m - 1);
    }
  }

  lemma {:induction false} GapWeight(n: nat, p: nat -> bool, a: nat, b: nat)
    requires a <= b && forall h: nat :: a <= h < b ==> !p(h)
    ensures Weight(n, p, b) == Weight(n, p, a)
  {
    if a < b {
      GapWeight(n, p, a, b - 1);
    }
  }

  // The upper end mirrors the lower one.
  lemma {:induction false} HighWeight(n: nat, p: nat -> bool, m: nat, j: nat)
    requires j <= m <= n + 1 && forall h: nat :: n + 1 - m <= h <= n ==> p(h)
    ensures Weight(n, p, n + 1 - m + j) == Weight(n, p, n + 1 - m) + Tail(n, m) - Tail(n, m - j)
  {
    if j > 0 {
      HighWeight(n, p, m, j - 1);
      CombSymmetric(n, m - j);
    }
  }

  lemma {:induction false} TallyAtMost(os: seq<seq<bool>>, p: nat -> bool)
    ensures Tally(os, p) <= |os|
    ensures (forall h: nat :: p(h)) ==> Tally(os, p) == |os|
  {
    if os != [] {
      TallyAtMost(os[..|os| - 1], p);
    }
  }

  // Off the diagonal the lopsided outcomes are two equal tails.
  lemma TwoTails(n: nat, k: nat)
    requires 2 * k < n
    ensures Tally(Outcomes(n), Lopsided(n, k)) == 2 * Tail(n, k + 1)
  {
    var p := Lopsided(n, k);
    TallyIsWeight(n, p);
    LowWeight(n, p, k + 1);
    GapWeight(n, p, k + 1, n - k);
    HighWeight(n, p, k + 1, k + 1);
  }

  // On the diagonal every outcome is as lopsided, and the two tails overlap.
  lemma TailsOverlap(k: nat)
    requires k > 0
    ensures Tally(Outcomes(2 * k), Lopsided(2 * k, k)) == Pow2(2 * k) < 2 * Tail(2 * k, k + 1)
  {
    var n := 2 * k;
    var p := Lopsided(n, k);
    OutcomeCount(n);
    forall h: nat ensures p(h) {
    }
    TallyAtMost(Outcomes(n), p);
    TallyIsWeight(n, p);
    LowWeight(n, p, k + 1);
    HighWeight(n, p, k, k);
    CombPositive(n, k);
  }

  lemma Ratio(a: nat, b: nat)
    requires b >= 1
    ensures a as real / b as real > 1.0 <==> a > b
    ensures a as real / b as real > 0.0 <==> a > 0
    ensures a == b ==> a as real / b as real == 1.0
  {
    var q, d := a as real / b as real, b as real;
    assert q * d == a as real;
    assert (q - 1.0) * d == a as real - d;
    Sign(q, d);
    Sign(q - 1.0, d);
  }

  function LopsidedCount(b: nat, c: nat): nat {
    Tally(Outcomes(b + c), Lopsided(b + c, Min(b, c)))
  }

  // The lopsided outcomes against the doubled tail.
  lemma CountAgainstTails(b: nat, c: nat)
    ensures var doubled, all := 2 * Tail(b + c, Min(b, c) + 1), Pow2(b + c);
            && LopsidedCount(b, c) <= all && doubled > 0
            && (b != c ==> LopsidedCount(b, c) == doubled)
            && (b == c ==> LopsidedCount(b, c) == all < doubled)
  {
    var n, k := b + c, Min(b, c);
    OutcomeCount(n);
    TallyAtMost(Outcomes(n), Lopsided(n, k));
    FirstIsPositive(n, k);
    if b != c {
      TwoTails(n, k);
    } else if k > 0 {
      assert n == 2 * k;
      TailsOverlap(k);
    } else {
      NoFlips();
    }
  }

  lemma NoFlips()
    ensures LopsidedCount(0, 0) == 1 && Tail(0, 1) == 1
  {
    var p := Lopsided(0, 0);
    NoCoins(p);
    assert p(0) && Comb(0, 0) == 1 && Weight(0, p, 0) == 0 && Tail(0, 0) == 0;
  }

  lemma {:induction false} FirstIsPositive(n: nat, k: nat)
    ensures Tail(n, k + 1) >= 1
  {
    if k > 0 {
      FirstIsPositive(n, k - 1);
    }
  }

  lemma TwoSidedIs(b: nat, c: nat)
    ensures TwoSided(b, c) == (2 * Tail(b + c, Min(b, c) + 1)) as real / Pow2(b + c) as real
  {
    var t := Tail(b + c, Min(b, c) + 1);
    assert 2.0 * t as real == (2 * t) as real;
  }

  // The p-value is the share of the 2^(b+c) outcomes at least as lopsided as the
  // one observed; it lies in (0, 1] and does not depend on which side is which.
  lemma PValueIsTheShare(b: nat, c: nat)
    ensures PValue(b, c) == LopsidedCount(b, c) as real / Pow2(b + c) as real
    ensures 0.0 < PValue(b, c) <= 1.0 && PValue(b, c) == PValue(c, b)
  {
    CountAgainstTails(b, c);
    TwoSidedIs(b, c);
    Ratio(LopsidedCount(b, c), Pow2(b + c));
    Ratio(2 * Tail(b + c, Min(b, c) + 1), Pow2(b + c));
    assert b + c == c + b && Min(b, c) == Min(c, b);
  }

  // The clamp is needed exactly when the discordant counts are equal.
  lemma ClampBitesIff(b: nat, c: nat)
    requires b + c > 0
    ensures TwoSided(b, c) > 1.0 <==> b == c
  {
    CountAgainstTails(b, c);
    TwoSidedIs(b, c);
    Ratio(2 * Tail(b + c, Min(b, c) + 1), Pow2(b + c));
  }
}
