// The packing loop of build_context (app/context/__init__.py:1268-1398): a
// ranked pool of facts and episodes is served greedily under a token budget.
module Packing {
  import opened Rows

  type EpisodeId = nat

  datatype Entry = FactEntry(fact: FactId) | EpisodeEntry(episode: EpisodeId)

  // A rendered line; its reference number is part of what it costs.
  datatype Line = FactLine(id: FactId, contested: bool, ref: nat) | EpisodeLine(episode: EpisodeId, ref: nat)

  datatype Reason = TopScore | ConflictDisputed | OverBudget | OverEpisodeBudget | Forgotten
  datatype Decision = Decision(entry: Entry, reason: Reason, cost: nat)

  // What the loop reads: the budget, the open conflict of each contested fact
  // as its member list, the hydrated members (true when disabled or deleted),
  // and the size of a rendered line.
  datatype Context = Context(budget: nat, conflicts: map<FactId, seq<FactId>>, members: map<FactId, bool>,
      size: Line -> nat)

  datatype Packet = Packet(
    facts: seq<Line>, episodes: seq<Line>, packed: set<FactId>,
    tokens: nat, episodeTokens: nat, decisions: seq<Decision>)

  const NOTHING := Packet([], [], {}, 0, 0, [])

  // estimate_tokens never charges less than one token.
  function Cost(c: Context, l: Line): (n: nat)
    ensures n >= 1
  {
    if c.size(l) < 1 then 1 else c.size(l)
  }

  function Log(p: Packet, e: Entry, r: Reason, cost: nat): Packet {
    p.(decisions := p.decisions + [Decision(e, r, cost)])
  }

  function ServeFact(p: Packet, l: Line, cost: nat, r: Reason): Packet
    requires l.FactLine?
  {
    Log(p.(facts := p.facts + [l], packed := p.packed + {l.id}, tokens := p.tokens + cost), FactEntry(l.id), r, cost)
  }

  // One other member of the conflict of a served fact.
  function OfferSibling(p: Packet, self: FactId, m: FactId, c: Context): Packet {
    var l := FactLine(m, true, |p.facts| + 1);
    if m == self || m in p.packed || m !in c.members then p
    else if c.members[m] then Log(p, FactEntry(m), Forgotten, 0)
    else if p.tokens + Cost(c, l) > c.budget then Log(p, FactEntry(m), OverBudget, Cost(c, l))
    else ServeFact(p, l, Cost(c, l), ConflictDisputed)
  }

  function OfferSiblings(p: Packet, self: FactId, ms: seq<FactId>, c: Context): Packet {
    if ms == [] then p else OfferSibling(OfferSiblings(p, self, ms[..|ms| - 1], c), self, ms[|ms| - 1], c)
  }

  function OfferFact(p: Packet, f: FactId, c: Context): Packet {
    var l := FactLine(f, f in c.conflicts, |p.facts| + 1);
    if p.tokens + Cost(c, l) > c.budget then Log(p, FactEntry(f), OverBudget, Cost(c, l))
    else
      var q := ServeFact(p, l, Cost(c, l), if f in c.conflicts then ConflictDisputed else TopScore);
      if f in c.conflicts then OfferSiblings(q, f, c.conflicts[f], c) else q
  }

  // The ceiling spares the first packed episode.
  function OfferEpisode(p: Packet, e: EpisodeId, c: Context): Packet {
    var l := EpisodeLine(e, |p.episodes| + 1);
    var cost := Cost(c, l);
    if |p.episodes| > 0 && 2 * (p.episodeTokens + cost) > c.budget then Log(p, EpisodeEntry(e), OverEpisodeBudget, cost)
    else if p.tokens + cost > c.budget then Log(p, EpisodeEntry(e), OverBudget, cost)
    else
      Log(p.(episodes := p.episodes + [l], tokens := p.tokens + cost, episodeTokens := p.episodeTokens + cost),
          EpisodeEntry(e), TopScore, cost)
  }

  function Offer(p: Packet, e: Entry, c: Context): Packet {
    match e
    case FactEntry(f) => OfferFact(p, f, c)
    case EpisodeEntry(x) => OfferEpisode(p, x, c)
  }

  function Pack(pool: seq<Entry>, c: Context): Packet {
    if pool == [] then NOTHING else Offer(Pack(pool[..|pool| - 1], c), pool[|pool| - 1], c)
  }

  function Total(ls: seq<Line>, c: Context): nat {
    if ls == [] then 0 else Total(ls[..|ls| - 1], c) + Cost(c, ls[|ls| - 1])
  }

  predicate EpisodeServed(p: Packet, e: EpisodeId) {
    exists i :: 0 <= i < |p.episodes| && p.episodes[i].EpisodeLine? && p.episodes[i].episode == e
  }

  // A decision that the finished packet bears out: an included entry is there,
  // and whatever a limit kept out still does not fit.
  ghost predicate Justified(p: Packet, d: Decision, c: Context) {
    match d.reason
    case OverBudget => p.tokens + d.cost > c.budget
    case OverEpisodeBudget => d.entry.EpisodeEntry? && p.episodes != [] && 2 * (p.episodeTokens + d.cost) > c.budget
    case Forgotten => d.entry.FactEntry? && d.entry.fact in c.members && c.members[d.entry.fact]
    case _ => if d.entry.FactEntry? then d.entry.fact in p.packed else EpisodeServed(p, d.entry.episode)
  }

  ghost predicate AllJustified(p: Packet, c: Context) {
    forall d {:trigger Justified(p, d, c)} :: d in p.decisions ==> Justified(p, d, c)
  }

  predicate Referenced(facts: seq<Line>, episodes: seq<Line>) {
    && (forall i :: 0 <= i < |facts| ==> facts[i].FactLine? && facts[i].ref == i + 1)
    && (forall i :: 0 <= i < |episodes| ==> episodes[i].EpisodeLine? && episodes[i].ref == i + 1)
  }

  function Ids(ls: seq<Line>): set<FactId> {
    set i | 0 <= i < |ls| && ls[i].FactLine? :: ls[i].id
  }

  // Every token is a served line's, and the budget and the episode ceiling hold.
  ghost predicate Sums(p: Packet, c: Context) {
    && p.tokens == Total(p.facts, c) + Total(p.episodes, c) <= c.budget
    && p.episodeTokens == Total(p.episodes, c)
    && (p.episodes != [] ==> 2 * p.episodeTokens <= Max(c.budget, 2 * Cost(c, p.episodes[0])))
  }

  // The accounts of a packet: the sums are right, references count up from one,
  // and every decision is justified.
  ghost predicate Accounts(p: Packet, c: Context) {
    Sums(p, c) && Referenced(p.facts, p.episodes) && p.packed == Ids(p.facts) && AllJustified(p, c)
  }

  // Nothing served is ever taken back.
  predicate Extends(p: Packet, q: Packet) {
    p.facts <= q.facts && p.episodes <= q.episodes && p.packed <= q.packed && p.decisions <= q.decisions
    && p.tokens <= q.tokens && p.episodeTokens <= q.episodeTokens
  }

  lemma TotalAppend(ls: seq<Line>, l: Line, c: Context)
    ensures Total(ls + [l], c) == Total(ls, c) + Cost(c, l)
  {
    assert (ls + [l])[..|ls|] == ls;
  }

  lemma IdsAppend(ls: seq<Line>, l: Line)
    requires l.FactLine?
    ensures Ids(ls + [l]) == Ids(ls) + {l.id}
  {
    var m := ls + [l];
    assert m[|ls|] == l;
    forall x | x in Ids(ls) ensures x in Ids(m) {
      var i :| 0 <= i < |ls| && ls[i].FactLine? && ls[i].id == x;
      assert m[i] == ls[i];
    }
  }

  lemma StaysJustified(p: Packet, q: Packet, d: Decision, c: Context)
    requires Extends(p, q) && Justified(p, d, c)
    ensures Justified(q, d, c)
  {
    if (d.reason == TopScore || d.reason == ConflictDisputed) && d.entry.EpisodeEntry? {
      var i :| 0 <= i < |p.episodes| && p.episodes[i].EpisodeLine? && p.episodes[i].episode == d.entry.episode;
      assert q.episodes[i] == p.episodes[i];
    }
  }

  // One more decision, justified by the packet it leads to.
  lemma OneMoreJustified(p: Packet, q: Packet, d: Decision, c: Context)
    requires AllJustified(p, c) && Extends(p, q) && q.decisions == p.decisions + [d] && Justified(q, d, c)
    ensures AllJustified(q, c)
  {
    forall x | x in q.decisions ensures Justified(q, x, c) {
      if x in p.decisions {
        StaysJustified(p, q, x, c);
      }
    }
  }

  lemma LogAccounts(p: Packet, e: Entry, r: Reason, cost: nat, c: Context)
    requires Accounts(p, c) && Justified(p, Decision(e, r, cost), c)
    ensures Accounts(Log(p, e, r, cost), c) && Extends(p, Log(p, e, r, cost))
  {
    var q := Log(p, e, r, cost);
    StaysJustified(p, q, Decision(e, r, cost), c);
    OneMoreJustified(p, q, Decision(e, r, cost), c);
  }

  lemma ServeAccounts(p: Packet, l: Line, r: Reason, c: Context)
    requires Accounts(p, c) && l.FactLine? && l.ref == |p.facts| + 1 && p.tokens + Cost(c, l) <= c.budget
    requires r == TopScore || r == ConflictDisputed
    ensures var q := ServeFact(p, l, Cost(c, l), r); Accounts(q, c) && Extends(p, q)
  {
    TotalAppend(p.facts, l, c);
    IdsAppend(p.facts, l);
    OneMoreJustified(p, ServeFact(p, l, Cost(c, l), r), Decision(FactEntry(l.id), r, Cost(c, l)), c);
  }

  lemma SiblingAccounts(p: Packet, self: FactId, m: FactId, c: Context)
    requires Accounts(p, c)
    ensures Accounts(OfferSibling(p, self, m, c), c) && Extends(p, OfferSibling(p, self, m, c))
  {
    var l := FactLine(m, true, |p.facts| + 1);
    if m == self || m in p.packed || m !in c.members {
    } else if c.members[m] {
      LogAccounts(p, FactEntry(m), Forgotten, 0, c);
    } else if p.tokens + Cost(c, l) > c.budget {
      LogAccounts(p, FactEntry(m), OverBudget, Cost(c, l), c);
    } else {
      ServeAccounts(p, l, ConflictDisputed, c);
    }
  }

  lemma {:induction false} SiblingsAccounts(p: Packet, self: FactId, ms: seq<FactId>, c: Context)
    requires Accounts(p, c)
    ensures Accounts(OfferSiblings(p, self, ms, c), c) && Extends(p, OfferSiblings(p, self, ms, c))
  {
    if ms != [] {
      SiblingsAccounts(p, self, ms[..|ms| - 1], c);
      SiblingAccounts(OfferSiblings(p, self, ms[..|ms| - 1], c), self, ms[|ms| - 1], c);
    }
  }

  lemma FactAccounts(p: Packet, f: FactId, c: Context)
    requires Accounts(p, c)
    ensures Accounts(OfferFact(p, f, c), c) && Extends(p, OfferFact(p, f, c))
  {
    var l := FactLine(f, f in c.conflicts, |p.facts| + 1);
    if p.tokens + Cost(c, l) > c.budget {
      LogAccounts(p, FactEntry(f), OverBudget, Cost(c, l), c);
    } else {
      var r := if f in c.conflicts then ConflictDisputed else TopScore;
      ServeAccounts(p, l, r, c);
      if f in c.conflicts {
        SiblingsAccounts(ServeFact(p, l, Cost(c, l), r), f, c.conflicts[f], c);
      }
    }
  }

  lemma EpisodeAccounts(p: Packet, e: EpisodeId, c: Context)
    requires Accounts(p, c)
    ensures Accounts(OfferEpisode(p, e, c), c) && Extends(p, OfferEpisode(p, e, c))
  {
    var l := EpisodeLine(e, |p.episodes| + 1);
    var cost := Cost(c, l);
    if |p.episodes| > 0 && 2 * (p.episodeTokens + cost) > c.budget {
      LogAccounts(p, EpisodeEntry(e), OverEpisodeBudget, cost, c);
    } else if p.tokens + cost > c.budget {
      LogAccounts(p, EpisodeEntry(e), OverBudget, cost, c);
    } else {
      ServeEpisodeAccounts(p, OfferEpisode(p, e, c), e, c);
    }
  }

  lemma ServeEpisodeAccounts(p: Packet, q: Packet, e: EpisodeId, c: Context)
    requires Accounts(p, c)
    requires var l := EpisodeLine(e, |p.episodes| + 1); var cost := Cost(c, l);
             && (p.episodes == [] || 2 * (p.episodeTokens + cost) <= c.budget) && p.tokens + cost <= c.budget
             && q == Packet(p.facts, p.episodes + [l], p.packed, p.tokens + cost, p.episodeTokens + cost,
                            p.decisions + [Decision(EpisodeEntry(e), TopScore, cost)])
    ensures Accounts(q, c) && Extends(p, q)
  {
    var l := EpisodeLine(e, |p.episodes| + 1);
    EpisodeSums(p, q, l, c);
    EpisodeReferenced(p.facts, p.episodes, l);
    EpisodeJustified(p, q, l, Cost(c, l), c);
  }

  lemma EpisodeReferenced(facts: seq<Line>, episodes: seq<Line>, l: Line)
    requires Referenced(facts, episodes) && l.EpisodeLine? && l.ref == |episodes| + 1
    ensures Referenced(facts, episodes + [l])
  {
  }

  lemma EpisodeJustified(p: Packet, q: Packet, l: Line, cost: nat, c: Context)
    requires AllJustified(p, c) && Extends(p, q) && l.EpisodeLine? && q.episodes == p.episodes + [l]
    requires q.decisions == p.decisions + [Decision(EpisodeEntry(l.episode), TopScore, cost)]
    ensures AllJustified(q, c)
  {
    assert q.episodes[|p.episodes|] == l;
    assert EpisodeServed(q, l.episode);
    OneMoreJustified(p, q, Decision(EpisodeEntry(l.episode), TopScore, cost), c);
  }

  lemma EpisodeSums(p: Packet, q: Packet, l: Line, c: Context)
    requires Sums(p, c) && q.facts == p.facts && q.episodes == p.episodes + [l]
    requires q.tokens == p.tokens + Cost(c, l) <= c.budget && q.episodeTokens == p.episodeTokens + Cost(c, l)
    requires p.episodes == [] || 2 * q.episodeTokens <= c.budget
    ensures Sums(q, c)
  {
    TotalAppend(p.episodes, l, c);
  }

  lemma OfferAccounts(p: Packet, e: Entry, c: Context)
    requires Accounts(p, c)
    ensures Accounts(Offer(p, e, c), c) && Extends(p, Offer(p, e, c))
  {
    match e
    case FactEntry(f) => FactAccounts(p, f, c);
    case EpisodeEntry(x) => EpisodeAccounts(p, x, c);
  }

  // The accounts hold for every pool.
  lemma {:induction false} PacketAccounts(pool: seq<Entry>, c: Context)
    ensures Accounts(Pack(pool, c), c)
  {
    if pool != [] {
      PacketAccounts(pool[..|pool| - 1], c);
      OfferAccounts(Pack(pool[..|pool| - 1], c), pool[|pool| - 1], c);
    }
  }

  // Lower ranks never disturb higher ones: what a pool is served is also the
  // start of what any longer pool is served.
  lemma {:induction false} LowerRanksComeAfter(pool: seq<Entry>, more: seq<Entry>, c: Context)
    ensures Extends(Pack(pool, c), Pack(pool + more, c))
  {
    if more == [] {
      assert pool + more == pool;
    } else {
      var head := more[..|more| - 1];
      LowerRanksComeAfter(pool, head, c);
      LastOffered(pool + head, more[|more| - 1], c);
      assert pool + more == pool + head + [more[|more| - 1]];
      ExtendsOn(Pack(pool, c), Pack(pool + head, c), Pack(pool + more, c));
    }
  }

  lemma LastOffered(pool: seq<Entry>, e: Entry, c: Context)
    ensures Extends(Pack(pool, c), Pack(pool + [e], c))
  {
    assert (pool + [e])[..|pool|] == pool;
    PacketAccounts(pool, c);
    OfferAccounts(Pack(pool, c), e, c);
  }

  lemma ExtendsOn(p: Packet, q: Packet, r: Packet)
    requires Extends(p, q) && Extends(q, r)
    ensures Extends(p, r)
  {
  }

  // Who gets served: a pool fact, or a remembered rival of a served one.
  ghost predicate DistinctFacts(ls: seq<Line>) {
    forall i, j :: 0 <= i < j < |ls| && ls[i].FactLine? && ls[j].FactLine? ==> ls[i].id != ls[j].id
  }

  // No two facts of the pool belong to the same conflict.
  ghost predicate NoRivals(pool: seq<Entry>, c: Context) {
    && (forall i, j :: 0 <= i < j < |pool| ==> pool[i] != pool[j])
    && (forall f, m :: FactEntry(f) in pool && f in c.conflicts && m in c.conflicts[f] && m != f ==>
       FactEntry(m) !in pool)
  }

  // Every served fact is a pool fact, or a member of the conflict of a pool fact
  // that was neither disabled nor deleted.
  ghost predicate Legitimate(p: Packet, pool: seq<Entry>, c: Context) {
    forall x :: x in p.packed ==> FactEntry(x) in pool || Rival(x, pool, c)
  }

  ghost predicate Rival(x: FactId, pool: seq<Entry>, c: Context) {
    x in c.members && !c.members[x] && exists f :: RivalOf(x, f, pool, c)
  }

  predicate RivalOf(x: FactId, f: FactId, pool: seq<Entry>, c: Context) {
    f in c.conflicts && FactEntry(f) in pool && x in c.conflicts[f] && x != f
  }

  lemma OneMoreDistinct(p: Packet, q: Packet)
    requires p.packed == Ids(p.facts) && DistinctFacts(p.facts) && p.facts <= q.facts && |q.facts| <= |p.facts| + 1
    requires |q.facts| == |p.facts| + 1 ==> q.facts[|p.facts|].FactLine? && q.facts[|p.facts|].id !in p.packed
    ensures DistinctFacts(q.facts)
  {
    forall i, j | 0 <= i < j < |q.facts| && q.facts[i].FactLine? && q.facts[j].FactLine?
      ensures q.facts[i].id != q.facts[j].id
    {
      assert q.facts[i] == p.facts[i];
      assert p.facts[i].id in p.packed;
    }
  }

  lemma {:induction false} SiblingsServe(p: Packet, self: FactId, ms: seq<FactId>, c: Context)
    requires Accounts(p, c) && DistinctFacts(p.facts)
    ensures var q := OfferSiblings(p, self, ms, c);
            && DistinctFacts(q.facts) && Accounts(q, c)
            && (forall x :: x in q.packed ==>
               x in p.packed || (x in ms && x != self && x in c.members && !c.members[x]))
  {
    if ms != [] {
      SiblingsServe(p, self, ms[..|ms| - 1], c);
      var r, m := OfferSiblings(p, self, ms[..|ms| - 1], c), ms[|ms| - 1];
      SiblingAccounts(r, self, m, c);
      OneMoreDistinct(r, OfferSibling(r, self, m, c));
    }
  }

  // With no two facts of one conflict in the pool, no fact is served twice.
  lemma {:induction false} NoFactTwice(pool: seq<Entry>, c: Context)
    requires NoRivals(pool, c)
    ensures DistinctFacts(Pack(pool, c).facts) && Legitimate(Pack(pool, c), pool, c)
  {
    if pool != [] {
      var head, e := pool[..|pool| - 1], pool[|pool| - 1];
      assert pool == head + [e];
      FewerRivals(head, e, c);
      NoFactTwice(head, c);
      PacketAccounts(head, c);
      if e.FactEntry? {
        NewFactOnce(Pack(head, c), head, pool, e.fact, c);
      } else {
        NewEpisode(Pack(head, c), head, e, c);
      }
    }
  }

  lemma FewerRivals(head: seq<Entry>, e: Entry, c: Context)
    requires NoRivals(head + [e], c)
    ensures NoRivals(head, c) && forall x, f :: RivalOf(x, f, head, c) ==> RivalOf(x, f, head + [e], c)
  {
    var pool := head + [e];
    assert forall i :: 0 <= i < |head| ==> pool[i] == head[i];
    assert forall x :: x in head ==> x in pool;
  }

  // An episode serves no fact.
  lemma NewEpisode(p: Packet, head: seq<Entry>, e: Entry, c: Context)
    requires e.EpisodeEntry? && DistinctFacts(p.facts) && Legitimate(p, head, c)
    requires forall x, f :: RivalOf(x, f, head, c) ==> RivalOf(x, f, head + [e], c)
    ensures DistinctFacts(Offer(p, e, c).facts) && Legitimate(Offer(p, e, c), head + [e], c)
  {
    assert Offer(p, e, c).packed == p.packed;
  }

  lemma NotYetPacked(p: Packet, head: seq<Entry>, pool: seq<Entry>, f: FactId, c: Context)
    requires NoRivals(pool, c) && pool == head + [FactEntry(f)] && Legitimate(p, head, c)
    requires forall x, g :: RivalOf(x, g, head, c) ==> RivalOf(x, g, pool, c)
    ensures f !in p.packed
  {
    assert pool[|head|] == FactEntry(f);
    assert forall i :: 0 <= i < |head| ==> pool[i] == head[i];
    assert FactEntry(f) !in head;
    assert forall g :: !RivalOf(f, g, head, c);
  }

  lemma NewFactOnce(p: Packet, head: seq<Entry>, pool: seq<Entry>, f: FactId, c: Context)
    requires NoRivals(pool, c) && pool == head + [FactEntry(f)]
    requires Accounts(p, c) && DistinctFacts(p.facts) && Legitimate(p, head, c)
    requires forall x, g :: RivalOf(x, g, head, c) ==> RivalOf(x, g, pool, c)
    ensures DistinctFacts(OfferFact(p, f, c).facts) && Legitimate(OfferFact(p, f, c), pool, c)
  {
    NotYetPacked(p, head, pool, f, c);
    StillLegitimate(p, head, pool, f, c);
    var l := FactLine(f, f in c.conflicts, |p.facts| + 1);
    if p.tokens + Cost(c, l) <= c.budget {
      var r := if f in c.conflicts then ConflictDisputed else TopScore;
      var q := ServeFact(p, l, Cost(c, l), r);
      ServeAccounts(p, l, r, c);
      OneMoreDistinct(p, q);
      if f in c.conflicts {
        SiblingsServe(q, f, c.conflicts[f], c);
        SiblingsLegitimate(q, OfferSiblings(q, f, c.conflicts[f], c), pool, f, c);
      }
    }
  }

  lemma StillLegitimate(p: Packet, head: seq<Entry>, pool: seq<Entry>, f: FactId, c: Context)
    requires pool == head + [FactEntry(f)] && Legitimate(p, head, c)
    requires forall x, g :: RivalOf(x, g, head, c) ==> RivalOf(x, g, pool, c)
    ensures Legitimate(p, pool, c) && FactEntry(f) in pool
  {
    assert pool[|head|] == FactEntry(f);
    assert forall x :: x in head ==> x in pool;
  }

  lemma SiblingsLegitimate(q: Packet, r: Packet, pool: seq<Entry>, f: FactId, c: Context)
    requires Legitimate(q, pool, c) && FactEntry(f) in pool && f in c.conflicts
    requires forall x :: x in r.packed ==>
             x in q.packed || (x in c.conflicts[f] && x != f && x in c.members && !c.members[x])
    ensures Legitimate(r, pool, c)
  {
    forall x | x in c.conflicts[f] && x != f && x in c.members && !c.members[x] ensures Rival(x, pool, c) {
      assert RivalOf(x, f, pool, c);
    }
  }

  // The condition is needed: two rivals in the pool and room for three lines
  // serve the second one twice.
  lemma RivalsAreServedTwice(c: Context, f: FactId, g: FactId)
    requires f != g && c.conflicts == map[f := [f, g], g := [f, g]] && c.members == map[f := false, g := false]
    requires forall l :: c.size(l) <= 1
    requires c.budget >= 3
    ensures !DistinctFacts(Pack([FactEntry(f), FactEntry(g)], c).facts)
  {
    var a, b1, b2 := FactLine(f, true, 1), FactLine(g, true, 2), FactLine(g, true, 3);
    assert Cost(c, a) == 1 && Cost(c, b1) == 1 && Cost(c, b2) == 1;
    var p1 := ServeFact(NOTHING, a, 1, ConflictDisputed);
    TwoSiblings(p1, f, f, g, c);
    var p2 := ServeFact(p1, b1, 1, ConflictDisputed);
    assert OfferFact(NOTHING, f, c) == p2;
    var p3 := ServeFact(p2, b2, 1, ConflictDisputed);
    TwoSiblings(p3, g, f, g, c);
    assert OfferFact(p2, g, c) == p3;
    var pool := [FactEntry(f), FactEntry(g)];
    assert pool[..1] == [FactEntry(f)] && [FactEntry(f)][..0] == [];
    assert Pack([FactEntry(f)], c) == Offer(Pack([], c), FactEntry(f), c) == p2;
    assert Pack(pool, c) == p3;
    assert p3.facts[1] == b1 && p3.facts[2] == b2;
  }

  lemma TwoSiblings(p: Packet, self: FactId, f: FactId, g: FactId, c: Context)
    ensures OfferSiblings(p, self, [f, g], c) == OfferSibling(OfferSibling(p, self, f, c), self, g, c)
  {
    assert [f, g][..1] == [f] && [f][..0] == [];
    assert OfferSiblings(p, self, [f], c) == OfferSibling(OfferSiblings(p, self, [], c), self, f, c);
  }

  // Nothing is dropped silently: a pool entry has a decision of its own, and
  // unless it was dropped every hydrated rival of it is served or has one too.
  predicate Traced(p: Packet, e: Entry) {
    exists i :: 0 <= i < |p.decisions| && p.decisions[i].entry == e
  }

  predicate Dropped(p: Packet, f: FactId) {
    exists i :: 0 <= i < |p.decisions| && p.decisions[i].entry == FactEntry(f) && p.decisions[i].reason == OverBudget
  }

  predicate RivalsAnswered(p: Packet, self: FactId, ms: seq<FactId>, c: Context) {
    forall m :: m in ms && m != self && m in c.members ==> m in p.packed || Traced(p, FactEntry(m))
  }

  predicate Answered(p: Packet, e: Entry, c: Context) {
    && Traced(p, e)
    && (e.FactEntry? && e.fact in c.conflicts ==>
       Dropped(p, e.fact) || RivalsAnswered(p, e.fact, c.conflicts[e.fact], c))
  }

  lemma StaysTraced(p: Packet, q: Packet)
    requires Extends(p, q)
    ensures forall e :: Traced(p, e) ==> Traced(q, e)
    ensures forall f :: Dropped(p, f) ==> Dropped(q, f)
  {
    assert forall i :: 0 <= i < |p.decisions| ==> q.decisions[i] == p.decisions[i];
  }

  lemma {:induction false} SiblingsAnswered(p: Packet, self: FactId, ms: seq<FactId>, c: Context)
    requires Accounts(p, c)
    ensures RivalsAnswered(OfferSiblings(p, self, ms, c), self, ms, c)
  {
    if ms != [] {
      var r, m := OfferSiblings(p, self, ms[..|ms| - 1], c), ms[|ms| - 1];
      SiblingsAnswered(p, self, ms[..|ms| - 1], c);
      SiblingsAccounts(p, self, ms[..|ms| - 1], c);
      SiblingAnswered(r, self, m, c);
      assert ms == ms[..|ms| - 1] + [m];
    }
  }

  lemma SiblingAnswered(r: Packet, self: FactId, m: FactId, c: Context)
    requires Accounts(r, c)
    ensures var q := OfferSibling(r, self, m, c);
            && Extends(r, q) && (forall e :: Traced(r, e) ==> Traced(q, e))
            && (m != self && m in c.members ==> m in q.packed || Traced(q, FactEntry(m)))
  {
    SiblingAccounts(r, self, m, c);
    var q := OfferSibling(r, self, m, c);
    StaysTraced(r, q);
    if q.decisions != r.decisions {
      assert q.decisions[|r.decisions|].entry == FactEntry(m);
    }
  }

  lemma OfferAnswered(p: Packet, e: Entry, c: Context)
    requires Accounts(p, c)
    ensures Answered(Offer(p, e, c), e, c)
  {
    var q := Offer(p, e, c);
    if e.FactEntry? {
      var l := FactLine(e.fact, e.fact in c.conflicts, |p.facts| + 1);
      if p.tokens + Cost(c, l) <= c.budget {
        var r := if e.fact in c.conflicts then ConflictDisputed else TopScore;
        var s := ServeFact(p, l, Cost(c, l), r);
        assert s.decisions[|p.decisions|].entry == e;
        if e.fact in c.conflicts {
          ServeAccounts(p, l, r, c);
          SiblingsAccounts(s, e.fact, c.conflicts[e.fact], c);
          SiblingsAnswered(s, e.fact, c.conflicts[e.fact], c);
          StaysTraced(s, q);
        }
      } else {
        assert q.decisions[|p.decisions|] == Decision(e, OverBudget, Cost(c, l));
      }
    } else {
      assert q.decisions[|p.decisions|].entry == e;
    }
  }

  lemma {:induction false} EveryEntryAnswered(pool: seq<Entry>, c: Context)
    ensures forall e :: e in pool ==> Answered(Pack(pool, c), e, c)
  {
    if pool != [] {
      var head, e := pool[..|pool| - 1], pool[|pool| - 1];
      EveryEntryAnswered(head, c);
      PacketAccounts(head, c);
      OfferAccounts(Pack(head, c), e, c);
      OfferAnswered(Pack(head, c), e, c);
      StaysTraced(Pack(head, c), Pack(pool, c));
      assert pool == head + [e];
    }
  }

  lemma PackNext(pool: seq<Entry>, k: nat, c: Context)
    requires k < |pool|
    ensures Pack(pool[..k + 1], c) == Offer(Pack(pool[..k], c), pool[k], c)
  {
    assert pool[..k + 1][..k] == pool[..k];
  }

  // build_context's loop over the ranked pool, with its own running variables.
  method PackPool(pool: seq<Entry>, c: Context)
    returns (packetFacts: seq<Line>, packetEpisodes: seq<Line>, packed: set<FactId>, tokenCount: nat,
        decisions: seq<Decision>)
    ensures var p := Pack(pool, c);
            && packetFacts == p.facts && packetEpisodes == p.episodes && packed == p.packed
            && tokenCount == p.tokens && decisions == p.decisions
  {
    packetFacts, packetEpisodes, packed, tokenCount, decisions := [], [], {}, 0, [];
    var episodeTokenCount: nat := 0;
    for k := 0 to |pool|
      invariant Pack(pool[..k], c)
                == Packet(packetFacts, packetEpisodes, packed, tokenCount, episodeTokenCount, decisions)
    {
      PackNext(pool, k, c);
      match pool[k]
      case FactEntry(f) =>
        packetFacts, packed, tokenCount, decisions :=
          PackFact(f, c, packetFacts, packetEpisodes, packed, tokenCount, episodeTokenCount, decisions);
      case EpisodeEntry(e) =>
        packetEpisodes, tokenCount, episodeTokenCount, decisions :=
          PackEpisode(e, c, packetFacts, packetEpisodes, packed, tokenCount, episodeTokenCount, decisions);
    }
    assert pool[..|pool|] == pool;
  }

  // Its branch for a fact, which serves the rivals of the fact right behind it.
  method PackFact(f: FactId, c: Context, facts: seq<Line>, ghost episodes: seq<Line>, packed: set<FactId>, tokens: nat,
                  ghost episodeTokens: nat, decisions: seq<Decision>)
    returns (facts': seq<Line>, packed': set<FactId>, tokens': nat, decisions': seq<Decision>)
    ensures Packet(facts', episodes, packed', tokens', episodeTokens, decisions')
         == OfferFact(Packet(facts, episodes, packed, tokens, episodeTokens, decisions), f, c)
  {
    facts', packed', tokens', decisions' := facts, packed, tokens, decisions;
    var line := FactLine(f, f in c.conflicts, |facts| + 1);
    var cost := Cost(c, line);
    if tokens + cost > c.budget {
      decisions' := decisions + [Decision(FactEntry(f), OverBudget, cost)];
      return;
    }
    tokens' := tokens + cost;
    facts' := facts + [line];
    packed' := packed + {f};
    decisions' := decisions + [Decision(FactEntry(f), if f in c.conflicts then ConflictDisputed else TopScore, cost)];
    if f in c.conflicts {
      facts', packed', tokens', decisions' :=
        PackSiblings(f, c.conflicts[f], c, facts', episodes, packed', tokens', episodeTokens, decisions');
    }
  }

  // Its branch for an episode.
  method PackEpisode(e: EpisodeId, c: Context, ghost facts: seq<Line>, episodes: seq<Line>, ghost packed: set<FactId>,
                     tokens: nat, episodeTokens: nat, decisions: seq<Decision>)
    returns (episodes': seq<Line>, tokens': nat, episodeTokens': nat, decisions': seq<Decision>)
    ensures Packet(facts, episodes', packed, tokens', episodeTokens', decisions')
         == OfferEpisode(Packet(facts, episodes, packed, tokens, episodeTokens, decisions), e, c)
  {
    episodes', tokens', episodeTokens', decisions' := episodes, tokens, episodeTokens, decisions;
    var line := EpisodeLine(e, |episodes| + 1);
    var cost := Cost(c, line);
    if |episodes| > 0 && 2 * (episodeTokens + cost) > c.budget {
      decisions' := decisions + [Decision(EpisodeEntry(e), OverEpisodeBudget, cost)];
    } else if tokens + cost > c.budget {
      decisions' := decisions + [Decision(EpisodeEntry(e), OverBudget, cost)];
    } else {
      tokens' := tokens + cost;
      episodeTokens' := episodeTokens + cost;
      episodes' := episodes + [line];
      decisions' := decisions + [Decision(EpisodeEntry(e), TopScore, cost)];
    }
  }

  // The inner loop over the members of the served fact's conflict.
  method PackSiblings(self: FactId, members: seq<FactId>, c: Context, facts: seq<Line>, ghost episodes: seq<Line>,
                      packed: set<FactId>, tokens: nat, ghost episodeTokens: nat, decisions: seq<Decision>)
    returns (facts': seq<Line>, packed': set<FactId>, tokens': nat, decisions': seq<Decision>)
    ensures Packet(facts', episodes, packed', tokens', episodeTokens, decisions')
         == OfferSiblings(Packet(facts, episodes, packed, tokens, episodeTokens, decisions), self, members, c)
  {
    facts', packed', tokens', decisions' := facts, packed, tokens, decisions;
    ghost var start := Packet(facts, episodes, packed, tokens, episodeTokens, decisions);
    for k := 0 to |members|
      invariant Packet(facts', episodes, packed', tokens', episodeTokens, decisions')
                == OfferSiblings(start, self, members[..k], c)
    {
      assert members[..k + 1][..k] == members[..k];
      var m := members[k];
      if m == self || m in packed' || m !in c.members {
        continue;
      }
      if c.members[m] {
        decisions' := decisions' + [Decision(FactEntry(m), Forgotten, 0)];
        continue;
      }
      var line := FactLine(m, true, |facts'| + 1);
      var cost := Cost(c, line);
      if tokens' + cost > c.budget {
        decisions' := decisions' + [Decision(FactEntry(m), OverBudget, cost)];
        continue;
      }
      tokens' := tokens' + cost;
      facts' := facts' + [line];
      packed' := packed' + {m};
      decisions' := decisions' + [Decision(FactEntry(m), ConflictDisputed, cost)];
    }
    assert members[..|members|] == members;
  }
}
