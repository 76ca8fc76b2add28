// _apply_candidate of app/consolidator/__init__.py as a function on the tables:
// what one claim of one event does, branch by branch.
module Adjudication {
  import opened Rows
  import opened Lifecycle
  import opened Matching

  datatype Outcome =
    | Duplicate(id: FactId)
    | Reinforced(id: FactId)
    | Held(id: FactId, set_: SetId)
    | Succeeded(old_: FactId, id: FactId)
    | Mislabelled(id: FactId)                       // "supersede" with nothing to replace
    | Activated(id: FactId)
    | Contested(id: FactId, rival: FactId, set_: SetId)
    | Appended(id: FactId, rival: FactId, set_: SetId)
    | Overflowed(id: FactId, rival: FactId, other: FactId, set_: SetId)
    | Aborted(failure: Failure)

  datatype Verdict = Verdict(tables: Tables, outcome: Outcome)

  const CONFLICT_SET_MAX_MEMBERS := 2

  // A new event re-asserting an active fact strengthens it; a replayed event or
  // an inactive fact is a plain duplicate. Only an event of at least the fact's
  // rank moves the freshness clock, and never backwards.
  function Strengthen(f: Fact, e: SourceEvent): Fact {
    var clock :=
      if Rank(e.origin) >= Rank(f.origin) && (f.lastReinforced.None? || e.occurredAt > f.lastReinforced.value)
      then Some(e.occurredAt) else f.lastReinforced;
    f.(reinforcements := f.reinforcements + 1, lastReinforced := clock, sources := f.sources + [e.id])
  }

  function Reassert(t: Tables, id: FactId, e: SourceEvent): Verdict
    requires id in t.facts
  {
    var f := t.facts[id];
    if f.status != Active || e.id in f.sources then Verdict(t, Duplicate(id))
    else Verdict(WithFact(t, id, Strengthen(f, e)), Reinforced(id))
  }

  // The row a claim becomes, before any value is carried forward. On a supersede
  // the replaced fact's classes and range fill what the claim omits; its form is
  // kept on a create as well.
  function Draft(c: Claim, e: SourceEvent, existing: Option<Fact>, now: int): Fact {
    var inherit := c.action == Supersede && existing.Some?;
    var stated := if c.range.Some? then c.range else if inherit then existing.value.range else None;
    Fact(
      scope := e.scope,
      pred := c.pred,
      value := c.value,
      qualifiers := if e.origin == ThirdParty then c.qualifiers[ATTRIBUTED_TO := Data(e.actor.GetOr("third_party"))]
                    else c.qualifiers,
      status := Candidate,
      validFrom := e.occurredAt,
      validTo := None,
      recordedFrom := now,
      recordedTo := None,
      supersedes := None,
      sources := [e.id],
      version := 1,
      reinforcements := 0,
      lastReinforced := None,
      kind := if c.kind.Some? then c.kind.value else if inherit then existing.value.kind else Attribute,
      volatility := if c.volatility.Some? then c.volatility.value else if inherit then existing.value.volatility
          else Stable,
      range := if stated.Some? then stated else c.relativeRange,
      origin := e.origin,
      form := if existing.Some? then existing.value.form else c.form.GetOr(StateForm),
      reclassifiedAt := None)
  }

  // Keys of the replaced value the claim does not restate are kept; an explicit
  // null removes a key.
  function CarryForward(old_: Object, new_: Object): Object {
    var merged := old_ + new_;
    map k | k in merged && merged[k] != Null :: merged[k]
  }

  // A claim of lower rank than the fact it meets, or of an untrusted event, is
  // held back instead of being activated.
  predicate HeldBack(e: SourceEvent, existing: Option<Fact>) {
    (existing.Some? && Rank(e.origin) < Rank(existing.value.origin)) || e.origin == Untrusted
  }

  function Hold(t: Tables, draft: Fact): Verdict {
    var t1 := InsertSet(Insert(t, draft), ConflictSet(draft.scope, [t.nextFact], Open, Quarantine));
    Verdict(t1, Held(t.nextFact, t.nextSet))
  }

  function Activate(t: Tables, draft: Fact, outcome: Outcome): Verdict {
    match Transition(Insert(t, draft), t.nextFact, Active)
    case Flushed(t1) => Verdict(t1, outcome)
    case Refused(why) => Verdict(t, Aborted(why))
  }

  // The replaced fact leaves service first, then the new one enters it.
  function Replace(t: Tables, draft: Fact, old_: FactId): Verdict
    requires old_ in t.facts
  {
    var id := t.nextFact;
    var value := CarryForward(t.facts[old_].value, draft.value);
    match Transition(Insert(t, draft.(value := value)), old_, Superseded)
    case Refused(why) => Verdict(t, Aborted(why))
    case Flushed(t1) =>
      if id !in t1.facts || old_ !in t1.facts then Verdict(t, Aborted(UniqueViolation))
      else
        var end := if draft.validFrom < t1.facts[old_].validFrom then t1.facts[old_].validFrom else draft.validFrom;
        var t2 := WithFact(t1, old_, t1.facts[old_].(validTo := Some(end)));
        var t3 := WithFact(t2, id, t2.facts[id].(supersedes := Some(old_)));
        match Transition(t3, id, Active)
        case Refused(why) => Verdict(t, Aborted(why))
        case Flushed(t4) => Verdict(t4, Succeeded(old_, id))
  }

  function OtherMember(members: seq<FactId>, id: FactId): Option<FactId> {
    if members == [] then None
    else if members[0] != id then Some(members[0])
    else OtherMember(members[1..], id)
  }

  function AsEvent(f: Fact, now: int): Fact {
    f.(form := EventForm, reclassifiedAt := Some(now))
  }

  // A third competing value: the identity becomes event-form, every member is
  // activated and the set is dissolved.
  function Overflow(t: Tables, draft: Fact, rival: FactId, s: SetId): Verdict
    requires rival in t.facts && s in t.sets
  {
    var id := t.nextFact;
    match OtherMember(t.sets[s].members, rival)
    case None => Verdict(t, Aborted(NoOtherMember))
    case Some(other) =>
      var t1 := WithFact(Insert(t, AsEvent(draft, t.now)), rival, AsEvent(t.facts[rival], t.now));
      match Transition(t1, id, Active)
      case Refused(why) => Verdict(t, Aborted(why))
      case Flushed(t2) =>
        var t3 := if other in t2.facts then WithFact(t2, other, AsEvent(t2.facts[other], t.now)) else t2;
        var last :=
          if other in t3.facts && t3.facts[other].status != Active then Transition(t3, other, Active) else Flushed(t3);
        match last
        case Refused(why) => Verdict(t, Aborted(why))
        case Flushed(t4) =>
          var c := t.sets[s].(members := t.sets[s].members + [id], status := ReclassifiedEvent);
          Verdict(t4.(sets := t4.sets[s := c]), Overflowed(id, rival, other, s))
  }

  function Contradict(t: Tables, draft: Fact, rival: FactId): Verdict
    requires rival in t.facts
  {
    var id := t.nextFact;
    match OpenSetOf(t, draft.scope, rival)
    case None =>
      Verdict(InsertSet(Insert(t, draft), ConflictSet(draft.scope, [rival, id], Open, Contradiction)),
              Contested(id, rival, t.nextSet))
    case Some(s) =>
      if s !in t.sets then Verdict(t, Aborted(NoOtherMember))
      else if |t.sets[s].members| >= CONFLICT_SET_MAX_MEMBERS then Overflow(t, draft, rival, s)
      else
        Verdict(Insert(t, draft).(sets := t.sets[s := t.sets[s].(members := t.sets[s].members + [id])]),
                Appended(id, rival, s))
  }

  // The fact a claim is adjudicated against, once duplicates are ruled out.
  function Existing(t: Tables, c: Claim, e: SourceEvent, p: Picks): Resolved {
    var r := Resolve(t, e.scope, Target(c), c.qualifiers, p);
    if r.found.None? && c.action == Create
    then Resolved(r.tables, FindAmbiguous(r.tables, e.scope, Target(c), c.qualifiers, c.value, p))
    else r
  }

  // The lifecycle decision, once the claim's counterpart is known.
  function Settle(t: Tables, found: Option<FactId>, c: Claim, e: SourceEvent): Verdict
    requires found.Some? ==> found.value in t.facts
  {
    var existing := if found.Some? then Some(t.facts[found.value]) else None;
    var draft := Draft(c, e, existing, t.now);
    if c.action == Create && existing.Some? && existing.value.form != EventForm && existing.value.value == c.value
    then Reassert(t, found.value, e)
    else if HeldBack(e, existing) then Hold(t, draft)
    else if c.action == Supersede then
      if existing.Some? then Replace(t, draft, found.value)
      else Activate(t, draft, Mislabelled(t.nextFact))
    else if draft.form == EventForm || existing.None? then Activate(t, draft, Activated(t.nextFact))
    else Contradict(t, draft, found.value)
  }

  function Adjudicate(t: Tables, c: Claim, e: SourceEvent, p: Picks): Verdict {
    var r := Existing(t, c, e, p);
    Settle(r.tables, if r.found.Some? && r.found.value in r.tables.facts then r.found else None, c, e)
  }

  // A value coming back while something else is active is the supersede it is,
  // whatever the extractor called it.
  function Apply(t: Tables, c: Claim, e: SourceEvent, p: Picks): Verdict {
    var twin := Select(t, DuplicateQuery(e.scope, c.pred, c.qualifiers, c.value), p.duplicate);
    if twin.None? || twin.value !in t.facts then Adjudicate(t, c, e, p)
    else if t.facts[twin.value].status == Active then Reassert(t, twin.value, e)
    else
      var r := Resolve(t, e.scope, Target(c), c.qualifiers, p);
      if r.found.None? then Reassert(r.tables, twin.value, e)
      else Adjudicate(r.tables, c.(action := Supersede), e, p)
  }
}
