// app/ledger/core.py: the status graph, create_fact and transition_fact_status,
// with the partial unique index checked at every flush that activates a row.
module Lifecycle {
  import opened Rows

  function AllowedTransitions(s: Status): set<Status> {
    match s
    case Candidate => {Active, Superseded, Disputed, Disabled, Deleted}
    case Active => {Superseded, Disputed, Disabled, Deleted}
    case Superseded => {Disputed, Deleted, Disabled, Active}
    case Disputed => {Active, Superseded, Disabled, Deleted}
    case Disabled => {Active, Deleted, Disabled}
    case Deleted => {}
  }

  datatype Failure = IllegalTransition(from: Status, to: Status) | UniqueViolation | NoOtherMember
  datatype Flush = Flushed(tables: Tables) | Refused(failure: Failure)

  // Another row already holds the index entry that `f`, stored at `id`, needs.
  predicate Occupied(t: Tables, id: FactId, f: Fact) {
    exists other :: other in t.facts && other != id && Clash(t.facts[other], f)
  }

  function WithFact(t: Tables, id: FactId, f: Fact): Tables {
    t.(facts := t.facts[id := f])
  }

  function Moved(f: Fact, to: Status, now: int): Fact {
    f.(status := to, version := f.version + 1, recordedTo := if to == Deleted then Some(now) else f.recordedTo)
  }

  function Transition(t: Tables, id: FactId, to: Status): Flush
    requires id in t.facts
  {
    var f := t.facts[id];
    if to !in AllowedTransitions(f.status) then Refused(IllegalTransition(f.status, to))
    else
      var g := Moved(f, to, t.now);
      if Occupied(t, id, g) then Refused(UniqueViolation) else Flushed(WithFact(t, id, g))
  }

  // Only a state-form row that enters service meets the index.
  lemma NeedsNoEntry(t: Tables, id: FactId, to: Status)
    requires id in t.facts && (to != Active || t.facts[id].form == EventForm)
    ensures Transition(t, id, to) == if to in AllowedTransitions(t.facts[id].status)
                                     then Flushed(WithFact(t, id, Moved(t.facts[id], to, t.now)))
                                     else Refused(IllegalTransition(t.facts[id].status, to))
  {
  }

  // A new row gets the next id and enters as a candidate.
  function Insert(t: Tables, f: Fact): Tables {
    t.(facts := t.facts[t.nextFact := f], nextFact := t.nextFact + 1)
  }

  function InsertSet(t: Tables, c: ConflictSet): Tables {
    t.(sets := t.sets[t.nextSet := c], nextSet := t.nextSet + 1)
  }
}
