// The rows the write path works on (app/models/fact.py, app/models/conflict.py,
// app/models/event.py, app/models/predicate_alias.py) and the small pure key
// helpers of app/consolidator/__init__.py.
module Rows {

  datatype Option<+T> = None | Some(value: T) {
    function GetOr(default: T): T {
      match this
      case Some(v) => v
      case None => default
    }
  }

  // A JSON value is null or some other value, known by its canonical text.
  datatype Json = Null | Data(text: string)
  type Object = map<string, Json>

  datatype Status = Candidate | Active | Superseded | Disputed | Disabled | Deleted
  datatype Origin = Untrusted | ThirdParty | SemiTrusted | Trusted
  datatype Form = StateForm | EventForm
  datatype Kind = Attribute | Preference | Instruction
  datatype Volatility = Stable | Slow | Volatile | Ephemeral
  datatype Range = Range(start: int, end: int)
  datatype Scope = Scope(project: string, subject: string)

  type FactId = nat
  type SetId = nat
  type EventId = nat

  datatype Fact = Fact(
    scope: Scope,
    pred: string,
    value: Object,
    qualifiers: Object,
    status: Status,
    validFrom: int,
    validTo: Option<int>,
    recordedFrom: int,
    recordedTo: Option<int>,
    supersedes: Option<FactId>,
    sources: seq<EventId>,
    version: nat,
    reinforcements: nat,
    lastReinforced: Option<int>,
    kind: Kind,
    volatility: Volatility,
    range: Option<Range>,
    origin: Origin,
    form: Form,
    reclassifiedAt: Option<int>)

  datatype SetStatus = Open | ReclassifiedEvent
  datatype SetKind = Contradiction | Quarantine
  datatype ConflictSet = ConflictSet(scope: Scope, members: seq<FactId>, status: SetStatus, kind: SetKind)

  datatype AliasKey = AliasKey(scope: Scope, alias: string)

  // The tables of one ledger. `now` is the start of the running transaction,
  // the value every `func.now()` column default takes.
  datatype Tables = Tables(
    facts: map<FactId, Fact>,
    sets: map<SetId, ConflictSet>,
    aliases: map<AliasKey, string>,
    nextFact: FactId,
    nextSet: SetId,
    now: int)

  const EMPTY := Tables(map[], map[], map[], 0, 0, 0)

  datatype SourceEvent = SourceEvent(id: EventId, scope: Scope, occurredAt: int, origin: Origin, actor: Option<string>)

  datatype Action = Create | Supersede
  datatype Claim = Claim(
    pred: string,
    value: Object,
    qualifiers: Object,
    action: Action,
    supersedesPred: Option<string>,
    kind: Option<Kind>,
    volatility: Option<Volatility>,
    form: Option<Form>,
    range: Option<Range>,
    // what resolve_relative_range finds in the value when it holds no ISO date
    relativeRange: Option<Range>)

  function Rank(o: Origin): nat {
    match o
    case Untrusted => 0
    case ThirdParty => 1
    case SemiTrusted => 2
    case Trusted => 3
  }

  const ATTRIBUTED_TO := "attributed_to"

  // The part of the qualifiers that takes part in a fact's identity.
  function IdentityQualifiers(q: Object): Object {
    q - {ATTRIBUTED_TO}
  }

  datatype Identity = Identity(scope: Scope, pred: string, qualifiers: Object)

  // The key of the partial unique index over active state-form facts.
  function IdentityOf(f: Fact): Identity {
    Identity(f.scope, f.pred, IdentityQualifiers(f.qualifiers))
  }

  predicate Indexed(f: Fact) {
    f.status == Active && f.form == StateForm
  }

  // Two rows that need the same index entry.
  predicate Clash(f: Fact, g: Fact) {
    Indexed(f) && Indexed(g) && IdentityOf(f) == IdentityOf(g)
  }

  function Target(c: Claim): string {
    c.supersedesPred.GetOr(c.pred)
  }

  ghost predicate Distinct<T>(s: seq<T>) {
    forall i, j :: 0 <= i < j < |s| ==> s[i] != s[j]
  }

  function Max(a: int, b: int): int {
    if a < b then b else a
  }
}
