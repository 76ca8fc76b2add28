// The tail of build_context (app/context/__init__.py:1194-1398) in one piece: the
// ranked pool, the rerank block when a reranker is set, and the packing loop.
module Assembly {
  import opened Rows
  import opened Ordering
  import opened Packing
  import opened Ranking

  // What a reranker reads of a candidate, how that is rendered, and the scores it
  // gives a list of documents.
  datatype Excerpt = Excerpt(kind: RowKind, id: string, content: string)
  datatype Reranker = Reranker(document: Excerpt -> string, score: seq<string> -> seq<real>)

  function ExcerptOf(x: Scored): Excerpt {
    Excerpt(x.row.kind, x.row.id, x.row.content)
  }

  function Documents(pool: seq<Scored>, r: Reranker): seq<string> {
    seq(Block(pool), i requires 0 <= i < Block(pool) => r.document(ExcerptOf(pool[i])))
  }

  function Ordered(rows: seq<Row>, q: Query, r: Option<Reranker>): seq<Scored> {
    Shortlisted(Ranked(rows, q), r)
  }

  function Shortlisted(pool: seq<Scored>, r: Option<Reranker>): seq<Scored> {
    if r.None? then pool else Reranked(pool, r.value.score(Documents(pool, r.value)))
  }

  // A candidate as the packing loop sees it; `number` stands for the row's id.
  function EntryOf(x: Scored, number: string -> nat): Entry {
    if x.row.kind == FactRow then FactEntry(number(x.row.id)) else EpisodeEntry(number(x.row.id))
  }

  function Entries(pool: seq<Scored>, number: string -> nat): (e: seq<Entry>)
    ensures |e| == |pool| && forall i :: 0 <= i < |pool| ==> e[i] == EntryOf(pool[i], number)
  {
    seq(|pool|, i requires 0 <= i < |pool| => EntryOf(pool[i], number))
  }

  function Assembled(rows: seq<Row>, q: Query, r: Option<Reranker>, number: string -> nat, c: Context): Packet {
    Pack(Entries(Ordered(rows, q, r), number), c)
  }

  // The order the rows came in leaves no mark on the packet.
  lemma PacketForgetsOrder(a: seq<Row>, b: seq<Row>, q: Query, r: Option<Reranker>, number: string -> nat, c: Context)
    requires multiset(a) == multiset(b) && DistinctIds(a)
    ensures Assembled(a, q, r, number, c) == Assembled(b, q, r, number, c)
  {
    OrderForgotten(a, b, q);
  }

  function BarePlaced(x: Placed): Placed {
    Placed(x.score, x.place, Bare(x.row))
  }

  // Reranking reads nothing of a candidate but its place.
  lemma RerankBare(pool: seq<Scored>, scores: seq<real>)
    ensures Mapped(Reranked(pool, scores), BareScored) == Reranked(Mapped(pool, BareScored), scores)
  {
    var bare := Mapped(pool, BareScored);
    assert Mapped(Zipped(pool, scores), BarePlaced) == Zipped(bare, scores);
    SortMaps(Zipped(pool, scores), BarePlaced, NotBelow, NotBelow);
    var z := SortBy(Zipped(pool, scores), NotBelow);
    assert Mapped(Strip(z), BareScored) == Strip(Mapped(z, BarePlaced));
    MappedAppend(Strip(z), pool[Block(pool)..]);
    assert Mapped(pool[Block(pool)..], BareScored) == bare[Block(bare)..];
  }

  lemma MappedAppend(a: seq<Scored>, b: seq<Scored>)
    ensures Mapped(a + b, BareScored) == Mapped(a, BareScored) + Mapped(b, BareScored)
  {
  }

  lemma ShortlistBare(pool: seq<Scored>, r: Option<Reranker>)
    ensures Mapped(Shortlisted(pool, r), BareScored) == Shortlisted(Mapped(pool, BareScored), r)
  {
    if r.Some? {
      assert forall x :: ExcerptOf(BareScored(x)) == ExcerptOf(x);
      assert Documents(Mapped(pool, BareScored), r.value) == Documents(pool, r.value);
      RerankBare(pool, r.value.score(Documents(pool, r.value)));
    }
  }

  lemma EntriesBare(pool: seq<Scored>, number: string -> nat)
    ensures Entries(Mapped(pool, BareScored), number) == Entries(pool, number)
  {
  }

  // Neither do the units of the axes.
  lemma PacketForgetsUnits(rows: seq<Row>, q: Query, r: Option<Reranker>, number: string -> nat, c: Context,
                           sa: real, sb: real, fa: real, fb: real)
    requires sa > 0.0 && fa > 0.0
    ensures Assembled(WithAxes(rows, sa, sb, fa, fb), q, r, number, c) == Assembled(rows, q, r, number, c)
  {
    var w := WithAxes(rows, sa, sb, fa, fb);
    UnitsForgotten(rows, q, sa, sb, fa, fb);
    ShortlistBare(Ranked(rows, q), r);
    ShortlistBare(Ranked(w, q), r);
    EntriesBare(Ordered(rows, q, r), number);
    EntriesBare(Ordered(w, q, r), number);
  }
}
