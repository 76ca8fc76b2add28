# Haki: a verified model of the memory ledger

Haki keeps what an assistant remembers about its users in a ledger of facts. An
untrusted extractor proposes facts, a consolidator adjudicates each proposal
against the ledger, and an assembler packs the survivors under a token budget.
This project models those three and the algorithms around them in Dafny 4.11 and
proves what they promise. `dafny verify dfyconfig.toml` checks everything.

## How it is laid out

| file | what it models |
|---|---|
| Rows, Lifecycle, Matching, Adjudication | the rows, the status graph, the queries and one claim as a function on the tables |
| Invariants, Verdicts, Guarantees | what every claim keeps, what each outcome does to every row, what a single claim can and cannot do |
| Rescoping, Runs, Theorems, Witnesses | runs of consolidation, feedback, forget and merge steps, the promises over all of them, and concrete runs |
| Database | the same write path on tables updated in place, proved against the functions |
| Jobs, Draining, AtLeastOnce, WorkerSession | claiming and running jobs: interleaved transactions, what becomes of the queue, and one worker's loops |
| Packing, LedgerPackets | the packing loop, and the packet over an adjudicated ledger |
| Ordering, Reals, Ranking, Assembly | the sort, min-max fusion, the entity factor and the rerank block, and the way from rows to packet |
| Credits | the credit ledger under row locks |
| Subjects | channel aliases and subject merges, with the ledger they move |
| Embedder | the bounded cache of the local embedder over a shared one |
| Chunking | cutting events into chunks |
| Temporal | calendar ranges for relative dates |
| Sampling, Sharding, McNemar | stratified samples, shards, session truncation and the exact McNemar test |
| Fts | printing the OR query |

The extractor is an arbitrary list of candidates. What the model cannot compute
is a parameter: the rows a query favours among ties, the semantic neighbour (any
active fact of the scope whose identity qualifiers agree), the text pattern nets,
rendered line sizes, scores, embedding vectors, hashes and phrase matchers.

## Where the code and its documentation part

The model follows the code. What it then shows:

- Re-asserting a held candidate's value becomes a supersede whenever something
  else is active, because the test at app/consolidator/__init__.py:1056 is "not
  active" (`Guarantees.ReturningValueIsAnUpdate`).
- An event of lower rank can change a higher-ranked fact after all: a third
  competing value puts the waiting member of the pair into service, whatever its
  rank (`Guarantees.LowerRankIsPowerless` gives the exact condition on the tables
  before the claim, `Witnesses.ThirdPartyActivatesTrustedFact` a run).
- Overflow puts a disputed or disabled second member back into service and
  aborts on a deleted one (`Guarantees.OverflowRefusedIff`,
  `Witnesses.DeletedWaiterBlocksTheJob`).
- A subject-scoped run works on the payload it loaded before the claim, which the
  claim's row lock does not refresh (the identity map behaviour described at
  app/billing/credits.py:113-121). If another worker narrowed the job in between,
  events are processed again, or queued again when the run fails
  (`Jobs.ExactlyOnceIffNeverStale`, `Draining.StaleRunProcessesTwice`); none is
  lost (`AtLeastOnce.NoEventIsLost`).
- A merge says facts of both subjects coexist (app/ledger/subjects.py:146-149);
  the partial unique index refuses it when both serve the same identity
  (`Subjects.MergeRefusedIff`, `Witnesses.TwoCitiesCannotMerge`).
- A merge whose source was already merged away leaves the old tombstone
  (`Subjects.MergeDeliversIff`).
- The resolve route accepts the kind "subject", which merges reserve for their
  tombstones: such a registration makes an id look merged away
  (`Subjects.RegistrationFollowsIff`, `Subjects.ReservedRegistrationMisleads`).
- The chunker cuts the merged tail and does not bound message chunks
  (`Chunking.NothingLostIff`, `Chunking.LongChatLosesText`,
  `Chunking.ChunkIsMessage`).
- `select` can give a small stratum no place (`Sampling.StratumDroppedIff`,
  `Sampling.SmallStratumDropped`).
- The docstring of app/consolidator/temporal.py says the range wins over a date in
  the value; the code prefers the lone date (`Temporal.ObservedAtIsUnambiguous`).

## Model

| member | source | states |
|---|---|---|
| Verdicts.ApplyStep | app/consolidator/__init__.py:1012-1449 | Every claim, whatever the extractor proposes and whichever rows the database returns first, keeps the ledger's whole invariant and ends in one of nine outcomes whose effect on every row and set is spelled out; the branch that appends to a set below its cap is never reached |
| Verdicts.ExistingSound | app/consolidator/__init__.py:397-601 | The counterpart a claim meets is always an active fact of the event's own scope; when there is none, no active fact carries the target predicate with the claim's identity qualifiers; a learned alias never replaces an existing one |
| Matching.SelectBest | app/consolidator/__init__.py:322-394 | A query returns a matching row of highest priority, or none exactly when no row matches |
| Matching.SelectAnyTie | app/consolidator/__init__.py:322-344 | Any of the tied best rows can be the one returned, so nothing proved depends on how ties on recorded_from break |
| Matching.ResolveSound | app/consolidator/__init__.py:397-520 | What is found is active, in scope and agrees on identity qualifiers; with no exact match no active row carries the predicate; only the alias table can change |
| Matching.ResolveOrder | app/consolidator/__init__.py:397-520 | The predicate itself is tried first, then its alias, and only when neither is served the nearest neighbour, within 0.28; an alias is learned in that last case alone, when there is none yet and the distance is at most 0.23 |
| Invariants.InsertKeeps | app/consolidator/__init__.py:1279-1305 | Inserting a candidate row keeps every part of the invariant except that the new row still waits for its set or its activation |
| Invariants.ReassertKeeps | app/consolidator/__init__.py:765-807 | Re-asserting keeps one source event per counted reinforcement; a reinforcement is counted exactly when the fact is active and the event new to it; the freshness clock moves exactly when moreover the event has at least the fact's rank and is later |
| Invariants.HoldKeeps | app/consolidator/__init__.py:1176-1253 | Holding back keeps the invariant: the candidate waits in an open set of its own and every other row stays as it was |
| Invariants.ReplaceKeeps | app/consolidator/__init__.py:1306-1335 | A supersession keeps chains acyclic, unforked and inside one scope, closes the old interval at the new start without turning it negative, and never lowers the rank along the chain |
| Invariants.ContradictKeeps | app/consolidator/__init__.py:1350-1444 | A contradiction keeps open sets pairwise disjoint pairs with at most one active member |
| Invariants.OverflowKeeps | app/consolidator/__init__.py:1372-1438 | A third competing value keeps the invariant and dissolves the pair: the set is closed with three members, all served, all in event form |
| Guarantees.OverflowsIff | app/consolidator/__init__.py:1350-1444 | A claim overflows onto a waiting fact if and only if, before it, no stored row says the same, the claim creates, the active state-form fact it meets has another value and is not out of its rank, and the waiting fact is the undeleted second member of that fact's open pair |
| Guarantees.LowerRankIsPowerless | app/consolidator/__init__.py:1176-1253 | An event of strictly lower rank changes nothing of a fact but its reinforcement counter and sources if and only if the tables before the claim are not about to overflow onto that fact; it never puts the fact in a new set |
| Guarantees.RevivalOnlyByOverflow | app/consolidator/__init__.py:1399-1420 | A stored fact comes into service if and only if the tables before the claim are about to overflow onto it; superseded and deleted rows never change again |
| Guarantees.ClaimRefusedIff | alembic/versions/0018_memory_form.py:66-72 | A claim aborts on the partial unique index if and only if, read off the tables before it, it is weighed against a counterpart or none, its row is to go live in state form, and a row other than the counterpart serves that identity |
| Guarantees.OwnPredicateNeverRefused | app/consolidator/__init__.py:1077-1086 | A claim whose supersedes_predicate is absent or its own predicate is never aborted by the index |
| Guarantees.OverflowRefusedIff | app/consolidator/__init__.py:1392-1415 | A contradiction aborts if and only if the waiting member of the pair was deleted; a disputed or disabled one is put back into service |
| Guarantees.SupersedeCarriesForward | app/consolidator/__init__.py:1255-1278 | Whenever a claim replaces a fact, asked to or not, every key of the old value it does not restate is kept, an explicit null removes a key, the form stays the identity's own, and classes and range the claim omits are inherited |
| Guarantees.FreshnessClock | app/consolidator/__init__.py:765-807 | A claim moves the freshness clock of a stored fact only by counting it again, for an event of at least the fact's rank, forwards and to the event's time |
| Guarantees.ReturningValueIsAnUpdate | app/consolidator/__init__.py:1040-1075 | A value coming back while anything for its identity is active is held, replaces it, or is refused by the index; it is never just counted as a duplicate |
| Guarantees.ReplayChangesNothing | app/consolidator/__init__.py:1040-1071 | Replaying the claim that activated a state-form fact leaves every row and set as it was, whatever rows the database returns first |
| Runs.RunKeeps | app/consolidator/__init__.py:1471-1731 | Over every run of consolidation, feedback, forget and merge steps the invariant holds, no fact id is reused, rows keep what they were born with up to a merge of their subject, freshness clocks never run backwards, and a retired row stays retired |
| Runs.MergeStep | app/ledger/subjects.py:192-212 | A merge keeps the invariant and moves rows within their project only; a refused one changes nothing |
| Runs.ErasedStep | app/ledger/forget.py:128-231 | Erasing a subject breaks no chain and no set of another subject |
| Theorems.JobAccounting | app/consolidator/__init__.py:1452-1731 | A job that completes counts every raw candidate exactly once; fact rows grow by created + conflicts + quarantined, active facts by created - superseded + reclassified; a job that fails leaves the tables as they were |
| Theorems.OneServedPerIdentity | alembic/versions/0018_memory_form.py:66-72 | In every reachable ledger at most one active state-form fact has a given project, subject, predicate and qualifiers less attributed_to |
| Theorems.OpenSetsArePairs | app/consolidator/__init__.py:1350-1444 | In every reachable ledger an open contradiction has exactly two members and at most one is active, an open quarantine has one, and open sets share no member |
| Theorems.DissolvedSetsAreEvents | app/consolidator/__init__.py:1399-1438 | Dissolved sets keep three event-form facts, and no candidate row is ever left outside an open set |
| Theorems.ChainsGoUp | app/consolidator/__init__.py:1306-1334 | Along a supersession chain the scope stays, the origin rank never drops, ids only grow, and only the newest fact can be active |
| Theorems.ReplacedIntervalCloses | app/consolidator/__init__.py:1306-1335 | In every reachable ledger a replaced fact's interval ends where its successor's starts, and never before its own start |
| Theorems.ChainsNeverFork | app/consolidator/__init__.py:1306-1334 | Two facts that descend from a third lie on one chain |
| Theorems.NeverServedAgain | app/ledger/core.py:250-282 | After any further run a superseded or deleted fact is still not active |
| Theorems.ProvenanceHolds | app/consolidator/__init__.py:1182-1253 | In every reachable ledger no untrusted-origin fact is active and each fact has one distinct source event per reinforcement plus one |
| Witnesses.ThirdPartyActivatesTrustedFact | app/consolidator/__init__.py:1399-1415 | A concrete run of three events in which a third party's value puts a trusted, waiting fact into service |
| Witnesses.DeletedWaiterBlocksTheJob | app/consolidator/__init__.py:1392-1415 | A concrete run in which the waiting fact of a dispute was deleted and the next value makes its whole job fail |
| Witnesses.TwoCitiesCannotMerge | app/ledger/subjects.py:192-202 | Two ids that each hold a city, told by one event each, cannot be merged |
| Database.Ledger.TransitionFactStatus | app/ledger/core.py:323-338 | Changes status, version and recorded_to in place as the transition function says, or raises and changes nothing |
| Database.Ledger.ResolveExistingFact | app/consolidator/__init__.py:397-520 | The in-place resolution, alias learning included, is the resolution function |
| Database.Ledger.ReinforceOrCountDuplicate | app/consolidator/__init__.py:765-807 | The in-place reinforcement is the reassertion function |
| Database.Ledger.SupersedeFact | app/consolidator/__init__.py:1306-1335 | Supersede, close, link and activate in place, as the replacement function says; an abort restores every row |
| Database.Ledger.ReclassifyConflict | app/consolidator/__init__.py:1372-1438 | Reclassification in place is the overflow function |
| Database.Ledger.ApplyCandidate | app/consolidator/__init__.py:1012-1449 | The whole write path on mutable tables refines the claim function |
| Database.Ledger.ConsolidateJob | app/consolidator/__init__.py:1471-1731 | A job on mutable tables, with its savepoint, refines the job function |
| Database.Ledger.SubmitIncorrect | app/ledger/feedback.py:54-69 | Rating a fact incorrect disputes it when the lifecycle allows, only inside its project |
| Database.Ledger.Forget | app/ledger/forget.py:92-125 | Forgetting one fact disables or deletes it, once, only inside its project |
| Database.Ledger.ForgetEverything | app/ledger/forget.py:128-231 | Forgetting a subject in place disables its live rows one by one, or erases exactly its facts, conflict sets and learned predicate aliases |
| Jobs.OneOwner | app/consolidator/__init__.py:1743-1803 | In every interleaving no two open transactions own the same job |
| AtLeastOnce.NoEventIsLost | app/consolidator/__init__.py:1740-1970 | In every interleaving of claims, results, rate limits, commits and crashes, stale payloads included, each captured event has been processed or is queued in a job that is not done |
| Jobs.ExactlyOnceIffNeverStale | app/consolidator/__init__.py:1840-1970 | From any state that keeps the queue's invariant, each event is processed at most once and queued in at most one unfinished job at every point of a run if and only if no commit of the run worked on a payload that had been narrowed since it was loaded |
| Jobs.EveryEventOnceFromStart | app/consolidator/__init__.py:1740-1970 | After any run from the empty queue in which no commit is stale, each captured event is processed exactly once or queued in exactly one job that is not done |
| Jobs.GlobalRunsAreNeverStale | app/consolidator/__init__.py:1806-1837 | Workers that run the whole queue read the payload with the claimed row, so none of their commits is ever stale and exactly-once holds for them without condition |
| Draining.StaleRunProcessesTwice | app/consolidator/__init__.py:1840-1904 | A concrete run of two subject-scoped workers in which one event is processed twice |
| Draining.NotDoneIsClaimable | app/consolidator/__init__.py:1740-1803 | In every reachable queue an unlocked job that is not done is won by every transaction that begins more than STALE_CLAIM_AFTER after some instant |
| AtLeastOnce.EveryQueueDrains | app/consolidator/__init__.py:1740-1970 | From every reachable queue, whatever is open or stale, there is a schedule after which every job is done and every captured event has been processed |
| Draining.QueueDrains | app/consolidator/__init__.py:1740-1970 | From every queue reached without a stale commit there is a schedule after which every job is done and every captured event has been processed exactly once |
| Jobs.RunningIsStamped | app/consolidator/__init__.py:1743-1803 | Every running job carries its claim time, so none is out of reach of the stale reclaim |
| WorkerSession.Session.ClaimJobs | app/consolidator/__init__.py:1743-1803 | The claiming loop takes exactly the claimable, unlocked rows, in order |
| WorkerSession.Session.RunJobs | app/consolidator/__init__.py:1907-1970 | The run loop, savepoint by savepoint and stopping at a rate limit, is the batch drained by the protocol's steps; it returns the number of successes |
| Packing.PacketAccounts | app/context/__init__.py:1268-1398 | For every pool token_count is the sum of the served lines' costs and within budget, episodes cost at most half the budget or the first episode alone, refs run F1..Fn and E1..Em, everything included is there, and nothing dropped for a limit fits what is left |
| Packing.LowerRanksComeAfter | app/context/__init__.py:1286-1398 | What a pool is served is a prefix of what any longer pool is served: lower ranks never disturb higher ones |
| Packing.NoFactTwice | app/context/__init__.py:1340-1393 | With no two facts of one conflict in the pool no fact is served twice, and every served fact is a pool fact or a remembered rival of one |
| Packing.RivalsAreServedTwice | app/context/__init__.py:1340-1393 | The condition is needed: two rivals in the pool and room for three lines serve one of them twice |
| Packing.EveryEntryAnswered | app/context/__init__.py:1286-1398 | Every pool entry has a decision, and unless a contested fact was itself dropped every hydrated rival is served or has a decision too |
| Packing.PackPool | app/context/__init__.py:1268-1398 | The loop with its running variables computes the packet function |
| Packing.PackSiblings | app/context/__init__.py:1347-1393 | The inner loop over the members of a contested fact's conflict computes the sibling function |
| LedgerPackets.SplitConflicts | app/context/__init__.py:914-928 | The loop over open conflicts splits contested pairs from quarantined singles as the two functions say |
| LedgerPackets.PacketsServeTheLedger | app/context/__init__.py:914-1002 | Over a ledger that keeps its invariant a packet serves no fact twice and only active facts of the scope or the waiting rival of one: nothing untrusted, superseded, disabled or deleted |
| LedgerPackets.RivalsAreAnswered | app/context/__init__.py:930-979 | The rival of a contested fact is always hydrated: it is served beside the fact, or the trace says why not, unless the fact was dropped for the budget |
| Ranking.RelevanceBounds | app/context/ranking.py:78-111 | Fused scores lie in [0, 1] |
| Ranking.RelevanceMonotone | app/context/ranking.py:90-111 | A candidate at least as good on both axes never scores lower, and scores higher when better on an axis that separates anything |
| Ranking.RelevanceWeighs | app/context/ranking.py:74-111 | Best on similarity alone is worth 0.65, on full text alone 0.35, on both 1 |
| Ranking.NormalizeSpans | app/context/ranking.py:78-87 | An axis that is not flat is spread over exactly [0, 1] |
| Ranking.NormalizeAffine | app/context/ranking.py:78-87 | A positive affine change of units on an axis changes no normalized value |
| Ranking.EntityOnlyDemotes | app/context/__init__.py:386-412 | The entity adjustment never raises a score, keeps at least seven tenths of it, and lowers a positive one exactly for a fact about somebody the query does not name |
| Ranking.UnitsForgotten | app/context/__init__.py:1194-1237 | Rescaling either axis of the whole pool by a positive affine map leaves the order of the ranked pool and every score in it as they were |
| Ranking.OrderForgotten | app/context/__init__.py:1218-1237 | The ranked pool depends only on the multiset of candidates: permuting the rows changes nothing |
| Ranking.BeforeIsTotal | app/context/__init__.py:366-383 | The sort key is a linear order on any pool with distinct ids, whatever the ties on score, recency and content |
| Ranking.RankedIsSorted | app/context/__init__.py:1230-1237 | The ranked pool loses nothing and is ordered by score, then recency |
| Ranking.RerankedOrder | app/context/__init__.py:1248-1266 | Reranking leaves the tail where it was and sorts the head block by its new scores, ties in their old order |
| Ranking.RerankLosesNothingIff | app/context/__init__.py:1248-1266 | Reranking keeps every candidate if and only if the reranker returns a score for each document of the head |
| Assembly.PacketForgetsOrder | app/context/__init__.py:1194-1398 | Permuting the rows leaves the packet as it was, through ranking, reranking and packing |
| Assembly.PacketForgetsUnits | app/context/__init__.py:1194-1398 | Rescaling either axis leaves the packet as it was, through ranking, reranking and packing |
| Ordering.SortIsStable | app/context/__init__.py:1257-1264 | The sort is stable: sorted, and equals stay in their old order |
| Ordering.SortedIsUnique | app/context/__init__.py:1230-1237 | Two sorted arrangements of the same elements under a linear order are the same |
| Credits.BooksBalance | app/billing/credits.py:108-224 | In every interleaving of transactions that lock and then reread, the cached balance is the sum of the deltas, every balance_after is the running sum in commit order, and no balance is negative |
| Credits.StaleLockLosesAGrant | app/billing/credits.py:113-121 | Without the reread under the lock one of two grants is lost |
| Credits.DebitsTakeWhatIsThere | app/billing/credits.py:199-224 | Debits alone, in any interleaving, succeed exactly min(attempts, balance) times |
| Credits.Organization.GrantCredits | app/billing/credits.py:132-156 | The in-place grant is the grant operation |
| Credits.Organization.ResetMonthlyCredits | app/billing/credits.py:159-196 | The in-place reset is the reset operation |
| Credits.Organization.TryDebitCredit | app/billing/credits.py:199-224 | The in-place debit is the debit operation |
| Subjects.ResolutionIsStable | app/ledger/subjects.py:43-128 | Resolution never re-points an alias, and once an alias is known, also when a concurrent caller registered it, every caller that names no id or the right one finds that id and any other gets a conflict |
| Subjects.ReceiptIsExact | app/ledger/subjects.py:167-280 | The receipt lists exactly the events, facts, conflict sets, traces and aliases the merge changed |
| Subjects.MergeRefusedIff | app/ledger/subjects.py:192-202 | A merge is refused by the partial unique index if and only if source and target each serve a state-form fact of one predicate and one set of identity qualifiers |
| Subjects.MergeKeepsLedger | app/ledger/subjects.py:131-280 | A merge that goes through keeps the whole invariant of the ledger: chains and conflict sets move as one |
| Subjects.MergeDeliversIff | app/ledger/subjects.py:232-256 | After a merge every alias is one hop from a live id and the source leads to the target if and only if the source was live and the target live or buried under the source, or the source was already buried under the target |
| Subjects.EverythingFollows | app/ledger/subjects.py:131-280 | Over every run each event, fact, set, trace and alias has the subject obtained by applying the merges that went through, in order, and chunks keep their event's subject |
| Subjects.IdsFollowMergesIff | app/ledger/subjects.py:43-280 | From no aliases, at every point of a run each id leads in one hop to where the merges took its rows if and only if every registration names a live id, under the reserved kind only itself, and every merge that goes through has a buried source or a target that is live or buried under the source |
| Subjects.RegistrationFollowsIff | app/schemas/subjects.py:21-32 | A new alias leaves every id where it led, one hop away, if and only if it names a live id and, under the reserved kind, the very id it is about |
| Subjects.ReservedRegistrationMisleads | app/schemas/subjects.py:21-32 | A registration under the reserved kind, which the route accepts, makes an id lead to another one while its rows stay where they were |
| Subjects.SubjectDirectory.Resolve | app/ledger/subjects.py:43-128 | Resolving in place is the resolution function |
| Subjects.SubjectDirectory.Merge | app/ledger/subjects.py:131-280 | Merging in place, table by table, is the merge function |
| Embedder.LocalEmbedder.Embed | app/providers/local.py:210-257 | Whatever was cached, shared, malformed or evicted, the result is the model's vectors of the prefixed texts in order with duplicates; the model runs at most once on each distinct miss; the cache stays coherent within 1024 entries; and a batch that fits the cache is in it afterwards |
| Embedder.LocalEmbedder.SharedLookup | app/providers/local.py:263-293 | The shared lookup only adds right vectors and never loses a text; unreachable or with a payload that raises it gives the whole list back, otherwise exactly the texts without a stored vector of the right width |
| Embedder.UseKeeps | app/providers/local.py:239-242 | Moving a hit to the recent end keeps the cache coherent and the call's uses the most recent ones |
| Embedder.EvictKeeps | app/providers/local.py:253-256 | Eviction takes the oldest entry, so recent uses stay while there is anything else |
| Chunking.SplitKeepsText | app/context/chunking.py:106-130 | Splitting any text on paragraph, sentence and hard cuts keeps its sequence of non-white characters and makes no empty chunk and none over CHUNK_MAX_CHARS |
| Chunking.ParagraphsStayWhole | app/context/chunking.py:109-115 | A text whose paragraphs all fit one chunk is cut at its paragraph breaks and nowhere else |
| Chunking.SentencesRespectTarget | app/context/chunking.py:116-129 | Sentences within the target make chunks within the target |
| Chunking.NeighboursDoNotFit | app/context/chunking.py:109-129 | No two neighbouring chunks of one paragraph fit the target together: nothing is cut finer than it must be |
| Chunking.ChunkCount | app/context/chunking.py:133-160 | Every event becomes 1 to 200 chunks |
| Chunking.OpaqueKeepsText | app/context/chunking.py:145-160 | A payload without messages keeps its text up to what the cap cuts off, in chunks of at most CHUNK_MAX_CHARS |
| Chunking.NothingLostIff | app/context/chunking.py:156-160 | No text is lost if and only if the chunks fit the cap or the tail merged beyond it fits one chunk |
| Chunking.LongChatLosesText | app/context/chunking.py:156-160 | A concrete conversation of 201 turns of a thousand characters loses text |
| Chunking.ChunkIsMessage | app/context/chunking.py:143-160 | Up to 200 messages chunk i is message i, whole and however long; beyond, the first 199 still are |
| Chunking.SplitText | app/context/chunking.py:106-130 | The nested loops compute the splitting function |
| Chunking.ChunkEvent | app/context/chunking.py:133-160 | The chunking procedure computes the chunking function |
| Temporal.NextIsOneMore | app/consolidator/temporal.py:153-156 | The calendar and the day count agree: the next date has the next number |
| Temporal.OrdinalOrders | app/consolidator/temporal.py:159-172 | Day numbers follow the order of dates, so no two dates share one |
| Temporal.AddMonthsLands | app/consolidator/temporal.py:153-156 | Shifting by months lands on a valid date at month index + k, the day clamped to the month's last, and fails exactly outside years 1 to 9999 |
| Temporal.WeekOf | app/consolidator/temporal.py:169-172 | The week of a date runs Monday to Sunday around it and fails only past the last day |
| Temporal.RangeCovers | app/consolidator/temporal.py:159-180 | A day range is one day, a week range a Monday to a Sunday, a month range a whole month and a year range a whole year |
| Temporal.RangeZeroContains | app/consolidator/temporal.py:159-180 | Range 0 contains its anchor |
| Temporal.RangesAbut | app/consolidator/temporal.py:159-180 | The ranges of offsets k and k + 1 abut: no gap, no overlap |
| Temporal.RangeExistsIff | app/consolidator/temporal.py:159-180 | A range exists if and only if it stays within years 1 to 9999 |
| Temporal.ResolveRelativeRange | app/consolidator/temporal.py:191-220 | A range comes back if and only if the value names exactly one distinct expression, early exit included |
| Sampling.LeftoverFits | eval/datasets.py:322-332 | The places left over are fewer than the strata, and in descending order of remainder each goes to a stratum with a remainder of its own |
| Sampling.QuotasAreFair | eval/datasets.py:322-332 | Quotas add up to the subset, each stratum getting the floor of its exact share, or one more when the share is not whole, and never more than it has |
| Sampling.LargestRemaindersWin | eval/datasets.py:329-332 | A place left over never goes past a larger remainder |
| Sampling.StratifiedSampleIsExact | eval/datasets.py:334-338 | A stratified sample has exactly `subset` questions, is a subsequence in dataset order and is fair to every type |
| Sampling.DrawnHaveLeastHashes | eval/datasets.py:335-337 | Of each stratum the questions first in the seed's stable order are drawn |
| Sampling.StratumDroppedIff | eval/datasets.py:322-332 | A stratum gets no place if and only if its share is below one and at least as many types come before it, by remainder and name, as the floors leave places over |
| Sampling.SmallStratumDropped | eval/datasets.py:322-332 | A concrete input on which a non-empty stratum gets no place |
| Sampling.SelectQuestions | eval/datasets.py:286-338 | Selection with its dictionaries and loops computes the selection function |
| Sharding.ShardsPartition | eval/datasets.py:341-371 | Every question is in exactly one shard, shards keep dataset order, and a history is never split |
| Sharding.ShardsAddUp | eval/datasets.py:341-371 | The sizes of the shards add up to the number of questions |
| Sharding.ShardsAreBalanced | eval/datasets.py:360-366 | Shards hold the floor or the ceiling of their share of histories, earlier shards never fewer |
| Sharding.ShardQuestions | eval/datasets.py:341-371 | The sharding loops compute the shard function |
| Sharding.TruncateSessions | eval/datasets.py:425-439 | The kept sessions are the most recent ones, as many as fit the budget and at least one, and the flag says whether any was left out |
| McNemar.PValueIsTheShare | eval/compare_dumps.py:58-69 | The p-value is the share of the 2^(b+c) outcomes at least as lopsided as observed, lies in (0, 1] and is symmetric |
| McNemar.ClampBitesIff | eval/compare_dumps.py:67-69 | For b + c > 0 the clamp at 1 bites if and only if b = c |
| McNemar.OutcomesAreAll | eval/compare_dumps.py:58-63 | The reference list of outcomes holds every sequence of b + c coin flips exactly once |
| Fts.QueryReadsBack | app/context/fts.py:115-127 | Reading the printed OR query under tsquery quoting (section 8.11.2 of the PostgreSQL 16 documentation) gives back the lexemes, quotes and backslashes included |
| Fts.PrintingIsInjective | app/context/fts.py:115-127 | Two lists of lexemes print alike only when equal, and only the empty list prints as no query |

## Left out

- Ranking.RelevanceBounds: over the reals; floating-point rounding of scores is not modelled.
- Sampling.QuotasAreFair: over exact fractions; the float shares of the code are not modelled.
- Jobs.EveryEventOnceFromStart: under the condition that no commit is stale, which Jobs.ExactlyOnceIffNeverStale shows to be exact.
- Database.Ledger.ForgetEverything: erases facts, conflict sets and learned predicate aliases; the events, traces, feedback and channel aliases that the program deletes with them are no tables of the ledger machine.
- WorkerSession.Session.RunJobs: an error ends a job with the payload the run had loaded; an error that the database raises while it flushes the savepoint itself, after which the row is read again, is not modelled.
- Embedder.LocalEmbedder.Embed: assumes that a shared entry of the right width was stored by the same model for the same text, which its key names, and that the store answers one payload per key.
- LedgerPackets.PacketsServeTheLedger: the live point of view only; retrieval as of a past instant reads superseded rows.
- Chunking.OpaqueKeepsText: the serialized payload is a parameter with at least one non-white character, as a JSON object always has.
- Human conflict resolution and the capture routes: their source is not part of this model, so they are no step of a run.
- Evidence spans, episode chunks of a fact, embeddings, search text and the observed_at column of fact rows.
- The phrase list and the echo threshold of the write gate: two booleans per candidate that only feed the counters; the breakdown of rejections by reason.
- A negative subset size of `select`, which Python would slice from the end.
- Clocks: reclassified_at and recorded_to take the time of the running transaction.
- The 32-bit width of the credit columns, and the lazy monthly grant, whose spacing is checked before the lock.
- write_events, embedding models, cosine distances, full-text ranks, reranker scores, prompt texts, line rendering, row-level security, sessions, the HTTP layer, the legacy ranking and the evaluation reports.
