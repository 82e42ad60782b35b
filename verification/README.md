# Connector hub: verified model of its stateful protocols

The service is a catalogue of MCP connectors. A worker keeps checking whether each connector's
endpoint is alive, people recheck and edit cards at the same time, clients page through a
catalogue that changes under them, sessions and signing keys are cached between concurrent
requests, and readers comment on cards. This project models those protocols in Dafny and proves
what they keep, over every run and every interleaving.

Conventions: one SQL statement or transaction is one atomic step over maps from ids to rows, with
the primary keys, foreign keys, cascades and CHECKs of the schema as its guards; a network call is
an arbitrary outcome; code between two awaits is atomic. Where the source updates an object or a
table in place there is a class whose methods are tied to a function of the old state; protocols
that run concurrently are state machines over the same functions.

| file | what it holds |
|---|---|
| Options, Sets, KeyOrder | results, set sizes, and ORDER BY: composite sort keys and sorted listings |
| McpClient | nested exception groups, their classification, the transport fallback, liveness |
| Probes | health rows, the compare-and-set upsert, transport correction, the tools cache |
| LivenessProtocol | sweeps, rechecks, refreshes and card changes as one state machine |
| LivenessSafety, LivenessResults | its invariant, and what follows for whole runs |
| LivenessRows | every step of that machine on the rows and histories themselves |
| LivenessWitnesses | two concrete runs: the guard at work, and the case it cannot see |
| ToolsHistory | the tools cache over whole runs |
| Starvation | how long a connector can be passed over |
| WriteBack | where the stored transport settles |
| AdvisoryLock | one sweep at a time |
| Keyset, Cursor, Catalogue, CataloguePaging | pages, cursors, filters and visibility; walks on fixed and changing catalogues |
| CatalogueColumns | the catalogue on its columns: who sees what, order, pages, counts, writes |
| Introspection, Jwks, SiteAuth | the session cache, the key cache and the client object they live in |
| Comments, Threads, CommentStore | comment requests interleaved, thread pages and counts, the handlers |
| CommentRows | the comment steps and the listing on the rows |
| RateLimit | the fixed-window limiter |

## What the code does differently from what is said about it

- The limiter's comment allows up to twice the limit across a window edge
  (`backend/src/api/rate_limit.py:36-37`). At most `2 * limit - 1` requests pass in a half-open span
  of 60 seconds, and some trace reaches that.
- A malformed cursor is meant to be answered with 400 (`backend/src/core/connectors/queries.py:81-82`).
  It is not always. The answer is 500 exactly when the text is not ASCII, when its bytes make the JSON
  parser raise an error that is not among those caught (an integer of more than 4300 digits, say), or
  when it decodes but the statement cannot be run: the value is neither a text without a NUL nor null,
  the time is outside years 1 to 9999 in UTC, the id is neither a uuid nor null, or the search text or a
  tag holds a NUL. A null id or a null name is no error: the row comparison with NULL leaves what is
  strictly beyond the value, or nothing. `AnswerOfACursor` gives the exact condition of a page, a 400 and
  a 500, `PageOfACursor` the page; each kind has an input (`AccentFails`, `LongNumberFails`,
  `MisplacedFails`, `NulFails`, `OutOfRangeFails`, `NulInTheSearchFails`, `NullIdServes`,
  `NullNameServesNothing`, `NullTimeIsRefused`).
- The compare-and-set sees a newer record only by its stamp. `now()` is the start of a transaction, so
  stamps may repeat and may be out of order; nothing is assumed about them. A result is stored exactly
  when the latest stamp is the one that was read. Over newer records that happens exactly when the
  latest of them repeats that stamp (`StaleResultNeedsARepeatedStamp`, with a run in
  `ARepeatedStampIsNotSeen`); while it is not repeated, nothing newer is overwritten
  (`NothingNewerIsOverwritten`).
- The lock is not free whenever nobody sweeps: an unlock that fails on a live connection leaves it with a
  pooled session until that session ends (`StuckUntilClosed`, with a run in `AFailedUnlockShutsOut`).
  It is free exactly when no process holds it and no such session is left (`SingleSweep`).
- An anonymous viewer is meant to see global cards only (`backend/src/core/connectors/visibility.py:15-16`).
  The absent user id is bound as the empty text, taken to be nobody's; the promise holds exactly if no
  unarchived card that is not global has the empty text as its creator (`AnonymousSeesGlobal`).
- "One sweep at a time" holds for processes whose lock connection is alive. A process whose connection
  was cut keeps sweeping, and any process that then connects and tries may sweep beside it; two sweeps
  overlap in no other way (`OverlapNeedsACut`). The compare-and-set is what keeps the results right in
  that case (`ObservedStateConsumedOnce`).
- Cached session answers are not monotone in time: a late "active" reply may replace a newer "not
  active" one (`LateAnswersReplaceNewerOnes`). Callers see an answer go back exactly when the replies
  themselves did (`AnswersGoBackIffRepliesDo`), and never when requests for one token do not overlap
  (`OneAtATimeNeverGoesBack`). The revocation bound holds in any case, and is tight.

## Model

| member | source | states |
|---|---|---|
| LivenessResults.SlowProbeNeverOverwrites | backend/src/worker/liveness.py:84-104 | In every run of sweeps, rechecks, refreshes, edits, deletes and crashes, at any stamps: a sweep's result is stored if and only if the latest accepted stamp of the connector is the one the sweep read (and the correction still fits the card); otherwise neither rows nor histories change |
| LivenessResults.NothingNewerIsOverwritten | backend/src/core/connectors/probes.py:109-117 | While the stamp that was read is not repeated: stored if and only if nothing at all was accepted for the connector since the read |
| LivenessResults.RecordIsExact | backend/src/core/connectors/probes.py:95-151 | One guarded record in a reachable state: stored, superseded or rolled back, with the exact condition of each and the whole new state |
| LivenessRows.RecheckIsRecorded | backend/src/api/connectors/router.py:442-455 | On the rows: a manual recheck whose card exists and can take the transport that answered always lands, whatever the row holds by then: one check more in the history, status, stamp, error and failure count of that check, and the answering transport; otherwise nothing changes |
| LivenessRows.RechecksNeverYield | backend/src/api/connectors/router.py:447-455 | The same at every step of every run from the empty database |
| LivenessRows.RecordOnRows | backend/src/worker/liveness.py:87-108 | On the rows: a sweep's record is written, gives way to another stamp (superseded), or is rolled back and counted as an error, each with its exact condition; only a written one changes rows or histories |
| LivenessRows.RefreshOnRows | backend/src/api/connectors/router.py:290-307 | On the rows: a refresh of an existing card is committed whether the fetch failed or not, unless the card cannot take the transport that brought the list; a list replaces list and time, a failure only the error |
| LivenessResults.ObservedStateConsumedOnce | backend/src/core/connectors/probes.py:106-117 | Two tasks, of the same or of overlapping sweeps, that both stored over the same observed stamp of a connector are the same task, unless its history repeats that stamp |
| LivenessResults.NeverCheckedIsNotRepeated | backend/src/core/connectors/probes.py:121-126 | "Never checked" is a stamp that is never repeated, so the first check is consumed once without any condition |
| LivenessWitnesses.ALateResultGivesWay | backend/src/core/connectors/probes.py:109-113 | A run from the empty database in which a slow "down" is superseded by the "up" of a recheck |
| LivenessWitnesses.ARepeatedStampIsNotSeen | backend/src/core/connectors/probes.py:121-126 | A run in which two rechecks share a stamp and a slow "down" covers the newer "up" |
| LivenessResults.StaleResultNeedsARepeatedStamp | backend/src/core/connectors/probes.py:121-126 | In every run: over newer records a result is stored exactly when the latest of them repeats the stamp that was read (and the correction fits) |
| LivenessSafety.CompareAndSetIsExact | backend/src/core/connectors/probes.py:121-151 | In a reachable state the guard fails exactly when the latest accepted stamp differs from the one read |
| LivenessSafety.StepKeepsInv | backend/src/worker/liveness.py:56-110 | Every event of every actor, at any stamp, keeps: row = summary of history, each worker record after all its sweep saw and over the stamp it read, one record per candidate at most, tasks and histories in agreement, at most cap bodies in flight |
| LivenessSafety.RunKeepsInv | backend/src/worker/liveness.py:56-110 | The invariant in every state reachable from the empty database |
| LivenessSafety.CandidatesAreDue | backend/src/worker/liveness.py:37-53 | The candidates are the first eligible connectors in (last_checked_at NULLS FIRST, id) order, no two the same, read as they are |
| LivenessRows.CandidatesOnColumns | backend/src/worker/liveness.py:37-53 | On the columns: a sweep reads the unarchived cards with an address and a transport, however often they failed, as many as the limit allows, never-checked and longest-unchecked first; whatever it leaves out comes later |
| LivenessRows.SweepStepsOnTasks | backend/src/worker/liveness.py:77-110 | Each sweep step moves one task and changes no row and no history |
| LivenessRows.RequestsOnRows | backend/src/api/connectors/router.py:421-446 | A recheck or a refresh starts from the transport the card has then |
| LivenessRows.CardStepsOnRows | backend/src/core/connectors/mutations.py:86-129 | What creating, editing, archiving and deleting a card do to rows and histories |
| LivenessRows.SweepStepsThatCanBeTaken | backend/src/worker/liveness.py:75-95 | Probing waits for one of cap places and for nothing else |
| LivenessRows.StepsThatCanBeTaken | backend/src/api/connectors/router.py:421-455 | Nothing holds back the end of a recheck or a refresh, and people may change cards at any time |
| LivenessSafety.SettleShape | backend/src/worker/liveness.py:84-106 | A record transaction touches at most one health row and that card's transport, or nothing; `RecordOnRows` and `RecheckIsRecorded` say when and with what values |
| LivenessRows.SettleOnRows | backend/src/core/connectors/probes.py:95-164 | The same on the rows: stored exactly if the guard lets it through and the card can take the transport, superseded exactly if the guard does not, and the whole row written |
| LivenessResults.HealthRowIsTheHistory | backend/src/core/connectors/probes.py:127-151 | In every reachable state: status, error and time of the last accepted record; the failure count is the trailing run of failures, zero exactly when not unhealthy; no row only if nothing was accepted |
| LivenessResults.TickAddsUp | backend/src/worker/liveness.py:75-122 | In every reachable state at most connector_outbound_concurrency bodies of a sweep are in flight, and once it is finished healthy + unhealthy is the number of records it committed |
| LivenessResults.Tally | backend/src/worker/liveness.py:115-121 | checked = healthy + unhealthy + superseded + apply errors = outcomes - raised |
| LivenessResults.VerdictsAreFinal | backend/src/worker/liveness.py:110 | A task that reached an outcome keeps it for the rest of the run |
| Starvation.NobodyStarves | backend/src/worker/liveness.py:37-47 | With batch limit b, k eligible connectors ahead and at most m entering ahead, one of the first (k + m) / b + 1 sequential clean sweeps reads x, whatever else is recorded or superseded, at any stamps; a connector recorded under a stamp that leaves it ahead counts as entering again |
| Starvation.OnlyNewcomersEnter | backend/src/worker/liveness.py:45 | While others are recorded under stamps later than the last check of x, those entering are exactly the ones that were not ahead before |
| Starvation.MissedByAllLeavesNoRoom | backend/src/worker/liveness.py:70-110 | If n + 1 sweeps in a row all miss x, at least (n + 1) * b connectors were or came to be ahead of it |
| Starvation.MissedSweepClears | backend/src/worker/liveness.py:70-110 | A clean sweep that misses x removes at least b connectors from in front of it |
| Starvation.MissedMeansBehind | backend/src/worker/liveness.py:37-47 | A sweep misses an eligible connector only with a full batch of connectors that sort before it |
| WriteBack.WriteBackConverges | backend/src/core/connectors/probes.py:154-164 | Against a server of fixed behaviour and without owner edits: after the first committed healthy check the stored transport never changes, and every check reading it makes one attempt, which succeeds if given at least as long, with all paths and timeouts interleaved |
| WriteBack.RefreshConverges | backend/src/api/connectors/router.py:210-216 | The same after the first committed refresh that brought tools, for refreshes; the registration's timeout and that of later refreshes may differ |
| WriteBack.AtMostOneMove | backend/src/api/connectors/router.py:442-455 | From a state in which everything under way read the stored transport, it changes at most once, and only to the other transport |
| WriteBack.NeverBackAndForth | backend/src/core/mcp/client.py:263-312 | If under some timeout a check or a fetch leaves transport t for the other, under no timeout does one leave the other for t |
| WriteBack.ServingTransportStays | backend/src/core/mcp/client.py:295-306 | A transport that shakes hands, given time, is left under no timeout: it may time out but does not decline |
| WriteBack.AnsweringTransportStays | backend/src/core/mcp/client.py:471-497 | On a transport that answered under one timeout, a check under any longer one needs one attempt, and nothing moves away from it |
| WriteBack.StepGoesOn | backend/src/api/connectors/router.py:270-307 | One step of any path: the stored transport stays or moves once, and an accepted healthy check leaves it on a transport that answers |
| WriteBack.NewCardIsAligned | backend/src/api/connectors/router.py:200-216 | A card just created has under way only its registration's refresh, from the transport it was posted with, so the results above hold from creation on |
| WriteBack.CorrectionIgnoresEdits | backend/src/core/connectors/probes.py:154-164 | Why edits are excluded: a correction writes its transport over whatever the card holds by then |
| Probes.Store.RecordHealthStatement | backend/src/core/connectors/probes.py:95-151 | The upsert: inserts, bumps from the row as it is now, or yields when the guard does not match; a missing card is a foreign key violation |
| Probes.Store.CorrectTransportStatement | backend/src/core/connectors/probes.py:154-164 | The update of one card's transport under the CHECKs, nothing else touched |
| Probes.Store.SaveToolsStatement | backend/src/core/connectors/probes.py:50-92 | A failed fetch keeps the old list and its time and replaces the error |
| Probes.Store.ReadToolsCache | backend/src/core/connectors/probes.py:63-74 | After any saves: the list and time of the last one that brought a list (none exactly if none did), and the error of the last save |
| ToolsHistory.ToolsCacheIsTheHistory | backend/src/api/connectors/router.py:270-307 | In every reachable state, with refreshes interleaved, rolled back, and cards created and deleted: a card's cached row holds the list and time of its last committed save that brought a list and the error of its last one; no row only if nothing was saved |
| ToolsHistory.StepKeepsTools | backend/src/core/connectors/probes.py:50-60 | Every event of every actor keeps each cached row the summary of the committed saves of its card |
| Probes.ToolsCacheIsTheLastSuccess | backend/src/core/connectors/probes.py:50-60 | After any sequence of saves of one card: the list and time of the last success, the error of the last save |
| Probes.TrailingFailuresIsTheRun | backend/src/core/connectors/probes.py:131-136 | The count is the length of the longest run of failures at the end of the history |
| Probes.SummaryAppend | backend/src/core/connectors/probes.py:127-151 | Recording a check takes the summary of a history to the summary of the longer one |
| Probes.FailuresZeroIffNotUnhealthy | backend/src/core/connectors/probes.py:127-151 | The count is zero exactly when the status is not unhealthy |
| AdvisoryLock.SingleSweep | backend/src/worker/main.py:39-60 | In every run with failed tries, exceptions, cut connections, failed unlocks and crashes: at most one process with a live lock connection is inside run_tick, and the lock is free exactly when there is none and no failed unlock left it with a session |
| AdvisoryLock.FreeLockIsTaken | backend/src/worker/main.py:48-55 | Who tries on a live connection gets in exactly when no process holds the lock and no failed unlock left it with another session |
| AdvisoryLock.StuckUntilClosed | backend/src/worker/main.py:56-60 | A lock left by a failed unlock stays with its session until that session ends |
| AdvisoryLock.AFailedUnlockShutsOut | backend/src/worker/main.py:56-60 | A run in which nobody sweeps and the next process is turned away |
| AdvisoryLock.OverlapNeedsACut | backend/src/worker/main.py:48-60 | In every reachable state: of two processes sweeping at once one lost its connection; and whenever one sweeps on a lost connection and the lock is free, any idle process that connects and tries sweeps beside it |
| AdvisoryLock.CutConnectionsOverlap | backend/src/worker/main.py:56-60 | A run in which that happens |
| AdvisoryLock.NoConnectionLeaks | backend/src/worker/main.py:48-60 | In every reachable state each session the database has is used by exactly one process or pooled by exactly one, whatever failed or crashed |
| AdvisoryLock.StepsOnSessions | backend/src/worker/main.py:48-60 | What each step does to the sessions, the lock counts and the process |
| AdvisoryLock.SessionsEnd | backend/src/worker/main.py:42-46 | With a broken connection, or all connections of a process that dies, go exactly their locks and their places in the pool |
| AdvisoryLock.ProcessesRunOnTheirOwn | backend/src/worker/main.py:39-60 | Only the outcome of a try depends on the other processes |
| McpClient.RunWithFallback | backend/src/core/mcp/client.py:263-312 | The attempt loop, handlers in source order, computes exactly Fallback: transports tried, time waited, outcome |
| McpClient.FallbackIsExact | backend/src/core/mcp/client.py:276-307 | Tries [requested] or [requested, other]; the second exactly when the requested one is supported, the guard let it through and the first failed before the handshake without a network, timeout or guard leaf; waits at most 2 * timeout |
| McpClient.OutcomeOfLastAttempt | backend/src/core/mcp/client.py:287-312 | The transport returned is the last one tried, and it answered; a failure is explained by the last attempt's leaves; a cancellation propagates exactly |
| McpClient.FailureOfLastAttempt | backend/src/core/mcp/client.py:287-312 | A failed run reports the last attempt's own code if it raised one, and else exactly the code of its leaves |
| McpClient.FallbackByCause | backend/src/core/mcp/client.py:263-312 | The run by what the endpoint does: too slow, refused and unsupported end it with their code after one attempt, an answer on the requested transport is returned, and the second attempt's answer or timeout decides after a decline; with the time waited |
| McpClient.NoSecondWaitForTheDead | backend/src/core/mcp/client.py:201-211 | One network, timeout or guard leaf anywhere in the tree means a single attempt, never reported as protocol_error |
| McpClient.LeafExceptions | backend/src/core/mcp/client.py:166-179 | The recursive flattening returns the leaves in order |
| McpClient.ClassificationDependsOnKinds | backend/src/core/mcp/client.py:214-230 | Only the set of leaf kinds matters, not the grouping, so `CodesAreExact` applies at any depth |
| McpClient.CodesAreExact | backend/src/core/mcp/client.py:214-230 | Which code is reported, by the kinds of the leaves: a guard refusal, else a timeout, else a network failure, else protocol_error, each if and only if |
| McpClient.KindsOfATree | backend/src/core/mcp/client.py:214-230 | Those kinds are the ones found anywhere in the nested groups |
| McpClient.ReorderingAGroup | backend/src/core/mcp/client.py:166-179 | Reordering or repeating members of a group changes no classification |
| McpClient.NestingAGroup | backend/src/core/mcp/client.py:166-179 | Regrouping part of a group changes nothing, at any depth |
| McpClient.WrongTransportIsProtocolError | backend/src/core/mcp/client.py:194-230 | _means_wrong_transport(e) holds exactly when classify_failure(e) is protocol_error |
| McpClient.CheckLiveness | backend/src/core/mcp/client.py:471-497 | A failed check is a value, not an exception |
| McpClient.LivenessIsConsistent | backend/src/core/mcp/client.py:471-497 | A result names a transport exactly when healthy and a reason exactly when not; the transport named answers, and is another than requested only if that one declined |
| McpClient.LivenessReason | backend/src/core/mcp/client.py:488-497 | The reason in a failed check is the code of the last attempt |
| CataloguePaging.PagingByRecencyUnderChange | backend/src/core/connectors/queries.py:112-165 | sort=recent, with any creates, edits, archivings and deletes between pages: nothing comes twice, and a card matching throughout comes exactly once |
| CataloguePaging.PagingByNameUnderChange | backend/src/core/connectors/queries.py:71-78 | sort=name: the same for each card not renamed during the walk |
| CataloguePaging.RecentIsSteady | backend/src/core/connectors/mutations.py:29-39 | No write transaction changes where a card sorts by recency |
| CataloguePaging.PagingAFixedCatalogue | backend/src/core/connectors/queries.py:124-165 | Following next_cursor until it is absent yields exactly the filtered, visible cards (`ListedByColumns`) in the order of the listing (`ListingByColumns`), in max(1, ceil(n / limit)) pages, for every limit, filter and sort; only a search text or tag with a NUL gets no page |
| CataloguePaging.FullListingIsExact | backend/src/core/connectors/queries.py:124-157 | The listing holds each matching card once and nothing else |
| CatalogueColumns.ListedByColumns | backend/src/core/connectors/visibility.py:17-25 | On the columns: a card is listed exactly if it is unarchived; global, the viewer's own, scoped to one of the viewer's teams or opened to one; matches the text by name or summary or has it, lowered, as a tag; and has every tag asked for |
| CatalogueColumns.AnonymousListing | backend/src/core/connectors/visibility.py:15-25 | Without a session: the unarchived cards that are global or whose creator is the empty text |
| CatalogueColumns.AnonymousSeesGlobal | backend/src/core/connectors/visibility.py:15-16 | Those are the global ones only, as promised, if and only if no other unarchived card has the empty creator |
| CatalogueColumns.ListingByColumns | backend/src/core/connectors/queries.py:69-74 | On the columns: recent lists newer cards first, equal times by descending id; name lists by code points, equal names by ascending id |
| CatalogueColumns.FirstPageByColumns | backend/src/core/connectors/queries.py:124-165 | The first page on the columns: the beginning of the listing, as many cards as the clamped limit, with a cursor made of the last one exactly if more are left |
| CatalogueColumns.PageByColumns | backend/src/core/connectors/queries.py:75-78 | A later page on the columns: the beginning of what is older than the cursor's time, or as old with a smaller id (a later name, or the same with a greater id); a null id drops the ties, a null name everything |
| CataloguePaging.BrowseIsWalk | backend/src/core/connectors/queries.py:146-165 | Paging through cursor strings is paging through sort keys, on catalogues that change between pages |
| CataloguePaging.StatsAgreeWithListing | backend/src/core/connectors/queries.py:222-236 | The stats total is the length of the unfiltered walk of the same viewer |
| CataloguePaging.TagCountsAgreeWithListing | backend/src/core/connectors/queries.py:202-219 | Each tag's count is the length of the walk filtered by that tag |
| CatalogueColumns.StatsByColumns | backend/src/core/connectors/queries.py:222-236 | The count by status is of the unarchived cards the viewer may see with that status, no health row being unknown; the total is their sum |
| CatalogueColumns.TagCountByColumns | backend/src/core/connectors/queries.py:202-219 | A tag counts the unarchived cards with it that the viewer may see |
| Keyset.FullWalkIsTheSortedListing | backend/src/core/connectors/queries.py:152-165 | On a fixed set the pages concatenate to the sorted listing |
| Keyset.FullWalkPageCount | backend/src/core/connectors/queries.py:159-165 | In max(1, ceil(n / limit)) pages, the last one empty only when there is nothing to list |
| Keyset.WalkMovesForward | backend/src/core/connectors/queries.py:75-78 | On sets that change between pages the rows are strictly increasing |
| Keyset.WalkMissesNothing | backend/src/core/connectors/queries.py:75-78 | A key present in every snapshot of a finished walk is returned |
| KeyOrder.SortedFacts | backend/src/core/connectors/queries.py:69-74 | ORDER BY with the id as tie break returns each row once, strictly increasing |
| Catalogue.DistinctCountMeansAll | backend/src/core/connectors/queries.py:137-145 | The distinct-count filter selects exactly the cards with all requested tags, duplicates in the request included |
| Catalogue.Store.ListConnectors | backend/src/core/connectors/queries.py:112-165 | One page: the limit clamped, one row too many read to learn of a next page; the cursor's error first, then that of the statement. What the page holds is said by `FirstPageByColumns` and `PageByColumns` |
| Catalogue.Store.FilterCards | backend/src/core/connectors/queries.py:125-145 | The WHERE clause grown filter by filter selects exactly the unarchived cards that the viewer may see and that match text and tags, stated on the columns |
| Catalogue.Store.CreateConnector | backend/src/core/connectors/mutations.py:77-102 | Card, tags and teams in one transaction, or nothing on a unique violation |
| Catalogue.Store.UpdateConnector | backend/src/core/connectors/mutations.py:105-117 | Replaces the editable columns and all child rows; creator and created_at stay |
| Catalogue.Store.DeleteConnector | backend/src/core/connectors/mutations.py:120-129 | Removes the card with its child rows and no other |
| CatalogueColumns.CreateByColumns | backend/src/core/connectors/mutations.py:77-102 | A new card has the columns given, exactly its own tags and teams and an unknown health; a repeated tag or team leaves everything as it was; no other row changes |
| CatalogueColumns.UpdateByColumns | backend/src/core/connectors/mutations.py:29-74 | An edit stores the body's columns; the old tags and teams are gone and the new ones are there; creator, time and archiving stay |
| CatalogueColumns.OtherWritesByColumns | backend/src/core/connectors/mutations.py:120-129 | A delete removes the card from every table and no other; archiving and a health record touch one column of one row |
| Cursor.CursorRoundTrip | backend/src/core/connectors/queries.py:85-109 | Decoding under the same sort gives back key and id; under the other sort it is refused |
| Cursor.Base64RoundTrip | backend/src/core/connectors/queries.py:91-96 | Stripping and restoring the padding and decoding gives back every byte string (base64url, sections 3.2, 4 and 5 of RFC 4648) |
| Cursor.PaddingRoundTrip | backend/src/core/connectors/queries.py:91-96 | -len % 4 restores exactly the stripped padding |
| Cursor.GroupsAreNumbers | backend/src/core/connectors/queries.py:91 | Four digits write the number of three bytes; one or two bytes are filled up with zero bits (section 4 of RFC 4648) |
| Cursor.DigitsRead | backend/src/core/connectors/queries.py:96 | The decoder reads the URL-safe alphabet and + and /, and nothing else (sections 4 and 5 of RFC 4648) |
| Cursor.DigitsDecode | backend/src/core/connectors/queries.py:96 | A cursor of digits alone decodes with its padding restored unless one digit is left over |
| Cursor.StrangersAreSkipped | backend/src/core/connectors/queries.py:96 | A character outside the alphabets changes nothing, wherever it stands |
| Cursor.LonePadIsSkipped | backend/src/core/connectors/queries.py:96 | A single = where two belong ends nothing if a digit follows |
| Cursor.CursorsAreInjective | backend/src/core/connectors/queries.py:85-91 | Two positions never share a cursor |
| Catalogue.AnswerOfACursor | backend/src/core/connectors/queries.py:94-157 | Over the whole listing request with a cursor: the exact condition of a page, of a 400 and of a 500, by what the cursor carries and the request's texts |
| Catalogue.AnswerWithoutACursor | backend/src/core/connectors/queries.py:125-157 | Without one: a page exactly if neither the search text nor a tag holds a NUL, a 500 otherwise |
| Catalogue.PageOfACursor | backend/src/core/connectors/queries.py:75-78 | The page served: what lies beyond the place, strictly beyond the value when the id is null, nothing when the name is null |
| Catalogue.AccentFails | backend/src/core/connectors/queries.py:95-100 | A cursor with a non-ASCII character anywhere ends in a 500 |
| Catalogue.LongNumberFails | backend/src/core/connectors/queries.py:97-100 | An ASCII cursor whose JSON is a number of 5000 digits ends in a 500 |
| Catalogue.MisplacedFails | backend/src/core/connectors/queries.py:146-157 | A well-formed cursor with an id that is no uuid, or a value that cannot be sent, ends in a 500 |
| Catalogue.NulFails | backend/src/core/connectors/queries.py:146-157 | So does one whose name is a NUL |
| Catalogue.OutOfRangeFails | backend/src/core/connectors/queries.py:104-106 | And one whose time is 14 hours outside the years 1 to 9999 in UTC, at either end |
| Catalogue.TimesThatServe | backend/src/core/connectors/queries.py:104-109 | To the microsecond: a cursor's time is served exactly from 0001-01-01 to before 10000-01-01 in UTC, and ends in a 500 outside |
| Catalogue.NulInTheSearchFails | backend/src/core/connectors/queries.py:128-145 | A NUL in the search text or in a tag ends in a 500 |
| Catalogue.NullIdServes | backend/src/core/connectors/queries.py:75-78 | A null id is served: what is strictly beyond the value, ties left out |
| Catalogue.NullNameServesNothing | backend/src/core/connectors/queries.py:75-78 | A null name is served with an empty page |
| Catalogue.NullTimeIsRefused | backend/src/core/connectors/queries.py:104-108 | A null time is answered with 400 |
| Catalogue.ReadCursor | backend/src/core/connectors/queries.py:146-150 | No cursor, a refused one, one the statement cannot be run with, or what the comparison lets through, NULL included |
| Introspection.RevocationBound | backend/src/core/site_auth.py:163-192 | A session revoked for good at r is returned by no call whose clock reading is r + introspect_cache_sec or later, however calls for the token interleave |
| Introspection.RevocationBoundIsTight | backend/src/core/site_auth.py:163-192 | No smaller bound holds |
| Introspection.AnswersGoBackIffRepliesDo | backend/src/core/site_auth.py:168-192 | In every interleaving some caller is told "active" after one was told "not active" exactly when an active reply came back after a not-active one |
| Introspection.OneAtATimeNeverGoesBack | backend/src/core/site_auth.py:168-192 | If no two requests for a token are under way together and the server does not revive the session, that never happens |
| Introspection.LateAnswersReplaceNewerOnes | backend/src/core/site_auth.py:191 | A run in which it does |
| Introspection.StepsOnCalls | backend/src/core/site_auth.py:168-192 | Each step: a hit exactly until the entry expires, a reply of either kind stored for a cache time from the call's start over whatever is there, and nothing from a failed call |
| Introspection.CallsRunOnTheirOwn | backend/src/core/site_auth.py:163-192 | Calls do not wait for each other |
| Jwks.TrafficBounds | backend/src/core/site_auth.py:97-127 | Forced refetch decisions are a cooldown apart, and after a successful fetch no unforced one starts for the cache time, for every stream of tokens and interleaving |
| Jwks.ForcedInSpan | backend/src/core/site_auth.py:123-127 | At most ceil(T / cooldown) forced refetch decisions in a half-open span of length T |
| Jwks.ForcedFetchesArePaid | backend/src/core/site_auth.py:109-127 | Never more forced fetches than forced refetch decisions |
| Jwks.UnknownKidIsRefetched | backend/src/core/site_auth.py:119-127 | With keys in hand, an unknown key id is refetched exactly if a cooldown has elapsed since the last forced decision, and the cooldown starts again; otherwise the lookup ends |
| Jwks.OtherSteps | backend/src/core/site_auth.py:97-107 | Without keys in hand: wait for the lock, fetch under it, store what arrived for a cache time, or leave |
| Jwks.SomeoneCanMove | backend/src/core/site_auth.py:97-107 | In every reachable state a free lock can be taken by anyone who waits, and whoever holds it is fetching and can end |
| SiteAuth.Client.BeginIntrospect | backend/src/core/site_auth.py:168-171 | The cache lookup answers exactly from an entry that has not expired, "not active" included |
| SiteAuth.Client.FinishIntrospect | backend/src/core/site_auth.py:180-192 | Stores the reply until a cache time after the call began, replacing what is there; other tokens' entries stay |
| SiteAuth.Client.FreshKeys | backend/src/core/site_auth.py:98-104 | An unforced check answers with the set fetched last, exactly until a cache time after it arrived; a forced one never |
| SiteAuth.Client.StoreKeys | backend/src/core/site_auth.py:105-107 | The fetched set becomes the latest, and serves unforced lookups until exactly a cache time from its arrival |
| SiteAuth.Client.DecideRefetch | backend/src/core/site_auth.py:119-127 | Hit, refusal within the cooldown, or a forced refetch that restarts it, in elapsed seconds |
| SiteAuth.ParseKeys | backend/src/core/site_auth.py:88-95 | Fails exactly if the document has no readable entries, an entry is no object, or one with a key id and an allowed algorithm cannot be built into a key |
| SiteAuth.OnlyAllowedKeys | backend/src/core/site_auth.py:88-95 | No key outside the allowed algorithms is held, and every usable key id is |
| SiteAuth.LastEntryIsHeld | backend/src/core/site_auth.py:88-95 | Of several usable entries with one key id the last is held |
| SiteAuth.VerifySignature | backend/src/core/site_auth.py:130-161 | Accepts exactly with an allowed algorithm, a known key of that algorithm and the library's verdict under it; each refusal has its exact cause |
| Comments.EveryReplyUnderARoot | backend/src/api/connectors/social_router.py:87-103 | In every state reachable with checks, inserts, edits, soft deletes and card deletes interleaved, each reply's parent is a root on the same card |
| Comments.StepKeepsInv | backend/src/api/connectors/social_router.py:87-129 | Each step keeps that shape and keeps every pending request's checked parent a root of its card |
| CommentRows.CheckByRows | backend/src/api/connectors/social_router.py:87-99 | On the rows: which card and parent are let through (a live root of that card), which are refused, and with which error, each if and only if |
| CommentRows.InsertByRows | backend/src/api/connectors/social_router.py:101-125 | The whole row inserted and the notices sent; nothing else changes |
| CommentRows.EachInsertWasChecked | backend/src/api/connectors/social_router.py:87-103 | Over whole runs: each comment inserted is the one posted, and the parent of a reply was a live root of the card when the request was checked |
| CommentRows.StepsByRows | backend/src/core/connectors/social.py:165-187 | The other steps: an edit replaces a live comment's text, a delete marks it and empties it, reading stamps exactly the unread notices asked for |
| CommentRows.DropByRows | backend/src/core/connectors/mutations.py:120-129 | In a two-level state a deleted card takes its own comments and notices with it and no others |
| CommentRows.RequestsInterleaveFreely | backend/src/api/connectors/social_router.py:87-125 | Nothing keeps other requests out between a check and its insert |
| Threads.EveryLiveCommentOnce | backend/src/core/connectors/social.py:40-107 | Across the thread pages every live comment shows exactly once, a deleted root once while a reply lives, and nothing else |
| Threads.PagesMakeTheListing | backend/src/core/connectors/social.py:47-72 | The pages by limit and offset concatenate to the listing |
| CommentRows.RootsByRows | backend/src/core/connectors/social.py:40-65 | Roots come oldest first: those of the card that are live or have a live reply |
| CommentRows.RepliesByRows | backend/src/core/connectors/social.py:88-95 | The live replies of each root, oldest first |
| CommentRows.PageByRows | backend/src/core/connectors/social.py:56-71 | A page is the stretch of the listing from the offset, at most the limit long |
| Threads.DeletingHidesNoOther | backend/src/core/connectors/social.py:175-187 | Deleting one comment hides no other live one |
| Threads.CommentCountAgrees | backend/src/core/connectors/queries.py:60-64 | comment_count is the live roots plus the replies listed |
| Threads.NestedReplyIsLost | backend/src/api/connectors/social_router.py:97-101 | Why the check matters: a comment under a reply would show on no page |
| Threads.GroupingIsExact | backend/src/core/connectors/social.py:82-106 | One read of the replies of many parents, split by parent, is each parent's own replies in order |
| CommentStore.Store.ListComments | backend/src/core/connectors/social.py:47-107 | Returns the window of the full listing and the number of listed roots |
| CommentStore.GroupByParent | backend/src/core/connectors/social.py:103-105 | The dictionary loop leaves under each parent its replies in the order read |
| CommentStore.Store.PostComment | backend/src/api/connectors/social_router.py:78-134 | Ok exactly with an existing card and a parent, if any, that is a live root of it; nested_reply and card_not_found exactly, parent_not_found otherwise; the whole row inserted, or no change; the two-level shape is kept |
| CommentStore.Store.SoftDeleteStatement | backend/src/core/connectors/social.py:175-187 | Marks and empties one live comment, keeps its row and the shape |
| CommentStore.Store.EditStatement | backend/src/core/connectors/social.py:165-172 | Changes the text of a live comment only |
| CommentStore.EachToldOnce | backend/src/api/connectors/social_router.py:107-129 | A comment notifies the parent's author and the card's creator, each once, never its own author, nobody else |
| CommentStore.ReadStampsStay | backend/src/core/connectors/social.py:315-338 | Marking read reaches exactly the unread ones asked for, never restamps, and a second call changes nothing |
| CommentStore.Store.MarkReadStatement | backend/src/core/connectors/social.py:315-338 | Returns how many changed and leaves all else |
| RateLimit.SpanBound | backend/src/api/rate_limit.py:33-46 | For nondecreasing times, any half-open 60 s span admits at most 2 * limit - 1 requests per bucket and user |
| RateLimit.SpanBoundIsReached | backend/src/api/rate_limit.py:33-46 | For every limit some trace reaches it |
| RateLimit.OthersDoNotMatter | backend/src/api/rate_limit.py:29-45 | Requests of other users and buckets change no decision |
| RateLimit.RetryAfterIsEnough | backend/src/api/rate_limit.py:61-71 | Waiting the advertised Retry-After gets the next request admitted if none of that user came in between |
| RateLimit.RefusedUntilTheWindowEnds | backend/src/api/rate_limit.py:40-46 | The wait is exact: the next request is refused if and only if less than the time left has passed; the advertised delay is the least number of seconds above it |
| RateLimit.RetryAfterIsBounded | backend/src/api/rate_limit.py:70 | The advertised delay lies between 1 and 61 seconds |
| RateLimit.Limiter.CountHit | backend/src/api/rate_limit.py:33-46 | One hit over the nested counters, on their columns: counted in the current window, or refused with the time left and no change |
| RateLimit.Limiter.Guard | backend/src/api/rate_limit.py:61-71 | The route dependency: a limit of zero or less switches it off |

## Left out

- NobodyStarves: sweeps that crash, raise or fail to record a still eligible connector are not counted as clean; such a connector keeps its place in the batch in the code too.
- WriteBackConverges: excludes owner edits and a server that changes its behaviour; `CorrectionIgnoresEdits` shows why.
- EveryLiveCommentOnce: on a fixed state; the listing issues three queries and nothing is claimed across writes between them.
- PagingByNameUnderChange: names compare by code point; the database's collation is not modelled, only that it is a total order consistent with equality.
- AnswerOfACursor: JSON, ISO 8601 and uuid text are abstract. What the parser raises is arbitrary, except that it raises on long integers where `LongNumberFails` says so. A text with a lone surrogate counts as a value that is no text; a time without an offset is the one the driver makes of it, with the two infinities at the ends of the range. Failures of the database that have nothing to do with the request are not modelled.
- CreateConnector: texts are ones the database can hold; one with a NUL, which it refuses, is not modelled. So are a session's user id and teams.
- DeleteConnector and DropCard: cascades to stars and bookmarks are not modelled, since those tables are not.
- Integer width: consecutive_failures is a PostgreSQL INTEGER and would overflow after 2147483647 failures in a row.
- Cancellation of a tick, and loss of the acknowledgement of a commit that took place.
- The MCP SDK, httpx, DNS, the URL guard's address rules and cryptography: arbitrary outcomes or abstract predicates.
- The gate on outbound connections of the API process: it only delays attempts.
- Full-text search, trigram indexes and generated short ids: an opaque row predicate.
- Log-only text (describe_failure), response models, staleness flags on responses, and preview of tools, which stores nothing.
- Comment rows in listings carry ids only; author names, times and the hidden text of deleted comments are columns of the same rows.
- The permission checks of edit and delete (author or moderator) and updated_at: one branch and one column each.
- Stars, bookmarks, moderators, the notification inbox, get_connector and list_bookmarked: single reads or idempotent single-row writes.
- The page of a user's own connectors: it drops the cursor at the first page holding another person's card, so no completeness is claimed.
- The empty bucket dictionary the limiter creates on first use, which no decision depends on, and reset, which is for tests.
