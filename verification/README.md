# mybot: a verified model of its hard cores

This project states and proves what seven parts of mybot promise: the keyword matcher of the moderation layer, the
at-least-once stream transport and the conversation lease, the versioned memory store, knowledge ingestion, weighted
model routing, plugin supervision and brokering, and the conversation key. Each `.dfy` file models one part; a class
stands for each source object that changes its fields, its methods are proved against functions on values, and the
theorems about whole runs are lemmas about those functions.

| file | subject |
|---|---|
| `text.dfy` | the string primitives the code relies on: white space, `strip`, `str` order, decimal numbers |
| `moderation.dfy` | the Aho-Corasick matcher: trie, failure links, merged outputs, linear scan |
| `streams.dfy` | the in-memory stream backend: log, consumer group, pending entries, dedupe markers, dead-letter replay |
| `stream_protocol.dfy` | any number of consumers over one stream, with crashes, ticks and replays: nothing is lost |
| `stream_service.dfy` | what is served: the newest entries are retained, batches are worked off, successes are remembered |
| `stream_attempts.dfy` | how often an entry's handler can start, for any number of consumers |
| `stream_successes.dfy` | how often a handler can succeed for one dedupe key, for any number of consumers |
| `stream_solo.dfy` | delivery bounds when one consumer works at a time |
| `stream_orphans.dfy` | a run in which two consumers exceed the configured attempts |
| `stream_consumer.dfy` | the consumer's own code, proved to be a run of the protocol |
| `leases.dfy` | the lease backend, the waiting loop and a timed system of workers |
| `lease_turns.dfy` | who gets a lease, who keeps it, and what `run` ends with |
| `memory.dfy` | the memory table and its operations |
| `memory_effects.dfy` | what each memory operation writes, row by row, and how long it lasts |
| `memory_links.dfy` | when the links between rows form version chains, and which inserts keep that |
| `memory_imports.dfy` | what a snapshot import does to the chains and to purged rows; restoring an export |
| `memory_chains.dfy` | version chains over any sequence of operations, imports included |
| `memory_counterexamples.dfy` | runs from the empty table that break a chain, cross a boundary or bring a forgotten row back |
| `connected.dfy` | the worklist search that recovers one version chain |
| `snapshot.dfy` | importing memories from a snapshot |
| `chunking.dfy` | the text splitter with overlap and soft boundaries |
| `chunk_counts.dfy` | how many parents a text can give, and texts that reach that number |
| `chunk_rows.dfy` | the chunk rows of one ingestion, their numbers, and when the table takes them |
| `ingestion.dfy` | documents, generations, claims and the outbox; one call of the ingestor |
| `ingestion_claims.dfy` | which claims are granted, and what each ingestion step writes |
| `ingestion_runs.dfy` | workers on one document over whole runs |
| `rotation.dfy` | how often a cursor that advances in fixed steps lands on each place of a ring |
| `routing.dfy` | channel selection, rotation, fairness and cooldowns |
| `routing_order.dfy` | what a request gets to try, in which order, and the shares over runs of requests |
| `model_router.dfy` | the router object: the candidate loops and the failover loop |
| `sliding_window.dfy` | queues of times trimmed from the front, shared by the next two |
| `supervisor.dfy` | the crash circuit breaker and restart backoff |
| `supervisor_starts.dfy` | when a process is started, told from the polls of a run |
| `broker.dfy` | the plugin registry, work queues and service quota |
| `broker_calls.dfy` | what the broker's calls do, and the delivery of work and results over runs |
| `conversation.dfy` | the conversation key: UTF-8, percent-encoding (section 2.1 of RFC 3986) and the tagged join |

Things the code takes from outside are parameters: the clock, fresh ids, Unicode case folding, the embedding service,
model calls, process exits and spawn results. Times are integers or reals; identifiers are strings or naturals. A SQL
statement or transaction is one atomic step on a table.

## What the code does that one might not expect

These are facts of the code, each with a lemma.

- `ModelRouting.ExactShare`, `ModelRouting.TwoPrioritiesStarve`: the cursor of a purpose moves once per priority
  level, not once per call. A channel leads its level exactly `weight` times per turn if and only if the greatest
  common divisor of the number of levels and the level's total weight divides its weight. Two equal channels with one
  fallback level behind them never share: the same one leads for ever.
- `StreamOrphans.TwoConsumersExceedAttempts`: with two consumers an entry can be started once more than
  `max_attempts`, because `delivery_count` is 0 for an entry another consumer has meanwhile acknowledged.
  `StreamAttempts.StartsBounded`: such starts are the only ones beyond the limit, in every run.
- `IngestionRuns.TwiceAfterFailure`, `IngestionRuns.ReadyEndsIff`: `fail_ingestion` checks the generation but not the
  status, so a late failure report turns a READY document into FAILED; after it the same generation can be claimed
  again within the lease and completed a second time. `IngestionRuns.ReadyLasts`: if every worker finishes within its
  lease, this cannot happen.
- `ChunkRows.NumbersFitIff`: `kb_chunk.chunk_index` is a 32-bit column and a child's number is 100,000 times its
  parent's index, so the rows of 21,476 or more parents are refused and the document becomes FAILED.
  `Ingestion.DenseTextIsNotAccepted` gives a text of `7159 * parent size + 42,949` letters and newlines that does
  this: 17,224,549 characters at the default parent size of 2,400, inside the default upload limit of 20,000,000
  bytes. `Ingestion.ShortTextsAreAccepted`: a text of length `L` with `3 * L + size + 3 < 21,476 * (size + 6)` never
  does; at the default size that is up to 17,222,950 characters.
- `ChunkRows.CollisionFreeIff`: chunk numbers collide as soon as a parent other than the last has more than 100,000
  children.
- `MemoryCounterexamples.NewerBackupForks`: a snapshot import can break the version chains. A row replaced since a
  copy of the table was made, exported from the newer table and imported into the copy, leaves both versions active
  there, with either form of export, because a taken id is skipped. `MemoryImports.ImportIff` and `FileIff` say
  exactly when an import keeps the chains; `MemoryImports.RestoreRoundTrip`: a full export imported into an empty
  table restores it if and only if no two rows share their content.
- `MemoryCounterexamples.ForgottenComesBack`: the import of a backup made before a row was revoked and purged brings
  the row back unrevoked; `MemoryImports.ReturnsIff` says exactly when an id comes back.
- `MemoryCounterexamples.UpsertCrossesPrivacy`: `upsert_relationship` does not compare privacy, so its link can cross
  that boundary; `MemoryChains.UpsertBoundary`: it stays inside if and only if the privacies agree.
- `MemoryCounterexamples.ForeignLinkForks`: a candidate that names another row than the one it replaces makes a row
  with two predecessors, one of them still active. `MemoryChains.StepInvIff`: exactly which candidates keep the
  chains.
- `CallOrder.NeverTriedFirst`: the same in runs of requests: one of the two is never called first.
- `Leases.LateRenewalOverlaps`: without timely renewal two workers do overlap.
- `Leases.LostBehindAnException`: a run that has lost its lease ends with `work()`'s own exception instead of
  `LeaseLostError` if `work()` raises one.
- `PluginSupervision.StoppedIff`, `PluginSupervision.StoppedRun`: the status reads the control record again, so a
  plugin enabled between the poll and the status write is reported as "stopped".
- `Broker.ForgottenIff`, `Broker.ForgottenWaits`, `Broker.ForgottenRun`: a runner that registers again leaves its
  queued invocations on the old state. They are handed out if and only if a poll that was already waiting on that
  state drains it, and otherwise forgotten: their callers wait on even if the runner leaves, while a runner that
  unregisters has what is queued on its present state failed.

## Model

| member | source | states |
|---|---|---|
| Moderation.Review | src/mybot/security/moderation.py:132-144 | for every keyword list and text the matches are exactly the non-empty folded keywords that occur in the folded text as contiguous pieces, sorted, each once |
| Moderation.AhoCorasickMatcher.constructor | src/mybot/security/moderation.py:86-116 | after construction the trie holds exactly the prefixes of the stripped, folded, non-empty terms, and every state has its final failure link and output |
| Moderation.AhoCorasickMatcher.AddTerm | src/mybot/security/moderation.py:94-104 | inserting one term adds exactly that term and keeps every node a prefix of some term |
| Moderation.AhoCorasickMatcher.LinkFailures | src/mybot/security/moderation.py:105-116 | the breadth-first phase leaves every state linked: when a state is linked all shorter states are already final |
| Moderation.AhoCorasickMatcher.LinkChildren | src/mybot/security/moderation.py:109-116 | popping one state links each of its children and queues them, and nothing else changes |
| Moderation.AhoCorasickMatcher.LinkTarget | src/mybot/security/moderation.py:112-116 | the child's link is the longest proper suffix in the trie and its output all terms that are suffixes of its word |
| Moderation.AhoCorasickMatcher.Follow | src/mybot/security/moderation.py:122-124 | following links and reading one character ends on the longest suffix in the trie, and each link followed is paid for by depth |
| Moderation.AhoCorasickMatcher.Find | src/mybot/security/moderation.py:118-126 | exactly the terms occurring in the folded text, sorted, with at most as many failure-link steps as characters |
| Moderation.FailureIsLongestProperSuffix | src/mybot/security/moderation.py:105-115 | a failure link spells the longest proper suffix of its state's word that is a prefix of some term |
| Moderation.NodesArePrefixes | src/mybot/security/moderation.py:86-104 | a word has a state if and only if it is empty or a prefix of a term |
| Moderation.MatchesAtLongestSuffix | src/mybot/security/moderation.py:116-125 | the output of the state on the longest suffix of the text read is every term ending there |
| Moderation.LongestSuffixStep | src/mybot/security/moderation.py:121-124 | to read one more character only the longest suffix so far matters |
| Moderation.SeenExactly | src/mybot/security/moderation.py:120-126 | the terms ending at some prefix of the text are exactly the terms occurring in it |
| Streams.MemoryStreamBackend.Add | src/mybot/infrastructure/streams.py:294-301 | the entry gets the next id and enters at the back; what is kept are the last maxlen of the old rows and the new one |
| Streams.MemoryStreamBackend.ReadNew | src/mybot/infrastructure/streams.py:307-324 | the group hands out the oldest unread rows, up to count, and records them as pending once |
| Streams.MemoryStreamBackend.ClaimStale | src/mybot/infrastructure/streams.py:326-346 | idle pending entries change hands with one more delivery, in id-string order up to count; entries whose row was trimmed are forgotten |
| Streams.MemoryStreamBackend.DeliveryCount | src/mybot/infrastructure/streams.py:348-351 | the deliveries of a pending entry, and 0 for one that is not pending |
| Streams.MemoryStreamBackend.Ack | src/mybot/infrastructure/streams.py:353-355 | exactly that entry stops being pending |
| Streams.MemoryStreamBackend.AcquireOnce | src/mybot/infrastructure/streams.py:357-363 | sets the marker if and only if it is not already set and unexpired |
| Streams.MemoryStreamBackend.HasOnce | src/mybot/infrastructure/streams.py:365-367 | whether the marker is set and unexpired |
| Streams.MemoryStreamBackend.ReplayDeadLetter | src/mybot/infrastructure/streams.py:383-406 | the dead letter's payload is added to the source stream, its row removed and its marker dropped, or nothing changes when the row is gone |
| Streams.DeliveredOldest | src/mybot/infrastructure/streams.py:307-324 | a read splits the unread rows: the oldest are delivered and exactly the others stay unread |
| Streams.ClaimGroup | src/mybot/infrastructure/streams.py:326-346 | in whatever order it visits, a claim hands over each entry at most once, with one more delivery, and forgets only entries without a row |
| Streams.ClaimVisits | src/mybot/infrastructure/streams.py:326-346 | a claim takes over or, if the row is gone, forgets every idle entry it visits, stops early only where the last of count entries is taken, and leaves all others as they were |
| Streams.EntryIdInjective | src/mybot/infrastructure/streams.py:294-301 | distinct sequence numbers have distinct entry ids |
| Streams.NewestAreKept | src/mybot/infrastructure/streams.py:299-300 | trimming to maxlen keeps exactly the newest maxlen rows |
| Streams.ReadsUpToCount | src/mybot/infrastructure/streams.py:307-324 | a read stops short of count only when nothing is left unread |
| Streams.ClaimInOrder | src/mybot/infrastructure/streams.py:326-346 | the entries taken over come in the order in which they were visited |
| Streams.MarkLasts | src/mybot/infrastructure/streams.py:357-367 | a marker that is set lives for exactly ttl; a live marker and other keys are left alone |
| StreamService.NewestAreRetained | src/mybot/infrastructure/streams.py:294-301 | over any run with trimming the newest m entries are in the stream as long as every add leaves room for m |
| StreamService.EntryServed | src/mybot/infrastructure/streams.py:155-255 | in any run a row leaves a consumer's hands acknowledged, unless its handler raised or the consumer crashed |
| StreamService.BatchIsServed | src/mybot/infrastructure/streams.py:137-172 | in an uncrashed run that ends idle each row once in a consumer's hands was acknowledged or its handler raised |
| StreamService.NewEntriesFollow | src/mybot/infrastructure/streams.py:137-153 | a consumer done with the entries it claimed is next handed the oldest new ones |
| StreamService.BuriedForAReason | src/mybot/infrastructure/streams.py:155-230 | over any run an entry is copied to the dead-letter stream only if its key cannot be made or it was delivered more than max_attempts times |
| StreamService.HandledIsMarked | src/mybot/infrastructure/streams.py:231-255 | once a handler has returned for an entry with a key, the key is marked, was marked and lost, or is about to be marked |
| StreamService.SuccessIsRemembered | src/mybot/infrastructure/streams.py:231-255 | after a success the marker keeps the key from being handled again for the whole ttl, unless an operator removes it |
| StreamProtocol.EveryEntryAccountedFor | src/mybot/infrastructure/streams.py:137-267 | in every reachable state each entry is exactly one of unread, pending, acknowledged or trimmed, and an acknowledged one was handled, skipped because its key had been handled, or had its payload copied to the dead-letter stream |
| StreamProtocol.NothingLost | src/mybot/infrastructure/streams.py:137-267 | while no row is trimmed, crashes, redeliveries and replays never lose a payload: an unread or pending entry or a stored dead letter still carries it, or it was handled |
| StreamProtocol.RunKeeps | src/mybot/infrastructure/streams.py:283-406 | the invariant behind both: kept by every step of every consumer, by crashes, ticks, publishing and replay |
| StreamSolo.AttemptsBounded | src/mybot/infrastructure/streams.py:155-172 | with one consumer at a time the handler starts for an entry at most max(1, max_attempts) times over any run with crashes |
| StreamSolo.SoloSuccessesBounded | src/mybot/infrastructure/streams.py:231-255 | with one consumer at a time it succeeds at most once per dedupe key, plus once for every time the key's marker was lost |
| StreamSuccesses.SuccessesBounded | src/mybot/infrastructure/streams.py:198-255 | in every run, with any number of consumers, a key's handler succeeds at most once, plus once for every time its marker was lost and once for every start made while another consumer's handler for the key was running or about to set the marker |
| StreamSuccesses.WhatVoids | src/mybot/infrastructure/streams.py:250-253 | a marker is lost only by expiry, operator replay, or a crash between success and the marker |
| StreamSolo.NoOrphans | src/mybot/infrastructure/streams.py:155-162 | with one consumer at a time no entry is checked after it has ceased to be pending |
| StreamAttempts.StartsBounded | src/mybot/infrastructure/streams.py:155-172 | in every run from the empty stream, with any number of consumers, the handler starts for an entry at most max(1, max_attempts) times, plus once for every start whose check read a delivery count of 0 |
| StreamOrphans.TwoConsumersExceedAttempts | src/mybot/infrastructure/streams.py:155-162 | from the empty stream, for every positive max_attempts and every min_idle, two consumers can start the handler once more than max_attempts |
| StreamConsumers.StreamConsumer.ProcessAvailable | src/mybot/infrastructure/streams.py:137-172 | one batch, with cancellation possible at every await, is a run of the protocol that ends idle; uncancelled, it claims, then reads new entries, and works off both batches to the end |
| StreamConsumers.StreamConsumer.Handle | src/mybot/infrastructure/streams.py:198-255 | handling one entry follows the protocol: dead-letter on a bad key, skip on a set marker, else the handler |
| StreamConsumers.StreamConsumer.Settle | src/mybot/infrastructure/streams.py:250-255 | after success the marker is set before the acknowledgement |
| StreamConsumers.StreamConsumer.DeadLetter | src/mybot/infrastructure/streams.py:257-267 | the payload is in the dead-letter stream before the entry is acknowledged |
| Leases.MemoryLeaseBackend.Acquire | src/mybot/infrastructure/leases.py:122-129 | succeeds if and only if no unexpired lease exists, and then sets token and expiry |
| Leases.MemoryLeaseBackend.Renew | src/mybot/infrastructure/leases.py:131-137 | succeeds if and only if the token still owns an unexpired lease, and changes nothing otherwise |
| Leases.MemoryLeaseBackend.Release | src/mybot/infrastructure/leases.py:139-145 | removes the lease if and only if the token owns it |
| Leases.LeaseManager.WaitForLease | src/mybot/infrastructure/leases.py:57-63 | while other workers change the table during its sleeps, the waiting loop ends with the lease taken from the table it last found, or gives up no earlier than the deadline and changes nothing |
| Leases.WorkNeverOverlaps | src/mybot/infrastructure/leases.py:56-107 | if each renewal, or the end of work, comes less than ttl after the last success, two work sections for one key never overlap in any run |
| Leases.LateRenewalOverlaps | src/mybot/infrastructure/leases.py:122-137 | without that, a waiting worker joins as soon as the lease has lapsed |
| Leases.ReplacedForever | src/mybot/infrastructure/leases.py:131-145 | in any run a token that lapsed and was replaced can never extend or delete its successor's lease |
| Leases.LostIsReported | src/mybot/infrastructure/leases.py:64-107 | once a renewal has failed, run ends with LeaseLostError if and only if work returned or was cancelled and the cleanup was not cancelled; otherwise with work's own exception or the cancellation |
| Leases.LostBehindAnException | src/mybot/infrastructure/leases.py:64-79 | a run from an empty table in which the lease is lost and run raises work's exception |
| Leases.ReturnedWhileHolding | src/mybot/infrastructure/leases.py:72-75 | in a timely run, a run that returned held its own unexpired lease when work ended |
| LeaseTurns.NobodyInsideMeansFree | src/mybot/infrastructure/leases.py:122-145 | over any run from nothing in which no failed acquire wrote and every release did, a worker that tries while nobody is inside work or about to release for its key gets in, for ttl |
| LeaseTurns.SomeoneInsideMeansTaken | src/mybot/infrastructure/leases.py:57-63 | in a timely run a worker that tries while another is inside work for its key writes nothing; it waits on, or ends with TimeoutError exactly when its deadline has passed |
| LeaseTurns.RenewedInTime | src/mybot/infrastructure/leases.py:131-137 | a renewal in a timely run succeeds and the lease lasts ttl from then on |
| LeaseTurns.KeptInTime | src/mybot/infrastructure/leases.py:89-107 | in a timely run a worker whose renewals do not raise never loses its lease |
| LeaseTurns.RunEndsAs | src/mybot/infrastructure/leases.py:64-87 | what run ends with, for every ending of work, with the lease lost or not, and with the cleanup cancelled or not |
| LeaseTurns.ReturnedIff | src/mybot/infrastructure/leases.py:56-87 | run returns if and only if it got in, work returned, the lease was not lost and the cleanup was not cancelled |
| MemoryStore.MemoryRepository.StoreItem | src/mybot/repositories/memory.py:97-112 | the item is inserted under its id with all its columns, or nothing changes when a key is violated |
| MemoryStore.MemoryRepository.ApplyMerge | src/mybot/repositories/memory.py:343-443 | add, update, delete and no-op as one table step, with the refused targets and the rolled-back errors; MemoryEffects says what each writes |
| MemoryStore.MemoryRepository.Latest | src/mybot/repositories/memory.py:654-674 | the newest active relationship row of a subject, ties by id, or none |
| MemoryStore.MemoryRepository.UpsertRelationship | src/mybot/repositories/memory.py:640-720 | the new version supersedes the latest one, which is invalidated by it |
| MemoryStore.MemoryRepository.RevokeFor | src/mybot/repositories/memory.py:541-577 | exactly the matching rows are revoked, and their number returned |
| MemoryStore.MemoryRepository.RunLifecycle | src/mybot/repositories/memory.py:854-907 | expire, fade, retire and purge, each on the whole table, in that order, with the numbers of rows expired, retired and purged |
| MemoryStore.MemoryRepository.RevokeMemory | src/mybot/repositories/operator_views.py:515-526 | one unrevoked row is revoked, or nothing changes |
| MemoryEffects.DeletedForGood | src/mybot/repositories/memory.py:404-443 | over any run, when a merge reports a DELETE its target is invalid from then on, without a successor, nothing else changed, and it is never active again unless an import brings its id back |
| MemoryEffects.MergeDeletes | src/mybot/repositories/memory.py:404-443 | DELETE writes invalid_at, and no successor, to its target and to no other row |
| MemoryEffects.MergeUpdates | src/mybot/repositories/memory.py:373-443 | UPDATE inserts the candidate under the drawn id, with the decision's content and its kind and confidence where it gives them, and closes the target with it; or a key refuses it and nothing is written |
| MemoryEffects.MergeAdds | src/mybot/repositories/memory.py:343-403 | ADD inserts the candidate under its own id, with the decision's content and its kind and confidence where it gives them, or is refused and writes nothing |
| MemoryEffects.MergeWithoutTarget | src/mybot/repositories/memory.py:343-372 | a target that is gone, inactive or across the boundary: nothing is written and NOOP is reported |
| MemoryEffects.MergeNothing | src/mybot/repositories/memory.py:380-443 | NOOP writes nothing, and says so |
| MemoryEffects.UpsertWrites | src/mybot/repositories/memory.py:640-720 | only a scored relationship of a subject is taken; it succeeds the newest active one, with its columns as given and no embedding |
| MemoryEffects.ForgetWrites | src/mybot/repositories/memory.py:541-577 | exactly the unrevoked rows about the subject or of the conversation are revoked, with time and reason |
| MemoryEffects.ForgottenForGood | src/mybot/repositories/memory.py:541-577 | over any run, what was there about a subject when it was forgotten stays revoked, unless an import brings it back |
| MemoryEffects.LifecycleWrites | src/mybot/repositories/memory.py:854-907 | rows expire, fade, retire and go exactly when they are due, with the new confidence and score, and nothing else changes |
| MemoryEffects.LifecycleCounts | src/mybot/repositories/memory.py:854-907 | the numbers reported are those of the rows due to expire, to retire and to go |
| MemoryEffects.ColumnsStay | src/mybot/repositories/memory.py:343-907 | over any run a row keeps its scope, subject, kind, content, sources, predecessors and times of validity |
| MemoryLinks.GrowthIff | src/mybot/repositories/memory.py:926-935 | whatever rows are added, the links still form chains if and only if each new row has at most one predecessor, names no row that was there, shares its predecessor with none, and agrees with its successor |
| MemoryLinks.AddIff | src/mybot/repositories/memory.py:97-112 | a new row that replaces none keeps the chains if and only if it has no successor and names at most one id, one without a row that nobody else names |
| MemoryLinks.SucceedIff | src/mybot/repositories/memory.py:373-403 | replacing an active row keeps the chains if and only if the new row names it and nothing else, and has no successor |
| MemoryChains.MergeStepIff | src/mybot/repositories/memory.py:343-443 | a merge keeps the chains if and only if a reported update's candidate names nothing but its target and a reported add's candidate is loose |
| MemoryChains.UpsertStepIff | src/mybot/repositories/memory.py:640-720 | an upsert keeps the chains if and only if its item names nothing but the version it replaces, or is loose when there is none |
| MemoryChains.StepInvIff | src/mybot/repositories/memory.py:343-443 | every step, imports included, keeps the whole invariant if and only if the links of what it inserts are honest in this sense |
| MemoryChains.RunKeeps | src/mybot/repositories/memory.py:343-443 | the invariant behind the chain theorems holds after every run of honest operations and imports, in any order, under a monotone clock |
| MemoryChains.VersionsFormChains | src/mybot/repositories/memory.py:343-443 | over any such run links form linear, acyclic chains: one predecessor, one successor, successors of a merge or upsert inserted later |
| MemoryChains.LinksAgree | src/mybot/repositories/memory.py:640-720 | a row's invalidated_by names b if and only if b exists and supersedes the row, and then the row is invalid |
| MemoryChains.LinksStayInside | src/mybot/repositories/memory.py:926-935 | every link stays in its scope, subject and conversation, and a merge's link also in its privacy |
| MemoryChains.UpsertBoundary | src/mybot/repositories/memory.py:640-720 | after any such run, an upsert's link stays inside the whole boundary if and only if the item has the privacy of the row it replaces |
| MemoryChains.OnlyNewestActive | src/mybot/repositories/memory.py:343-443 | a row that has been replaced is never active again, not even after its successor is purged, over any further operations and imports of any files, unless an import brings its id back |
| MemoryChains.RevokedForGood | src/mybot/repositories/memory.py:541-577 | over any operations and imports of any files a revoked row keeps its revocation or is gone, unless an import brings its id back |
| MemoryChains.RevokedIsNotReplaced | src/mybot/repositories/memory.py:343-443 | over any run no merge or upsert makes a successor for a revoked row, unless an import brings its id back |
| MemoryImports.ImportIff | src/mybot/snapshot.py:293-364 | an import keeps the chains if and only if every row it adds fits in among the rows that are there afterwards |
| MemoryImports.FileIff | src/mybot/snapshot.py:293-364 | the same condition read off the file and the table before: for each item inserted, its predecessor has no row, nobody else names it, and its kept link leads exactly to the row or item that names it, in the same place |
| MemoryImports.RestoreRoundTrip | src/mybot/snapshot.py:293-364 | importing the full export of a chained table into an empty one restores every row, links included, if and only if no two of its rows agree in all eight columns of their content |
| MemoryImports.ReturnsIff | src/mybot/snapshot.py:297-347 | an absent id has a row after an import if and only if the file holds it with content not present at its turn |
| MemoryImports.ReturnsAs | src/mybot/snapshot.py:323-345 | and the row has the revocation the file gives it, whatever was revoked before |
| MemoryImports.ImportFailsIff | src/mybot/snapshot.py:345-364 | an import is refused, and writes nothing, exactly when it would link a row that has no invalid_at |
| MemoryCounterexamples.NewerBackupForks | src/mybot/snapshot.py:345-364 | from the empty table: a default and a full export of a newer table, imported into an older copy, each leave a replaced version and its successor active |
| MemoryCounterexamples.ForgottenComesBack | src/mybot/snapshot.py:323-345 | from the empty table: stored, revoked, purged, and back unrevoked after importing a backup made before |
| MemoryCounterexamples.UpsertCrossesPrivacy | src/mybot/repositories/memory.py:640-720 | from the empty table: two upserts for one subject make a link between rows of different privacy |
| MemoryCounterexamples.ForeignLinkForks | src/mybot/repositories/memory.py:343-443 | from the empty table: a merge whose candidate names a row of its own yields a row with two predecessors, one of them still active |
| ConnectedMemories.ConnectedMemoryIds | src/mybot/repositories/operator_views.py:748-774 | the search ends with exactly the connected component of the start, rows or no rows |
| ConnectedMemories.AddRow | src/mybot/repositories/operator_views.py:750-764 | filling in one row keeps the adjacency map exactly the graph of the rows seen |
| ConnectedMemories.Search | src/mybot/repositories/operator_views.py:765-774 | the worklist reaches every connected id and no other |
| ConnectedMemories.ComponentIsVersionChain | src/mybot/repositories/operator_views.py:325-366 | given any of the rows of a reachable table, as after the boundary filter and the limit, the component is the ancestors and descendants of the start that links of listed rows lead to |
| Snapshots.DatabaseSnapshotRepository.MergeMemories | src/mybot/snapshot.py:293-364 | both loops as one transaction: the new table and the number inserted, or the old table |
| Snapshots.ImportIsIdempotent | src/mybot/snapshot.py:293-364 | after a successful import every item is present by content or by id, and a second import inserts nothing and changes nothing |
| Snapshots.ImportKeepsRows | src/mybot/snapshot.py:293-364 | no import alters or drops a row that was there |
| Snapshots.ImportedRow | src/mybot/snapshot.py:345-364 | with distinct ids an inserted row is its item, and its successor link survives if and only if the successor is in the table afterwards |
| Chunking.HierarchicalChunks | src/mybot/engine/knowledge.py:127-167 | for every text and every accepted size: the parents hold the text's non-space characters once and in order, are the packed paragraphs, each at most parent size, and each is cut into its children by windows that begin at max(start + 1, end - overlap) of the one before; empty if and only if the text is blank |
| Chunking.HardSplitLoop | src/mybot/engine/knowledge.py:170-189 | ends for every size and overlap, refuses exactly a size below 1 and an overlap below 0 or not below the size, and returns the pieces of the windows |
| Chunking.PiecesKeepInk | src/mybot/engine/knowledge.py:176-189 | without overlap the pieces hold every non-space character once and in order |
| Chunking.PiecesAreWindows | src/mybot/engine/knowledge.py:176-189 | with any overlap the pieces are the stripped non-blank contents of windows that start at the beginning, reach the end, are at most the size and each begin at max(start + 1, end - overlap) of the one before |
| Chunking.InkLiesInItsPiece | src/mybot/engine/knowledge.py:170-189 | each non-space character stands, by position, in a piece that is a slice of the text around it |
| Chunking.HardSplitFits | src/mybot/engine/knowledge.py:170-189 | the pieces of a non-blank text are non-empty and at most the size, and there are no more of them than characters |
| Chunking.WindowEndIsRight | src/mybot/engine/knowledge.py:176-182 | a window ends after the last newline or ideographic full stop past its middle, else at the size or the end of the text |
| Chunking.WindowsOverlap | src/mybot/engine/knowledge.py:188 | neighbouring windows share exactly overlap characters whenever the earlier one is longer than overlap |
| Chunking.OneWayToCut | src/mybot/engine/knowledge.py:176-188 | windows that begin at max(start + 1, end - overlap) of the one before, end at the right place and stop at the end of the text are determined |
| Chunking.HardSplitIsTheCut | src/mybot/engine/knowledge.py:170-189 | the pieces of a text are the stripped non-blank contents of those windows, however they are found |
| Chunking.ParagraphsHaveNoGap | src/mybot/engine/knowledge.py:134-137 | no paragraph contains a blank line: splitting happens at every one |
| Chunking.ParagraphsKeepInk | src/mybot/engine/knowledge.py:134-137 | splitting into paragraphs loses and reorders nothing but white space |
| Chunking.PackKeepsInk | src/mybot/engine/knowledge.py:138-148 | packing paragraphs into parents loses and duplicates nothing |
| Chunking.PackIsGreedy | src/mybot/engine/knowledge.py:138-149 | parents are the paragraphs in order, as many to a parent as fit, with blank lines between; only a paragraph alone that is too long is split |
| Chunking.UnixNewlinesOf | src/mybot/engine/knowledge.py:134 | "\r\n", "\r" and "\n" each become one "\n" and every other character stays |
| Chunking.UnixNewlinesConcat | src/mybot/engine/knowledge.py:134 | line ends are replaced piece by piece: cut a text anywhere except inside a "\r\n" and the parts can be done one by one |
| Chunking.TokensCover | src/mybot/engine/knowledge.py:192-193 | the token count is the smallest number of fours that cover the text, and at least one |
| Chunking.ParentIsGood | src/mybot/engine/knowledge.py:150-166 | a parent's children are numbered from 0, fit, and are its text cut by those windows |
| ChunkCounts.ParentsCount | src/mybot/engine/knowledge.py:134-148 | a text of length L gives n parents only if n * (size + 6) <= 3 * L + size + 3 |
| ChunkCounts.ParagraphsOfJoined | src/mybot/engine/knowledge.py:134-137 | splitting into paragraphs undoes joining them with blank lines |
| ChunkCounts.DenseTextParents | src/mybot/engine/knowledge.py:134-148 | texts that reach that bound up to one parent: 3 * pairs + 2 parents from pairs * (size + 6) + size + 1 characters |
| Ingestion.KnowledgeRepository.CreateDocument | src/mybot/repositories/knowledge.py:43-126 | a new document is stored and offered; a known one is found by content and offered again if queued or failed |
| Ingestion.KnowledgeRepository.FindKey | src/mybot/repositories/knowledge.py:76-97 | the document with this content key, or none if there is none |
| Ingestion.KnowledgeRepository.RequeueDocument | src/mybot/repositories/knowledge.py:238-266 | the next generation is queued and offered |
| Ingestion.KnowledgeRepository.ClaimIngestion | src/mybot/repositories/knowledge.py:268-320 | one claim on the table: the answer and what it writes; IngestionClaims says over runs which answer it is |
| Ingestion.KnowledgeRepository.CompleteIngestion | src/mybot/repositories/knowledge.py:322-427 | only a processing document of that generation gets its rows replaced and becomes READY; too few vectors, colliding or too large numbers, NUL characters or a refused vector roll everything back |
| Ingestion.KnowledgeRepository.FailIngestion | src/mybot/repositories/knowledge.py:429-443 | a document of that generation becomes FAILED, whatever its status |
| Ingestion.InsertRows | src/mybot/repositories/knowledge.py:353-409 | the nested loops with their running vector index insert exactly the specified rows, or run out of vectors |
| ChunkRows.ChildGetsItsVector | src/mybot/repositories/knowledge.py:378-409 | each child is stored with the embedding at its place in the flattened list of child texts |
| ChunkRows.RowsExactly | src/mybot/repositories/knowledge.py:353-409 | the rows are, in order, each parent's row and its children's, and no others, with every column its own, its parent's or its vector's |
| ChunkRows.CollisionFreeIff | src/mybot/repositories/knowledge.py:393-395 | stored chunk numbers are unique if and only if no parent but the last has more than 100,000 children |
| ChunkRows.NumbersFitIff | alembic/versions/20260728_0011_knowledge_base.py:115-139 | the numbers are unique and fit the 32-bit column if and only if, besides, the last child of the last parent has a number of at most 2,147,483,647 |
| ChunkRows.TooManyParents | alembic/versions/20260728_0011_knowledge_base.py:115 | the rows of 21,476 parents or more are refused |
| Ingestion.ShortTextsAreAccepted | src/mybot/settings.py:87-92 | with parents of at most 20,000 characters and a text short enough for that size, the completion is accepted if and only if text and model name hold no NUL and every vector is one the column takes |
| Ingestion.DenseTextIsNotAccepted | src/mybot/settings.py:87-92 | for every parent size a text of letters and newlines, less than one parent longer than short enough ones, whose completion is refused whatever the embedding service answers |
| Ingestion.ReadyChunksAreCurrent | src/mybot/repositories/knowledge.py:322-427 | for any interleaving of workers, expiries and requeues a READY document has a committed completion, and its chunks are that completion's rows and carry its generation |
| Ingestion.QueuedIsOffered | src/mybot/repositories/knowledge.py:98-125 | every QUEUED document has an outbox row for its generation |
| Ingestion.RequeueIsPending | src/mybot/repositories/knowledge.py:238-266 | a requeue always leaves an unpublished outbox row: none can exist for the new generation |
| Ingestion.OneDocumentPerContent | src/mybot/repositories/knowledge.py:47-97 | no two documents share content hash, scope and conversation, so the lookup has one answer |
| IngestionRuns.StaleForever | src/mybot/repositories/knowledge.py:231-443 | over any run, once a document is requeued or deleted no claim, completion or failure with the old generation ever changes anything |
| IngestionRuns.ReadyEndsIff | src/mybot/repositories/knowledge.py:429-443 | in any run, a READY document whose generation goes on becomes FAILED at exactly the failure reports for that generation |
| IngestionRuns.LeavesReady | src/mybot/repositories/knowledge.py:268-443 | over any run, within one generation only fail_ingestion ends READY |
| IngestionRuns.SecondCompletionNeedsFailure | src/mybot/repositories/knowledge.py:322-443 | over any run, between two committed completions of one generation fail_ingestion was called for it |
| IngestionRuns.BusyUntilEnded | src/mybot/repositories/knowledge.py:268-320 | over any run, a claimed document is BUSY for everyone until its lease ends, unless a completion, failure, requeue or deletion came first |
| IngestionRuns.SecondClaimNeedsFailure | src/mybot/repositories/knowledge.py:268-320 | two claims of one generation are granted within a lease only with fail_ingestion called between them |
| IngestionClaims.ClaimAnswers | src/mybot/repositories/knowledge.py:268-320 | at any moment of any run a claim answers ACQUIRED if and only if its generation is current and the document is QUEUED, or FAILED, or under a claim made longer ago than the lease; BUSY if and only if that claim is within the lease; TERMINAL otherwise |
| IngestionClaims.LapsedIsGranted | src/mybot/repositories/knowledge.py:282-285 | a document whose worker takes no further step is granted to the first claim after the lease, and refused to every one before |
| IngestionClaims.ClaimWrites | src/mybot/repositories/knowledge.py:286-320 | a granted claim marks the document PROCESSING since now; any other writes nothing |
| IngestionClaims.CompleteWrites | src/mybot/repositories/knowledge.py:322-427 | a completion of the current generation of a PROCESSING document stores text, model and exactly the rows and makes it READY; refused rows roll it back; elsewhere it does nothing |
| IngestionClaims.FailWrites | src/mybot/repositories/knowledge.py:429-443 | a failure report of the current generation makes the document FAILED, whatever it was; others do nothing |
| IngestionClaims.RequeueWrites | src/mybot/repositories/knowledge.py:238-266 | a requeued document is QUEUED under the next generation, with its chunks as they were |
| IngestionClaims.CreateWrites | src/mybot/repositories/knowledge.py:43-126 | known content stores nothing and is offered again if FAILED, or if QUEUED without an offer; a new document is stored without chunks and offered |
| IngestionClaims.PublishWrites | src/mybot/repositories/knowledge.py:152-184 | a publisher's report settles its own offer and no other, and a failed attempt never takes a published one back |
| IngestionClaims.PublishedStays | src/mybot/repositories/knowledge.py:98-184 | over any run, a published offer stays so until its document fails and is uploaded again, or is deleted |
| IngestionRuns.TwiceAfterFailure | src/mybot/repositories/knowledge.py:268-443 | a run from the empty tables with both: after a failure report the generation is claimed again at once and completed a second time |
| IngestionRuns.PunctualFailure | src/mybot/engine/knowledge.py:204-240 | if every worker finishes within its lease, a failure report finds the document still claimed by its own worker |
| IngestionRuns.ReadyLasts | src/mybot/engine/knowledge.py:204-240 | if every worker finishes within its lease, READY lasts as long as the generation |
| IngestionRuns.ReadyKeepsChunks | src/mybot/engine/knowledge.py:204-240 | and the chunks of a READY document do not change |
| IngestionRuns.CompletedOnce | src/mybot/engine/knowledge.py:204-240 | and each generation is completed at most once |
| Ingestion.Ingest | src/mybot/engine/knowledge.py:204-242 | one call against tables other workers may have changed meanwhile: which exception causes there are, exactly; success stores the chunks of this text with their vectors; a lost race changes nothing; an error fails exactly this generation |
| ModelRouters.ModelRouter.Candidates | src/mybot/infrastructure/model_routing.py:349-383 | exactly the eligible channels that are not cooling, better priorities first, within one priority in the order in which the moved cursor meets them going round the pool; the cursor moves once per level |
| ModelRouters.ModelRouter.Complete | src/mybot/infrastructure/model_routing.py:185-242 | channels are tried in that order, the first one first; all before the one that settles the outcome failed retryably and are cooled, and the outcome is its answer or error, or the last error; any other exception or cancellation escapes at once, with no attempt recorded and no cooldown for that channel |
| ModelRouters.ModelRouter.IsCooling | src/mybot/infrastructure/model_routing.py:142-143 | a channel is cooling if and only if its recorded expiry lies after now |
| ModelRouters.Rotate | src/mybot/infrastructure/model_routing.py:371-378 | the loop over one pool appends its channels in order of first appearance from the cursor on |
| ModelRouting.EligibleIff | src/mybot/infrastructure/model_routing.py:352-363 | which channels are candidates: enabled, for the purpose, and of the tier, falling back only as far as needed |
| ModelRouting.EachListedOnce | src/mybot/infrastructure/model_routing.py:364-378 | wherever the cursor stands each candidate is listed exactly once and nothing else |
| ModelRouting.BetterFirst | src/mybot/infrastructure/model_routing.py:365-378 | channels of a better priority come first |
| ModelRouting.LevelByName | src/mybot/infrastructure/model_routing.py:366-369 | the channels of one priority stand in the order of their names |
| ModelRouting.PoolCount | src/mybot/infrastructure/model_routing.py:370 | the pool holds each channel weight times |
| ModelRouting.LevelLeader | src/mybot/infrastructure/model_routing.py:373-378 | level i is led by the channel at place cursor + i of its pool |
| ModelRouting.ExactShare | src/mybot/infrastructure/model_routing.py:364-378 | over as many calls as the level's total weight a channel leads exactly weight times if and only if gcd(levels, total weight) divides its weight |
| ModelRouting.OnePriorityIsFair | src/mybot/infrastructure/model_routing.py:364-378 | with one priority the rotation is exactly fair for every channel and every starting cursor |
| ModelRouting.TwoPrioritiesStarve | src/mybot/infrastructure/model_routing.py:374 | two equal channels with a fallback level behind them: one of them never leads |
| ModelRouting.AvailableHolds | src/mybot/infrastructure/model_routing.py:379-383 | cooling channels are left out and all others kept |
| CallOrder.NotCoolingPicks | src/mybot/infrastructure/model_routing.py:379-383 | strictly increasing places lead what is returned into the order and hit exactly the channels that are not cooling |
| CallOrder.EligiblePicks | src/mybot/infrastructure/model_routing.py:352-363 | the candidates stand in the order of the configured list, each as often as there |
| CallOrder.ListedInOrder | src/mybot/infrastructure/model_routing.py:364-383 | of what is returned: better priorities come first, and of two channels of one priority the one that the cursor, moved on by the level's number, meets first going round the pool |
| CallOrder.SoonerIsStrict | src/mybot/infrastructure/model_routing.py:376-377 | no channel comes sooner than itself, so none is returned twice |
| CallOrder.PoolAt | src/mybot/infrastructure/model_routing.py:370 | the pool goes through the level in order and gives each channel a block of weight places |
| CallOrder.LevelIsStable | src/mybot/infrastructure/model_routing.py:366-369 | channels of one name keep the order of the list |
| CallOrder.CursorOnly | src/mybot/infrastructure/model_routing.py:371-372 | over any requests a purpose's cursor moves once per priority for each of its own requests, and not for others |
| CallOrder.FairOverRequests | src/mybot/infrastructure/model_routing.py:349-383 | in a run in which a purpose always has the same candidates, none cooling, and is asked for as often as the level's total weight, with any other requests in between, a channel is listed before its level exactly weight times if and only if gcd(levels, total weight) divides its weight |
| CallOrder.FirstTriedShare | src/mybot/infrastructure/model_routing.py:349-383 | the same for a channel of the best priority and being called before any other channel |
| CallOrder.NeverTriedFirst | src/mybot/infrastructure/model_routing.py:349-383 | with a fallback level behind them, one of two equal channels is never called first in any such run |
| ModelRouting.CooledExactly | src/mybot/infrastructure/model_routing.py:136-146 | a failed channel cools down for exactly the configured time from its last failure; other names and purposes are untouched |
| Rotation.HitsInOneTurn | src/mybot/infrastructure/model_routing.py:373-374 | in one turn a place is reached gcd(step, size) times or never, by its distance from the start |
| Rotation.ExactShareIff | src/mybot/infrastructure/model_routing.py:373-374 | a block of places gets exactly its size in hits if and only if gcd(step, size of the ring) divides it |
| PluginSupervision.PluginSupervisorService.Reconcile | src/mybot/plugins/supervisor.py:257-308 | one poll leaves exactly the discovered plugins, each advanced by the specified step |
| PluginSupervision.Supervise | src/mybot/plugins/supervisor.py:263-308 | reload, stop, crash recording, trimming loop, circuit and spawn decision for one plugin |
| PluginSupervision.CircuitExactly | src/mybot/plugins/supervisor.py:287-297 | over any run the crash queue is exactly the crashes since the last reset within the window of the latest, in order, and the circuit is open if and only if they have reached the limit |
| PluginSupervision.OpenUntilReset | src/mybot/plugins/supervisor.py:272-308 | once open nothing is spawned until a reload, a changed source or a rediscovery |
| PluginSupervision.NoSpawnBeforeBackoff | src/mybot/plugins/supervisor.py:296-308 | no spawn is tried before min(2^(n-1), 30) seconds after the latest of n windowed crashes |
| PluginSupervision.CrashIsNotRestartedAtOnce | src/mybot/plugins/supervisor.py:286-298 | the poll that sees a crash does not restart the process |
| PluginSupervision.StoppedIff | src/mybot/plugins/supervisor.py:351-375 | "stopped" is written exactly for a plugin disabled when polled and enabled when the status is written, with its circuit closed and its retry time passed |
| PluginSupervision.StoppedAfterBackoff | src/mybot/plugins/supervisor.py:351-375 | over any run, "stopped" also means fewer windowed crashes than the limit and the backoff of the latest one passed |
| PluginSupervision.StoppedRun | src/mybot/plugins/supervisor.py:351-375 | a run from the start that is reported "stopped": spawned, disabled at the second poll, enabled again before the status is written |
| PluginStarts.StartsIff | src/mybot/plugins/supervisor.py:263-308 | over any run a poll tries to start the process if and only if it finds the plugin enabled, keeps no process from before, fewer crashes than the limit lie in the window of the latest, and every wait since the last change is over: 1, 2, 4, 8, 16 or 30 seconds after a crash, one second after a failed start |
| PluginStarts.ProcessAfter | src/mybot/plugins/supervisor.py:263-308 | the process after a poll is the one just started, the one that keeps running, or none |
| PluginStarts.RestartedOnceDue | src/mybot/plugins/supervisor.py:286-308 | a crashed plugin with a closed circuit comes back at the first poll that finds it enabled once it has waited |
| PluginStarts.StateMirrors | src/mybot/plugins/supervisor.py:263-285 | a plugin is reset exactly when the poll before did not find it or found another source, stamp or generation |
| PluginStarts.HistoryMirrors | src/mybot/plugins/supervisor.py:286-291 | the crashes counted are those of the polls since then that found the plugin enabled and its process ended |
| SlidingWindow.TrimmedIsInWindow | src/mybot/plugins/supervisor.py:292-293 | on a sorted queue dropping from the front drops exactly what has left the window |
| SlidingWindow.TrimmedCatchesUp | src/mybot/plugins/broker.py:518-519 | a queue trimmed late holds what it would have held trimmed at every moment |
| Broker.PluginBroker.RegisterRunner | src/mybot/plugins/broker.py:205-298 | accepted if and only if the protocol is known and every manifest is well formed, asks for granted capabilities only and can have every service it needs; otherwise nothing changes, with 409 for the protocol, or 422, 403 or 409 for the first manifest's first fault |
| Broker.PluginBroker.UnregisterRunner | src/mybot/plugins/broker.py:300-312 | runner and tools go, and its queued waiting invocations fail |
| Broker.PluginBroker.InvokeTool | src/mybot/plugins/broker.py:323-343 | the invocation becomes pending and is queued for the tool's runner, or is refused |
| Broker.PluginBroker.FinishInvocation | src/mybot/plugins/broker.py:344-353 | the invocation is no longer pending, however its wait ended; queues are untouched |
| Broker.PluginBroker.BeginWork | src/mybot/plugins/broker.py:355-366 | a poll takes hold of the runner's present state before it waits, or the runner is unknown |
| Broker.PluginBroker.HandOut | src/mybot/plugins/broker.py:367-377 | after its waits the poll hands out, in order, everything queued on the state it took hold of |
| Broker.PluginBroker.Resolve | src/mybot/plugins/broker.py:384-389 | a result is taken if and only if the invocation is pending and unresolved |
| Broker.PluginBroker.ConsumeServiceQuota | src/mybot/plugins/broker.py:515-525 | the trimming loop and the decision of one call, on the queue of its plugin and service only |
| Broker.NeverNotConnected | src/mybot/plugins/broker.py:323-334 | after any calls every tool names a connected runner that holds its plugin, so the not-connected branch is unreachable |
| Broker.HandedAndResolvedOnce | src/mybot/plugins/broker.py:336-389 | over any calls with any polls in flight an invocation is handed out at most once and resolved at most once |
| Broker.UnregisterFailsTheQueued | src/mybot/plugins/broker.py:309-311 | a departing runner fails exactly the waiting invocations still in its queue, none of which was handed out |
| Broker.ForgottenIff | src/mybot/plugins/broker.py:274-377 | over any run, what is queued when a runner registers again or leaves is handed out later if and only if a poll in flight on the replaced state drains it |
| Broker.PollInFlightDelivers | src/mybot/plugins/broker.py:355-377 | such a poll does hand out what was queued there |
| Broker.ForgottenWaits | src/mybot/plugins/broker.py:274-312 | over any run, the caller of an invocation queued when its runner registers again keeps waiting until its wait ends or a result for it is posted, even if the runner leaves |
| Broker.ForgottenRun | src/mybot/plugins/broker.py:205-377 | a run from the start in which an invocation is forgotten: queued, its runner registers again, and the next poll is handed nothing |
| Broker.AcceptedIff | src/mybot/plugins/broker.py:515-525 | a call is accepted if and only if fewer than quota calls were accepted in the minute before it |
| Broker.QuotaHolds | src/mybot/plugins/broker.py:515-525 | under a clock that never goes back no half-open minute holds more than quota accepted calls |
| BrokerCalls.RegisterWrites | src/mybot/plugins/broker.py:274-298 | a registered runner has a new state with an empty queue, the last manifest given for each plugin and the tools listed; its former tools are gone and the others' stay unless listed |
| BrokerCalls.UnregisterWrites | src/mybot/plugins/broker.py:300-312 | a runner that leaves is gone with its tools, the waiting futures of what is queued for it fail, and nothing else changes |
| BrokerCalls.HandedIff | src/mybot/plugins/broker.py:323-377 | over any run an accepted invocation has been handed out if and only if a poll on the state it was queued in has drained since |
| BrokerCalls.HandedInOrder | src/mybot/plugins/broker.py:336-377 | what is accepted first for one runner state is handed out first |
| BrokerCalls.PollDelivers | src/mybot/plugins/broker.py:323-377 | what is accepted for a runner that neither registers again nor leaves, before its poll ends, has been handed out when that poll ends |
| BrokerCalls.PendingIff | src/mybot/plugins/broker.py:336-353 | an accepted invocation is pending until its caller's wait ends |
| BrokerCalls.WaitsUntilSettled | src/mybot/plugins/broker.py:300-389 | its caller waits on exactly until a result is posted or the runner leaves with it still queued |
| BrokerCalls.FirstSettlementCounts | src/mybot/plugins/broker.py:300-389 | and then gets what came first, whatever comes later |
| Conversations.StableKeyRoundTrip | src/mybot/contracts/conversation.py:18-28 | every key decodes to the conversation it was made from |
| Conversations.StableKeyIsInjective | src/mybot/contracts/conversation.py:18-28 | equal keys mean equal connection, kind, chat and thread, a missing thread included |
| Conversations.QuoteRoundTrip | src/mybot/contracts/conversation.py:22-24 | percent-encoding loses nothing and leaves no ':' |
| Conversations.SplitJoin | src/mybot/contracts/conversation.py:26-28 | parts without ':' are recovered from their join |
| Conversations.QuoteIs | src/mybot/contracts/conversation.py:20-28 | letters, digits and "_.-~" stay, and of every other character each UTF-8 byte becomes a percent sign and two upper-case digits |
| Conversations.Utf8Widths | src/mybot/contracts/conversation.py:20-28 | a character takes the shortest of the four forms, with continuation bytes from 0x80 to 0xBF |
| Conversations.StableKeyIs | src/mybot/contracts/conversation.py:18-28 | "v1", connection, kind, chat, and "0" or "1" and the thread, with colons between |

## Left out

- Redis and PostgreSQL clients, Lua scripts, SQL text and ORM plumbing: the in-memory backends and table-level steps stand for them.
- HTTP clients, model, embedding and moderation services, platform adapters, routes, CLI, telemetry and the web console.
- Unicode case folding and `str.upper` are function parameters; SHA-256 digests, UUIDs and tokens are given and never repeat.
- The JSON form of stream payloads, trace ids, queue-wait measurement, counters (`increment`) and the blocking wait of a read.
- StreamProtocol.NothingLost: assumes that neither stream is trimmed, because trimming drops rows by design; EveryEntryAccountedFor covers trimming.
- StreamSolo.AttemptsBounded: is about runs in which a batch starts only while the other consumers are idle; StreamAttempts.StartsBounded is about all runs.
- StreamOrphans.TwoConsumersExceedAttempts: the run is given for a payload without a dedupe key.
- StreamConsumers.StreamConsumer.ProcessAvailable: takes the dead-letter stream to be another stream than the source.
- Entry ids are sequence numbers; a dead letter is named by its number, so malformed ids given to a replay do not occur.
- Leases.WorkNeverOverlaps: a lease has a positive ttl and workers have distinct tokens; the renewal task's sleep is an arbitrary delay.
- Leases.LeaseManager.WaitForLease: takes a positive retry interval.
- MemoryChains.VersionsFormChains: is about runs whose candidates and imported files have their links in order, as StepInvIff states exactly; the callers build candidates without links.
- MemoryChains.RunKeeps: a candidate's id is taken or new, as `uuid4()` ids are; the ids in an imported file are arbitrary.
- MemoryImports.FileIff: is about files without repeated ids; ImportIff is about all.
- MemoryImports.RestoreRoundTrip: `last_accessed_at` is not part of an export.
- Memory search, similarity, audit rows and `last_accessed_at` updates; `created_at` is the time of the operation.
- Snapshot profiles, core blocks and skills; file reading and writing.
- Text extraction from PDF and Markdown, vector and trigram search, annotations; the ceiling in the token count is integer arithmetic.
- Ingestion.Ingest: the recorded error code is any string, whatever the exception's class; publishing tasks is a step of the protocol only.
- Ingestion.KnowledgeRepository.CompleteIngestion: which vectors the vector column takes is a parameter; connection failures and a commit whose outcome is unknown do not occur, and generations stay below the integer limit.
- IngestionRuns.ReadyLasts: a worker that reports a failure after its own completion was committed is outside its condition.
- ModelRouters.ModelRouter.Candidates: the channel list is given (its cache and configuration source are not modelled), and the cooldowns are read at one moment.
- ModelRouters.ModelRouter.Complete: recording an attempt and setting a cooldown always succeed.
- CallOrder.FairOverRequests: is about runs in which the purpose's candidates stay the same and none of them cools down; ListedInOrder is about every request.
- ModelRouting.ExactShare: is about a channel listed once; prices, token accounting and embeddings (the same failover loop) are not modelled.
- PluginSupervision.Stop: stopping always ends the process, because the code clears it after the kill timeout regardless.
- The supervisor's manifest inspection and its cache, and its status fields other than the state.
- Broker events, configuration updates, health, persistence of registrations and the service call itself; manifest fields other than those used.
- Lone surrogates, which percent-encoding rejects, cannot occur in the model's strings.
- Willingness scoring, guards, token budgets, pairing, approvals, personas and reply shaping are out of scope.
