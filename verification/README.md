# Memory import: a verified model

This project models the part of the memory system that brings conversations from
agent transcripts into the memory service, and proves what that import is relied
on for.

- **The session import engine.** Filtering, ordering and batching of entries;
  one pinned thread per session; deletion-marker suppression; the concurrent
  parent rewires; the append-only OpenCode path; counters and lifecycle events;
  the retry loop underneath. `ImportRun.dfy` says what one session's run is, as a
  function of the session and of the world it runs in; `Importer.dfy` and
  `RunAll.dfy` hold the importer as it is written, an object with counters and
  loops, and prove each method equal to that function; what the function promises is
  proved over logs, answers and stores, in terms that do not mention it. `Store.dfy`
  is the service the importer talks to and `Network.dfy` the network in between: a
  scripted sequence of fates says of every attempt whether it is delivered, lost before or
  after the server acted on it, or answered with something the server never said,
  and schedules give the order in which concurrent requests arrive and complete.
  Theorems about runs hold for every script and schedule; where a theorem needs
  the answers to be the server's own, it asks for an `Honest` network, which may
  still lose anything.
- **Identity encodings.** The length-prefixed serializer and its decoder, the
  domain-tagged keys, the set-valued split key, the evidence fingerprint, the
  legacy owner scope, and the owner-scoped external ids with hashed overflow.
- **Sanitizing and cutting.** The NUL strip over JSON trees whose keys may merge,
  the "fixed keys win" rule of the emitted metadata, and UTF-8-safe truncation
  (section 3 of RFC 3629).
- **The reconciliation tasks.** Starts, worker steps, panics and finishers as a
  transition system over all interleavings, and the objects, each with a view in
  that system, whose methods move the view by its steps.

Conventions. A `string` holds one character per UTF-8 byte. SHA-256 (section 6.2
of FIPS 180-4) and NFC (UAX #15) are function parameters; results that need more
of NFC than being a function say so (`Lawful`), and injectivity is stated up to a
collision of the hash. Memory ids are written as external ids, which the unique
index makes interchangeable. JSON is a tree whose objects are sorted maps.

Where the code and its own documentation part, the model follows the code:

- An upsert overwrites the content of the row it reuses and keeps everything else
  as first inserted (`app/src/app/thread.rs:2916-2931`), so convergence is about
  the last content written for an id and the data first inserted with it.
- "Retries do not create duplicates" (`agent-chat-import/README.md:388-389`) holds
  for OpenCode too, but there a resent batch is refused and the run fails
  (`Resend.ResentInsertIsRefused`); the run that completes leaves the same rows
  (`OpenCodeRetries.AppendOnlyRetriesConverge`).
- Retries may create parent links. An entry whose references all come in later
  batches is left unlinked by a run that goes through at once, and linked by the next
  one. When exactly the links come out the same is
  `LinkConvergence.LinksConvergeExactly`; `UnsettledLinksDiffer` shows the difference.
- The duplicate-only tail is commented as recording observations before any label
  or link is written (`agent-chat-import/src/common/importer.rs:2044-2045`). A
  session that cannot be recorded is labelled and linked all the same. The OpenCode
  adapter makes none; the plain source does when it is given the source name
  `opencode` (`agent-chat-import/src/cli.rs:635`). When exactly the promise is kept
  is `RecordFirst.RecordedFirstExactly`; an input that breaks it is
  `DuplicateOnly.LabelledUnrecorded`.
- An owner-scoped id whose suffix starts with `~` can coincide with the hashed
  form of another id (`ExternalId.MarkerSuffixAliases`); when exactly two ids
  coincide is `ExternalId.OwnerScopedInjective`.

## Model

| member | source | states |
|---|---|---|
| Convergence.RetriesConverge | agent-chat-import/src/common/importer.rs:2212-2297 | Any number of failed or partial runs over lossy networks, then one that completes: where a single run over any network completes too, the rows, owners, contents, thread order and labels are the same; parent links only went from empty to filled; imported + duplicate of the completing run is the number of importable entries |
| LinkConvergence.RetriesConvergeWholly | agent-chat-import/src/common/importer.rs:320-386 | And the whole stores are equal, parent links included, when every row is settled: linked when it is inserted, or of entries that refer to nothing the session brings in later |
| LinkConvergence.LinksConvergeExactly | agent-chat-import/src/common/importer.rs:320-386 | The links of a new row the session has one entry for come out the same after every history of failed runs if and only if it is settled |
| LinkConvergence.SettledLinksConverge | agent-chat-import/src/common/importer.rs:320-386 | Any two completed runs, retried or not, leave the same links in a settled row, new or old, of one entry or several |
| LinkConvergence.UnsettledLinksDiffer | app/src/app/thread.rs:2870-2990 | A new row that is not settled is left without links by a run that loses nothing, and has links after one more such run |
| LinkConvergence.RetriesLoseNoLink | agent-chat-import/src/common/importer.rs:320-386 | Of a row the session has one entry for, retries end with all the links of a run that loses nothing |
| LinkConvergence.LinksAreReferences | app/src/app/thread.rs:2870-2990 | After any failed runs and a completing one a row's links are those it had, or references of one entry for it, all of them in the session's thread |
| Links.BatchLinks | app/src/app/thread.rs:2870-2990 | A taken batch fills a row only with what its entries resolve to at that point, and a row whose turn has come is filled or answered with an update that will |
| Links.RewirePassLinks | agent-chat-import/src/common/importer.rs:320-386 | A rewire pass over a lossy network fills rows only as resolved, and one that lets the run go on did fill every row it had an update for |
| CleanRun.CompletionIsForAll | agent-chat-import/src/common/importer.rs:2212-2297 | If a run completes after some history of runs over lossy networks, a run that loses nothing completes after every history, with the same store but for parent links |
| CleanRun.RetriesReachCleanRun | agent-chat-import/src/common/importer.rs:2212-2297 | In particular, where a retried run completes, a single run from the same base that loses nothing does, with that store |
| CleanRun.FailuresAreNoObstacle | agent-chat-import/src/common/importer.rs:2212-2297 | And where a run from the base completes, so does, after any failed runs, the next that loses nothing |
| CleanRun.AcceptedEarlier | app/src/app/thread.rs:2373-3080 | A batch the server accepts anywhere on the session's path it also accepts at any earlier point it may be sent from |
| CleanRun.AcceptedLater | app/src/app/thread.rs:2373-3080 | And at any later point, as all the session sends is its user's |
| SessionRuns.RunProgress | agent-chat-import/src/common/importer.rs:1926-2113 | One run, whatever fails, leaves a store it met on the session's path on that path, and a run that completes takes it to the end |
| Path.ServeKeepsPath | app/src/app/thread.rs:2373-3080 | A batch taken by a store that is anywhere at or past the batch's start moves it to the batch's end or leaves it where it is |
| Path.AttemptsKeepPath | agent-chat-import/src/client.rs:883-914 | The same through any number of attempts, each applied or not |
| Path.Resend | app/src/app/thread.rs:2870-2990 | Inputs taken again after part of them got in end where taking them once ends |
| Convergence.EndIsUnique | agent-chat-import/src/common/importer.rs:2212-2297 | Two stores at the end of the path with all content and labels in are the same but for parent links |
| Convergence.CompletedCounts | agent-chat-import/src/common/importer.rs:459-464 | A completed run's imported + duplicate counts every importable entry once |
| SessionRuns.AmbiguousStops | agent-chat-import/src/client.rs:603-645 | With several threads on the channel no run can complete |
| Resend.ResentUpsertIsNoOp | agent-chat-import/README.md:385-389 | A taken upsert batch, sent again, changes nothing at all and reports every item as reused |
| Resend.ResentInsertIsRefused | app/src/app/thread.rs:2883-2890 | A taken insert-only batch, sent again, is refused as already existing and writes nothing |
| Refinement.StreamingRefinesVector | agent-chat-import/src/common/importer.rs:541-723 | For an ordered session under the default caps the streaming and the vector importer send the same requests, meet the same answers and count alike, in every world |
| Refinement.StreamSendsCuts | agent-chat-import/src/common/importer.rs:1926-2113 | The streaming loop sends exactly the chunks cut from where its builder stands, and counts the rest as filtered |
| Refinement.SortOfOrdered | agent-chat-import/src/common/importer.rs:2227-2234 | Sorting an ordered chunk again changes nothing |
| Ordering.SortOrders | agent-chat-import/src/common/importer.rs:2227-2234 | Sorting orders by the key and keeps elements of one key in their order |
| Ordering.FlushSendsInTurn | agent-chat-import/src/common/importer.rs:2212-2250 | A streamed chunk, read in any order, is sent whole in import order, and by time where that is the same |
| Ordering.VectorStreamsInTurn | agent-chat-import/src/common/importer.rs:541-723 | The vector import of any session, in any order, is the streaming import of the session put in that order |
| Refinement.ToSendIsPreparedImportable | agent-chat-import/src/common/importer.rs:412-417 | What a stream sends is its importable entries, namespaced, in order |
| Batching.SplitChunks | agent-chat-import/src/common/importer.rs:865-887 | The ranges are non-empty, contiguous, cover everything, fit the caps unless single, and no valid split has fewer |
| Batching.CutIsOptimal | agent-chat-import/src/common/importer.rs:1770-1823 | The same optimality for the builder's flush points under any caps |
| Batching.GreedyIsOptimal | agent-chat-import/src/common/importer.rs:865-887 | Any split closed only when the next entry does not fit is minimal |
| Batching.OverflowIsCut | agent-chat-import/src/common/importer.rs:1801-1808 | The builder overflows exactly where the splitter cuts |
| Batching.ChunkBuilder.WouldOverflow | agent-chat-import/src/common/importer.rs:1801-1808 | Overflow means non-empty and past the entry cap or the byte cap with the next record |
| Batching.ChunkBuilder.Push | agent-chat-import/src/common/importer.rs:1810-1814 | Appends the record and keeps the running byte count equal to the contents |
| Batching.ChunkBuilder.Take | agent-chat-import/src/common/importer.rs:1816-1823 | Hands the contents over and leaves a reusable empty builder |
| Protocol.StreamingProtocol | agent-chat-import/src/common/importer.rs:2236-2279 | Over any client: the first batch upserts the thread iff none is known and later ones name the thread last returned; every batch carries the session's identity; labels travel on the last batch only and, on success, do; the thread and its being new are what the first answer to name one said; suppressed iff the last answer says so; `imported` counts the rows answered as created and `duplicate` the others, over the log's acknowledged batches; a run neither failed nor suppressed counts every item once |
| Counters.GainsAreReported | agent-chat-import/src/common/importer.rs:320-354 | Where nothing is lost: `imported` is the number of rows the store gained, and the thread is reported as new, and announced to a sink, iff the store gained one |
| Counters.LogGains | agent-chat-import/src/common/importer.rs:2257-2297 | The rows and threads a store gains by delivered requests are those answered as created |
| Protocol.StreamingEvents | agent-chat-import/src/common/importer.rs:485-503 | A session attempts its creation iff no thread was known at the start and the first answer to name one says it is new, with that thread; its completion iff a thread id was obtained, with all that was counted, as a success iff there was no error so far |
| Protocol.FlushKeeps | agent-chat-import/src/common/importer.rs:2212-2297 | A flush extends the chain of requests by one and takes exactly its entries, or ends the run in order |
| Protocol.PreflightQuiet | agent-chat-import/src/common/importer.rs:155-216 | The preflight sends no batch and its duplicates and new entries add up to the entries |
| RunAll.SessionsInOrder | agent-chat-import/src/common/importer.rs:1290-1307 | The event stream of an import is the sessions' events, each what `StreamingEvents` says, in discovery order |
| RunAll.NotImported | agent-chat-import/src/common/importer.rs:1452-1530 | An input that is not imported sends, announces and counts nothing; only an unreadable one is an error, and only a skipped one is reported as suppressed |
| RunAll.RunAllSessions | agent-chat-import/src/common/importer.rs:1257-1308 | Each session runs in the world the ones before it left; results and events in order |
| RunAll.RunOne | agent-chat-import/src/common/importer.rs:1452-1530 | Unreadable and skipped inputs touch nothing; others are imported and completed |
| RunAll.CallLive | agent-chat-import/src/client.rs:883-914 | The live call's store and answer are those of its attempts, and it sleeps at most twice the cap per retry |
| Schedules.SchedulesDoNotMatter | agent-chat-import/src/common/importer.rs:320-386 | Two whole runs that lose nothing and differ only in how the concurrent updates arrive and complete end with the same store, counters, error, thread and events |
| Rewire.RewirePassConfluent | agent-chat-import/src/common/importer.rs:320-386 | The links and the count a loss-free rewire pass leaves, in closed form, for ready updates; `GenuineAnswer` makes them ready |
| Rewire.RewireConfluent | agent-chat-import/src/common/importer.rs:360-386 | Any two ways of getting every update through, in any order and with any resends, end in one store |
| Rewire.AttemptsLink | app/src/app/thread.rs:1536-1655 | The links depend only on which updates got through at all |
| Rewire.GenuineAnswer | app/src/app/thread.rs:2905-2990 | A taken batch is answered item by item in request order, created iff new, and the updates it leads to are for different rows with parents in the thread |
| Rewire.PairingSurvivesSort | agent-chat-import/src/common/importer.rs:2227-2234 | After zip, sort and unzip each answer still meets its own entry, and no entry is lost |
| History.RunEvolves | app/src/app/thread.rs:1536-1655 | The store a run leaves is what the server makes of the logged requests, each taken any number of times, and where nothing is lost each once, with the answers logged; no run removes anything, changes a filled parent list, or reorders a thread; an OpenCode run changes no existing content |
| Store.ServeEvolves | app/src/app/thread.rs:1536-1655 | No request does either |
| Store.InsertOnlyKeepsContent | app/src/app/thread.rs:2883-2890 | Without the upsert flag no existing content is written |
| Store.AddAllInThread | app/src/app/thread.rs:2870-2990 | A taken batch adds exactly its ids and leaves all of them in its thread |
| Service.TakenExactly | app/src/app/thread.rs:2373-3080 | A batch is taken iff it is well made, unmarked, and one thread fits it: the one the target means, of the identity's owner, in which every id is new or may be overwritten; it is answered as suppressed iff well made and marked; otherwise nothing changes |
| Service.OverwritesOwnOnly | app/src/app/thread.rs:2870-2990 | A row whose content a batch changes is its user's, in its thread, and named by an item with the upsert flag; links and threads stay |
| Service.TakenAppends | app/src/app/thread.rs:2870-2990 | A taken batch appends its new rows to its thread, in request order |
| Service.UpdateExactly | app/src/app/thread.rs:1536-1655 | An update is granted iff the row is parentless and in this thread alone; it links the parents that exist, attaches those, and changes nothing else about any row |
| Service.LabelsExactlyAdded | agent-chat-import/src/common/importer.rs:220-235 | Labels are added to an existing thread on top of its own, and change nothing else |
| Service.LabelsStick | agent-chat-import/src/common/importer.rs:220-235 | Where nothing is lost, labels acknowledged once, alone or with a batch, are on their thread when the run ends |
| Service.ServeKeepsConsistent | app/src/app/thread.rs:2373-3080 | Every request keeps threads and rows in agreement: a thread lists, once each, exactly the rows attached to it |
| Service.RunKeepsConsistent | app/src/app/thread.rs:2373-3080 | And so does every run over every network |
| Network.RpcEvolves | agent-chat-import/src/client.rs:883-914 | An RPC, however often resent, only moves the store forward |
| Network.RpcHonest | agent-chat-import/src/client.rs:883-914 | On an honest network a success is the server's answer to the last attempt |
| OpenCode.PreflightPartitions | agent-chat-import/src/common/importer.rs:155-216 | A preflight that succeeds splits the session, in order, into entries without a row and entries with one, each the user's and in the session's thread; it writes nothing |
| Lookups.LookupsTrust | agent-chat-import/src/common/importer.rs:71-146 | Over any client: the entries are looked up in order, and the preflight goes on exactly as long as an answer is nothing found or a whole one, about this very id, of the user's own row in the session's thread |
| Lookups.ParentsTrust | agent-chat-import/src/common/importer.rs:252-287 | The same for a duplicate's parents, in any thread: those that come back are the rows named that are in the session's; only another user's row is a collision |
| OpenCodeLinks.ParentLookupsFind | agent-chat-import/src/common/importer.rs:252-287 | Where nothing is lost and no parent is another user's, they are the references in the session's thread, in order, each once |
| OpenCodeLinks.KnownInOrder | agent-chat-import/src/common/importer.rs:252-287 | What references come to is never disturbed by further ones, so order is theirs |
| OpenCodeLinks.KnownOnce | agent-chat-import/src/common/importer.rs:252-287 | And no parent comes back twice |
| OpenCodeLinks.RewireOneLinks | agent-chat-import/src/common/importer.rs:288-309 | One duplicate's turn leaves its row with exactly those as parents, and every other row as it was |
| OpenCodeLinks.RewireDuplicatesLink | agent-chat-import/src/common/importer.rs:237-311 | And the whole pass every duplicate that may be filled |
| OpenCodeLinks.DuplicatesEndLinked | agent-chat-import/src/common/importer.rs:2033-2113 | A completed OpenCode run leaves what was imported before without parents, in the session's thread alone, linked to all of its references that are in the thread then |
| OpenCode.CollisionWritesNothing | agent-chat-import/src/common/importer.rs:71-146 | One entry whose row is another user's or outside the session's thread: the run fails having only read |
| OpenCode.RunAppends | agent-chat-import/src/common/importer.rs:1882-1908 | A batch carries inputs of importable entries whose ids had no row; an update only goes to a parentless row of the user in that one thread |
| OpenCodeRetries.AppendOnlyRetriesConverge | agent-chat-import/src/common/importer.rs:1882-1908 | Any failed OpenCode runs over lossy networks and a completing one leave the rows one completing run leaves, those that were there as they were and new ones with the session's data and content |
| OpenCodeRetries.RunInserts | app/src/app/thread.rs:2883-2890 | No OpenCode run, however it ends, touches the data or content of a row that was there, and every row it adds is one of its entries |
| OpenCodeRetries.CompletedHoldsAll | agent-chat-import/src/common/importer.rs:155-216 | One that completes leaves a row for every entry that is to be imported |
| OpenCode.InsertOnlyCreates | agent-chat-import/src/common/importer.rs:2236-2250 | A taken insert-only batch leaves nothing to rewire |
| RecordFirst.RecordedFirstExactly | agent-chat-import/src/common/importer.rs:2033-2072 | With nothing new to send and nothing lost, labels and links wait for a successful record iff, by session and store: it is recordable, or group writes are off, or the preflight refuses, or there is no duplicate, or there are no labels and the first duplicate whose parent lookups do not come out empty fails |
| RecordFirst.RecordedFirstAnyClient | agent-chat-import/src/common/importer.rs:2033-2072 | Over any client they wait if the session is recordable, group writes are off, or there are neither labels nor parents |
| RecordFirst.NamedSessionsWait | agent-chat-import/src/source/opencode.rs:1067-1107 | Sessions with an identity of known scope, as the OpenCode adapter makes them, always wait |
| RecordFirst.RewireDuplicatesExact | agent-chat-import/src/common/importer.rs:237-311 | The duplicates' pass sends an update iff the first duplicate whose lookups do not come out empty has a parent in the thread and none of another user |
| DuplicateOnly.DuplicateOnlyOrder | agent-chat-import/src/common/importer.rs:2033-2072 | Over any client: a recordable session's labels and links wait; of an unrecordable one's, none may be sent at all; with labels and a duplicate they do not wait |
| DuplicateOnly.LabelledUnrecorded | agent-chat-import/src/source/plain.rs:581-597 | A file of the plain source, imported under the source name of OpenCode a second time, is labelled without a record |
| Tail.RecordsExactly | agent-chat-import/src/common/importer.rs:731-756 | Over any client: a run records its observations at most once, for its own thread and identity; one that completes did iff it has a thread, a recordable identity and group writes, and its rewired count is the number of updates granted |
| Suppression.MarkedAddsNothing | app/src/app/thread.rs:2429-2475 | While a marker stands against a session's identity, no run of it over any network adds a row or a thread or changes data or content |
| Sending.NamespacedAs | agent-chat-import/src/common/importer.rs:1170-1184 | An id in the source's own spelling or its underscored one gets the owner put in between, any other the source's name and the owner in front, hashed behind that prefix where it does not fit |
| Sending.ReferencesFollow | agent-chat-import/src/common/importer.rs:1170-1184 | What is sent for an entry refers to what is sent for the entries it referred to, and has the media object registered for its id |
| Sending.SendsFromCutOff | agent-chat-import/src/common/importer.rs:412-417 | What is sent are the entries from the cut-off on, and nothing before it |
| Sending.LabelsExactly | agent-chat-import/src/common/importer.rs:889-903 | A session's labels are the adapter's, then the user's that are not among them, each of those once, without NULs or empty ones |
| Importer.SessionImport.RunImportStreaming | agent-chat-import/src/common/importer.rs:1858-2113 | The streaming import on a fresh session computes `RunStreaming` |
| Importer.SessionImport.Stream | agent-chat-import/src/common/importer.rs:1926-2031 | The loop over the stream, with its builder, computes `StreamFrom` |
| Importer.SessionImport.Finish | agent-chat-import/src/common/importer.rs:2033-2113 | The tail: last chunk or duplicates alone, then record, labels, links |
| Importer.SessionImport.RunImport | agent-chat-import/src/common/importer.rs:542-723 | The vector import computes `RunVector` |
| Importer.SessionImport.SendAllChunks | agent-chat-import/src/common/importer.rs:634-718 | The loop over the chunks stops at the first failure or suppression |
| Importer.SessionImport.FlushChunk | agent-chat-import/src/common/importer.rs:2212-2297 | Sends the pending chunk sorted, empties the builder, and deals with the answer |
| Importer.SessionImport.Receive | agent-chat-import/src/common/importer.rs:2257-2297 | Suppression, missing thread id, announcement of a new thread the run had not known, outcome count and rewires in this order, as `Receive`, of which `Protocol.StreamingProtocol` says what they report |
| Importer.SessionImport.RunRewirePass | agent-chat-import/src/common/importer.rs:320-386 | Counts, sends the updates as scheduled, reads completions up to the first failure |
| Importer.SessionImport.CountOutcomes | agent-chat-import/src/common/importer.rs:327-354 | Created outcomes are imported, others duplicates, as `CountOutcomes`, counted over the answers by `Protocol.StreamingProtocol`; one update per reused row with empty, resolved parents |
| Importer.SessionImport.SendJobs | agent-chat-import/src/common/importer.rs:356-366 | Every update is sent, in the given order of arrival |
| Importer.SessionImport.ReadCompletions | agent-chat-import/src/common/importer.rs:368-384 | Granted updates are counted up to the first failed completion |
| Importer.SessionImport.FinalizeObservations | agent-chat-import/src/common/importer.rs:731-756 | Records only for a recordable identity, writes enabled, no error, a known thread |
| Importer.SessionImport.LookupOpenCodeMemories | agent-chat-import/src/common/importer.rs:71-146 | Looks every entry up until one cannot be trusted |
| Importer.SessionImport.PreflightDuplicates | agent-chat-import/src/common/importer.rs:155-216 | Drains the stream, finds the thread by snapshot or lookup, and looks every entry up |
| Importer.SessionImport.RewireDuplicates | agent-chat-import/src/common/importer.rs:237-311 | Links one duplicate after the other until one fails |
| Importer.SessionImport.RewireDuplicate | agent-chat-import/src/common/importer.rs:244-309 | Skips shared rows, rows with parents and entries without |
| Importer.SessionImport.LookupParents | agent-chat-import/src/common/importer.rs:252-287 | The lookups' list or first error, as `ParentLookups`, of which `OpenCodeLinks.ParentLookupsFind` and `Lookups.ParentsTrust` say which it is |
| Importer.SessionImport.ApplyLabels | agent-chat-import/src/common/importer.rs:220-235 | Sends the labels iff there are any |
| Importer.SessionImport.EmitSessionCompletion | agent-chat-import/src/common/importer.rs:485-503 | Announces completion when there is a sink, a key and a thread; a refusal becomes the session's error |
| ThreadLookup.FindThreadByChannel | agent-chat-import/src/client.rs:603-645 | On a readable list: no match none, one match it, several the ambiguity error |
| ThreadLookup.FindThreadChannels | agent-chat-import/src/client.rs:647-701 | The snapshot holds (channel, id) iff the channel has exactly the one thread, for every list it succeeds on |
| ThreadLookup.ResolveTargetThread | agent-chat-import/src/common/importer.rs:181-193 | Snapshot or fallback is the direct lookup, always |
| Retry.RetryStatus | agent-chat-import/src/client.rs:883-914 | At most max(1, attempts) calls, only retryable failures retried; the backoff of each retry is slept, in all at most twice the cap per retry |
| Retry.AlwaysFailing | agent-chat-import/src/client.rs:836-853 | A call that always fails is made until the attempts are used up if the failure is a transient one, and once otherwise |
| Retry.SleepsDouble | agent-chat-import/src/client.rs:855-877 | The sleeps of a call are never shorter than delays that double from the base to the cap, and without jitter just these |
| Retry.BackoffSpreads | agent-chat-import/src/client.rs:855-877 | What jitter adds is the clock's share of the ratio's share of the delay, rounded down |
| Retry.RawDelayIsExact | agent-chat-import/src/client.rs:855-877 | With 64-bit saturation the delay is exactly min(base times 2^min(n-1,30), cap) |
| Retry.RawDelayMonotone | agent-chat-import/src/client.rs:855-877 | And it never decreases with the attempt |
| Retry.Backoff | agent-chat-import/src/client.rs:855-877 | The jittered delay lies between the plain delay and twice the cap |
| CanonicalKey.CanonicalSerializeV2 | common/src/thread_group_key.rs:44-58 | The loop's output decodes to exactly the normalized fields |
| CanonicalKey.SerializeDecodes | common/src/thread_group_key.rs:44-58 | Decoding the serialization of any list recovers the list, absent apart from empty |
| CanonicalKey.SerializeInjective | common/src/thread_group_key.rs:44-58 | Two lists serialize alike iff they agree field by field after normalization |
| CanonicalKey.HashInjective | common/src/thread_group_key.rs:176-178 | Equal hashes mean equal normalized fields, or a collision |
| CanonicalKey.SourceKeyInjective | common/src/thread_group_key.rs:67-79 | Equal source keys name one identity, or a collision |
| CanonicalKey.SplitGroupCanonicalKey | common/src/thread_group_key.rs:85-96 | The key is the hash over the members sorted and each once |
| CanonicalKey.SplitKeyOfSet | common/src/thread_group_key.rs:85-96 | Member lists with the same set have the same key |
| CanonicalKey.SplitKeyInjective | common/src/thread_group_key.rs:85-96 | For normalized members the key determines group and set, or a collision |
| CanonicalKey.KeyDomainsDisjoint | common/src/thread_group_key.rs:67-96 | The source, root and split key functions never give the same key, or what they hash collides |
| CanonicalKey.EvidenceFingerprint | common/src/thread_group_key.rs:98-141 | The growing field vector is the evidence's layout, hashed |
| CanonicalKey.FingerprintInjective | common/src/thread_group_key.rs:98-141 | Equal fingerprints mean equal evidence in spite of the variable parent section, or a collision |
| CanonicalKey.LegacyOwnerScopeRoundTrip | common/src/thread_group_key.rs:145-154 | Parsing yields a user id iff the text is exactly its printed scope, over all of i64 |
| CanonicalKey.AlternateSpellingsRefused | common/src/thread_group_key.rs:149-154 | A plus sign or a leading zero parses as a number but not as a scope |
| CanonicalKey.NegativeZeroRefused | common/src/thread_group_key.rs:149-154 | Neither does a negative zero |
| ExternalId.OwnerScopedFits | common/src/external_id.rs:44-73 | A result fits the limit and starts with namespace and owner; an error iff neither form fits |
| ExternalId.OwnerScopedInjective | common/src/external_id.rs:44-73 | Two ids coincide iff the owner is the same and the suffixes are equal, or both overflow with one digest, or one fits and spells out the marker and the digest of the other |
| ExternalId.UnmarkedInjective | common/src/external_id.rs:44-73 | Where no suffix starts with the marker, iff owner and suffix coincide, or two overflowing forms collide |
| ExternalId.MarkerSuffixAliases | common/src/external_id.rs:44-73 | Every overflowing id has an alias whose suffix starts with the marker |
| ExternalId.PrefixNamesOwner | common/src/external_id.rs:44-73 | An id starts with an owner's prefix only if it is that owner's |
| ExternalId.ExpectUnreachable | agent-chat-import/src/common/importer.rs:1170-1184 | With a source of at most 425 bytes the `expect` cannot fire |
| ExternalId.ExpectReachableBeyond | agent-chat-import/src/common/importer.rs:1170-1184 | With 426 it can |
| JsonTree.StripNulBytesInValue | agent-chat-import/src/common/canonical.rs:943-978 | The rewrite of a tree is its strip, at every depth, of which the next rows say what is dropped and what is kept |
| JsonTree.StripTextDropsNul | agent-chat-import/src/common/canonical.rs:927-947 | A NUL between any two texts is dropped, and no more than it: the strip is that of the two joined, which clean texts are already |
| JsonTree.StripIsClean | agent-chat-import/src/common/canonical.rs:943-978 | No key or string of the result contains NUL, and its objects are maps |
| JsonTree.StripOfClean | agent-chat-import/src/common/canonical.rs:943-978 | A clean tree is left as it is |
| JsonTree.StripIdempotent | agent-chat-import/src/common/canonical.rs:943-978 | Stripping twice is stripping once |
| JsonTree.MergeWinner | agent-chat-import/src/common/canonical.rs:943-978 | Of keys that merge the last one's value survives, stripped |
| Canonical.BuildMemoryData | agent-chat-import/src/common/importer.rs:1074-1168 | The emitted row, for every session and entry, is `MemoryOf`, of which the next rows say what it keeps |
| Canonical.ContentKeepsTheRest | agent-chat-import/src/common/importer.rs:1074-1168 | The stored content is the entry's without its NULs and with all that stood between them; the other fields are the entry's and the user's own |
| Canonical.FixedKeysWin | agent-chat-import/src/common/importer.rs:1086-1147 | A reserved key holds the importer's stripped value or nothing, never a parser's, and every other key the last parser value for it |
| Canonical.ReservedKeysByName | agent-chat-import/src/common/importer.rs:1111-1143 | `source`, `kind` and `session` are the importer's; `tool` and `raw` appear iff the canonical layer has them, `attachment` iff present and unresolved |
| Canonical.MemoryIsNulFree | agent-chat-import/src/common/importer.rs:1074-1168 | Neither content nor metadata contains NUL |
| Labels.TruncateLabel | agent-chat-import/src/common/labels.rs:50-93 | Valid UTF-8 of at most 512 bytes; unchanged if it fits; empty iff both parts are, or it does not fit and prefix and marker leave no room; else the longest kept part, wasting at most three bytes |
| Labels.KeepTailBytes | agent-chat-import/src/common/labels.rs:95-113 | The longest suffix within budget that starts on a boundary |
| Labels.KeepHeadBytes | agent-chat-import/src/common/labels.rs:115-120 | The longest prefix within budget that ends on a boundary |
| Labels.SafeTruncateAtCharBoundary | agent-chat-import/src/common/canonical.rs:95-106 | The same, found by walking down from the budget |
| Labels.LongestPrefixWastesLittle | agent-chat-import/src/common/canonical.rs:95-106 | The longest such prefix of valid UTF-8 is valid and wastes at most three bytes |
| Labels.LongestSuffixWastesLittle | agent-chat-import/src/common/labels.rs:95-113 | And so is and does the longest suffix |
| Labels.CutAtBoundary | agent-chat-import/src/common/labels.rs:95-120 | Cutting valid UTF-8 at a boundary leaves two valid parts |
| Reconciler.RunKeepsInv | app/src/app/embedding_reconcile.rs:162-216 | After every interleaving: one task running at most; status, stamp and error agree; state counters are the items taken in each state; jobs, captions and failures together never exceed the items handled |
| Reconciler.StepKeepsInv | app/src/app/embedding_reconcile.rs:265-381 | Each single step keeps that |
| Reconciler.StartDuringRun | app/src/app/embedding_reconcile.rs:163-177 | A start during a run adds nothing and returns the running task's id |
| Reconciler.StartWhenIdle | app/src/app/embedding_reconcile.rs:178-216 | Otherwise exactly one running, untouched task is added |
| Reconciler.RunForward | app/src/app/embedding_reconcile.rs:196-215 | Between any two moments tasks only move forward: a finished one never changes, counters only grow, a stamp stays |
| Reconciler.PublishedOnce | app/src/app/embedding_reconcile.rs:196-215 | A task's end is published at most once, and it is over exactly when it was |
| Reconciler.EndedFinishes | app/src/app/embedding_reconcile.rs:196-215 | However a worker ended, its finisher can take both steps, and they end it as completed or failed with the stamp already set |
| Reconciler.FinisherAlone | app/src/app/embedding_reconcile.rs:196-215 | No other step changes a task whose worker has ended |
| Reconciler.DispatchesOnlyWanted | app/src/app/embedding_reconcile.rs:331-353 | Jobs of a kind never exceed the wanted targets of that kind |
| Reconciler.EndingsAreCounted | app/src/app/embedding_reconcile.rs:331-379 | After every interleaving, counted over its steps: dispatched jobs of a kind are the targets of it that were enqueued, failures the items of it that failed, captions those asked for |
| ReconcilerTask.AllDispatched | app/src/app/embedding_reconcile.rs:331-353 | A worker that is not stopped reports a job for every wanted target of a kind whose dispatch was enqueued |
| Reconciler.TurnsOutAsItEnded | app/src/app/embedding_reconcile.rs:196-215 | After every interleaving a task that is over completed iff its scan ended without an error, and else failed with that error, missing workers and panics included |
| Reconciler.PlainRunDispatches | infra/src/infra/embedding_index/classify.rs:30-36 | Without retries or force they never exceed missing, stale and unverified targets |
| Reconciler.ProgressOnlyAdvances | app/src/app/embedding_reconcile.rs:218-224 | Of two answers about one task the later has no smaller counter, and an answer that it is over is the last, given only with the stamp set |
| ReconcilerTask.RunIsSteps | app/src/app/embedding_reconcile.rs:265-300 | What a worker does to any reachable system is a run of begins, settlings and an end, and touches no other task |
| ReconcilerTask.Task.Run | app/src/app/embedding_reconcile.rs:265-300 | The paging loop takes the task's view through its items: item failures are counted and passed over, missing workers stop it, a scan failure ends it |
| ReconcilerTask.Task.HandleItem | app/src/app/embedding_reconcile.rs:276-297 | One item is one begin and one settling; only missing workers stop the run |
| ReconcilerTask.Task.Handle | app/src/app/embedding_reconcile.rs:331-379 | Counts the state first, dispatches only what is wanted, counts the job, caption or failure that came of it as `SettleProgress`, and reports how it ended |
| ReconcilerTask.Task.Bump | app/src/app/embedding_reconcile.rs:323-329 | Changes the one kind's counters and nothing else |
| ReconcilerTask.Task.Stamp | app/src/app/embedding_reconcile.rs:200-204 | The finisher's first step, status untouched |
| ReconcilerTask.Task.Publish | app/src/app/embedding_reconcile.rs:205-213 | Its second, only for a stamped task: completed, or failed with the worker's error |
| ReconcilerTask.EmbeddingReconciler.StartTask | app/src/app/embedding_reconcile.rs:163-216 | The map's view makes the system's start: the running task's id and no change, or one fresh task |
| ReconcilerTask.EmbeddingReconciler.Start | app/src/app/embedding_reconcile.rs:153-160 | Refused exactly during a rebuild or without a space; otherwise that start |
| ReconcilerTask.EmbeddingReconciler.Work | app/src/app/embedding_reconcile.rs:194-196 | The spawned worker changes its own task only, and leaves it ended with its error |
| ReconcilerTask.EmbeddingReconciler.Finish | app/src/app/embedding_reconcile.rs:197-213 | The spawned finisher makes the stamp step and then the publish step, both possible |

## Left out

- Transport: TLS, authentication headers, message encoding and upload streaming; an entry's encoded size is a function parameter.
- Media: upload, registration and the lookups before them; which entry has a media object is a parameter of the run.
- Source parsing, the command line, dry runs, the entry collector and its pruning, summary and personality dispatch.
- Source diagnostics (deferred, ignored and warning counts per reason), which are added to a result after the run.
- On the server: validation of kinds, metadata and labels, thread extrema, embedding dispatch, and the thread groups that a recorded observation feeds; recording is a request that succeeds and changes nothing that is modelled.
- Other writers: between the runs of `RetriesConverge` nobody else writes to the store.
- The thread snapshot is a map the run is given; a snapshot gone stale is such a map.
- `UpdateMemoryParents` requests reach the server whole: in `RewirePass` the retries of one update are not interleaved with another update, which `RewireConfluent` covers for the store.
- Thread ids of a looked-up row are a set, so a list naming one thread twice is not modelled.
- Byte totals and counters are unbounded; the 64-bit arithmetic of the backoff is modelled, with its jitter over the reals.
- `sort_by_key` is the standard library's stable sort, modelled by a function.
- Task identifiers are fresh by assumption, and the mutexes make each step of the transition system atomic; rebuild tasks, the scanner and the dispatchers appear only as the items and answers they give.
- On the server, of `add_memories_batch`: three refusals, of a source identity already mapped to another thread (`app/src/app/thread.rs:2515`, `2574`, `2598`), of a marker met while group writes are off (`2449`) and of a marker whose canonical key is not the target's (`2657-2666`); and the identity mapping, canonical key and relations the batch records and the revivable marker it consumes (`2670-2735`).
- CleanRun.AcceptedEarlier: says nothing of those three refusals, nor does `CleanRun.AcceptedLater`.
- Convergence.RetriesConverge: parent links are left out of the equality, because it fails for them (`LinkConvergence.UnsettledLinksDiffer`); what holds of them is in `LinkConvergence`.
- LinkConvergence.LinksConvergeExactly: is about new rows of one entry; for other rows being settled is shown to be enough, and not that it is needed.
- Counters.GainsAreReported: assumes that nothing is lost, because a batch whose answer is lost has its rows answered as reused when it is sent again; and for `imported` that no sink refused the creation.
- OpenCodeLinks.DuplicatesEndLinked: assumes that nothing is lost, that the session has one entry for the id, and that rows are in threads that exist, which `Service.RunKeepsConsistent` says of every store runs lead to.
- OpenCodeRetries.AppendOnlyRetriesConverge: compares ids, first data and content; of labels, links and thread order it is only known that they grow (`History.RunEvolves`).
- Rewire.RewirePassConfluent: assumes, as `Schedules.SchedulesDoNotMatter` does, that no request or answer is lost, because a failed update ends the pass with a count that depends on the order of completions.
- RecordFirst.RecordedFirstExactly: assumes that nothing is lost, because a lost lookup ends the tail before its first link; what holds over any client is `RecordFirst.RecordedFirstAnyClient`.
- Refinement.StreamingRefinesVector: a streaming run that stops early may have counted fewer filtered entries, as it filters while it sends.
- Canonical.ReservedKeysByName: the debug-only assertion about reserved keys is left out; this is the release behaviour.
