# Verification of the diary's memory service

A Dafny model of the note-taking and question-answering core: how messages become notes and chunks,
how edits, deletes, retries and hard deletes change them, how questions are answered from them, and
which rows trace every answer. The proofs cover every input and every run, stopped after any row write of
an ingest, a delete, a retry or a question, for whatever the clock, the identifiers, the parser and the
providers return.

`dafny verify dfyconfig.toml` checks the whole project.

## How it is built

- **Store and services.** `MockDomainStore.Store` holds the store's dictionaries and its methods update
  them in place. `Diary` is their value and the single writes that change it; `Plans` says which writes
  each service operation performs, in which order, and what it returns. The methods of `DomainService`
  and `Reconciliation` are proved to perform exactly their plan; `Lifecycle`, `CrashSafety`, `Replay`,
  `Provenance`, `Isolation`, `Settling`, `CompletedRuns`, `RetryProgress`, `Stranding` and `Erasure` are about
  plans and runs of them; `Captures` and `Removal` say row by row what an operation stores and takes away.
- **Crashes.** A process may stop between any two row writes. Each row a `set_*`, `mark_*` or `save_*`
  call changes is one write (a source row with its idempotency entry). Stops inside the rows of a question
  are the subject of `TracePrefixes`; the runs of `TraceAccounting` are of calls that end. A hard delete is
  one step everywhere: no stop inside it is modelled.
- **Questions.** `Candidates`, `Fusion` and `FusionBounds` cover the two legs and their fusion;
  `Answering` and `ChatPlans` say how `/ask` and every `/chat` route answer and what they save, and
  `QueryService`, `RoutedChat` and `Dispatcher` are proved against them. `LegOrder`, `Outcomes`, `ChatRouting` and
  `Listings` say, in terms of vectors, texts and providers' words, what is found, answered and listed. `Legs`,
  `TraceAccounting`, `TracePrefixes`, `Contours`, `UncaughtErrors` and `Grounding` are about calls and runs, `Serving`
  about whole runs of the dispatcher with other processes and restarts between its messages.
- **Text and limits.** `NoteParser` and `NoteRoundTrip` cover note dates and bodies, `DraftsPacking` the
  message packer, `Resilience` the retry loop, `AnswerParsers` the validators of provider answers.

Identifiers drawn from `uuid4` are parameters assumed fresh; the clock, jitter, tokeniser, cosine
distance, embedding and chat outcomes, JSON decoding and `int()` are parameters without assumptions,
except where a statement names one. Scores, delays and times are exact reals or integers. Strings are
sequences of characters; `\d` is read as an ASCII digit, since the other digits it matches are rejected
by the date check that follows.

## Where the code and its documentation differ

- `parse_note` is documented as strict ISO, but `date.fromisoformat` accepts more forms in recent Python
  versions. They are a parameter (`IsoFallback`), and the results hold whatever it accepts.
- Replay is promised without conditions. It holds for every delivery that returned; one stopped between
  its first write and the last row its answer needs replays as a different answer, and
  `Replay.InterruptedReplay` says exactly when. One that raised over a wrong vector count, which is what
  makes the transport deliver again, is answered with success from then on (`Replay.RaisedReplays`) while
  its chunk stays Pending for good (`Stranding.RaisedLeavesPending`).
- Embedding agreement (a chunk with a record is Ready) holds for completed runs, and for interrupted ones
  under one model exactly when nothing was stopped right after a record (`Stranding.RunAgreesExactly`). An ingest stopped
  there leaves a Pending chunk, which no retry lists (`Stranding.IngestStrands`,
  `Stranding.PendingForEver`); a retry stopped there leaves a failed chunk, which fails its group in every
  later run with that model (`RetryProgress.CutRetryStrands`, `RetryProgress.RecordedNeverSucceeds`).
- An answer whose uncertainty marker is a JSON list or object raises a `TypeError` that nothing catches,
  on `/ask` and on every `/chat` route but the model-only one; the call then returns nothing and leaves no
  rows. `UncaughtErrors.AskRaisesWhen` and `UncaughtErrors.ChatRaisesWhen` say exactly when, and
  the three `TypeErrorExists` lemmas of `AnswerParsers` give payloads that do it.
- The packer never checks the header against the cap: every message fits exactly when the header does
  (`DraftsPacking.MessagesFit`). It drops an empty block met while no message is being filled; what it
  sends is a least cut of the blocks it keeps (`DraftsPacking.PackIsOptimal`).
- A `/note` redelivered under the key of a message first stored as a draft has no date to print, and its
  reply ends in a failed assertion (`Serving.NoteReplyFailsWhen`).
- `/sources` shows the chunks as they were when the `/ask` was answered: deleting or erasing a note later
  does not take it out of that reply until the next `/ask` or a restart (`Serving.SourcesShowLastAsk`).

## Model

| member | source | states |
|---|---|---|
| `MockDomainStore.Store.GetOrCreateSourceMessage` | src/memory_rag/storage/mock/store.py:113-120 | A delivery key already indexed returns its stored row and writes nothing; a new one stores exactly its row. |
| `MockDomainStore.Store.ListRecentDrafts` | src/memory_rag/storage/mock/store.py:152-163 | The community's drafts, newest first, cut at the limit; an empty community or a limit below one is an error. |
| `MockDomainStore.Store.GetNoteBySourceMessageId` | src/memory_rag/storage/mock/store.py:165-169 | The scan returns the first stored note of the source, or nothing. |
| `MockDomainStore.Store.GetActiveNoteForExternalMessage` | src/memory_rag/storage/mock/store.py:171-195 | The newest live note of the message in the community, as the declarative lookup finds it. |
| `MockDomainStore.Store.CountEventChunksForSource` | src/memory_rag/storage/mock/store.py:197-200 | The counting loop returns the number of stored chunks of the source. |
| `MockDomainStore.Store.GetActiveChunkForNote` | src/memory_rag/storage/mock/store.py:210-223 | The newest live chunk of the note in the community. |
| `MockDomainStore.Store.MarkNote` | src/memory_rag/storage/mock/store.py:327-333 | Changes one note's state and nothing else, or raises for an unknown note or another community's and changes nothing. |
| `MockDomainStore.Store.MarkChunk` | src/memory_rag/storage/mock/store.py:335-341 | The same for one chunk. |
| `MockDomainStore.Store.SaveEmbeddingRecord` | src/memory_rag/storage/mock/store.py:304-312 | Adds one record, or refuses a second record for a chunk and model and changes nothing. |
| `MockDomainStore.Store.SetChunkEmbeddingStatus` | src/memory_rag/storage/mock/store.py:321-325 | Changes one chunk's status and nothing else; an unknown chunk is an error. |
| `MockDomainStore.Store.ListFailedEventChunks` | src/memory_rag/storage/mock/store.py:408-423 | The community's failed chunks, oldest first, cut at the limit; a negative limit is an error. |
| `MockDomainStore.Store.DenseCandidates` | src/memory_rag/storage/mock/store.py:225-267 | The scan, sort and cut of the dense leg equal the leg's definition, and a vector of the wrong length met in the scan is an error. |
| `LegOrder.DenseLegIs` | src/memory_rag/storage/mock/store.py:225-267 | The dense leg is the in-scope Ready chunks whose recorded vectors are nearer than one half: the nearest first, equal ones as they were stored, and one left out only behind those returned and at the limit. |
| `LegOrder.SparseLegIs` | src/memory_rag/storage/mock/store.py:269-302 | The sparse leg is the in-scope chunks that share a token with the query: most shared tokens first, equal ones as they were stored, and one left out only behind those returned and at the limit. |
| `MockDomainStore.Store.SparseCandidates` | src/memory_rag/storage/mock/store.py:269-302 | The same for the sparse leg, empty for a query without tokens. |
| `MockDomainStore.Store.SaveRetrievalHits` | src/memory_rag/storage/mock/store.py:430-434 | Saves the rows in order and stops at the first id already stored. |
| `MockDomainStore.Store.HardDeleteSourceMessage` | src/memory_rag/storage/mock/store.py:359-406 | Leaves exactly the store without the source and what was derived from it, and returns the tally; errors leave everything. |
| `Diary.ActiveNoteIs` | src/memory_rag/storage/mock/store.py:171-195 | The lookup fails exactly when no live note of the message exists, and otherwise no live one is newer. |
| `Diary.ActiveChunkIs` | src/memory_rag/storage/mock/store.py:210-223 | The chunk lookup fails exactly when the note has no live chunk, and otherwise no live one of it is newer. |
| `Diary.NoteBySourceIs` | src/memory_rag/storage/mock/store.py:165-169 | The note lookup fails exactly when no note came from the source, and otherwise finds the one stored first. |
| `DomainService.Service.Ingest` | src/memory_rag/services/domain_service.py:106-246 | Performs exactly the planned writes in the planned order and returns the planned result, on every branch and error. |
| `DomainService.Service.SaveRevision` | src/memory_rag/services/domain_service.py:173-214 | New note, then its chunk if it has a body, then the flip of the old chunk, then of the old note, then embedding. |
| `DomainService.Service.EmbedChunks` | src/memory_rag/services/domain_service.py:248-319 | The record precedes the Ready status; a failed call marks the chunk Failed and tries to leave a dead letter; a wrong vector count raises. |
| `DomainService.Service.ReconstructResult` | src/memory_rag/services/domain_service.py:339-367 | The replayed answer is a function of the stored rows alone. |
| `DomainService.Service.TombstoneActiveNote` | src/memory_rag/services/domain_service.py:369-400 | Retires the live note of a message, chunk first, or changes nothing when there is none. |
| `DomainService.Service.DeleteNoteForExternalMessage` | src/memory_rag/services/domain_service.py:402-422 | A delete performs the removal's writes and reports whether and which dated note went. |
| `Removal.DeleteRemoves` | src/memory_rag/services/domain_service.py:369-422 | A delete takes exactly the message's newest live note and that note's live chunk, both tombstoned, and reports its date; every other row is as before. |
| `Removal.DeleteFindsNothing` | src/memory_rag/services/domain_service.py:369-422 | With no live note, or no community, it changes nothing and says so. |
| `Removal.DeletedWhen` | src/memory_rag/services/domain_service.py:402-422 | It reports a removal exactly when the message had a live note, and leaves one live note fewer. |
| `Removal.DeleteTwice` | src/memory_rag/services/domain_service.py:402-422 | After completed runs the message then has no live note, and a second delete reports that nothing was there and changes nothing. |
| `Removal.RemovedIsNotFound` | src/memory_rag/storage/mock/store.py:225-302 | What was removed is in neither leg of any later retrieval. |
| `Removal.DraftRemoves` | src/memory_rag/services/domain_service.py:136-157 | A message that comes back as a draft loses its newest live note in the same way. |
| `Captures.RawRowStays` | src/memory_rag/services/domain_service.py:118-134 | Whatever the route and wherever the delivery is stopped past its first write, its message is stored word for word under its key. |
| `Captures.NoteCaptured` | src/memory_rag/services/domain_service.py:164-214 | A captured note has the parsed date and text and the message's community, author and subject; it replaces exactly the message's newest live note, which turns Superseded. |
| `Captures.ChunkCaptured` | src/memory_rag/services/domain_service.py:186-230 | Its chunk has the note's text, links to the live chunk of the note replaced, and is Ready, Failed or Pending as the provider's answer calls for; no other chunk changes. |
| `Captures.VectorStored` | src/memory_rag/services/domain_service.py:297-312 | The one vector the provider returned is stored as it is, under the chunk and the client's model with its dimension; in every other case no record is. |
| `Captures.LetterStored` | src/memory_rag/services/domain_service.py:270-295 | A failed call leaves a dead letter with its source, chunk, model and error, when that write succeeds. |
| `Captures.RetryStores` | src/memory_rag/services/reconciliation.py:190-262 | After a retry every group that succeeded has the i-th vector under its i-th chunk, and every group that failed is reported with its error and its letter. |
| `Reconciliation.Service.RetryOneGroup` | src/memory_rag/services/reconciliation.py:190-262 | One group's records, then its statuses, or its failure with a best-effort dead letter, as planned. |
| `Reconciliation.Service.RetryFailedChunks` | src/memory_rag/services/reconciliation.py:156-278 | The whole retry run performs the planned writes and returns one outcome a group; a service without a client, an empty community and a negative limit are refused without a write. |
| `Reconciliation.GroupsHold` | src/memory_rag/services/reconciliation.py:182-188 | The groups hold exactly the listed chunks, each under its own source, one group a source. |
| `Lifecycle.SoundWrite` | src/memory_rag/storage/mock/store.py:113-128 | Any single admissible write keeps index bijection, complete lineage, live chunks under live notes and Ready backed by a record. |
| `GuardedPlans.OpGuarded` | src/memory_rag/services/domain_service.py:106-246 | Every write of every ingest, delete and retry is admissible where it happens, whatever the parser and providers return. |
| `CrashSafety.RunSound` | src/memory_rag/services/domain_service.py:173-230 | After any run of ingests, deletes and retries, each cut after any write: the structural invariant holds. |
| `CrashSafety.RunKeeps` | src/memory_rag/storage/mock/store.py:304-357 | Text, author, date, lineage and stored records never change once written, and a retired revision never becomes live again. |
| `CrashSafety.ActiveAfter` | src/memory_rag/services/domain_service.py:164-214 | Whatever the cut, the only live note an operation can add to a message is the one its own ingest brings. |
| `CrashSafety.NeverZeroActive` | src/memory_rag/services/domain_service.py:173-214 | After any prefix of an edit's writes the message still has a live note if it had one. |
| `CrashSafety.CompletedReplaces` | src/memory_rag/services/domain_service.py:173-214 | A completed edit leaves no more live notes than there were. |
| `CrashSafety.ActiveBound` | src/memory_rag/services/domain_service.py:173-230 | Over any run a message has at most one live note more than it has interrupted ingests. |
| `IngestEffects.NoteIngestEffect` | src/memory_rag/services/domain_service.py:164-246 | The tables after a completed note ingest, row by row. |
| `Provenance.RunParsed` | src/memory_rag/services/domain_service.py:130-186 | At every moment of every run, crashes included, each note's date and text are the parse of its source's raw text, and no draft has a note. |
| `Settling.IngestSettled` | src/memory_rag/services/domain_service.py:106-246 | A completed ingest keeps linear revision links, one live note a message, chunk states equal to note states, and truthful statuses. |
| `Settling.RemovalSettled` | src/memory_rag/services/domain_service.py:369-400 | So does a removal. |
| `Settling.RetrySettled` | src/memory_rag/services/reconciliation.py:156-278 | So does a retry, whatever the provider answers. |
| `Settling.RunSettled` | src/memory_rag/services/domain_service.py:106-246 | So it holds after every completed run. |
| `CompletedRuns.LineageHolds` | src/memory_rag/services/domain_service.py:164-214 | Following the supersedes links never cycles, stays within one message and meets only superseded notes below its start. |
| `CompletedRuns.OneHead` | src/memory_rag/services/domain_service.py:164-214 | No note lies on the chains of two heads. |
| `CompletedRuns.RunChains` | src/memory_rag/services/domain_service.py:106-246 | Every message's notes form disjoint linear chains, at most one head live and every other head tombstoned; chunk links follow note links. |
| `CompletedRuns.RunStatuses` | src/memory_rag/services/domain_service.py:248-319 | A chunk is Ready exactly when it has a record, and the record carries the chunk's source and community. |
| `CompletedRuns.RetryNeverRefused` | src/memory_rag/services/reconciliation.py:190-215 | A retry group fails only through its own provider call; the store never refuses a duplicate record. |
| `Replay.CutDerived` | src/memory_rag/services/domain_service.py:130-214 | After any prefix of a first delivery: the raw row, then its note, then its chunk, as far as it got. |
| `Replay.RaisesWhen` | src/memory_rag/services/domain_service.py:106-319 | A fresh delivery raises exactly on a missing community or on a vector count other than one, and otherwise answers what its message calls for. |
| `Replay.InterruptedReplay` | src/memory_rag/services/domain_service.py:130-134 | Redelivering a delivery stopped anywhere, one that raised included, answers what was intended exactly when the rows the answer needs were all written; before the first write it is fresh. |
| `Replay.RaisedReplays` | src/memory_rag/services/domain_service.py:297-309 | A delivery that raised over its vectors is answered with success, one event saved, by every redelivery, whatever ran since. |
| `Replay.ReplayAnswers` | src/memory_rag/services/domain_service.py:339-367 | Once an ingest has returned, every redelivery answers the same, marked as replayed, and writes nothing, whatever ran or crashed since. |
| `Replay.IndexIsDelivered` | src/memory_rag/storage/mock/store.py:113-120 | The idempotency index holds exactly the keys whose ingest reached its first write. |
| `Replay.DuplicatesChangeNothing` | src/memory_rag/services/domain_service.py:130-134 | A run with redeliveries ends in the very store of the run without them. |
| `Isolation.RestrictWrite` | src/memory_rag/storage/mock/store.py:102-128 | A write of one community changes that community's part of the store as it changes the whole, and no other part. |
| `Isolation.RunRestrict` | src/memory_rag/services/domain_service.py:106-246 | Crashes included, a community's part of the store is what its own operations alone would have left. |
| `Isolation.OthersAreInvisible` | src/memory_rag/storage/mock/store.py:139-302 | Leaving out all other communities' operations changes no result, list, export or live note a community sees, nor its order. |
| `Isolation.AnsweredAlone` | src/memory_rag/services/domain_service.py:106-246 | A delivery is answered and written as if no other community existed. |
| `Candidates.LegByKeys` | src/memory_rag/storage/mock/store.py:258-267 | A leg depends on the scored rows in their order only, not on what lies between them. |
| `Candidates.LegIsBest` | src/memory_rag/storage/mock/store.py:225-302 | Each leg is the best `limit` eligible chunks, ordered by score and then insertion; none left out ranks ahead of one returned. |
| `Candidates.BestPlacesUnique` | src/memory_rag/storage/mock/store.py:225-302 | That description determines the leg. |
| `Candidates.LegMembers` | src/memory_rag/storage/mock/store.py:225-302 | A leg has no duplicates, no more than its limit and only eligible stored chunks. |
| `RetryEffects.GroupsBySource` | src/memory_rag/services/reconciliation.py:182-188 | Each group is the listed chunks of its source in listed order; groups come in order of first appearance. |
| `RetryEffects.RetryOutcome` | src/memory_rag/services/reconciliation.py:190-278 | Each group succeeds exactly when its own call and chunks allow it, regardless of the others; only its chunks turn Ready. |
| `RetryProgress.RetryConserves` | src/memory_rag/services/reconciliation.py:190-278 | The failed set afterwards is the one before minus the succeeded groups' chunks; lifecycle states and other communities are untouched. |
| `RetryProgress.RunTakesOldest` | src/memory_rag/storage/mock/store.py:408-423 | A run takes the oldest failed chunks, in order, and splits exactly those by source. |
| `RetryProgress.ListingIsDetermined` | src/memory_rag/storage/mock/store.py:408-423 | The listing depends on the stored rows alone, not on insertion order. |
| `RetryProgress.AnsweredRun` | src/memory_rag/services/reconciliation.py:190-278 | A run whose provider answers embeds `limit` chunks, or all that are left. |
| `RetryProgress.RetriesEmptyTheSet` | src/memory_rag/services/reconciliation.py:156-278 | k answered runs leave max(0, F - k * limit) failed chunks, so ceil(F / limit) runs empty the set. |
| `RetryProgress.RecordedNeverSucceeds` | src/memory_rag/services/reconciliation.py:203-227 | A failed chunk that already has a record under the client's model fails its group in every run with that model. |
| `RetryProgress.CutRetryStrands` | src/memory_rag/services/reconciliation.py:203-215 | A retry stopped after its first write leaves such a chunk. |
| `Stranding.AgreesUnlessStranded` | src/memory_rag/services/domain_service.py:248-319 | One operation, finished or stopped anywhere, keeps every recorded chunk Ready exactly when it was not stopped right after a record. |
| `Stranding.RunAgreesExactly` | src/memory_rag/services/domain_service.py:248-319 | Over runs stopped anywhere under one model, every recorded chunk is Ready at the end exactly when no operation was stopped right after a record. |
| `Stranding.StrandedRun` | src/memory_rag/services/domain_service.py:297-312 | Such a run: a first note stopped before its last write. |
| `Stranding.IngestStrands` | src/memory_rag/services/domain_service.py:297-312 | An ingest stopped there leaves its chunk Pending with a record. |
| `Stranding.PendingForEver` | src/memory_rag/services/reconciliation.py:156-278 | No operation, retries included, ever embeds a chunk that an event has left Pending. |
| `Stranding.NeverMended` | src/memory_rag/services/reconciliation.py:190-227 | No operation with the same model brings records and statuses back together. |
| `Stranding.RaisedLeavesPending` | src/memory_rag/services/domain_service.py:248-309 | A delivery that raised over its vectors leaves its chunk Pending, and no later run changes that. |
| `Erasure.DerivedRows` | src/memory_rag/storage/mock/store.py:372-391 | What names a source is its one note, that note's one chunk, and that chunk's records and hits. |
| `Erasure.OthersKept` | src/memory_rag/storage/mock/store.py:372-399 | Every other row of every table stays unchanged and in its order; dead letters stay. |
| `Erasure.TallyIsDifference` | src/memory_rag/storage/mock/store.py:400-406 | The tally is how much each table shrank. |
| `Erasure.ErasedSound` | src/memory_rag/storage/mock/store.py:392-399 | The index stays in bijection with the sources and no row loses the row it came from. |
| `Erasure.ActingSound` | src/memory_rag/storage/mock/store.py:359-406 | The structural invariant holds over runs that mix crashes and hard deletes. |
| `Erasure.FreedKey` | src/memory_rag/storage/mock/store.py:395-399 | Only the erased key is freed, and its redelivery is captured as new. |
| `Erasure.LinksDangleWhen` | src/memory_rag/storage/mock/store.py:388-391 | Revision links survive exactly when no note from another source replaced an erased one. |
| `Fusion.ReciprocalRankFusion` | src/memory_rag/services/retrieval.py:42-76 | The accumulator loop returns the first `top_k` of the fused list; a cut below one is empty and a rank constant below one an error. |
| `Fusion.SortedIsFusion` | src/memory_rag/services/retrieval.py:63-76 | Sorting the accumulated dictionaries gives every chunk once, as first seen, with its total score, best first and first-seen among equals. |
| `Fusion.FusionUnique` | src/memory_rag/services/retrieval.py:63-76 | There is exactly one such list. |
| `FusionBounds.SmallerCutIsPrefix` | src/memory_rag/services/retrieval.py:68-76 | A smaller cut is a prefix of a larger one. |
| `FusionBounds.PositionBound` | src/memory_rag/services/retrieval.py:63-73 | Ranked at worst r in each of L duplicate-free legs, a chunk is fused at worst at position L * (r - 1) + 1. |
| `FusionBounds.ConsensusOutscores` | src/memory_rag/services/retrieval.py:63-66 | With legs no longer than k + 1, a chunk found by both outscores any chunk found by one. |
| `FusionBounds.ConsensusFirst` | src/memory_rag/services/retrieval.py:68-73 | So every chunk both legs found comes before every chunk one found. |
| `FusionBounds.ConsensusBoundTight` | src/memory_rag/services/retrieval.py:63-73 | At length k + 2 it fails: last in both ties with first in one, which comes first. |
| `FusionBounds.BuildRetrievalHits` | src/memory_rag/services/retrieval.py:99-153 | The loops write dense, sparse and merged rows in this order with ranks from one. |
| `FusionBounds.RowsTold` | src/memory_rag/services/retrieval.py:94-153 | Each leg's rows name its chunks in its order with ranks from one and 1 / (60 + rank) as score; the merged rows carry the fused scores. |
| `FusionBounds.RowsOnce` | src/memory_rag/services/retrieval.py:99-153 | The rows of a query never repeat a chunk within a leg. |
| `Grounding.RetrievedConsensusFirst` | src/memory_rag/services/query_service.py:156-171 | With a candidate pool of at most 61, retrieval lists chunks both legs found before those one found. |
| `DraftsPacking.SplitOversized` | src/memory_rag/adapters/telegram/drafts_packing.py:76-108 | The unbounded-looking loop ends and returns the split, or raises, as the search defines it. |
| `DraftsPacking.SplitIsExact` | src/memory_rag/adapters/telegram/drafts_packing.py:76-108 | It raises exactly when no part count is feasible; otherwise the least feasible count, from two to one a character, of non-empty bodies that make up the block, each within the cap with its footer. |
| `DraftsPacking.PartsNumbered` | src/memory_rag/adapters/telegram/drafts_packing.py:100-108 | Each part ends in its own number and the number of parts, in decimal. |
| `DraftsPacking.PackDraftsIntoMessages` | src/memory_rag/adapters/telegram/drafts_packing.py:31-73 | The loop computes the packing, including the argument errors and a failing split. |
| `DraftsPacking.GreedyIsLeast` | src/memory_rag/adapters/telegram/drafts_packing.py:49-73 | For any header, the empty one included, and any blocks, no order-preserving cut that fits sends fewer messages, oversized blocks going out alone. |
| `DraftsPacking.PackIsOptimal` | src/memory_rag/adapters/telegram/drafts_packing.py:49-73 | Whatever is packed, the result is itself such a cut, of the blocks it did not forget: whole blocks, in order, joined by the separator, in the fewest messages. Only empty blocks are forgotten. |
| `DraftsPacking.PackFailsWhen` | src/memory_rag/adapters/telegram/drafts_packing.py:43-55 | It fails exactly on a bad cap or separator or an oversized block that cannot be split. |
| `DraftsPacking.MessagesFit` | src/memory_rag/adapters/telegram/drafts_packing.py:49-73 | Every message is within the cap exactly when the header is; a longer header always goes out as it is, and nothing else does. |
| `DraftsPacking.OneMessageWhenItFits` | src/memory_rag/adapters/telegram/drafts_packing.py:38-42 | Header and blocks go out joined in one message exactly when that fits in one or there are no blocks. |
| `Resilience.RunWithRetries` | src/memory_rag/adapters/resilience.py:156-251 | The loop stops at the first success or non-retryable failure or at the last attempt, sleeping between attempts as each failure calls for. |
| `Resilience.WaitsAre` | src/memory_rag/adapters/resilience.py:123-153 | Each wait is the server's delay cut at the cap, the cap for an unbounded one, and otherwise the drawn share of the doubling backoff cut at the cap. |
| `Resilience.RetriedErrors` | src/memory_rag/adapters/resilience.py:65-84 | Time-outs, connection errors, server errors and rate limits are tried again, and nothing else. |
| `Resilience.ExtractedIsFair` | src/memory_rag/adapters/resilience.py:87-120 | Only a rate limit carries a server delay, never a negative one. |
| `Resilience.MillisecondsHideSeconds` | src/memory_rag/adapters/resilience.py:98-120 | A millisecond header, malformed or not, decides alone: the seconds header is read only without it. |
| `Resilience.BackoffWithin` | src/memory_rag/adapters/resilience.py:123-139 | A computed wait lies in [0, cap] and under the exponential envelope. |
| `Resilience.WaitWithin` | src/memory_rag/adapters/resilience.py:142-153 | A wait from either source lies in [0, cap]. |
| `Resilience.TimeIsBounded` | src/memory_rag/adapters/resilience.py:45-57 | One sleep fewer than calls, and total time at most timeout * attempts + cap * (attempts - 1). |
| `Resilience.OneTrace` | src/memory_rag/adapters/resilience.py:156-251 | Outcomes and draws determine the run. |
| `Resilience.EndsAsItShould` | src/memory_rag/adapters/resilience.py:172-251 | A value is returned exactly when an allowed attempt gave one after retryable failures only; otherwise the last call's own error is raised. |
| `NoteParser.NormalizeNoteFirstLine` | src/memory_rag/services/dispatcher.py:94-134 | The loop rewrites the first non-blank line, prepends the received date, or leaves the payload, as defined. |
| `NoteParser.NormalizesExactlySixForms` | src/memory_rag/core/domain/parser.py:54-76 | A token normalises to a date's canonical form exactly when it is one of that date's six printings. |
| `NoteParser.NormalizedIsCanonical` | src/memory_rag/core/domain/parser.py:54-76 | Whatever normalises is a calendar date in canonical form. |
| `NoteParser.IsoRoundTrip` | src/memory_rag/core/domain/parser.py:43-51 | The canonical form parses back to its date. |
| `NoteRoundTrip.NormalizedParses` | src/memory_rag/services/dispatcher.py:94-134 | After normalisation every payload with a non-blank line parses; its body is exactly the remaining stripped lines, all of them when no date was recognised. |
| `NoteRoundTrip.NormalizationIdempotent` | src/memory_rag/services/dispatcher.py:94-134 | Normalising twice is normalising once. |
| `NoteRoundTrip.ReparseRoundTrip` | src/memory_rag/core/domain/parser.py:79-97 | Printing a parsed note as date and body and parsing that gives the note back. |
| `AnswerParsers.StructuredAccepts` | src/memory_rag/core/domain/answer_schema.py:53-109 | Accepted answers are exactly the renderings of grounded ones, uncited only where the model found no evidence. |
| `AnswerParsers.NoEvidenceMayCite` | src/memory_rag/core/domain/answer_schema.py:99-103 | The converse is not enforced: a no_evidence answer may cite. |
| `AnswerParsers.StructuredTypeErrorWhen` | src/memory_rag/core/domain/answer_schema.py:87-92 | The one uncaught error needs a payload right in everything but a marker that is a list or an object. |
| `AnswerParsers.NotesPlusModelTypeErrorWhen` | src/memory_rag/core/chat/enriched_prompt.py:130-197 | The same for the mixed parser. |
| `AnswerParsers.NotesPlusKnowledgeTypeErrorWhen` | src/memory_rag/core/chat/knowledge_prompt.py:162-257 | The same for the knowledge parser. |
| `UncaughtErrors.AskRaisesWhen` | src/memory_rag/services/query_service.py:267-352 | An `/ask` lets that error through exactly when it found something to ask about and its provider's output decodes to such a payload. |
| `UncaughtErrors.ChatRaisesWhen` | src/memory_rag/services/routed_chat.py:199-326 | So does a chat, on the route it was sent down; the model-only route never. |
| `AnswerParsers.NotesPlusModelAccepts` | src/memory_rag/core/chat/enriched_prompt.py:130-197 | Accepted exactly when the payload says a grounded answer whose text, citations and marker are empty together; extra keys are ignored. |
| `AnswerParsers.NotesPlusKnowledgeAccepts` | src/memory_rag/core/chat/knowledge_prompt.py:162-257 | The same with the knowledge plane: text exactly when refs, all of them offered. |
| `AnswerParsers.NoRefsNoKnowledge` | src/memory_rag/core/chat/knowledge_prompt.py:162-257 | With nothing offered an accepted answer has an empty knowledge plane. |
| `QueryService.Service.Retrieve` | src/memory_rag/services/query_service.py:135-177 | Both legs under one scope, fused and cut; errors in the source's order, and no rows. |
| `QueryService.Service.Finalize` | src/memory_rag/services/query_service.py:376-443 | Query, hits and answer trace are saved from one grading and the result matches them. |
| `QueryService.Service.Answer` | src/memory_rag/services/query_service.py:179-374 | Every contour returns and traces what the plan says; a call that raises leaves no rows. |
| `Outcomes.AskEnds` | src/memory_rag/services/query_service.py:98-374 | An `/ask` ends as the marker in its provider's text says, in that text's words and with its citations, and is traced so; unavailable, unparsed, blank and empty-handed questions have their own endings. |
| `Outcomes.NotesPlusModelEnds` | src/memory_rag/services/routed_chat.py:443-586 | The same on the mixed route, whose model text is the payload's own. |
| `Outcomes.NotesPlusKnowledgeEnds` | src/memory_rag/services/routed_chat.py:617-814 | The same on the knowledge route, with its knowledge text and refs. |
| `Outcomes.ModelOnlyEnds` | src/memory_rag/services/routed_chat.py:816-897 | A model-only answer is the payload's text, without context, hits or citations. |
| `Listings.NormalizedIs` | src/memory_rag/services/query_service.py:96-108 | A question loses the blanks around it, then its final punctuation, then the blanks before that, and nothing else. |
| `Listings.AskSearches` | src/memory_rag/services/query_service.py:216-266 | What an `/ask` is answered from is the fusion of the two legs searched for its normalised question in its scope. |
| `QueryService.Create` | src/memory_rag/services/query_service.py:114-133 | Construction succeeds exactly for a positive cut no larger than the candidate pool. |
| `ChatPlans.RewriteDegradesWhen` | src/memory_rag/services/routed_chat.py:382-441 | Retrieval falls back to the question itself, without dates, exactly when no rewriter is wired, it failed, or what it wrote normalises to nothing. |
| `ChatPlans.RewriterSubjectIgnored` | src/memory_rag/services/routed_chat.py:443-500 | The subject a rewriter names changes no retrieval and no answer, only its own row. |
| `RoutedChat.Chat.AnswerNotesPlusModel` | src/memory_rag/services/routed_chat.py:443-586 | The mixed route's answer and rows on every contour. |
| `RoutedChat.Chat.AnswerNotesPlusKnowledge` | src/memory_rag/services/routed_chat.py:617-814 | The knowledge route's answer and rows, a failed search degrading within the route. |
| `RoutedChat.Chat.AnswerModelOnly` | src/memory_rag/services/routed_chat.py:816-897 | The model-only route's answer and rows on every contour. |
| `RoutedChat.Chat.Chat` | src/memory_rag/services/routed_chat.py:199-380 | Every route and failure branch returns and saves what the plan says; a call that raises leaves no rows. |
| `ChatRouting.ChatRouted` | src/memory_rag/services/routed_chat.py:199-365 | A chat takes the route its question was classified to, or the notes lookup without a usable class or a knowledge provider; its decision, rewrite and knowledge rows say what each step was given and returned, and its answer is that route's own. |
| `TraceAccounting.RunAccounted` | src/memory_rag/services/routed_chat.py:199-380 | Over any run: queries and answer traces pair up with equal endings, hits never repeat, each decision links its own query, and rewrite and knowledge rows exist exactly for mixed and knowledge routes that ran. |
| `TraceAccounting.RunCounts` | src/memory_rag/services/routed_chat.py:326-340 | One decision a returned chat; one query and one trace a call that did not hit an unimplemented search. |
| `TraceAccounting.NullQueryWhen` | src/memory_rag/services/routed_chat.py:238-326 | A decision has no query exactly when its route needed the search seam and that was not implemented. |
| `TracePrefixes.ChatRowByRow` | src/memory_rag/services/routed_chat.py:302-365 | Saving a chat is saving its rows one by one: query, hits, answer trace, decision, then the rows that link to it. |
| `TracePrefixes.RunRooted` | src/memory_rag/services/routed_chat.py:199-380 | Over calls stopped after any row, no row is refused, and every hit and answer trace has its query, every rewrite and knowledge row its decision. |
| `TracePrefixes.RunAnswered` | src/memory_rag/services/query_service.py:376-526 | Every query has its answer trace at the end exactly when no call was stopped between the two. |
| `Contours.AskFaithful` | src/memory_rag/services/query_service.py:376-526 | On every branch query, trace, hits and answer agree: a failed parse keeps the raw output, a failed call leaves nothing, neither cites, and merged hits, evidence and traced ids are the context in fused order. |
| `Contours.ChatFaithful` | src/memory_rag/services/routed_chat.py:199-380 | The same for every chat route that traced a query. |
| `Legs.RetrievedIsSound` | src/memory_rag/services/query_service.py:135-177 | Each leg of a retrieval holds stored live chunks in scope, none twice, within the pool. |
| `Grounding.AskGrounded` | src/memory_rag/services/query_service.py:179-374 | For any store, question and model output the context holds only live chunks of the asker's community in scope, citations come from it, endings that claim evidence cite, and the cross-community error is unreachable. |
| `Grounding.NotesPlusKnowledgeGrounded` | src/memory_rag/services/routed_chat.py:617-814 | The same on the knowledge route, whose refs all come from its own search. |
| `Grounding.ChatGrounded` | src/memory_rag/services/routed_chat.py:199-380 | The same for every chat route. |
| `Grounding.OneCommunity` | src/memory_rag/core/domain/answer_prompt.py:71-75 | Chunks of one community never trip the cross-community check. |
| `Dispatcher.Service.Dispatch` | src/memory_rag/services/dispatcher.py:374-446 | On every route: one reply, the route's writes in order, its trace rows, and the `/sources` cache after it. |
| `Dispatcher.Service.DispatchAsk` | src/memory_rag/services/dispatcher.py:404-428 | Every answer overwrites the community's cache entry with its cited chunks; an exception leaves it. |
| `Dispatcher.Service.DispatchChat` | src/memory_rag/services/dispatcher.py:448-470 | A chat never touches the cache. |
| `Dispatcher.Service.DispatchSources` | src/memory_rag/services/dispatcher.py:646-697 | No prior answer, an uncited answer and cited chunks are told apart. |
| `Dispatcher.Service.DispatchDrafts` | src/memory_rag/services/dispatcher.py:472-545 | The clamped listing and its usage and empty replies. |
| `Dispatcher.Service.DispatchExport` | src/memory_rag/services/dispatcher.py:547-588 | The community's raw messages, oldest first, under either format in any case; anything else is a usage reply. |
| `Dispatcher.Service.DispatchDelete` | src/memory_rag/services/dispatcher.py:585-621 | Without a reply target nothing happens; otherwise the removal's writes and whether a note went. |
| `Dispatcher.AllDraftsAre` | src/memory_rag/storage/mock/store.py:152-163 | All drafts of a community and nothing else, newest first. |
| `Listings.DraftsListed` | src/memory_rag/storage/mock/store.py:152-163 | Each of the community's drafts once, the latest first and ids deciding ties. |
| `Listings.ExportListed` | src/memory_rag/storage/mock/store.py:139-150 | Each of the community's messages once, the oldest first and ids deciding ties. |
| `Listings.FailedListed` | src/memory_rag/storage/mock/store.py:408-423 | Each of the community's failed chunks once, the oldest first; a limit keeps the first ones. |
| `Listings.ExportRepliesWhen` | src/memory_rag/services/dispatcher.py:547-588 | Each format for its own name in any case, and a usage reply for anything else. |
| `Dispatcher.DraftsHonest` | src/memory_rag/services/dispatcher.py:316-332 | The list is the newest drafts within the cap, and a header that says all are shown is true. |
| `Listings.DraftsAskedFor` | src/memory_rag/services/dispatcher.py:472-525 | The number asked for is the default or what the argument reads as; which arguments get the usage reply and which the error. |
| `Grounding.ShownAreCited` | src/memory_rag/services/dispatcher.py:623-644 | The cached chunks are exactly the answer's citations, in fused order. |
| `Serving.ServedSound` | src/memory_rag/services/dispatcher.py:374-446 | Over runs of messages on every route, other processes' work and hard deletes, the structural invariant holds. |
| `Serving.OtherRoutesKeepCache` | src/memory_rag/services/dispatcher.py:374-450 | No message but an `/ask` changes the cache, whatever its route writes. |
| `Serving.SourcesShowLastAsk` | src/memory_rag/services/dispatcher.py:623-697 | After any such run the reply to `/sources` is exactly the chunks cited by the community's last answered `/ask` since the last restart, each as the diary held it then, or that it cited nothing. |
| `Serving.NoPriorAskWhen` | src/memory_rag/services/dispatcher.py:661-670 | No prior answer is reported exactly when there was none since the last restart. |
| `Serving.FreshNoteReply` | src/memory_rag/services/dispatcher.py:381-392 | A fresh `/note` is turned down exactly when it is blank, and is otherwise filed under the date its first line spells or the day it was received; it fails only over the provider's vectors. |
| `Serving.DeleteReply` | src/memory_rag/services/dispatcher.py:585-621 | The reply to a `/delete` reports a removal exactly when the message has a live note, and then that note and its chunk are gone. |
| `Serving.NoteReplyFailsWhen` | src/memory_rag/services/dispatcher.py:82-91 | Wording the reply to a `/note` fails exactly when the delivery replays a message first stored as a draft. |

## Left out

- The SQLite and Postgres stores: the in-memory store is the model of the same interface.
- HTTP, Telegram and command-line wiring, logging, configuration and author display names.
- The OpenAI and Tavily adapters: each provider call is an arbitrary outcome, one of the errors the callers name.
- JSON decoding, prompt wording, the wording of replies and the bytes of an export: they decide nothing modelled here.
- The log records and the requester of a hard delete, and any stop inside one.
- Concurrency between two calls on one store: the source runs one call at a time on the in-memory store.
- Logging lines and the best-effort nature of dead letters: whether a dead letter is saved is an outcome of the environment.
- Provider exceptions other than those the callers catch, apart from a failed embedding and the uncaught `TypeError`.
- Read-only accessors of the store (`get_*` by id, counters, `clear`): they would only add easy members.
- Resilience.TimeIsBounded: assumes each call keeps to its own timeout, which the adapters enforce outside this loop.
