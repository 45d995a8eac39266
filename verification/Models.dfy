/** The diary's rows, messages and results. */
module Models {
  import opened Calendar
  import opened Tables
  import opened Wrappers

  type Time = int

  datatype FallbackMode =
    | NoFallback | NoEvidence | InvalidInput | WeakEvidence | Ambiguous | ProviderUnavailable | ParseFailure

  datatype LifecycleState = Active | Superseded | Tombstoned

  datatype EmbeddingStatus = Pending | Ready | Failed

  datatype RouteKind =
    | StartRoute | HelpRoute | NoteRoute | AskRoute | ChatRoute | DraftRoute | DraftsRoute
    | ExportRoute | SourcesRoute | DeleteRoute | ClarifyRoute | UnknownRoute

  /** What makes a delivery "the same": chat, message, and which edit of it. */
  datatype DeliveryKey = DeliveryKey(chatId: Id, messageId: Id, editSeq: int)

  datatype SourceMessage = SourceMessage(
    sourceId: Id, communityId: Id, authorId: Id, chatId: Id, userId: Id, messageId: Id,
    editSeq: int, rawText: string, route: RouteKind, createdAt: Time)
  {
    function Key(): DeliveryKey {
      DeliveryKey(chatId, messageId, editSeq)
    }
  }

  datatype Note = Note(
    noteId: Id, sourceId: Id, communityId: Id, authorId: Id, noteDate: Date, noteText: string,
    createdAt: Time, subjectId: Option<Id>, state: LifecycleState, supersedes: Option<Id>)

  datatype EventChunk = EventChunk(
    chunkId: Id, noteId: Id, sourceId: Id, communityId: Id, authorId: Id, noteDate: Date,
    eventIndex: int, chunkText: string, createdAt: Time, status: EmbeddingStatus,
    subjectId: Option<Id>, state: LifecycleState, supersedes: Option<Id>)

  function ChunkIds(chunks: seq<EventChunk>): (ids: seq<Id>)
    ensures |ids| == |chunks|
    ensures forall i :: 0 <= i < |ids| ==> ids[i] == chunks[i].chunkId
  {
    seq(|chunks|, i requires 0 <= i < |chunks| => chunks[i].chunkId)
  }

  function IdSet(chunks: seq<EventChunk>): set<Id> {
    set c | c in chunks :: c.chunkId
  }

  /** No chunk is listed twice. */
  ghost predicate NoRepeat(chunks: seq<EventChunk>) {
    forall i, j :: 0 <= i < j < |chunks| ==> chunks[i].chunkId != chunks[j].chunkId
  }

  type Vector = seq<real>

  datatype EmbeddingKey = EmbeddingKey(chunkId: Id, modelName: string)

  datatype EmbeddingRecord = EmbeddingRecord(
    recordId: Id, chunkId: Id, sourceId: Id, communityId: Id, modelName: string,
    dimension: int, vector: Vector, createdAt: Time)
  {
    function Key(): EmbeddingKey {
      EmbeddingKey(chunkId, modelName)
    }
  }

  datatype IndexingDeadLetter = IndexingDeadLetter(
    letterId: Id, sourceId: Id, communityId: Id, chunkIds: seq<Id>, modelName: string,
    errorClass: string, createdAt: Time)

  datatype InboundMessage = InboundMessage(
    messageId: Id, chatId: Id, userId: Id, communityId: Id, route: RouteKind,
    receivedOn: Date, payload: string, editSeq: int, subjectId: Option<Id>, replyTo: Option<Id>)
  {
    function Key(): DeliveryKey {
      DeliveryKey(chatId, messageId, editSeq)
    }
  }

  datatype ParsedNote = ParsedNote(noteDate: Date, body: string, firstLine: string)

  datatype IngestResult = IngestResult(
    fallback: FallbackMode, sourceId: Id, noteDate: Option<Date>, eventsCount: nat,
    invalidFirstLine: Option<string>, replayed: bool)

  datatype DeleteOutcome = DeleteOutcome(deleted: bool, noteDate: Option<Date>)

  datatype HardDeleteOutcome = HardDeleteOutcome(
    sources: nat, notes: nat, chunks: nat, embeddings: nat, hits: nat)

  /** The two exceptions the store raises. */
  datatype StoreError = ValueError | KeyError
}
