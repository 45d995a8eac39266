/**
 * What each service operation writes, in order, and what it returns: the specification the
 * methods of `DomainService` and `ReconciliationService` are proved against.
 */
module Plans {
  import opened Diary
  import opened Models
  import opened NoteParser
  import opened Sorting
  import opened Tables
  import opened Wrappers

  /** What one call to the embedding client came to. */
  datatype EmbedOutcome =
    | Vectors(vectors: seq<Vector>)
    | EmbedFailed(errorClass: string)

  datatype EmbeddingClient = EmbeddingClient(modelName: string, dimension: int)

  /** The clock, the fresh identifiers and the provider's answer that one ingest draws on. */
  datatype IngestEnv = IngestEnv(
    now: Time, sourceId: Id, noteId: Id, chunkId: Id, recordId: Id, letterId: Id,
    client: Option<EmbeddingClient>, embed: EmbedOutcome, letterSaved: bool)

  /** A message, what the parser made of it, and the environment it arrived in. */
  datatype Delivery = Delivery(message: InboundMessage, parsed: Option<ParsedNote>, env: IngestEnv)

  datatype Plan<T> = Plan(writes: seq<Write>, result: Result<T, StoreError>)

  /** The store's rows sit under their own ids and the idempotency index points at rows. */
  ghost predicate Consistent(d: Diary) {
    && (forall k :: k in d.idempotency ==> d.idempotency[k] in d.sources.rows)
    && (forall id :: id in d.sources.rows ==> d.sources.rows[id].sourceId == id)
    && (forall id :: id in d.notes.rows ==> d.notes.rows[id].noteId == id)
    && (forall id :: id in d.chunks.rows ==> d.chunks.rows[id].chunkId == id)
  }

  /** The scan meets every stored chunk once, under its own id. */
  lemma StoredOnce(d: Diary)
    requires Consistent(d)
    ensures Distinct(Values(d.chunks))
    ensures forall c :: c in Values(d.chunks) ==> c.chunkId in d.chunks.rows && d.chunks.rows[c.chunkId] == c
  {
    var rows := Values(d.chunks);
    assert forall i :: 0 <= i < |rows| ==> rows[i].chunkId == d.chunks.keys[i];
  }

  lemma StoredApart(d: Diary, leg: seq<EventChunk>)
    requires Distinct(leg) && forall c :: c in leg ==> c.chunkId in d.chunks.rows && d.chunks.rows[c.chunkId] == c
    ensures NoRepeat(leg)
  {
    forall i, j | 0 <= i < j < |leg| ensures leg[i].chunkId != leg[j].chunkId {
      assert leg[i] in leg && leg[j] in leg;
    }
  }

  /** What `uuid4` is relied on for. */
  ghost predicate FreshIds(d: Diary, env: IngestEnv) {
    env.sourceId !in d.sources.rows && FreshDerivedIds(d, env)
  }

  ghost predicate FreshDerivedIds(d: Diary, env: IngestEnv) {
    && env.noteId !in d.notes.rows
    && env.chunkId !in d.chunks.rows
    && (forall k :: k in d.embeddings ==> k.chunkId != env.chunkId)
    && env.letterId !in d.deadLetters
  }

  // ---- Ingest ----

  function NewSource(dl: Delivery): SourceMessage {
    var m := dl.message;
    SourceMessage(dl.env.sourceId, m.communityId, m.userId, m.chatId, m.userId, m.messageId, m.editSeq,
                  m.payload, m.route, dl.env.now)
  }

  function NewNote(dl: Delivery, parsed: ParsedNote, prior: Option<Note>): Note {
    var m := dl.message;
    Note(dl.env.noteId, dl.env.sourceId, m.communityId, m.userId, parsed.noteDate, parsed.body, dl.env.now,
         m.subjectId, Active, if prior.Some? then Some(prior.value.noteId) else None)
  }

  function NewChunk(dl: Delivery, parsed: ParsedNote, priorChunk: Option<EventChunk>): EventChunk {
    var m := dl.message;
    EventChunk(dl.env.chunkId, dl.env.noteId, dl.env.sourceId, m.communityId, m.userId, parsed.noteDate, 0,
               parsed.body, dl.env.now, Pending, m.subjectId, Active,
               if priorChunk.Some? then Some(priorChunk.value.chunkId) else None)
  }

  function NewRecord(
    recordId: Id, chunkId: Id, sourceId: Id, communityId: Id, client: EmbeddingClient, vector: Vector, now: Time)
    : EmbeddingRecord
  {
    EmbeddingRecord(recordId, chunkId, sourceId, communityId, client.modelName, client.dimension, vector, now)
  }

  /** `_reconstruct_result` */
  function Reconstruct(d: Diary, source: SourceMessage): IngestResult {
    if source.route == DraftRoute then
      IngestResult(NoFallback, source.sourceId, None, 0, None, true)
    else
      match NoteBySource(d, source.sourceId)
      case None => IngestResult(InvalidInput, source.sourceId, None, 0, Some(FirstLine(source.rawText)), true)
      case Some(note) =>
        IngestResult(NoFallback, source.sourceId, Some(note.noteDate), CountChunks(d, source.sourceId), None, true)
  }

  /** The note an operation replaces or removes, with its visible chunk. */
  datatype Prior = Prior(note: Option<Note>, chunk: Option<EventChunk>)

  function PriorFor(d: Diary, chatId: Id, messageId: Id, communityId: Id): Prior {
    match ActiveNoteFor(d, chatId, messageId, communityId)
    case None => Prior(None, None)
    case Some(note) => Prior(Some(note), ActiveChunkFor(d, note.noteId, communityId))
  }

  /** Chunk first: what retrieval sees changes before anything else does. */
  function RetireWrites(prior: Prior, state: LifecycleState): seq<Write> {
    if prior.note == None then []
    else
      var flip := SetNoteState(prior.note.value.noteId, state);
      if prior.chunk == None then [flip] else [SetChunkState(prior.chunk.value.chunkId, state), flip]
  }

  function SaveWrites(dl: Delivery, parsed: ParsedNote, prior: Prior): seq<Write> {
    var save := SaveNote(NewNote(dl, parsed, prior.note));
    if parsed.body == "" then [save] else [save, SaveChunk(NewChunk(dl, parsed, prior.chunk))]
  }

  /** `_embed_chunks` for the one chunk of an ingest. */
  function EmbedPlan(env: IngestEnv, communityId: Id): Plan<()> {
    if env.client == None then Plan([], Ok(()))
    else
      match env.embed
      case EmbedFailed(errorClass) =>
        var mark := SetChunkStatus(env.chunkId, Failed);
        Plan(if env.letterSaved then [mark, SaveDeadLetter(IngestLetter(env, communityId, errorClass))] else [mark], Ok(()))
      case Vectors(vectors) =>
        if |vectors| != 1 then Plan([], Raised(ValueError))
        else
          Plan([SaveRecord(NewRecord(env.recordId, env.chunkId, env.sourceId, communityId, env.client.value,
                                     vectors[0], env.now)),
                SetChunkStatus(env.chunkId, Ready)],
               Ok(()))
  }

  function IngestLetter(env: IngestEnv, communityId: Id, errorClass: string): IndexingDeadLetter
    requires env.client.Some?
  {
    IndexingDeadLetter(env.letterId, env.sourceId, communityId, [env.chunkId], env.client.value.modelName,
                       errorClass, env.now)
  }

  /** The part of an ingest that follows the raw row of a fresh delivery; `d` already holds that row. */
  function CapturePlan(d: Diary, dl: Delivery): Plan<IngestResult> {
    var m := dl.message;
    if m.route == DraftRoute then
      if m.communityId == "" then Plan([], Raised(ValueError))
      else Plan(RetireWrites(PriorFor(d, m.chatId, m.messageId, m.communityId), Tombstoned),
                Ok(IngestResult(NoFallback, dl.env.sourceId, None, 0, None, false)))
    else
      match dl.parsed
      case None =>
        Plan([], Ok(IngestResult(InvalidInput, dl.env.sourceId, None, 0, Some(FirstLine(m.payload)), false)))
      case Some(parsed) =>
        if m.communityId == "" then Plan([], Raised(ValueError))
        else
          var prior := PriorFor(d, m.chatId, m.messageId, m.communityId);
          var embed := if parsed.body == "" then Plan([], Ok(())) else EmbedPlan(dl.env, m.communityId);
          Plan(SaveWrites(dl, parsed, prior) + RetireWrites(prior, Superseded) + embed.writes,
               if embed.result.Raised? then Raised(embed.result.error)
               else Ok(IngestResult(NoFallback, dl.env.sourceId, Some(parsed.noteDate),
                                    if parsed.body == "" then 0 else 1, None, false)))
  }

  /** `ingest` */
  function IngestPlan(d: Diary, dl: Delivery): Plan<IngestResult> {
    var key := dl.message.Key();
    if key in d.idempotency then
      Plan([], if d.idempotency[key] in d.sources.rows then Ok(Reconstruct(d, d.sources.rows[d.idempotency[key]]))
               else Raised(KeyError))
    else
      var save := SaveSource(NewSource(dl));
      var rest := CapturePlan(Apply(d, save), dl);
      Plan([save] + rest.writes, rest.result)
  }

  /** `delete_note_for_external_message` */
  function DeletePlan(d: Diary, chatId: Id, messageId: Id, communityId: Id): Plan<DeleteOutcome> {
    if communityId == "" then Plan([], Raised(ValueError))
    else
      var prior := PriorFor(d, chatId, messageId, communityId);
      Plan(RetireWrites(prior, Tombstoned),
           Ok(if prior.note.Some? then DeleteOutcome(true, Some(prior.note.value.noteDate)) else DeleteOutcome(false, None)))
  }

  // ---- Retry ----

  datatype Group = Group(sourceId: Id, chunks: seq<EventChunk>)

  datatype GroupOutcome = GroupOutcome(
    sourceId: Id, chunkIds: seq<Id>, succeeded: bool, errorClass: Option<string>, letterId: Option<Id>)

  /** What one group's retry draws on: the provider's answer and fresh identifiers. */
  datatype GroupEnv = GroupEnv(embed: EmbedOutcome, recordIds: nat -> Id, letterId: Id, letterSaved: bool)

  datatype RetryEnv = RetryEnv(now: Time, client: EmbeddingClient, groups: nat -> GroupEnv)

  /** Dead-letter ids are fresh, and never drawn twice in one run. */
  ghost predicate FreshLetters(d: Diary, env: RetryEnv) {
    && (forall i: nat :: env.groups(i).letterId !in d.deadLetters)
    && (forall i: nat, j: nat :: i < j ==> env.groups(i).letterId != env.groups(j).letterId)
  }

  /** `groups.setdefault(chunk.source_message_id, []).append(chunk)` */
  function AddToGroup(groups: seq<Group>, chunk: EventChunk): seq<Group> {
    if groups == [] then [Group(chunk.sourceId, [chunk])]
    else if groups[0].sourceId == chunk.sourceId then
      [groups[0].(chunks := groups[0].chunks + [chunk])] + groups[1..]
    else [groups[0]] + AddToGroup(groups[1..], chunk)
  }

  function Groups(chunks: seq<EventChunk>): seq<Group> {
    if chunks == [] then []
    else AddToGroup(Groups(chunks[..|chunks| - 1]), chunks[|chunks| - 1])
  }

  function GroupRecords(
    g: Group, communityId: Id, now: Time, client: EmbeddingClient, vectors: seq<Vector>, recordIds: nat -> Id)
    : (r: seq<EmbeddingRecord>)
    requires |vectors| == |g.chunks|
    ensures |r| == |g.chunks|
    ensures forall i :: 0 <= i < |r| ==>
              r[i] == NewRecord(recordIds(i), g.chunks[i].chunkId, g.sourceId, communityId, client, vectors[i], now)
  {
    seq(|g.chunks|, i requires 0 <= i < |g.chunks| =>
      NewRecord(recordIds(i), g.chunks[i].chunkId, g.sourceId, communityId, client, vectors[i], now))
  }

  /** How many records are saved before the first one the store already has. */
  function SavableRecords(d: Diary, records: seq<EmbeddingRecord>): (n: nat)
    ensures n <= |records|
    decreases |records|
  {
    if records == [] || records[0].Key() in d.embeddings then 0
    else 1 + SavableRecords(Apply(d, SaveRecord(records[0])), records[1..])
  }

  function SaveRecords(records: seq<EmbeddingRecord>): (ws: seq<Write>)
    ensures |ws| == |records|
  {
    if records == [] then [] else [SaveRecord(records[0])] + SaveRecords(records[1..])
  }

  function SetStatuses(chunks: seq<EventChunk>, status: EmbeddingStatus): (ws: seq<Write>)
    ensures |ws| == |chunks|
  {
    if chunks == [] then [] else [SetChunkStatus(chunks[0].chunkId, status)] + SetStatuses(chunks[1..], status)
  }

  datatype GroupPlan = GroupPlan(writes: seq<Write>, outcome: GroupOutcome)

  function LetterWrites(g: Group, communityId: Id, env: RetryEnv, ge: GroupEnv, errorClass: string): seq<Write> {
    if !ge.letterSaved then []
    else
      [SaveDeadLetter(IndexingDeadLetter(ge.letterId, g.sourceId, communityId, ChunkIds(g.chunks), env.client.modelName,
                                         errorClass, env.now))]
  }

  /** A group that failed: reported, left as it was, and routed to the dead letters. */
  function FailedOutcome(g: Group, ge: GroupEnv, errorClass: string): GroupOutcome {
    GroupOutcome(g.sourceId, ChunkIds(g.chunks), false, Some(errorClass), if ge.letterSaved then Some(ge.letterId) else None)
  }

  /** One pass of the retry loop. */
  function RetryGroup(d: Diary, communityId: Id, g: Group, env: RetryEnv, ge: GroupEnv): GroupPlan {
    match ge.embed
    case EmbedFailed(errorClass) =>
      GroupPlan(LetterWrites(g, communityId, env, ge, errorClass), FailedOutcome(g, ge, errorClass))
    case Vectors(vectors) =>
      if |vectors| != |g.chunks| then
        GroupPlan(LetterWrites(g, communityId, env, ge, "ValueError"), FailedOutcome(g, ge, "ValueError"))
      else
        var records := GroupRecords(g, communityId, env.now, env.client, vectors, ge.recordIds);
        var n := SavableRecords(d, records);
        if n < |records| then
          GroupPlan(SaveRecords(records[..n]) + LetterWrites(g, communityId, env, ge, "ValueError"),
                    FailedOutcome(g, ge, "ValueError"))
        else
          GroupPlan(SaveRecords(records) + SetStatuses(g.chunks, Ready),
                    GroupOutcome(g.sourceId, ChunkIds(g.chunks), true, None, None))
  }

  datatype RetryState = RetryState(writes: seq<Write>, outcomes: seq<GroupOutcome>)

  /** The first `n` passes of the retry loop. */
  function RetryUpTo(d: Diary, communityId: Id, groups: seq<Group>, env: RetryEnv, n: nat): (r: RetryState)
    requires n <= |groups|
    ensures |r.outcomes| == n
  {
    if n == 0 then RetryState([], [])
    else
      var before := RetryUpTo(d, communityId, groups, env, n - 1);
      var g := RetryGroup(ApplyAll(d, before.writes), communityId, groups[n - 1], env, env.groups(n - 1));
      RetryState(before.writes + g.writes, before.outcomes + [g.outcome])
  }

  /** `retry_failed_chunks` */
  function RetryPlan(d: Diary, communityId: Id, limit: Option<nat>, env: RetryEnv): Plan<seq<GroupOutcome>> {
    if communityId == "" then Plan([], Raised(ValueError))
    else
      var groups := Groups(FailedChunks(d, communityId, limit));
      var r := RetryUpTo(d, communityId, groups, env, |groups|);
      Plan(r.writes, Ok(r.outcomes))
  }
}
