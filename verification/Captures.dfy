/**
 * What is stored, field by field: the rows a captured message leaves, and the vectors an ingest and a
 * retry keep of what the provider returned.
 */
module Captures {
  import opened Chains
  import opened CrashSafety
  import opened Diary
  import opened GuardedPlans
  import opened IngestEffects
  import opened Lifecycle
  import opened Models
  import opened Plans
  import opened Removal
  import opened Sorting
  import opened Tables
  import opened Wrappers

  // ---- The raw row ----

  /** The message as it was received, under its own route. */
  predicate RawRowOf(s: SourceMessage, m: InboundMessage, env: IngestEnv) {
    && s.sourceId == env.sourceId && s.createdAt == env.now && s.communityId == m.communityId
    && s.authorId == m.userId && s.userId == m.userId && s.chatId == m.chatId && s.messageId == m.messageId
    && s.editSeq == m.editSeq && s.route == m.route && s.rawText == m.payload
  }

  /** A first delivery stopped anywhere past its first write has left its message, word for word, under its key. */
  lemma RawRowStays(d: Diary, dl: Delivery, k: nat)
    requires Sound(d) && FreshIds(d, dl.env) && dl.message.Key() !in d.idempotency && k > 0
    ensures var e := CutStep(d, Ingest(dl), k);
            && dl.message.Key() in e.idempotency && e.idempotency[dl.message.Key()] == dl.env.sourceId
            && dl.env.sourceId in e.sources.rows && RawRowOf(e.sources.rows[dl.env.sourceId], dl.message, dl.env)
  {
    OpGuarded(d, Ingest(dl));
    KeptPastFirst(d, Writes(d, Ingest(dl)), k);
    FirstIsSource(d, dl);
    KeptRow(WithSource(d, dl), CutStep(d, Ingest(dl), k), dl);
  }

  lemma KeptPastFirst(d: Diary, ws: seq<Write>, k: nat)
    requires Sound(d) && Guarded(d, ws) && ws != [] && k > 0
    ensures Keeps(Apply(d, ws[0]), ApplyAll(d, Take(ws, k)))
  {
    TakeStep(d, ws, k);
    SoundWrite(d, ws[0]);
    GuardedPrefix(Apply(d, ws[0]), ws[1..], k - 1);
  }

  lemma FirstIsSource(d: Diary, dl: Delivery)
    requires dl.message.Key() !in d.idempotency
    ensures var ws := Writes(d, Ingest(dl)); ws != [] && ws[0] == SaveSource(NewSource(dl))
  {
    assert IngestPlan(d, dl).writes == [SaveSource(NewSource(dl))] + CapturePlan(WithSource(d, dl), dl).writes;
  }

  lemma KeptRow(d: Diary, e: Diary, dl: Delivery)
    requires Keeps(d, e) && dl.env.sourceId in d.sources.rows && d.sources.rows[dl.env.sourceId] == NewSource(dl)
    requires dl.message.Key() in d.idempotency && d.idempotency[dl.message.Key()] == dl.env.sourceId
    ensures dl.message.Key() in e.idempotency && e.idempotency[dl.message.Key()] == dl.env.sourceId
    ensures dl.env.sourceId in e.sources.rows && RawRowOf(e.sources.rows[dl.env.sourceId], dl.message, dl.env)
  {
  }

  // ---- The new revision ----

  /** The note the message was parsed to. */
  predicate NoteRowOf(n: Note, dl: Delivery, parsed: ParsedNote) {
    && n.noteId == dl.env.noteId && n.sourceId == dl.env.sourceId && n.communityId == dl.message.communityId
    && n.authorId == dl.message.userId && n.subjectId == dl.message.subjectId && n.createdAt == dl.env.now
    && n.noteDate == parsed.noteDate && n.noteText == parsed.body && n.state == Active
  }

  predicate ChunkRowOf(c: EventChunk, n: Note, env: IngestEnv) {
    && c.chunkId == env.chunkId && c.noteId == n.noteId && c.sourceId == n.sourceId && c.communityId == n.communityId
    && c.authorId == n.authorId && c.subjectId == n.subjectId && c.createdAt == n.createdAt && c.noteDate == n.noteDate
    && c.chunkText == n.noteText && c.eventIndex == 0 && c.state == Active
  }

  lemma ReplacedIsNewest(d: Diary, dl: Delivery)
    requires Sound(d) && FreshIds(d, dl.env) && dl.message.Key() !in d.idempotency
    ensures var prior := Replaced(d, dl);
            && (prior.note.Some? <==> ActiveNotes(d, MessageOf(dl)) != {})
            && (prior.note.Some? ==> NewestLive(d, MessageOf(dl), prior.note.value.noteId))
  {
    SourceGuarded(d, dl);
    SameLive(d, dl, MessageOf(dl));
    PriorIsNewest(WithSource(d, dl), MessageOf(dl));
  }

  /** Every note but the one replaced stays as it is. */
  ghost predicate OthersStay(before: Notes, after: Notes, replaced: Option<Id>) {
    forall a :: a in before ==>
      a in after && after[a] == if replaced == Some(a) then before[a].(state := Superseded) else before[a]
  }

  lemma NotesRevised(notes: Notes, prior: Prior, n: Note)
    requires n.noteId !in notes && (prior.note.Some? ==> prior.note.value.noteId in notes)
    ensures var after := RetiredNotes(notes[n.noteId := n], prior, Superseded);
            && n.noteId in after && after[n.noteId] == n && after.Keys == notes.Keys + {n.noteId}
            && OthersStay(notes, after, if prior.note.Some? then Some(prior.note.value.noteId) else None)
  {
  }

  /**
   * A captured note says what its message says, and replaces the message's newest live note, if there is
   * one: that note turns Superseded, and no other note changes.
   */
  lemma NoteCaptured(d: Diary, dl: Delivery)
    requires Sound(d) && FreshIds(d, dl.env) && NewRevision(d, dl)
    ensures var e, x := Step(d, Ingest(dl)), MessageOf(dl);
            && e.notes.keys == d.notes.keys + [dl.env.noteId] && dl.env.noteId in e.notes.rows
            && var n := e.notes.rows[dl.env.noteId];
               && NoteRowOf(n, dl, dl.parsed.value)
               && (n.supersedes == None <==> ActiveNotes(d, x) == {})
               && (n.supersedes.Some? ==> NewestLive(d, x, n.supersedes.value))
               && OthersStay(d.notes.rows, e.notes.rows, n.supersedes)
  {
    NoteIngestEffect(d, dl);
    ReplacedIsNewest(d, dl);
    RevisedNotes(d, dl, Step(d, Ingest(dl)));
  }

  lemma RevisedNotes(d: Diary, dl: Delivery, e: Diary)
    requires dl.parsed.Some? && Revised(d, dl, e) && dl.env.noteId !in d.notes.rows
    requires Replaced(d, dl).note.Some? ==> Replaced(d, dl).note.value.noteId in d.notes.rows
    ensures var prior := Replaced(d, dl);
            && e.notes.keys == d.notes.keys + [dl.env.noteId] && dl.env.noteId in e.notes.rows
            && var n := e.notes.rows[dl.env.noteId];
               && NoteRowOf(n, dl, dl.parsed.value) && OthersStay(d.notes.rows, e.notes.rows, n.supersedes)
               && n.supersedes == if prior.note.Some? then Some(prior.note.value.noteId) else None
  {
    NotesRevised(d.notes.rows, Replaced(d, dl), NewNote(dl, dl.parsed.value, Replaced(d, dl).note));
  }

  /** The live chunk of a note, if it has one. */
  ghost predicate LiveChunkOf(chunks: Chunks, noteId: Id, q: Id) {
    q in chunks && chunks[q].noteId == noteId && chunks[q].state == Active
  }

  /** The chunk of the note replaced goes with it; every other chunk stays as it is. */
  ghost predicate ChunksStay(before: Chunks, after: Chunks, replaced: Option<Id>) {
    forall c :: c in before ==>
      c in after && after[c] == if replaced == Some(before[c].noteId) && before[c].state == Active
                                then before[c].(state := Superseded) else before[c]
  }

  /** How the provider left the new chunk. */
  predicate StatusTold(status: EmbeddingStatus, env: IngestEnv) {
    && (status == Ready <==> env.client.Some? && env.embed.Vectors? && |env.embed.vectors| == 1)
    && (status == Failed <==> env.client.Some? && env.embed.EmbedFailed?)
  }

  lemma ChunksRevised(notes: Notes, chunks: Chunks, prior: Prior)
    requires Retirable(notes, chunks, prior)
    ensures prior.chunk.Some? ==> prior.chunk.value.chunkId in chunks
    ensures var after := RetiredChunks(chunks, prior, Superseded);
            after.Keys == chunks.Keys && ChunksStay(chunks, after, PriorId(prior))
  {
  }

  lemma ChunkAdded(notes: Notes, chunks: Chunks, prior: Prior, c: EventChunk, final: EventChunk)
    requires Retirable(notes, chunks, prior) && c.chunkId !in chunks && final.chunkId == c.chunkId
    ensures prior.chunk.Some? ==> prior.chunk.value.chunkId in chunks[c.chunkId := c]
    ensures var after := RetiredChunks(chunks[c.chunkId := c], prior, Superseded)[c.chunkId := final];
            after.Keys == chunks.Keys + {c.chunkId} && after[c.chunkId] == final && ChunksStay(chunks, after, PriorId(prior))
  {
    ChunksRevised(notes, chunks, prior);
  }

  /** The chunk found with the prior note is its live one. */
  lemma LinkIsLive(notes: Notes, chunks: Chunks, prior: Prior)
    requires Retirable(notes, chunks, prior)
    ensures forall q :: prior.chunk.Some? && prior.chunk.value.chunkId == q
                        <==> prior.note.Some? && LiveChunkOf(chunks, prior.note.value.noteId, q)
  {
  }

  /** What an edit replaces, on the store it finds. */
  lemma ReplacedRetirable(d: Diary, dl: Delivery)
    requires Sound(d) && FreshIds(d, dl.env) && dl.message.Key() !in d.idempotency
    ensures Retirable(d.notes.rows, d.chunks.rows, Replaced(d, dl))
  {
    SourceGuarded(d, dl);
    PriorRetirable(WithSource(d, dl), dl.message.chatId, dl.message.messageId, dl.message.communityId);
  }

  /**
   * A captured note with a body has one chunk, live, linked to the live chunk of the note it replaces,
   * with the status the provider's answer calls for; without one it has none. The replaced note's chunk
   * turns Superseded with it, and no other chunk changes.
   */
  lemma ChunkCaptured(d: Diary, dl: Delivery)
    requires Sound(d) && FreshIds(d, dl.env) && NewRevision(d, dl)
    ensures var e := Step(d, Ingest(dl));
            && dl.env.noteId in e.notes.rows
            && var n := e.notes.rows[dl.env.noteId];
               && ChunksStay(d.chunks.rows, e.chunks.rows, n.supersedes)
               && (n.noteText == "" ==> e.chunks.rows.Keys == d.chunks.rows.Keys)
               && (n.noteText != "" ==> NewChunkIn(d.chunks.rows, e.chunks.rows, n, dl.env))
  {
    NoteIngestEffect(d, dl);
    ReplacedIsNewest(d, dl);
    ReplacedRetirable(d, dl);
    RevisedNotes(d, dl, Step(d, Ingest(dl)));
    RevisedChunks(d, dl, Step(d, Ingest(dl)));
  }

  ghost predicate NewChunkIn(before: Chunks, after: Chunks, n: Note, env: IngestEnv) {
    && after.Keys == before.Keys + {env.chunkId}
    && ChunkRowOf(after[env.chunkId], n, env) && StatusTold(after[env.chunkId].status, env)
    && (forall q :: after[env.chunkId].supersedes == Some(q) <==> n.supersedes.Some? && LiveChunkOf(before, n.supersedes.value, q))
  }

  lemma RevisedChunks(d: Diary, dl: Delivery, e: Diary)
    requires dl.parsed.Some? && Revised(d, dl, e) && dl.env.chunkId !in d.chunks.rows && dl.env.noteId in e.notes.rows
    requires Retirable(d.notes.rows, d.chunks.rows, Replaced(d, dl))
    requires NoteRowOf(e.notes.rows[dl.env.noteId], dl, dl.parsed.value)
    requires e.notes.rows[dl.env.noteId].supersedes == PriorId(Replaced(d, dl))
    ensures var n := e.notes.rows[dl.env.noteId];
            && ChunksStay(d.chunks.rows, e.chunks.rows, n.supersedes)
            && (n.noteText == "" ==> e.chunks.rows.Keys == d.chunks.rows.Keys)
            && (n.noteText != "" ==> NewChunkIn(d.chunks.rows, e.chunks.rows, n, dl.env))
  {
    var prior := Replaced(d, dl);
    if dl.parsed.value.body == "" {
      ChunksRevised(d.notes.rows, d.chunks.rows, prior);
    } else {
      BodyChunk(d.notes.rows, d.chunks.rows, prior, e.chunks.rows, e.notes.rows[dl.env.noteId], dl);
    }
  }

  lemma BodyChunk(notes: Notes, chunks: Chunks, prior: Prior, after: Chunks, n: Note, dl: Delivery)
    requires dl.parsed.Some? && NoteRowOf(n, dl, dl.parsed.value) && n.supersedes == PriorId(prior)
    requires Retirable(notes, chunks, prior) && dl.env.chunkId !in chunks
    requires var c := NewChunk(dl, dl.parsed.value, prior.chunk);
             && (prior.chunk.Some? ==> prior.chunk.value.chunkId in chunks[c.chunkId := c])
             && after == RetiredChunks(chunks[c.chunkId := c], prior, Superseded)[c.chunkId := c.(status := FinalStatus(dl.env))]
    ensures ChunksStay(chunks, after, n.supersedes) && NewChunkIn(chunks, after, n, dl.env)
  {
    var c := NewChunk(dl, dl.parsed.value, prior.chunk);
    ChunkAdded(notes, chunks, prior, c, c.(status := FinalStatus(dl.env)));
    LinkIsLive(notes, chunks, prior);
  }

  // ---- The record ----

  /** The vector the provider returned, under the model and for the chunk it was asked about. */
  predicate RecordOf(
    r: EmbeddingRecord, chunkId: Id, sourceId: Id, communityId: Id, client: EmbeddingClient, vector: Vector, now: Time)
  {
    && r.vector == vector && r.modelName == client.modelName && r.dimension == client.dimension && r.createdAt == now
    && r.chunkId == chunkId && r.sourceId == sourceId && r.communityId == communityId
  }

  /** The one vector the provider returned is stored, and nothing else. */
  ghost predicate VectorKept(before: Records, after: Records, env: IngestEnv, communityId: Id) {
    if env.client.Some? && env.embed.Vectors? && |env.embed.vectors| == 1 then
      var key := EmbeddingKey(env.chunkId, env.client.value.modelName);
      && after.Keys == before.Keys + {key} && (forall k :: k in before ==> after[k] == before[k])
      && RecordOf(after[key], env.chunkId, env.sourceId, communityId, env.client.value, env.embed.vectors[0], env.now)
    else after == before
  }

  lemma FinalKept(before: Records, env: IngestEnv, communityId: Id)
    requires forall k :: k in before ==> k.chunkId != env.chunkId
    ensures VectorKept(before, FinalRecords(env, communityId, before), env, communityId)
  {
  }

  /**
   * A completed capture with a body stores exactly the vector its provider returned, under the new chunk
   * and the client's model; without a body, a client or one vector it stores no record.
   */
  lemma VectorStored(d: Diary, dl: Delivery)
    requires Sound(d) && FreshIds(d, dl.env) && NewRevision(d, dl)
    ensures var e := Step(d, Ingest(dl));
            if dl.parsed.value.body == "" then e.embeddings == d.embeddings
            else VectorKept(d.embeddings, e.embeddings, dl.env, dl.message.communityId)
  {
    NoteIngestEffect(d, dl);
    FinalKept(d.embeddings, dl.env, dl.message.communityId);
    RevisedRecords(d, dl, Step(d, Ingest(dl)));
  }

  lemma RevisedRecords(d: Diary, dl: Delivery, e: Diary)
    requires dl.parsed.Some? && Revised(d, dl, e)
    ensures e.embeddings
         == if dl.parsed.value.body == "" then d.embeddings else FinalRecords(dl.env, dl.message.communityId, d.embeddings)
  {
  }

  // ---- The dead letter ----

  predicate LetterOf(
    l: IndexingDeadLetter, letterId: Id, sourceId: Id, communityId: Id, chunkIds: seq<Id>, modelName: string, errorClass: string,
    now: Time)
  {
    && l.letterId == letterId && l.sourceId == sourceId && l.communityId == communityId && l.chunkIds == chunkIds
    && l.modelName == modelName && l.errorClass == errorClass && l.createdAt == now
  }

  /** One letter more, or none. */
  ghost predicate LetterLeft(before: map<Id, IndexingDeadLetter>, after: map<Id, IndexingDeadLetter>, dl: Delivery) {
    var env := dl.env;
    if env.client.Some? && env.embed.EmbedFailed? && env.letterSaved then
      && after.Keys == before.Keys + {env.letterId} && (forall l :: l in before && l != env.letterId ==> after[l] == before[l])
      && LetterOf(after[env.letterId], env.letterId, env.sourceId, dl.message.communityId, [env.chunkId],
                  env.client.value.modelName, env.embed.errorClass, env.now)
    else after == before
  }

  lemma EmbedLetter(d: Diary, dl: Delivery)
    ensures LetterLeft(d.deadLetters, ApplyAll(d, EmbedPlan(dl.env, dl.message.communityId).writes).deadLetters, dl)
  {
    var env := dl.env;
    if env.client.Some? {
      match env.embed
      case EmbedFailed(errorClass) =>
        var mark := SetChunkStatus(env.chunkId, Failed);
        ApplyOne(d, mark);
        ApplyTwo(d, mark, SaveDeadLetter(IngestLetter(env, dl.message.communityId, errorClass)));
      case Vectors(vectors) =>
        if |vectors| == 1 {
          ApplyTwo(d, EmbedPlan(env, dl.message.communityId).writes[0], EmbedPlan(env, dl.message.communityId).writes[1]);
        }
    }
  }

  /** A failed embedding call of a captured note leaves a dead letter that names its chunk, when that write succeeds. */
  lemma LetterStored(d: Diary, dl: Delivery)
    requires Sound(d) && FreshIds(d, dl.env) && NewRevision(d, dl)
    ensures var e := Step(d, Ingest(dl));
            if dl.parsed.value.body == "" then e.deadLetters == d.deadLetters else LetterLeft(d.deadLetters, e.deadLetters, dl)
  {
    var prior := Replaced(d, dl);
    var saves, retires := SaveWrites(dl, dl.parsed.value, prior), RetireWrites(prior, Superseded);
    var embeds := if dl.parsed.value.body == "" then [] else EmbedPlan(dl.env, dl.message.communityId).writes;
    StepPieces(d, dl, saves, retires, embeds);
    BeforeLetters(d, dl);
    EmbedLetter(ApplyAll(ApplyAll(WithSource(d, dl), saves), retires), dl);
  }

  lemma BeforeLetters(d: Diary, dl: Delivery)
    requires Sound(d) && FreshIds(d, dl.env) && NewRevision(d, dl)
    ensures var prior := Replaced(d, dl);
            ApplyAll(ApplyAll(WithSource(d, dl), SaveWrites(dl, dl.parsed.value, prior)), RetireWrites(prior, Superseded)).deadLetters
            == d.deadLetters
  {
    var prior := Replaced(d, dl);
    ReplacedRetirable(d, dl);
    SaveEffect(WithSource(d, dl), dl, dl.parsed.value, prior);
    RetireEffect(ApplyAll(WithSource(d, dl), SaveWrites(dl, dl.parsed.value, prior)), prior, Superseded);
  }

  // ---- A retry ----

  lemma {:induction false} RecordsStored(d: Diary, records: seq<EmbeddingRecord>)
    requires SavableRecords(d, records) == |records|
    ensures var e := ApplyAll(d, SaveRecords(records)).embeddings;
            && (forall k :: k in d.embeddings ==> k in e && e[k] == d.embeddings[k])
            && (forall i :: 0 <= i < |records| ==> records[i].Key() in e && e[records[i].Key()] == records[i])
    decreases |records|
  {
    if records != [] {
      var d' := Apply(d, SaveRecord(records[0]));
      RecordsStored(d', records[1..]);
      assert records[0].Key() in d'.embeddings && d'.embeddings[records[0].Key()] == records[0];
      forall i | 0 < i < |records| ensures records[i] == records[1..][i - 1] {
      }
    }
  }

  lemma {:induction false} StatusesLeaveRecords(d: Diary, chunks: seq<EventChunk>)
    ensures ApplyAll(d, SetStatuses(chunks, Ready)).embeddings == d.embeddings
    decreases |chunks|
  {
    if chunks != [] {
      StatusesLeaveRecords(Apply(d, SetChunkStatus(chunks[0].chunkId, Ready)), chunks[1..]);
    }
  }

  /** The i-th vector of the provider's answer sits under the i-th chunk of the group. */
  ghost predicate VectorsOf(records: Records, communityId: Id, g: Group, env: RetryEnv, vectors: seq<Vector>) {
    && |vectors| == |g.chunks|
    && forall i :: 0 <= i < |g.chunks| ==> VectorAt(records, communityId, g, env, vectors, i)
  }

  ghost predicate VectorAt(records: Records, communityId: Id, g: Group, env: RetryEnv, vectors: seq<Vector>, i: nat)
    requires i < |g.chunks| && i < |vectors|
  {
    var key := EmbeddingKey(g.chunks[i].chunkId, env.client.modelName);
    key in records && RecordOf(records[key], g.chunks[i].chunkId, g.sourceId, communityId, env.client, vectors[i], env.now)
  }

  lemma GroupStores(d: Diary, communityId: Id, g: Group, env: RetryEnv, ge: GroupEnv)
    requires RetryGroup(d, communityId, g, env, ge).outcome.succeeded
    ensures ge.embed.Vectors?
    ensures VectorsOf(ApplyAll(d, RetryGroup(d, communityId, g, env, ge).writes).embeddings, communityId, g, env, ge.embed.vectors)
  {
    var records := GroupRecords(g, communityId, env.now, env.client, ge.embed.vectors, ge.recordIds);
    RecordsStored(d, records);
    var mid := ApplyAll(d, SaveRecords(records));
    ApplyConcat(d, SaveRecords(records), SetStatuses(g.chunks, Ready));
    StatusesLeaveRecords(mid, g.chunks);
    forall i | 0 <= i < |g.chunks| ensures VectorAt(mid.embeddings, communityId, g, env, ge.embed.vectors, i) {
      assert records[i].Key() in mid.embeddings;
    }
  }

  /** A group whose call or writes fail is reported with the error and leaves a letter, when that write succeeds. */
  ghost predicate FailureTold(letters: map<Id, IndexingDeadLetter>, communityId: Id, g: Group, env: RetryEnv, ge: GroupEnv, o: GroupOutcome) {
    var errorClass := if ge.embed.EmbedFailed? then ge.embed.errorClass else "ValueError";
    && o.errorClass == Some(errorClass) && o.letterId == (if ge.letterSaved then Some(ge.letterId) else None)
    && (ge.letterSaved ==>
          ge.letterId in letters
          && LetterOf(letters[ge.letterId], ge.letterId, g.sourceId, communityId, ChunkIds(g.chunks), env.client.modelName,
                      errorClass, env.now))
  }

  lemma GroupTells(d: Diary, communityId: Id, g: Group, env: RetryEnv, ge: GroupEnv)
    requires !RetryGroup(d, communityId, g, env, ge).outcome.succeeded
    ensures var p := RetryGroup(d, communityId, g, env, ge);
            FailureTold(ApplyAll(d, p.writes).deadLetters, communityId, g, env, ge, p.outcome)
  {
    var errorClass := if ge.embed.EmbedFailed? then ge.embed.errorClass else "ValueError";
    var letters := LetterWrites(g, communityId, env, ge, errorClass);
    var saved := if ge.embed.Vectors? && |ge.embed.vectors| == |g.chunks| then
                   SaveRecords(GroupRecords(g, communityId, env.now, env.client, ge.embed.vectors, ge.recordIds)
                               [..SavableRecords(d, GroupRecords(g, communityId, env.now, env.client, ge.embed.vectors, ge.recordIds))])
                 else [];
    assert RetryGroup(d, communityId, g, env, ge).writes == saved + letters;
    ApplyConcat(d, saved, letters);
    if ge.letterSaved {
      ApplyOne(ApplyAll(d, saved), letters[0]);
    }
  }

  // ---- The whole retry ----

  /** What a pass stored and reported. */
  ghost predicate PassTold(e: Diary, communityId: Id, groups: seq<Group>, env: RetryEnv, outcomes: seq<GroupOutcome>, i: nat)
    requires i < |groups| && i < |outcomes|
  {
    var ge := env.groups(i);
    && outcomes[i].sourceId == groups[i].sourceId && outcomes[i].chunkIds == ChunkIds(groups[i].chunks)
    && (outcomes[i].succeeded ==> ge.embed.Vectors? && VectorsOf(e.embeddings, communityId, groups[i], env, ge.embed.vectors)
                                  && outcomes[i].errorClass == None && outcomes[i].letterId == None)
    && (!outcomes[i].succeeded ==> FailureTold(e.deadLetters, communityId, groups[i], env, ge, outcomes[i]))
  }

  lemma GroupTold(d: Diary, communityId: Id, groups: seq<Group>, env: RetryEnv, n: nat)
    requires n < |groups|
    ensures var r := RetryUpTo(d, communityId, groups, env, n + 1);
            PassTold(ApplyAll(d, r.writes), communityId, groups, env, r.outcomes, n)
  {
    var before := RetryUpTo(d, communityId, groups, env, n);
    var e := ApplyAll(d, before.writes);
    var p := RetryGroup(e, communityId, groups[n], env, env.groups(n));
    ApplyConcat(d, before.writes, p.writes);
    if p.outcome.succeeded {
      GroupStores(e, communityId, groups[n], env, env.groups(n));
    } else {
      GroupTells(e, communityId, groups[n], env, env.groups(n));
    }
  }

  /** What a pass left stays through the passes after it. */
  lemma ToldStays(
    e: Diary, f: Diary, communityId: Id, groups: seq<Group>, env: RetryEnv, outcomes: seq<GroupOutcome>, more: seq<GroupOutcome>,
    i: nat)
    requires i < |outcomes| <= |groups| && i < |more| && more[i] == outcomes[i] && Keeps(e, f)
    requires PassTold(e, communityId, groups, env, outcomes, i)
    ensures PassTold(f, communityId, groups, env, more, i)
  {
    if outcomes[i].succeeded {
      var vectors := env.groups(i).embed.vectors;
      forall j | 0 <= j < |groups[i].chunks| ensures VectorAt(f.embeddings, communityId, groups[i], env, vectors, j) {
        assert VectorAt(e.embeddings, communityId, groups[i], env, vectors, j);
      }
    }
  }

  ghost predicate AllTold(e: Diary, communityId: Id, groups: seq<Group>, env: RetryEnv, outcomes: seq<GroupOutcome>)
    requires |outcomes| <= |groups|
  {
    forall i :: 0 <= i < |outcomes| ==> PassTold(e, communityId, groups, env, outcomes, i)
  }

  lemma AllStay(
    e: Diary, f: Diary, communityId: Id, groups: seq<Group>, env: RetryEnv, outcomes: seq<GroupOutcome>, next: GroupOutcome)
    requires |outcomes| < |groups| && AllTold(e, communityId, groups, env, outcomes) && Keeps(e, f)
    requires PassTold(f, communityId, groups, env, outcomes + [next], |outcomes|)
    ensures AllTold(f, communityId, groups, env, outcomes + [next])
  {
    forall i | 0 <= i < |outcomes| ensures PassTold(f, communityId, groups, env, outcomes + [next], i) {
      ToldStays(e, f, communityId, groups, env, outcomes, outcomes + [next], i);
    }
  }

  lemma LastOutcome(d: Diary, communityId: Id, groups: seq<Group>, env: RetryEnv, n: nat)
    requires n < |groups|
    ensures var o := RetryUpTo(d, communityId, groups, env, n + 1).outcomes;
            o == RetryUpTo(d, communityId, groups, env, n).outcomes + [o[n]]
  {
  }

  lemma {:induction false} PassesTold(d: Diary, communityId: Id, groups: seq<Group>, env: RetryEnv, n: nat)
    requires Sound(d) && FreshLetters(d, env) && n <= |groups|
    requires forall g :: g in groups ==> Embeddable(d.chunks.rows, communityId, g)
    ensures var r := RetryUpTo(d, communityId, groups, env, n);
            AllTold(ApplyAll(d, r.writes), communityId, groups, env, r.outcomes)
  {
    if n > 0 {
      var before := n - 1;
      PassesTold(d, communityId, groups, env, before);
      GroupTold(d, communityId, groups, env, before);
      PassKeeps(d, communityId, groups, env, before);
      LastOutcome(d, communityId, groups, env, before);
      var r, more := RetryUpTo(d, communityId, groups, env, before), RetryUpTo(d, communityId, groups, env, n);
      AllStay(ApplyAll(d, r.writes), ApplyAll(d, more.writes), communityId, groups, env, r.outcomes, more.outcomes[before]);
    }
  }

  lemma PassKeeps(d: Diary, communityId: Id, groups: seq<Group>, env: RetryEnv, n: nat)
    requires Sound(d) && FreshLetters(d, env) && n < |groups|
    requires forall g :: g in groups ==> Embeddable(d.chunks.rows, communityId, g)
    ensures Keeps(ApplyAll(d, RetryUpTo(d, communityId, groups, env, n).writes),
                  ApplyAll(d, RetryUpTo(d, communityId, groups, env, n + 1).writes))
  {
    var before := RetryUpTo(d, communityId, groups, env, n).writes;
    var e := ApplyAll(d, before);
    RetryUpToGuarded(d, communityId, groups, env, n);
    GuardedAll(d, before);
    EmbeddableStill(d, e, communityId, groups[n]);
    LetterStillFresh(d, communityId, groups, env, n);
    var p := RetryGroup(e, communityId, groups[n], env, env.groups(n));
    RetryGroupGuarded(e, communityId, groups[n], env, env.groups(n));
    GuardedAll(e, p.writes);
    ApplyConcat(d, before, p.writes);
  }

  /**
   * After a retry every group that succeeded has its provider's vectors, chunk by chunk, and every group
   * that failed is told with its error and its letter.
   */
  lemma RetryStores(d: Diary, communityId: Id, limit: Option<nat>, env: RetryEnv)
    requires Sound(d) && FreshLetters(d, env) && communityId != ""
    ensures var groups, plan := Groups(FailedChunks(d, communityId, limit)), RetryPlan(d, communityId, limit, env);
            && plan.result.Ok? && |plan.result.value| == |groups|
            && AllTold(Step(d, Retry(communityId, limit, env)), communityId, groups, env, plan.result.value)
  {
    var groups := Groups(FailedChunks(d, communityId, limit));
    ListedEmbeddable(d, communityId, limit);
    PassesTold(d, communityId, groups, env, |groups|);
  }
}
