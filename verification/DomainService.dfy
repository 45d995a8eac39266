/** Capture, edit, removal and hard delete of notes (`services/domain_service.py`). */
module DomainService {
  import opened Diary
  import opened MockDomainStore
  import opened Models
  import opened NoteParser
  import opened Plans
  import opened Sorting
  import opened Tables
  import opened Wrappers

  class Service {
    const store: Store
    const isoFallback: IsoFallback

    constructor (store: Store, isoFallback: IsoFallback)
      ensures this.store == store && this.isoFallback == isoFallback
    {
      this.store := store;
      this.isoFallback := isoFallback;
    }

    function DeliveryOf(message: InboundMessage, env: IngestEnv): Delivery {
      Delivery(message, ParseNote(message.payload, isoFallback), env)
    }

    method Ingest(message: InboundMessage, env: IngestEnv) returns (r: Result<IngestResult, StoreError>)
      requires Consistent(store.State()) && FreshIds(store.State(), env)
      modifies store
      ensures r == IngestPlan(old(store.State()), DeliveryOf(message, env)).result
      ensures store.Wrote(IngestPlan(old(store.State()), DeliveryOf(message, env)).writes)
    {
      ghost var d0 := store.State();
      ghost var dl := DeliveryOf(message, env);
      var candidate := SourceMessage(
        env.sourceId, message.communityId, message.userId, message.chatId, message.userId, message.messageId,
        message.editSeq, message.payload, message.route, env.now);
      var persisted, replayed := store.GetOrCreateSourceMessage(candidate);
      if replayed {
        var result := ReconstructResult(persisted);
        return Ok(result);
      }
      FreshIngest(d0, dl);
      Associate(old(store.journal), [SaveSource(candidate)], CapturePlan(store.State(), dl).writes);
      r := ProcessFresh(message, env);
    }

    /** What follows the raw row of a delivery not seen before. */
    method ProcessFresh(message: InboundMessage, env: IngestEnv) returns (r: Result<IngestResult, StoreError>)
      requires Consistent(store.State()) && FreshDerivedIds(store.State(), env)
      modifies store
      ensures r == CapturePlan(old(store.State()), DeliveryOf(message, env)).result
      ensures store.Wrote(CapturePlan(old(store.State()), DeliveryOf(message, env)).writes)
    {
      if message.route == DraftRoute {
        var removed := TombstoneActiveNote(message.chatId, message.messageId, message.communityId);
        if removed.Raised? {
          return Raised(removed.error);
        }
        return Ok(IngestResult(NoFallback, env.sourceId, None, 0, None, false));
      }
      var parsed := ParseNote(message.payload, isoFallback);
      if parsed == None {
        return Ok(IngestResult(InvalidInput, env.sourceId, None, 0, Some(FirstLine(message.payload)), false));
      }
      r := Capture(message, parsed.value, env);
    }

    /** The NOTE path: save the new revision, retire the prior one, embed. */
    method Capture(message: InboundMessage, parsed: ParsedNote, env: IngestEnv) returns (r: Result<IngestResult, StoreError>)
      requires message.route != DraftRoute
      requires Consistent(store.State()) && FreshDerivedIds(store.State(), env)
      modifies store
      ensures r == CapturePlan(old(store.State()), Delivery(message, Some(parsed), env)).result
      ensures store.Wrote(CapturePlan(old(store.State()), Delivery(message, Some(parsed), env)).writes)
    {
      ghost var d0 := store.State();
      ghost var dl := Delivery(message, Some(parsed), env);
      var communityId := message.communityId;
      var found := store.GetActiveNoteForExternalMessage(message.chatId, message.messageId, communityId);
      if found.Raised? {
        return Raised(found.error);
      }
      var priorNote := found.value;
      var priorChunk: Option<EventChunk> := None;
      if priorNote.Some? {
        var c := store.GetActiveChunkForNote(priorNote.value.noteId, communityId);
        priorChunk := c.value;
      }
      ghost var prior := PriorFor(d0, message.chatId, message.messageId, communityId);
      PriorIsStored(d0, message.chatId, message.messageId, communityId);
      NotePlan(d0, dl, parsed);
      ghost var saves, retires := SaveWrites(dl, parsed, prior), RetireWrites(prior, Superseded);
      Associate(old(store.journal), saves, retires);
      Associate(old(store.journal), saves + retires, if parsed.body == "" then [] else EmbedPlan(env, communityId).writes);
      SaveRevision(message, parsed, env, priorNote, priorChunk);
      RetirePrior(priorNote, priorChunk, communityId, Superseded);
      var embedded: Result<(), StoreError> := Ok(());
      if parsed.body != "" && env.client.Some? {
        embedded := EmbedChunks(message, env);
      }
      r := if embedded.Raised? then Raised(embedded.error)
           else Ok(IngestResult(NoFallback, env.sourceId, Some(parsed.noteDate), if parsed.body == "" then 0 else 1, None, false));
    }

    /** The new active revision, linked to the one it replaces. */
    method SaveRevision(
      message: InboundMessage, parsed: ParsedNote, env: IngestEnv, priorNote: Option<Note>, priorChunk: Option<EventChunk>)
      requires env.noteId !in store.notes.rows && env.chunkId !in store.chunks.rows
      modifies store
      ensures store.Wrote(SaveWrites(Delivery(message, Some(parsed), env), parsed, Prior(priorNote, priorChunk)))
      ensures store.embeddings == old(store.embeddings) && store.deadLetters == old(store.deadLetters)
      ensures forall id :: id in old(store.notes.rows) ==> id in store.notes.rows && store.notes.rows[id] == old(store.notes.rows[id])
      ensures forall id :: id in old(store.chunks.rows) ==> id in store.chunks.rows && store.chunks.rows[id] == old(store.chunks.rows[id])
      ensures parsed.body != "" ==> env.chunkId in store.chunks.rows
    {
      ghost var d0 := store.State();
      var note := Note(
        env.noteId, env.sourceId, message.communityId, message.userId, parsed.noteDate, parsed.body, env.now,
        message.subjectId, Active, if priorNote.Some? then Some(priorNote.value.noteId) else None);
      store.SaveNote(note);
      var chunks := if parsed.body == "" then [] else [EventChunk(
        env.chunkId, env.noteId, env.sourceId, message.communityId, message.userId, parsed.noteDate, 0, parsed.body,
        env.now, Pending, message.subjectId, Active,
        if priorChunk.Some? then Some(priorChunk.value.chunkId) else None)];
      ApplyOne(d0, Write.SaveNote(note));
      if chunks != [] {
        ApplyOne(store.State(), SaveChunk(chunks[0]));
        ApplyPair(d0, Write.SaveNote(note), SaveChunk(chunks[0]));
      }
      store.SaveEventChunks(chunks);
    }

    /** Chunk before note, so that retrieval sees the change first. */
    method RetirePrior(note: Option<Note>, chunk: Option<EventChunk>, communityId: Id, state: LifecycleState)
      requires communityId != "" && (chunk.Some? ==> note.Some?)
      requires note.Some? ==> note.value.noteId in store.notes.rows && store.notes.rows[note.value.noteId].communityId == communityId
      requires chunk.Some? ==> chunk.value.chunkId in store.chunks.rows && store.chunks.rows[chunk.value.chunkId].communityId == communityId
      modifies store
      ensures store.Wrote(RetireWrites(Prior(note, chunk), state))
      ensures store.chunks.keys == old(store.chunks.keys) && store.embeddings == old(store.embeddings)
      ensures store.deadLetters == old(store.deadLetters)
    {
      ghost var d0 := store.State();
      if chunk.Some? {
        var marked := store.MarkChunk(chunk.value.chunkId, communityId, state);
      }
      ghost var d1 := store.State();
      if note.Some? {
        var marked := store.MarkNote(note.value.noteId, communityId, state);
        ghost var flip := SetNoteState(note.value.noteId, state);
        ApplyOne(d1, flip);
        if chunk.Some? {
          ApplyOne(d0, SetChunkState(chunk.value.chunkId, state));
          ApplyTwo(d0, SetChunkState(chunk.value.chunkId, state), flip);
        }
      }
    }

    /** `_embed_chunks` over the one chunk an ingest saves. */
    method EmbedChunks(message: InboundMessage, env: IngestEnv) returns (r: Result<(), StoreError>)
      requires env.client.Some? && env.chunkId in store.chunks.rows
      requires forall k :: k in store.embeddings ==> k.chunkId != env.chunkId
      requires env.letterId !in store.deadLetters
      modifies store
      ensures r == EmbedPlan(env, message.communityId).result
      ensures store.Wrote(EmbedPlan(env, message.communityId).writes)
    {
      ghost var d0 := store.State();
      match env.embed {
        case EmbedFailed(errorClass) =>
          var marked := store.SetChunkEmbeddingStatus(env.chunkId, Failed);
          if env.letterSaved {
            var letter := IndexingDeadLetter(
              env.letterId, env.sourceId, message.communityId, [env.chunkId], env.client.value.modelName, errorClass, env.now);
            var saved := store.SaveIndexingDeadLetter(letter);
            ApplyPair(d0, SetChunkStatus(env.chunkId, Failed), SaveDeadLetter(letter));
          }
          return Ok(());
        case Vectors(vectors) =>
          if |vectors| != 1 {
            return Raised(ValueError);
          }
          var record := NewRecord(
            env.recordId, env.chunkId, env.sourceId, message.communityId, env.client.value, vectors[0], env.now);
          var saved := store.SaveEmbeddingRecord(record);
          var marked := store.SetChunkEmbeddingStatus(env.chunkId, Ready);
          ApplyPair(d0, SaveRecord(record), SetChunkStatus(env.chunkId, Ready));
          return Ok(());
      }
    }

    method ReconstructResult(source: SourceMessage) returns (r: IngestResult)
      ensures r == Reconstruct(store.State(), source)
    {
      if source.route == DraftRoute {
        return IngestResult(NoFallback, source.sourceId, None, 0, None, true);
      }
      var note := store.GetNoteBySourceMessageId(source.sourceId);
      if note == None {
        return IngestResult(InvalidInput, source.sourceId, None, 0, Some(FirstLine(source.rawText)), true);
      }
      var eventsCount := store.CountEventChunksForSource(source.sourceId);
      return IngestResult(NoFallback, source.sourceId, Some(note.value.noteDate), eventsCount, None, true);
    }

    /** `_tombstone_active_note_for_external_message` */
    method TombstoneActiveNote(chatId: Id, messageId: Id, communityId: Id) returns (r: Result<Option<Note>, StoreError>)
      requires Consistent(store.State())
      modifies store
      ensures communityId == "" ==> r == Raised(ValueError) && store.Wrote([])
      ensures communityId != "" ==>
                var prior := PriorFor(old(store.State()), chatId, messageId, communityId);
                r == Ok(prior.note) && store.Wrote(RetireWrites(prior, Tombstoned))
    {
      var found := store.GetActiveNoteForExternalMessage(chatId, messageId, communityId);
      if found.Raised? {
        return Raised(found.error);
      }
      if found.value == None {
        return Ok(None);
      }
      var note := found.value.value;
      var chunk := store.GetActiveChunkForNote(note.noteId, communityId);
      PriorIsStored(store.State(), chatId, messageId, communityId);
      RetirePrior(Some(note), chunk.value, communityId, Tombstoned);
      return Ok(Some(note));
    }

    method DeleteNoteForExternalMessage(chatId: Id, messageId: Id, communityId: Id)
      returns (r: Result<DeleteOutcome, StoreError>)
      requires Consistent(store.State())
      modifies store
      ensures r == DeletePlan(old(store.State()), chatId, messageId, communityId).result
      ensures store.Wrote(DeletePlan(old(store.State()), chatId, messageId, communityId).writes)
    {
      var removed := TombstoneActiveNote(chatId, messageId, communityId);
      if removed.Raised? {
        return Raised(removed.error);
      }
      if removed.value == None {
        return Ok(DeleteOutcome(false, None));
      }
      return Ok(DeleteOutcome(true, Some(removed.value.value.noteDate)));
    }
  }

  /** A fresh delivery writes its raw row and then what the state with that row calls for. */
  lemma FreshIngest(d: Diary, dl: Delivery)
    requires Consistent(d) && FreshIds(d, dl.env) && dl.message.Key() !in d.idempotency
    ensures var save := SaveSource(NewSource(dl));
            var d1, plan := ApplyAll(d, [save]), IngestPlan(d, dl);
            var rest := CapturePlan(d1, dl);
            && plan.writes == [save] + rest.writes && plan.result == rest.result
            && ApplyAll(d, plan.writes) == ApplyAll(d1, rest.writes)
            && Consistent(d1) && FreshDerivedIds(d1, dl.env)
  {
    var save := SaveSource(NewSource(dl));
    ApplyOne(d, save);
    ApplyConcat(d, [save], CapturePlan(Apply(d, save), dl).writes);
  }

  /** The writes of the NOTE path, piece by piece. */
  lemma NotePlan(d: Diary, dl: Delivery, parsed: ParsedNote)
    requires dl.message.route != DraftRoute && dl.parsed == Some(parsed) && dl.message.communityId != ""
    ensures var plan := CapturePlan(d, dl);
            var prior := PriorFor(d, dl.message.chatId, dl.message.messageId, dl.message.communityId);
            var saves, retires := SaveWrites(dl, parsed, prior), RetireWrites(prior, Superseded);
            var embed := if parsed.body == "" then Plan([], Ok(())) else EmbedPlan(dl.env, dl.message.communityId);
            && plan.writes == saves + retires + embed.writes
            && ApplyAll(d, plan.writes) == ApplyAll(ApplyAll(ApplyAll(d, saves), retires), embed.writes)
  {
    var prior := PriorFor(d, dl.message.chatId, dl.message.messageId, dl.message.communityId);
    var saves, retires := SaveWrites(dl, parsed, prior), RetireWrites(prior, Superseded);
    var embed := if parsed.body == "" then Plan([], Ok(())) else EmbedPlan(dl.env, dl.message.communityId);
    ApplyConcat(d, saves, retires);
    ApplyConcat(d, saves + retires, embed.writes);
  }

  /** What an operation retires is in the store, under its own id and in the asker's community. */
  lemma PriorIsStored(d: Diary, chatId: Id, messageId: Id, communityId: Id)
    requires Consistent(d)
    ensures var prior := PriorFor(d, chatId, messageId, communityId);
            && (prior.note.Some? ==>
                  var n := prior.note.value;
                  n.noteId in d.notes.rows && d.notes.rows[n.noteId] == n && ActiveNoteOf(d, n, chatId, messageId, communityId))
            && (prior.chunk.Some? ==>
                  var c := prior.chunk.value;
                  && prior.note.Some?
                  && c.chunkId in d.chunks.rows && d.chunks.rows[c.chunkId] == c
                  && ActiveChunkOf(c, prior.note.value.noteId, communityId))
  {
    ActiveNoteIs(d, chatId, messageId, communityId);
    var prior := PriorFor(d, chatId, messageId, communityId);
    if prior.note.Some? {
      ActiveChunkIs(d, prior.note.value.noteId, communityId);
    }
  }
}
