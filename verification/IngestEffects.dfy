/** What a completed operation leaves behind, row by row. */
module IngestEffects {
  import opened Diary
  import opened GuardedPlans
  import opened Lifecycle
  import opened Models
  import opened Plans
  import opened Tables
  import opened Wrappers

  /** How the embedding step of an ingest leaves its chunk. */
  function FinalStatus(env: IngestEnv): EmbeddingStatus {
    if env.client == None then Pending
    else if env.embed.EmbedFailed? then Failed
    else if |env.embed.vectors| == 1 then Ready
    else Pending
  }

  function FinalRecords(env: IngestEnv, communityId: Id, records: Records): Records {
    if FinalStatus(env) != Ready then records
    else
      var r := NewRecord(env.recordId, env.chunkId, env.sourceId, communityId, env.client.value, env.embed.vectors[0], env.now);
      records[r.Key() := r]
  }

  lemma EmbedEffect(d: Diary, env: IngestEnv, communityId: Id)
    requires env.chunkId in d.chunks.rows && d.chunks.rows[env.chunkId].status == Pending
    ensures var e := ApplyAll(d, EmbedPlan(env, communityId).writes);
            && e.sources == d.sources && e.idempotency == d.idempotency && e.notes == d.notes
            && e.chunks == Put(d.chunks, env.chunkId, d.chunks.rows[env.chunkId].(status := FinalStatus(env)))
            && e.embeddings == FinalRecords(env, communityId, d.embeddings)
  {
    if env.client == None {
    } else if env.embed.EmbedFailed? {
      var mark := SetChunkStatus(env.chunkId, Failed);
      var letter := SaveDeadLetter(IngestLetter(env, communityId, env.embed.errorClass));
      ApplyOne(d, mark);
      ApplyTwo(d, mark, letter);
    } else if |env.embed.vectors| == 1 {
      var r := NewRecord(env.recordId, env.chunkId, env.sourceId, communityId, env.client.value, env.embed.vectors[0], env.now);
      ApplyTwo(d, SaveRecord(r), SetChunkStatus(env.chunkId, Ready));
    }
  }

  /** A delivery that will be captured as a note. */
  predicate NewRevision(d: Diary, dl: Delivery) {
    && dl.message.Key() !in d.idempotency && dl.message.route != DraftRoute
    && dl.parsed.Some? && dl.message.communityId != ""
  }

  function WithSource(d: Diary, dl: Delivery): Diary {
    Apply(d, SaveSource(NewSource(dl)))
  }

  /** What a delivery replaces: the live revision of its message, seen once its own row is in place. */
  function Replaced(d: Diary, dl: Delivery): Prior {
    PriorFor(WithSource(d, dl), dl.message.chatId, dl.message.messageId, dl.message.communityId)
  }

  function SavedNotes(d: Diary, dl: Delivery): Notes
    requires dl.parsed.Some?
  {
    d.notes.rows[dl.env.noteId := NewNote(dl, dl.parsed.value, Replaced(d, dl).note)]
  }

  function SavedChunks(d: Diary, dl: Delivery): Chunks
    requires dl.parsed.Some?
  {
    if dl.parsed.value.body == "" then d.chunks.rows
    else d.chunks.rows[dl.env.chunkId := NewChunk(dl, dl.parsed.value, Replaced(d, dl).chunk)]
  }

  /** The rows after a completed NOTE ingest. */
  ghost predicate Revised(d: Diary, dl: Delivery, e: Diary)
    requires dl.parsed.Some?
  {
    var prior := Replaced(d, dl);
    var notes, chunks := SavedNotes(d, dl), SavedChunks(d, dl);
    && (prior.note.Some? ==> prior.note.value.noteId in notes)
    && (prior.chunk.Some? ==> prior.chunk.value.chunkId in chunks && prior.chunk.value.chunkId != dl.env.chunkId)
    && e.sources == Put(d.sources, dl.env.sourceId, NewSource(dl))
    && e.idempotency == d.idempotency[dl.message.Key() := dl.env.sourceId]
    && e.notes.rows == RetiredNotes(notes, prior, Superseded)
    && e.notes.keys == d.notes.keys + [dl.env.noteId]
    && (if dl.parsed.value.body == "" then
          e.chunks.rows == RetiredChunks(chunks, prior, Superseded) && e.embeddings == d.embeddings
        else
          && e.chunks.rows == RetiredChunks(chunks, prior, Superseded)
               [dl.env.chunkId := NewChunk(dl, dl.parsed.value, prior.chunk).(status := FinalStatus(dl.env))]
          && e.embeddings == FinalRecords(dl.env, dl.message.communityId, d.embeddings))
  }

  /** The rows once the note and its chunk are saved and the prior revision is retired. */
  ghost predicate ReadyToEmbed(d: Diary, dl: Delivery, e: Diary)
    requires dl.parsed.Some?
  {
    var prior := Replaced(d, dl);
    var notes, chunks := SavedNotes(d, dl), SavedChunks(d, dl);
    && (prior.note.Some? ==> prior.note.value.noteId in notes)
    && (prior.chunk.Some? ==> prior.chunk.value.chunkId in chunks && prior.chunk.value.chunkId != dl.env.chunkId)
    && e.sources == Put(d.sources, dl.env.sourceId, NewSource(dl))
    && e.idempotency == d.idempotency[dl.message.Key() := dl.env.sourceId]
    && e.notes.rows == RetiredNotes(notes, prior, Superseded) && e.notes.keys == d.notes.keys + [dl.env.noteId]
    && e.chunks.rows == RetiredChunks(chunks, prior, Superseded) && e.embeddings == d.embeddings
  }

  lemma SavedAndRetired(d: Diary, dl: Delivery)
    requires Sound(d) && FreshIds(d, dl.env) && NewRevision(d, dl)
    ensures var prior := Replaced(d, dl);
            ReadyToEmbed(d, dl, ApplyAll(ApplyAll(WithSource(d, dl), SaveWrites(dl, dl.parsed.value, prior)), RetireWrites(prior, Superseded)))
  {
    var parsed, prior, m := dl.parsed.value, Replaced(d, dl), dl.message;
    var d1 := WithSource(d, dl);
    SourceGuarded(d, dl);
    PriorRetirable(d1, m.chatId, m.messageId, m.communityId);
    SaveEffect(d1, dl, parsed, prior);
    RetireEffect(ApplyAll(d1, SaveWrites(dl, parsed, prior)), prior, Superseded);
  }

  lemma NoteIngestEffect(d: Diary, dl: Delivery)
    requires Sound(d) && FreshIds(d, dl.env) && NewRevision(d, dl)
    ensures Revised(d, dl, Step(d, Ingest(dl)))
  {
    var parsed, prior := dl.parsed.value, Replaced(d, dl);
    var saves, retires := SaveWrites(dl, parsed, prior), RetireWrites(prior, Superseded);
    var embeds := if parsed.body == "" then [] else EmbedPlan(dl.env, dl.message.communityId).writes;
    SavedAndRetired(d, dl);
    StepPieces(d, dl, saves, retires, embeds);
    EmbeddedLast(d, dl, ApplyAll(ApplyAll(WithSource(d, dl), saves), retires));
  }

  lemma EmbeddedLast(d: Diary, dl: Delivery, mid: Diary)
    requires dl.parsed.Some? && ReadyToEmbed(d, dl, mid)
    ensures var embeds := if dl.parsed.value.body == "" then [] else EmbedPlan(dl.env, dl.message.communityId).writes;
            Revised(d, dl, ApplyAll(mid, embeds))
  {
    if dl.parsed.value.body != "" {
      assert mid.chunks.rows[dl.env.chunkId] == NewChunk(dl, dl.parsed.value, Replaced(d, dl).chunk);
      EmbedEffect(mid, dl.env, dl.message.communityId);
    }
  }

  lemma StepPieces(d: Diary, dl: Delivery, saves: seq<Write>, retires: seq<Write>, embeds: seq<Write>)
    requires NewRevision(d, dl)
    requires saves == SaveWrites(dl, dl.parsed.value, Replaced(d, dl)) && retires == RetireWrites(Replaced(d, dl), Superseded)
    requires embeds == if dl.parsed.value.body == "" then [] else EmbedPlan(dl.env, dl.message.communityId).writes
    ensures Writes(d, Ingest(dl)) == [SaveSource(NewSource(dl))] + (saves + retires + embeds)
    ensures Step(d, Ingest(dl)) == ApplyAll(ApplyAll(ApplyAll(WithSource(d, dl), saves), retires), embeds)
  {
    var save := SaveSource(NewSource(dl));
    ApplyOne(d, save);
    ApplyConcat(d, [save], saves + retires + embeds);
    ApplyConcat(WithSource(d, dl), saves, retires);
    ApplyConcat(WithSource(d, dl), saves + retires, embeds);
  }

  /** A draft delivery or a delete retires the live revision and writes nothing else but its own raw row. */
  lemma DraftIngestEffect(d: Diary, dl: Delivery)
    requires dl.message.Key() !in d.idempotency && dl.message.route == DraftRoute && dl.message.communityId != ""
    ensures Step(d, Ingest(dl)) == ApplyAll(WithSource(d, dl), RetireWrites(Replaced(d, dl), Tombstoned))
  {
    var save := SaveSource(NewSource(dl));
    ApplyOne(d, save);
    ApplyConcat(d, [save], RetireWrites(Replaced(d, dl), Tombstoned));
  }

  /** Every other delivery leaves at most its raw row. */
  lemma OtherIngestEffect(d: Diary, dl: Delivery)
    requires !NewRevision(d, dl) && !(dl.message.Key() !in d.idempotency && dl.message.route == DraftRoute && dl.message.communityId != "")
    ensures Step(d, Ingest(dl)) == if dl.message.Key() in d.idempotency then d else WithSource(d, dl)
  {
    ApplyOne(d, SaveSource(NewSource(dl)));
    assert [SaveSource(NewSource(dl))] + [] == [SaveSource(NewSource(dl))];
  }
}
