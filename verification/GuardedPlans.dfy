/** Every operation writes only what the structural invariant allows, in an order that keeps it. */
module GuardedPlans {
  import opened Diary
  import opened Lifecycle
  import opened Models
  import opened Plans
  import opened Reconciliation
  import opened Tables
  import opened Wrappers

  lemma SoundIsConsistent(d: Diary)
    requires Sound(d)
    ensures Consistent(d)
  {
  }

  // ---- Retiring the prior revision ----

  /** The prior revision is live, and its chunk is the only one that shows it. */
  ghost predicate Retirable(notes: Notes, chunks: Chunks, prior: Prior) {
    && (prior.note == None ==> prior.chunk == None)
    && (prior.note.Some? ==>
          var id := prior.note.value.noteId;
          && id in notes && notes[id].state == Active
          && (prior.chunk.Some? ==>
                var c := prior.chunk.value.chunkId;
                c in chunks && chunks[c].state == Active && chunks[c].noteId == id)
          && (forall c :: c in chunks && chunks[c].noteId == id && chunks[c].state == Active ==>
                prior.chunk.Some? && prior.chunk.value.chunkId == c))
  }

  lemma PriorRetirable(d: Diary, chatId: Id, messageId: Id, communityId: Id)
    requires Sound(d)
    ensures Retirable(d.notes.rows, d.chunks.rows, PriorFor(d, chatId, messageId, communityId))
  {
    var prior := PriorFor(d, chatId, messageId, communityId);
    ActiveNoteIs(d, chatId, messageId, communityId);
    if prior.note.Some? {
      var n := prior.note.value;
      ActiveChunkIs(d, n.noteId, communityId);
      forall c | c in d.chunks.rows && d.chunks.rows[c].noteId == n.noteId && d.chunks.rows[c].state == Active
        ensures prior.chunk.Some? && prior.chunk.value.chunkId == c
      {
        assert ActiveChunkOf(d.chunks.rows[c], n.noteId, communityId);
      }
    }
  }

  lemma RetireGuarded(d: Diary, prior: Prior, state: LifecycleState)
    requires Retirable(d.notes.rows, d.chunks.rows, prior) && state != Active
    ensures Guarded(d, RetireWrites(prior, state))
  {
    if prior.note.Some? {
      var flip := SetNoteState(prior.note.value.noteId, state);
      if prior.chunk == None {
        GuardedOne(d, flip);
      } else {
        GuardedTwo(d, SetChunkState(prior.chunk.value.chunkId, state), flip);
      }
    }
  }

  // ---- Saving the new revision ----

  /** The raw row is in place and nothing has been derived from it yet. */
  ghost predicate Captured(d: Diary, dl: Delivery) {
    && Sound(d) && FreshDerivedIds(d, dl.env)
    && dl.env.sourceId in d.sources.rows && d.sources.rows[dl.env.sourceId] == NewSource(dl)
    && (forall id :: id in d.notes.rows ==> d.notes.rows[id].sourceId != dl.env.sourceId)
  }

  lemma SourceGuarded(d: Diary, dl: Delivery)
    requires Sound(d) && FreshIds(d, dl.env) && dl.message.Key() !in d.idempotency
    ensures Admissible(d, SaveSource(NewSource(dl))) && Captured(Apply(d, SaveSource(NewSource(dl))), dl)
  {
    var save := SaveSource(NewSource(dl));
    SoundWrite(d, save);
    assert forall id :: id in d.notes.rows ==> d.notes.rows[id].sourceId in d.sources.rows;
  }

  lemma NewNoteIsAdmissible(d: Diary, dl: Delivery, parsed: ParsedNote, prior: Prior)
    requires Captured(d, dl)
    ensures Admissible(d, SaveNote(NewNote(dl, parsed, prior.note)))
  {
  }

  lemma NewChunkIsAdmissible(d: Diary, dl: Delivery, parsed: ParsedNote, prior: Prior)
    requires Captured(d, dl) && parsed.body != ""
    ensures Admissible(Apply(d, SaveNote(NewNote(dl, parsed, prior.note))), SaveChunk(NewChunk(dl, parsed, prior.chunk)))
  {
    assert forall id :: id in d.chunks.rows ==> d.chunks.rows[id].noteId in d.notes.rows;
  }

  lemma RetirableStill(notes: Notes, chunks: Chunks, prior: Prior, n: Note)
    requires Retirable(notes, chunks, prior) && n.noteId !in notes
    ensures Retirable(notes[n.noteId := n], chunks, prior)
    ensures forall c: EventChunk :: c.chunkId !in chunks && c.noteId == n.noteId ==>
              Retirable(notes[n.noteId := n], chunks[c.chunkId := c], prior)
  {
  }

  lemma SaveEffect(d: Diary, dl: Delivery, parsed: ParsedNote, prior: Prior)
    ensures var e := ApplyAll(d, SaveWrites(dl, parsed, prior));
            var n, c := NewNote(dl, parsed, prior.note), NewChunk(dl, parsed, prior.chunk);
            && e == d.(notes := Put(d.notes, n.noteId, n),
                       chunks := if parsed.body == "" then d.chunks else Put(d.chunks, c.chunkId, c))
  {
    var n, c := NewNote(dl, parsed, prior.note), NewChunk(dl, parsed, prior.chunk);
    ApplyOne(d, SaveNote(n));
    ApplyTwo(d, SaveNote(n), SaveChunk(c));
  }

  lemma SaveGuarded(d: Diary, dl: Delivery, parsed: ParsedNote, prior: Prior)
    requires Captured(d, dl) && Retirable(d.notes.rows, d.chunks.rows, prior)
    ensures var saves := SaveWrites(dl, parsed, prior);
            && Guarded(d, saves)
            && Retirable(ApplyAll(d, saves).notes.rows, ApplyAll(d, saves).chunks.rows, prior)
  {
    var n, c := NewNote(dl, parsed, prior.note), NewChunk(dl, parsed, prior.chunk);
    SaveEffect(d, dl, parsed, prior);
    NewNoteIsAdmissible(d, dl, parsed, prior);
    RetirableStill(d.notes.rows, d.chunks.rows, prior, n);
    if parsed.body == "" {
      GuardedOne(d, SaveNote(n));
    } else {
      NewChunkIsAdmissible(d, dl, parsed, prior);
      GuardedTwo(d, SaveNote(n), SaveChunk(c));
    }
  }

  // ---- Embedding ----

  lemma EmbedGuarded(d: Diary, env: IngestEnv, communityId: Id)
    requires env.chunkId in d.chunks.rows && env.letterId !in d.deadLetters
    requires d.chunks.rows[env.chunkId].chunkId == env.chunkId
    requires d.chunks.rows[env.chunkId].sourceId == env.sourceId && d.chunks.rows[env.chunkId].communityId == communityId
    requires forall k :: k in d.embeddings ==> k.chunkId != env.chunkId
    ensures Guarded(d, EmbedPlan(env, communityId).writes)
  {
    if env.client.Some? {
      match env.embed {
        case EmbedFailed(errorClass) =>
          var mark := SetChunkStatus(env.chunkId, Failed);
          if env.letterSaved {
            GuardedTwo(d, mark, SaveDeadLetter(IngestLetter(env, communityId, errorClass)));
          } else {
            GuardedOne(d, mark);
          }
        case Vectors(vectors) =>
          if |vectors| == 1 {
            var r := NewRecord(env.recordId, env.chunkId, env.sourceId, communityId, env.client.value, vectors[0], env.now);
            var e := Apply(d, SaveRecord(r));
            assert r.Key() in e.embeddings;
            assert HasRecord(e.embeddings, env.chunkId);
            GuardedTwo(d, SaveRecord(r), SetChunkStatus(env.chunkId, Ready));
          }
      }
    }
  }

  // ---- Ingest and delete ----

  lemma GuardedThree(d: Diary, a: seq<Write>, b: seq<Write>, c: seq<Write>)
    requires Guarded(d, a) && Guarded(ApplyAll(d, a), b) && Guarded(ApplyAll(ApplyAll(d, a), b), c)
    ensures Guarded(d, a + b + c)
  {
    GuardedConcat(d, a, b);
    ApplyConcat(d, a, b);
    GuardedConcat(d, a + b, c);
  }

  lemma NotePathGuarded(d: Diary, dl: Delivery, parsed: ParsedNote)
    requires Captured(d, dl) && dl.message.route != DraftRoute && dl.parsed == Some(parsed) && dl.message.communityId != ""
    ensures Guarded(d, CapturePlan(d, dl).writes)
  {
    var m := dl.message;
    var prior := PriorFor(d, m.chatId, m.messageId, m.communityId);
    var saves, retires := SaveWrites(dl, parsed, prior), RetireWrites(prior, Superseded);
    PriorRetirable(d, m.chatId, m.messageId, m.communityId);
    SaveGuarded(d, dl, parsed, prior);
    var d1 := ApplyAll(d, saves);
    RetireGuarded(d1, prior, Superseded);
    var embeds := if parsed.body == "" then [] else EmbedPlan(dl.env, m.communityId).writes;
    assert Guarded(ApplyAll(d1, retires), embeds) by {
      if parsed.body != "" {
        ChunkInPlace(d, dl, parsed, prior);
        EmbedGuarded(ApplyAll(d1, retires), dl.env, m.communityId);
      }
    }
    GuardedThree(d, saves, retires, embeds);
  }

  /** After the saves and the flips the new chunk is there, live and pending. */
  lemma ChunkInPlace(d: Diary, dl: Delivery, parsed: ParsedNote, prior: Prior)
    requires Captured(d, dl) && Retirable(d.notes.rows, d.chunks.rows, prior) && parsed.body != ""
    ensures var e := ApplyAll(ApplyAll(d, SaveWrites(dl, parsed, prior)), RetireWrites(prior, Superseded));
            && dl.env.chunkId in e.chunks.rows && e.chunks.rows[dl.env.chunkId] == NewChunk(dl, parsed, prior.chunk)
            && dl.env.letterId !in e.deadLetters && e.embeddings == d.embeddings
  {
    SaveEffect(d, dl, parsed, prior);
    RetireEffect(ApplyAll(d, SaveWrites(dl, parsed, prior)), prior, Superseded);
  }

  /** What retiring changes, row by row. */
  lemma RetireEffect(d: Diary, prior: Prior, state: LifecycleState)
    requires prior.note == None ==> prior.chunk == None
    requires prior.note.Some? ==> prior.note.value.noteId in d.notes.rows
    requires prior.chunk.Some? ==> prior.chunk.value.chunkId in d.chunks.rows
    ensures var e := ApplyAll(d, RetireWrites(prior, state));
            && e.notes.rows == RetiredNotes(d.notes.rows, prior, state)
            && e.chunks.rows == RetiredChunks(d.chunks.rows, prior, state)
            && e.notes.keys == d.notes.keys && e.chunks.keys == d.chunks.keys
            && e.sources == d.sources && e.idempotency == d.idempotency
            && e.embeddings == d.embeddings && e.deadLetters == d.deadLetters
  {
    if prior.note.Some? {
      var flip := SetNoteState(prior.note.value.noteId, state);
      ApplyOne(d, flip);
      if prior.chunk.Some? {
        ApplyTwo(d, SetChunkState(prior.chunk.value.chunkId, state), flip);
      }
    }
  }

  function RetiredNotes(notes: Notes, prior: Prior, state: LifecycleState): Notes
    requires prior.note.Some? ==> prior.note.value.noteId in notes
  {
    if prior.note == None then notes
    else var id := prior.note.value.noteId; notes[id := notes[id].(state := state)]
  }

  function RetiredChunks(chunks: Chunks, prior: Prior, state: LifecycleState): Chunks
    requires prior.chunk.Some? ==> prior.chunk.value.chunkId in chunks
  {
    if prior.chunk == None then chunks
    else var id := prior.chunk.value.chunkId; chunks[id := chunks[id].(state := state)]
  }

  lemma IngestGuarded(d: Diary, dl: Delivery)
    requires Sound(d) && FreshIds(d, dl.env)
    ensures Guarded(d, IngestPlan(d, dl).writes)
  {
    if dl.message.Key() !in d.idempotency {
      var save := SaveSource(NewSource(dl));
      SourceGuarded(d, dl);
      var e := Apply(d, save);
      assert Guarded(e, CapturePlan(e, dl).writes) by {
        if dl.message.communityId != "" {
          if dl.message.route == DraftRoute {
            PriorRetirable(e, dl.message.chatId, dl.message.messageId, dl.message.communityId);
            RetireGuarded(e, PriorFor(e, dl.message.chatId, dl.message.messageId, dl.message.communityId), Tombstoned);
          } else if dl.parsed.Some? {
            NotePathGuarded(e, dl, dl.parsed.value);
          }
        }
      }
      GuardedOne(d, save);
      ApplyOne(d, save);
      GuardedConcat(d, [save], CapturePlan(e, dl).writes);
    }
  }

  // ---- Retry ----

  /** The group's chunks are stored, in this community and under the group's source. */
  ghost predicate Embeddable(chunks: Chunks, communityId: Id, g: Group) {
    forall c :: c in g.chunks ==>
      c.chunkId in chunks && chunks[c.chunkId].chunkId == c.chunkId
      && chunks[c.chunkId].sourceId == g.sourceId && chunks[c.chunkId].communityId == communityId
  }

  lemma {:induction false} SavablePrefix(d: Diary, records: seq<EmbeddingRecord>)
    ensures var n := SavableRecords(d, records); SavableRecords(d, records[..n]) == n
    decreases |records|
  {
    var n := SavableRecords(d, records);
    if n > 0 {
      SavablePrefix(Apply(d, SaveRecord(records[0])), records[1..]);
      assert records[..n][0] == records[0] && records[..n][1..] == records[1..][..n - 1];
    }
  }

  lemma {:induction false} RecordsGuarded(d: Diary, records: seq<EmbeddingRecord>)
    requires SavableRecords(d, records) == |records|
    requires forall r :: r in records ==> r.chunkId in d.chunks.rows && ForChunk(r, d.chunks.rows[r.chunkId])
    ensures Guarded(d, SaveRecords(records))
    ensures var e := ApplyAll(d, SaveRecords(records));
            && e.chunks == d.chunks && e.deadLetters == d.deadLetters
            && (forall r :: r in records ==> HasRecord(e.embeddings, r.chunkId))
            && (forall k :: k in d.embeddings ==> k in e.embeddings)
    decreases |records|
  {
    if records != [] {
      var r := records[0];
      var e := Apply(d, SaveRecord(r));
      RecordsGuarded(e, records[1..]);
      assert SaveRecords(records)[1..] == SaveRecords(records[1..]);
      assert r.Key() in e.embeddings && r.Key() in ApplyAll(e, SaveRecords(records[1..])).embeddings;
    }
  }

  lemma {:induction false} StatusesGuarded(d: Diary, chunks: seq<EventChunk>)
    requires forall c :: c in chunks ==> c.chunkId in d.chunks.rows && HasRecord(d.embeddings, c.chunkId)
    ensures Guarded(d, SetStatuses(chunks, Ready))
    decreases |chunks|
  {
    if chunks != [] {
      StatusesGuarded(Apply(d, SetChunkStatus(chunks[0].chunkId, Ready)), chunks[1..]);
      assert SetStatuses(chunks, Ready)[1..] == SetStatuses(chunks[1..], Ready);
    }
  }

  lemma LetterGuarded(d: Diary, g: Group, communityId: Id, env: RetryEnv, ge: GroupEnv, errorClass: string)
    requires ge.letterId !in d.deadLetters
    ensures Guarded(d, LetterWrites(g, communityId, env, ge, errorClass))
  {
    var ws := LetterWrites(g, communityId, env, ge, errorClass);
    if ws != [] {
      GuardedOne(d, ws[0]);
    }
  }

  lemma GroupRecordsFit(chunks: Chunks, communityId: Id, g: Group, env: RetryEnv, ge: GroupEnv)
    requires Embeddable(chunks, communityId, g) && ge.embed.Vectors? && |ge.embed.vectors| == |g.chunks|
    ensures forall r :: r in GroupRecords(g, communityId, env.now, env.client, ge.embed.vectors, ge.recordIds) ==>
              r.chunkId in chunks && ForChunk(r, chunks[r.chunkId])
  {
    var records := GroupRecords(g, communityId, env.now, env.client, ge.embed.vectors, ge.recordIds);
    forall r | r in records ensures r.chunkId in chunks && ForChunk(r, chunks[r.chunkId]) {
      var i :| 0 <= i < |records| && records[i] == r;
      assert g.chunks[i] in g.chunks && r.chunkId == g.chunks[i].chunkId;
    }
  }

  lemma EmbeddableStill(d: Diary, e: Diary, communityId: Id, g: Group)
    requires Keeps(d, e) && Embeddable(d.chunks.rows, communityId, g)
    ensures Embeddable(e.chunks.rows, communityId, g)
  {
    forall c | c in g.chunks ensures c.chunkId in e.chunks.rows && ChunkKept(d.chunks.rows[c.chunkId], e.chunks.rows[c.chunkId]) {
    }
  }

  lemma LetterStillFresh(d: Diary, communityId: Id, groups: seq<Group>, env: RetryEnv, n: nat)
    requires FreshLetters(d, env) && n <= |groups|
    ensures env.groups(n).letterId !in ApplyAll(d, RetryUpTo(d, communityId, groups, env, n).writes).deadLetters
  {
    RetryUpToKeeps(d, communityId, groups, env, n);
  }

  lemma RetryGroupGuarded(d: Diary, communityId: Id, g: Group, env: RetryEnv, ge: GroupEnv)
    requires Embeddable(d.chunks.rows, communityId, g) && ge.letterId !in d.deadLetters
    ensures Guarded(d, RetryGroup(d, communityId, g, env, ge).writes)
  {
    if ge.embed.EmbedFailed? {
      LetterGuarded(d, g, communityId, env, ge, ge.embed.errorClass);
    } else if |ge.embed.vectors| != |g.chunks| {
      LetterGuarded(d, g, communityId, env, ge, "ValueError");
    } else {
      var records := GroupRecords(g, communityId, env.now, env.client, ge.embed.vectors, ge.recordIds);
      GroupRecordsFit(d.chunks.rows, communityId, g, env, ge);
      var n := SavableRecords(d, records);
      if n < |records| {
        assert forall r :: r in records[..n] ==> r in records;
        SavablePrefix(d, records);
        RecordsGuarded(d, records[..n]);
        LetterGuarded(ApplyAll(d, SaveRecords(records[..n])), g, communityId, env, ge, "ValueError");
        GuardedConcat(d, SaveRecords(records[..n]), LetterWrites(g, communityId, env, ge, "ValueError"));
      } else {
        RecordsGuarded(d, records);
        var e := ApplyAll(d, SaveRecords(records));
        forall c | c in g.chunks ensures HasRecord(e.embeddings, c.chunkId) {
          var i :| 0 <= i < |g.chunks| && g.chunks[i] == c;
          assert records[i].chunkId == c.chunkId;
        }
        StatusesGuarded(e, g.chunks);
        GuardedConcat(d, SaveRecords(records), SetStatuses(g.chunks, Ready));
      }
    }
  }

  lemma {:induction false} RetryUpToGuarded(d: Diary, communityId: Id, groups: seq<Group>, env: RetryEnv, n: nat)
    requires Sound(d) && FreshLetters(d, env) && n <= |groups|
    requires forall g :: g in groups ==> Embeddable(d.chunks.rows, communityId, g)
    ensures Guarded(d, RetryUpTo(d, communityId, groups, env, n).writes)
  {
    if n > 0 {
      RetryUpToGuarded(d, communityId, groups, env, n - 1);
      var before := RetryUpTo(d, communityId, groups, env, n - 1).writes;
      var e := ApplyAll(d, before);
      GuardedAll(d, before);
      EmbeddableStill(d, e, communityId, groups[n - 1]);
      LetterStillFresh(d, communityId, groups, env, n - 1);
      RetryGroupGuarded(e, communityId, groups[n - 1], env, env.groups(n - 1));
      GuardedConcat(d, before, RetryGroup(e, communityId, groups[n - 1], env, env.groups(n - 1)).writes);
    }
  }

  lemma ListedEmbeddable(d: Diary, communityId: Id, limit: Option<nat>)
    requires Sound(d)
    ensures forall g :: g in Groups(FailedChunks(d, communityId, limit)) ==> Embeddable(d.chunks.rows, communityId, g)
  {
    var chunks := FailedChunks(d, communityId, limit);
    SoundIsConsistent(d);
    FailedAreStored(d, communityId, limit);
    GroupsHold(chunks);
    GroupsEmbeddable(d.chunks.rows, communityId, chunks, Groups(chunks));
  }

  lemma GroupsEmbeddable(rows: Chunks, communityId: Id, chunks: seq<EventChunk>, groups: seq<Group>)
    requires forall c :: c in chunks ==> c.chunkId in rows && rows[c.chunkId] == c && c.communityId == communityId
    requires (forall c :: c in chunks <==> Held(groups, c)) && Owned(groups)
    ensures forall g :: g in groups ==> Embeddable(rows, communityId, g)
  {
    forall g, c | g in groups && c in g.chunks ensures c in chunks && c.sourceId == g.sourceId {
      assert Held(groups, c);
    }
  }

  /** The whole of every operation is guarded, whatever the parser, the providers and the clock do. */
  lemma OpGuarded(d: Diary, op: Op)
    requires Sound(d) && Fresh(d, op)
    ensures Guarded(d, Writes(d, op))
  {
    match op
    case Ingest(dl) => IngestGuarded(d, dl);
    case Delete(chatId, messageId, communityId) =>
      PriorRetirable(d, chatId, messageId, communityId);
      RetireGuarded(d, PriorFor(d, chatId, messageId, communityId), Tombstoned);
    case Retry(communityId, limit, env) =>
      if communityId != "" {
        ListedEmbeddable(d, communityId, limit);
        var groups := Groups(FailedChunks(d, communityId, limit));
        RetryUpToGuarded(d, communityId, groups, env, |groups|);
      }
  }
}
