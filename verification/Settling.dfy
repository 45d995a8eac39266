/** Every completed operation keeps what `Settled` says, so it holds after every completed run. */
module Settling {
  import opened Chains
  import opened CrashSafety
  import opened Diary
  import opened GuardedPlans
  import opened IngestEffects
  import opened Lifecycle
  import opened Models
  import opened Plans
  import opened Reconciliation
  import opened RetryEffects
  import opened Tables
  import opened Wrappers

  // ---- A raw row more ----

  lemma LinksSource(notes: Notes, keys: seq<Id>, sources: Sources, s: SourceMessage)
    requires NotesLinked(notes, sources) && s.sourceId !in sources
    requires OneActive(notes, sources) && LinksHold(notes, keys, sources)
    ensures OneActive(notes, sources[s.sourceId := s]) && LinksHold(notes, keys, sources[s.sourceId := s])
  {
    var after := sources[s.sourceId := s];
    assert forall a, b :: a in notes && b in notes ==> SameMessage(after, notes[a], notes[b]) == SameMessage(sources, notes[a], notes[b]);
  }

  lemma SourceSettled(d: Diary, dl: Delivery)
    requires Sound(d) && Settled(d) && dl.env.sourceId !in d.sources.rows
    ensures Settled(WithSource(d, dl))
  {
    LinksSource(d.notes.rows, d.notes.keys, d.sources.rows, NewSource(dl));
  }

  // ---- An edit ----

  lemma RevisionFound(d: Diary, dl: Delivery)
    requires Captured(d, dl) && Settled(d) && dl.parsed.Some?
    ensures var prior := PriorFor(d, dl.message.chatId, dl.message.messageId, dl.message.communityId);
            Revision(d.notes.rows, d.sources.rows, prior, NewNote(dl, dl.parsed.value, prior.note))
  {
    var x := MessageOf(dl);
    var prior := PriorFor(d, x.chatId, x.messageId, x.communityId);
    var n := NewNote(dl, dl.parsed.value, prior.note);
    ActiveNoteIs(d, x.chatId, x.messageId, x.communityId);
    forall a | a in d.notes.rows && d.notes.rows[a].state == Active && SameMessage(d.sources.rows, n, d.notes.rows[a])
      ensures PriorId(prior) == Some(a)
    {
      assert ActiveNoteOf(d, d.notes.rows[a], x.chatId, x.messageId, x.communityId);
      assert SameMessage(d.sources.rows, d.notes.rows[a], prior.note.value);
    }
  }

  /** The tables after an edit of `d`, which already holds the edit's raw row. */
  ghost predicate EditedTo(d: Diary, dl: Delivery, e: Diary)
    requires dl.parsed.Some?
  {
    var prior := PriorFor(d, dl.message.chatId, dl.message.messageId, dl.message.communityId);
    var bodied := dl.parsed.value.body != "";
    var n := NewNote(dl, dl.parsed.value, prior.note);
    var c := NewChunk(dl, dl.parsed.value, prior.chunk).(status := FinalStatus(dl.env));
    && (prior.note.Some? ==> prior.note.value.noteId in d.notes.rows)
    && (prior.chunk.Some? ==> prior.chunk.value.chunkId in d.chunks.rows)
    && e.sources == d.sources
    && e.notes.rows == Edited(d.notes.rows, prior, n) && e.notes.keys == d.notes.keys + [n.noteId]
    && e.chunks.rows == EditedChunks(d.chunks.rows, prior, c, bodied)
    && e.embeddings == if bodied then FinalRecords(dl.env, dl.message.communityId, d.embeddings) else d.embeddings
  }

  lemma EditSettled(d: Diary, dl: Delivery, e: Diary)
    requires Captured(d, dl) && Settled(d) && dl.parsed.Some? && EditedTo(d, dl, e)
    ensures Settled(e)
  {
    var prior := PriorFor(d, dl.message.chatId, dl.message.messageId, dl.message.communityId);
    var notes, chunks, sources, bodied := d.notes.rows, d.chunks.rows, d.sources.rows, dl.parsed.value.body != "";
    var n := NewNote(dl, dl.parsed.value, prior.note);
    var c := NewChunk(dl, dl.parsed.value, prior.chunk).(status := FinalStatus(dl.env));
    PriorFound(d, dl.message.chatId, dl.message.messageId, dl.message.communityId);
    RevisionFound(d, dl);
    OneActiveEdited(notes, sources, prior, n);
    LinksEdited(notes, d.notes.keys, sources, prior, n);
    StatesEdited(notes, chunks, sources, prior, n, c, bodied);
    BodiesEdited(notes, chunks, sources, prior, n, c, bodied);
    ChunkLinksEdited(notes, chunks, sources, prior, n, c, bodied);
    RecordsEdited(chunks, d.embeddings, prior, c, bodied, dl.env, dl.message.communityId);
  }

  lemma SaveThenRetire(chunks: Chunks, prior: Prior, c: EventChunk, final: EventChunk)
    requires c.chunkId == final.chunkId
    requires prior.chunk.Some? ==> prior.chunk.value.chunkId in chunks && prior.chunk.value.chunkId != c.chunkId
    ensures RetiredChunks(chunks[c.chunkId := c], prior, Superseded)[c.chunkId := final] == EditedChunks(chunks, prior, final, true)
  {
  }

  lemma RevisedIsEdited(d: Diary, dl: Delivery, e: Diary)
    requires Sound(d) && FreshIds(d, dl.env) && NewRevision(d, dl) && Revised(d, dl, e)
    ensures EditedTo(WithSource(d, dl), dl, e)
  {
    var prior := Replaced(d, dl);
    ReplacedStored(d, dl);
    var c := NewChunk(dl, dl.parsed.value, prior.chunk);
    SaveThenRetire(d.chunks.rows, prior, c, c.(status := FinalStatus(dl.env)));
  }

  lemma ReplacedStored(d: Diary, dl: Delivery)
    requires Sound(d) && FreshIds(d, dl.env) && NewRevision(d, dl)
    ensures var prior := Replaced(d, dl);
            && (prior.note.Some? ==> prior.note.value.noteId in d.notes.rows)
            && (prior.chunk.Some? ==> prior.chunk.value.chunkId in d.chunks.rows)
  {
    SourceGuarded(d, dl);
    PriorRetirable(WithSource(d, dl), dl.message.chatId, dl.message.messageId, dl.message.communityId);
  }

  lemma NoteSettled(d: Diary, dl: Delivery)
    requires Sound(d) && Settled(d) && FreshIds(d, dl.env) && NewRevision(d, dl)
    ensures Settled(Step(d, Ingest(dl)))
  {
    SourceGuarded(d, dl);
    SourceSettled(d, dl);
    NoteIngestEffect(d, dl);
    RevisedIsEdited(d, dl, Step(d, Ingest(dl)));
    EditSettled(WithSource(d, dl), dl, Step(d, Ingest(dl)));
  }

  // ---- A removal ----

  lemma RetiredLinks(notes: Notes, keys: seq<Id>, sources: Sources, prior: Prior)
    requires prior.note.Some? ==> prior.note.value.noteId in notes && notes[prior.note.value.noteId].state == Active
    requires OneActive(notes, sources) && LinksHold(notes, keys, sources) && LinksUnique(notes) && SupersededReplaced(notes)
    ensures var after := RetiredNotes(notes, prior, Tombstoned);
            OneActive(after, sources) && LinksHold(after, keys, sources) && LinksUnique(after) && SupersededReplaced(after)
  {
    var after := RetiredNotes(notes, prior, Tombstoned);
    assert forall a, p :: Replaces(after, a, p) == Replaces(notes, a, p);
    forall p | p in after && after[p].state == Superseded ensures HasSuccessor(after, p) {
      var a :| Replaces(notes, a, p);
      assert Replaces(after, a, p);
    }
  }

  lemma RetiredRows(notes: Notes, chunks: Chunks, records: Records, prior: Prior)
    requires StatesAgree(chunks, notes) && BodiesChunked(chunks, notes) && RecordsAgree(chunks, records) && ChunksLinked(chunks, notes)
    requires FoundPrior(notes, chunks, prior)
    ensures var notes', chunks' := RetiredNotes(notes, prior, Tombstoned), RetiredChunks(chunks, prior, Tombstoned);
            StatesAgree(chunks', notes') && BodiesChunked(chunks', notes') && RecordsAgree(chunks', records)
  {
    PriorChunkOnly(notes, chunks, prior);
    var notes', chunks' := RetiredNotes(notes, prior, Tombstoned), RetiredChunks(chunks, prior, Tombstoned);
    forall id | id in notes' && notes'[id].noteText != "" ensures HasChunk(chunks', id) {
      var c :| c in chunks && chunks[c].noteId == id;
      assert c in chunks' && chunks'[c].noteId == id;
    }
  }

  /** Changing states and statuses alone leaves links and bodies as they were. */
  ghost predicate SameLinks(chunks: Chunks, after: Chunks, notes: Notes, notes': Notes) {
    && (forall c :: c in after <==> c in chunks)
    && (forall c :: c in chunks ==> after[c].noteId == chunks[c].noteId && after[c].supersedes == chunks[c].supersedes)
    && (forall a, p :: Replaces(notes', a, p) == Replaces(notes, a, p))
  }

  lemma ChunkLinksSame(chunks: Chunks, after: Chunks, notes: Notes, notes': Notes)
    requires ChunkLinks(chunks, notes) && SameLinks(chunks, after, notes, notes')
    ensures ChunkLinks(after, notes')
  {
    PointBackSame(chunks, after, notes, notes');
    FollowedSame(chunks, after, notes, notes');
  }

  lemma PointBackSame(chunks: Chunks, after: Chunks, notes: Notes, notes': Notes)
    requires ChunksPointBack(chunks, notes) && SameLinks(chunks, after, notes, notes')
    ensures ChunksPointBack(after, notes')
  {
  }

  lemma FollowedSame(chunks: Chunks, after: Chunks, notes: Notes, notes': Notes)
    requires NoteLinksFollowed(chunks, notes) && SameLinks(chunks, after, notes, notes')
    ensures NoteLinksFollowed(after, notes')
  {
  }

  lemma RetiredChunkLinks(notes: Notes, chunks: Chunks, prior: Prior)
    requires ChunkLinks(chunks, notes) && FoundPrior(notes, chunks, prior)
    ensures ChunkLinks(RetiredChunks(chunks, prior, Tombstoned), RetiredNotes(notes, prior, Tombstoned))
  {
    ChunkLinksSame(chunks, RetiredChunks(chunks, prior, Tombstoned), notes, RetiredNotes(notes, prior, Tombstoned));
  }

  lemma RemovalSettled(d: Diary, chatId: Id, messageId: Id, communityId: Id)
    requires Sound(d) && Settled(d)
    ensures Settled(ApplyAll(d, RetireWrites(PriorFor(d, chatId, messageId, communityId), Tombstoned)))
  {
    var prior := PriorFor(d, chatId, messageId, communityId);
    PriorFound(d, chatId, messageId, communityId);
    RetireEffect(d, prior, Tombstoned);
    RetiredLinks(d.notes.rows, d.notes.keys, d.sources.rows, prior);
    RetiredRows(d.notes.rows, d.chunks.rows, d.embeddings, prior);
    RetiredChunkLinks(d.notes.rows, d.chunks.rows, prior);
  }

  lemma IngestSettled(d: Diary, dl: Delivery)
    requires Sound(d) && Settled(d) && FreshIds(d, dl.env)
    ensures Settled(Step(d, Ingest(dl)))
  {
    if NewRevision(d, dl) {
      NoteSettled(d, dl);
    } else {
      if dl.message.Key() !in d.idempotency {
        SourceGuarded(d, dl);
        SourceSettled(d, dl);
      }
      if dl.message.Key() !in d.idempotency && dl.message.route == DraftRoute && dl.message.communityId != "" {
        DraftIngestEffect(d, dl);
        RemovalSettled(WithSource(d, dl), dl.message.chatId, dl.message.messageId, dl.message.communityId);
      } else {
        OtherIngestEffect(d, dl);
      }
    }
  }

  // ---- A retry ----

  /** None of the groups' chunks has a record yet. */
  ghost predicate Unrecorded(records: Records, groups: seq<Group>) {
    forall i, id :: 0 <= i < |groups| && id in IdsOf(groups[i]) ==> !HasRecord(records, id)
  }

  lemma GroupAddsOwn(d: Diary, communityId: Id, g: Group, env: RetryEnv, ge: GroupEnv)
    requires NoRepeat(g.chunks) && forall c :: c in g.chunks ==> c.chunkId in d.chunks.rows
    requires forall id :: id in IdsOf(g) ==> !HasRecord(d.embeddings, id)
    ensures var p := RetryGroup(d, communityId, g, env, ge);
            forall k :: k in ApplyAll(d, p.writes).embeddings ==>
              k in d.embeddings || (p.outcome.succeeded && k.chunkId in IdsOf(g))
  {
    RetryGroupEffect(d, communityId, g, env, ge);
    if ge.embed.Vectors? && |ge.embed.vectors| == |g.chunks| {
      forall c | c in g.chunks ensures EmbeddingKey(c.chunkId, env.client.modelName) !in d.embeddings {
        assert c.chunkId in IdsOf(g);
      }
    } else {
      LetterEffect(d, LetterWrites(g, communityId, env, ge, if ge.embed.EmbedFailed? then ge.embed.errorClass else "ValueError"));
    }
  }

  /** New records are for these chunks only. */
  ghost predicate RecordsOf(before: Records, after: Records, ids: set<Id>) {
    forall k :: k in after ==> k in before || k.chunkId in ids
  }

  /** Over groups without records, a retry adds records only for the groups that succeed. */
  lemma {:induction false} RetryAddsOwn(d: Diary, communityId: Id, groups: seq<Group>, env: RetryEnv, n: nat)
    requires n <= |groups| && Disjoint(groups) && AllStored(d.chunks.rows, groups) && Unrecorded(d.embeddings, groups)
    ensures var r := RetryUpTo(d, communityId, groups, env, n);
            RecordsOf(d.embeddings, ApplyAll(d, r.writes).embeddings, SucceededIds(r.outcomes))
  {
    if n > 0 {
      RetryAddsOwn(d, communityId, groups, env, n - 1);
      var r := RetryUpTo(d, communityId, groups, env, n - 1);
      var e := ApplyAll(d, r.writes);
      var p := RetryGroup(e, communityId, groups[n - 1], env, env.groups(n - 1));
      PassAddsOwn(d, communityId, groups, env, n - 1);
      ApplyConcat(d, r.writes, p.writes);
      SucceededIdsMore(r.outcomes, p.outcome, groups[n - 1]);
      OwnMore(d.embeddings, e.embeddings, ApplyAll(e, p.writes).embeddings, SucceededIds(r.outcomes), p.outcome, groups[n - 1]);
    }
  }

  lemma SucceededIdsMore(outcomes: seq<GroupOutcome>, o: GroupOutcome, g: Group)
    requires o.chunkIds == ChunkIds(g.chunks)
    ensures SucceededIds(outcomes + [o]) == SucceededIds(outcomes) + if o.succeeded then IdsOf(g) else {}
  {
    SucceededMore(outcomes, o);
    IdsOfOutcome(g);
  }

  /** New records are for the group's chunks, and only if it succeeded. */
  ghost predicate AddsOwn(mid: Records, after: Records, o: GroupOutcome, g: Group) {
    forall k :: k in after ==> k in mid || (o.succeeded && k.chunkId in IdsOf(g))
  }

  lemma OwnMore(before: Records, mid: Records, after: Records, done: set<Id>, o: GroupOutcome, g: Group)
    requires RecordsOf(before, mid, done) && AddsOwn(mid, after, o, g)
    ensures RecordsOf(before, after, done + if o.succeeded then IdsOf(g) else {})
  {
  }

  lemma PassAddsOwn(d: Diary, communityId: Id, groups: seq<Group>, env: RetryEnv, n: nat)
    requires n < |groups| && Disjoint(groups) && AllStored(d.chunks.rows, groups) && Unrecorded(d.embeddings, groups)
    ensures var e := ApplyAll(d, RetryUpTo(d, communityId, groups, env, n).writes);
            var p := RetryGroup(e, communityId, groups[n], env, env.groups(n));
            && p.outcome.chunkIds == ChunkIds(groups[n].chunks)
            && AddsOwn(e.embeddings, ApplyAll(e, p.writes).embeddings, p.outcome, groups[n])
  {
    RetryUpToEffect(d, communityId, groups, env, n);
    var e := ApplyAll(d, RetryUpTo(d, communityId, groups, env, n).writes);
    assert forall c :: c in groups[n].chunks ==> c.chunkId in e.chunks.rows;
    StillUnrecorded(d.embeddings, e.embeddings, groups, n);
    GroupAddsOwn(e, communityId, groups[n], env, env.groups(n));
    RetryGroupEffect(e, communityId, groups[n], env, env.groups(n));
  }

  lemma StillUnrecorded(before: Records, after: Records, groups: seq<Group>, n: nat)
    requires n < |groups| && Disjoint(groups) && Unrecorded(before, groups) && RecordsGrow(before, after, groups, n)
    ensures forall id :: id in IdsOf(groups[n]) ==> !HasRecord(after, id)
  {
    forall id | id in IdsOf(groups[n]) ensures !HasRecord(after, id) {
      if HasRecord(after, id) {
        RecordedBefore(before, after, groups, n, id);
      }
    }
  }

  lemma RecordedBefore(before: Records, after: Records, groups: seq<Group>, n: nat, id: Id)
    requires n < |groups| && Disjoint(groups) && RecordsGrow(before, after, groups, n)
    requires id in IdsOf(groups[n]) && HasRecord(after, id)
    ensures HasRecord(before, id)
  {
    var k :| k in after && k.chunkId == id;
    assert k in before;
  }

  lemma FailedUnrecorded(d: Diary, communityId: Id, limit: Option<nat>)
    requires Consistent(d) && RecordsAgree(d.chunks.rows, d.embeddings)
    ensures Unrecorded(d.embeddings, Groups(FailedChunks(d, communityId, limit)))
  {
    var listed := FailedChunks(d, communityId, limit);
    FailedAreStored(d, communityId, limit);
    GroupsHold(listed);
    var groups := Groups(listed);
    forall i, id | 0 <= i < |groups| && id in IdsOf(groups[i]) ensures !HasRecord(d.embeddings, id) {
      var c :| c in groups[i].chunks && c.chunkId == id;
      assert Held(groups, c);
    }
  }

  lemma ReadiedStates(notes: Notes, chunks: Chunks, ids: set<Id>)
    requires StatesAgree(chunks, notes)
    ensures StatesAgree(Readied(chunks, ids), notes)
  {
  }

  lemma ReadiedLinks(notes: Notes, chunks: Chunks, ids: set<Id>)
    requires ChunkLinks(chunks, notes)
    ensures ChunkLinks(Readied(chunks, ids), notes)
  {
    ChunkLinksSame(chunks, Readied(chunks, ids), notes, notes);
  }

  lemma ReadiedBodies(notes: Notes, chunks: Chunks, ids: set<Id>)
    requires BodiesChunked(chunks, notes)
    ensures BodiesChunked(Readied(chunks, ids), notes)
  {
    var after := Readied(chunks, ids);
    forall id | id in notes && notes[id].noteText != "" ensures HasChunk(after, id) {
      var c :| c in chunks && chunks[c].noteId == id;
      assert c in after && after[c].noteId == id;
    }
  }

  lemma ReadiedRecords(chunks: Chunks, before: Records, after: Records, ids: set<Id>)
    requires RecordsAgree(chunks, before) && forall k :: k in after ==> k in before || k.chunkId in ids
    ensures RecordsAgree(Readied(chunks, ids), after)
  {
    var chunks' := Readied(chunks, ids);
    forall id | id in chunks' && HasRecord(after, id) ensures chunks'[id].status == Ready {
      var k :| k in after && k.chunkId == id;
      if id !in ids {
        assert k in before;
        assert HasRecord(before, id);
      }
    }
  }

  /** Turning chunks Ready, with records only for them, keeps the invariant. */
  lemma ReadyingSettled(d: Diary, e: Diary, ids: set<Id>)
    requires Settled(d)
    requires e.sources == d.sources && e.notes == d.notes && e.chunks.rows == Readied(d.chunks.rows, ids)
    requires forall k :: k in e.embeddings ==> k in d.embeddings || k.chunkId in ids
    ensures Settled(e)
  {
    ReadiedStates(d.notes.rows, d.chunks.rows, ids);
    ReadiedBodies(d.notes.rows, d.chunks.rows, ids);
    ReadiedLinks(d.notes.rows, d.chunks.rows, ids);
    ReadiedRecords(d.chunks.rows, d.embeddings, e.embeddings, ids);
  }

  lemma RetrySettled(d: Diary, communityId: Id, limit: Option<nat>, env: RetryEnv)
    requires Sound(d) && Settled(d)
    ensures Settled(Step(d, Retry(communityId, limit, env)))
  {
    if communityId != "" {
      RetryReadies(d, communityId, limit, env);
      ReadyingSettled(d, Step(d, Retry(communityId, limit, env)),
                      SucceededIds(RetryPlan(d, communityId, limit, env).result.value));
    }
  }

  lemma RetryReadies(d: Diary, communityId: Id, limit: Option<nat>, env: RetryEnv)
    requires Consistent(d) && RecordsAgree(d.chunks.rows, d.embeddings) && communityId != ""
    ensures var plan, e := RetryPlan(d, communityId, limit, env), Step(d, Retry(communityId, limit, env));
            && plan.result.Ok?
            && e.sources == d.sources && e.notes == d.notes
            && e.chunks.rows == Readied(d.chunks.rows, SucceededIds(plan.result.value))
            && forall k :: k in e.embeddings ==> k in d.embeddings || k.chunkId in SucceededIds(plan.result.value)
  {
    var groups := Groups(FailedChunks(d, communityId, limit));
    RetryOutcome(d, communityId, limit, env);
    ListedGroups(d, communityId, limit);
    FailedUnrecorded(d, communityId, limit);
    RetryAddsOwn(d, communityId, groups, env, |groups|);
  }

  lemma StepSettled(d: Diary, op: Op)
    requires Sound(d) && Settled(d) && Fresh(d, op)
    ensures Settled(Step(d, op))
  {
    match op
    case Ingest(dl) => IngestSettled(d, dl);
    case Delete(chatId, messageId, communityId) =>
      if communityId != "" {
        RemovalSettled(d, chatId, messageId, communityId);
      }
    case Retry(communityId, limit, env) => RetrySettled(d, communityId, limit, env);
  }

  // ---- Whole runs ----

  ghost predicate Completed(evs: seq<Event>) {
    forall i :: 0 <= i < |evs| ==> evs[i].cut == None
  }

  /** After every run of completed ingests, deletes and retries. */
  lemma {:induction false} RunSettled(evs: seq<Event>)
    requires FreshRun(evs) && Completed(evs)
    ensures Sound(Run(evs)) && Settled(Run(evs))
  {
    if evs != [] {
      var before := evs[..|evs| - 1];
      RunSettled(before);
      RunSound(evs);
      StepSettled(Run(before), evs[|evs| - 1].op);
    }
  }
}
