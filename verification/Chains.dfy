/**
 * Runs whose operations all complete: revisions of a message form linear chains with at most one
 * live head, chunks live and die with their notes, and embedding statuses tell the truth.
 */
module Chains {
  import opened Diary
  import opened GuardedPlans
  import opened IngestEffects
  import opened Lifecycle
  import opened Models
  import opened Plans
  import opened Tables
  import opened Wrappers

  // ---- The invariant of completed runs ----

  ghost predicate StatesAgree(chunks: Chunks, notes: Notes) {
    forall id :: id in chunks ==> chunks[id].noteId in notes && chunks[id].state == notes[chunks[id].noteId].state
  }

  ghost predicate HasChunk(chunks: Chunks, noteId: Id) {
    exists c :: c in chunks && chunks[c].noteId == noteId
  }

  ghost predicate BodiesChunked(chunks: Chunks, notes: Notes) {
    forall id :: id in notes && notes[id].noteText != "" ==> HasChunk(chunks, id)
  }

  /** A record exists only for a chunk that is Ready. */
  ghost predicate RecordsAgree(chunks: Chunks, records: Records) {
    forall id :: id in chunks && HasRecord(records, id) ==> chunks[id].status == Ready
  }

  predicate SameMessage(sources: Sources, a: Note, b: Note) {
    && a.sourceId in sources && b.sourceId in sources && a.communityId == b.communityId
    && sources[a.sourceId].chatId == sources[b.sourceId].chatId
    && sources[a.sourceId].messageId == sources[b.sourceId].messageId
  }

  ghost predicate OneActive(notes: Notes, sources: Sources) {
    forall a, b ::
      (a in notes && b in notes && notes[a].state == Active && notes[b].state == Active
       && SameMessage(sources, notes[a], notes[b])) ==> a == b
  }

  /** Note `a` was written as the replacement of note `p`. */
  predicate Replaces(notes: Notes, a: Id, p: Id) {
    a in notes && notes[a].supersedes == Some(p)
  }

  /** `p` was inserted before `a`. */
  ghost predicate Before(keys: seq<Id>, p: Id, a: Id) {
    exists i, j :: 0 <= i < j < |keys| && keys[i] == p && keys[j] == a
  }

  ghost predicate LinksHold(notes: Notes, keys: seq<Id>, sources: Sources) {
    forall a, p :: Replaces(notes, a, p) ==>
      p in notes && notes[p].state == Superseded && SameMessage(sources, notes[a], notes[p]) && Before(keys, p, a)
  }

  ghost predicate LinksUnique(notes: Notes) {
    forall a, b, p :: Replaces(notes, a, p) && Replaces(notes, b, p) ==> a == b
  }

  ghost predicate HasSuccessor(notes: Notes, p: Id) {
    exists a :: Replaces(notes, a, p)
  }

  ghost predicate SupersededReplaced(notes: Notes) {
    forall p :: p in notes && notes[p].state == Superseded ==> HasSuccessor(notes, p)
  }

  /** Chunks link to the chunks of the notes their notes link to, wherever both exist. */
  ghost predicate ChunkLinks(chunks: Chunks, notes: Notes) {
    ChunksPointBack(chunks, notes) && NoteLinksFollowed(chunks, notes)
  }

  ghost predicate ChunksPointBack(chunks: Chunks, notes: Notes) {
    forall c, q :: c in chunks && chunks[c].supersedes == Some(q) ==>
      q in chunks && Replaces(notes, chunks[c].noteId, chunks[q].noteId)
  }

  ghost predicate NoteLinksFollowed(chunks: Chunks, notes: Notes) {
    forall c, q :: c in chunks && q in chunks && Replaces(notes, chunks[c].noteId, chunks[q].noteId) ==>
      chunks[c].supersedes == Some(q)
  }

  ghost predicate Settled(d: Diary) {
    && StatesAgree(d.chunks.rows, d.notes.rows) && BodiesChunked(d.chunks.rows, d.notes.rows)
    && RecordsAgree(d.chunks.rows, d.embeddings)
    && OneActive(d.notes.rows, d.sources.rows)
    && LinksHold(d.notes.rows, d.notes.keys, d.sources.rows) && LinksUnique(d.notes.rows) && SupersededReplaced(d.notes.rows)
    && ChunkLinks(d.chunks.rows, d.notes.rows)
  }

  // ---- What an edit finds ----

  /** The revision an edit replaces: the message's one live note, with its chunk when it has one. */
  ghost predicate FoundPrior(notes: Notes, chunks: Chunks, prior: Prior) {
    && (prior.note == None ==> prior.chunk == None)
    && (prior.note.Some? ==>
          var p := prior.note.value.noteId;
          && p in notes && notes[p] == prior.note.value && notes[p].state == Active
          && (prior.chunk.Some? <==> HasChunk(chunks, p))
          && (prior.chunk.Some? ==>
                var q := prior.chunk.value.chunkId;
                q in chunks && chunks[q] == prior.chunk.value && chunks[q].noteId == p))
  }

  lemma PriorFound(d: Diary, chatId: Id, messageId: Id, communityId: Id)
    requires Sound(d) && StatesAgree(d.chunks.rows, d.notes.rows)
    ensures FoundPrior(d.notes.rows, d.chunks.rows, PriorFor(d, chatId, messageId, communityId))
  {
    var prior := PriorFor(d, chatId, messageId, communityId);
    ActiveNoteIs(d, chatId, messageId, communityId);
    if prior.note.Some? {
      var p := prior.note.value.noteId;
      ActiveChunkIs(d, p, communityId);
      if HasChunk(d.chunks.rows, p) {
        var c :| c in d.chunks.rows && d.chunks.rows[c].noteId == p;
        assert ActiveChunkOf(d.chunks.rows[c], p, communityId);
      }
    }
  }

  // ---- The pieces of a revision, on plain maps ----

  function PriorId(prior: Prior): Option<Id> {
    if prior.note.Some? then Some(prior.note.value.noteId) else None
  }

  /** A new live note `n` that replaces the prior one, if any, on a source of its own. */
  ghost predicate Revision(notes: Notes, sources: Sources, prior: Prior, n: Note) {
    && n.noteId !in notes && n.state == Active && n.supersedes == PriorId(prior) && n.sourceId in sources
    && (prior.note.Some? ==> prior.note.value.noteId in notes && notes[prior.note.value.noteId].state == Active
                             && SameMessage(sources, n, notes[prior.note.value.noteId]))
    && (forall a :: a in notes && notes[a].state == Active && SameMessage(sources, n, notes[a]) ==> PriorId(prior) == Some(a))
  }

  function Edited(notes: Notes, prior: Prior, n: Note): Notes
    requires prior.note.Some? ==> prior.note.value.noteId in notes
  {
    RetiredNotes(notes[n.noteId := n], prior, Superseded)
  }

  lemma OneActiveEdited(notes: Notes, sources: Sources, prior: Prior, n: Note)
    requires OneActive(notes, sources) && Revision(notes, sources, prior, n)
    ensures OneActive(Edited(notes, prior, n), sources)
  {
  }

  lemma {:induction false} BeforeAppend(keys: seq<Id>, p: Id, a: Id, k: Id)
    ensures Before(keys, p, a) ==> Before(keys + [k], p, a)
    ensures p in keys ==> Before(keys + [k], p, k)
  {
    var more := keys + [k];
    if Before(keys, p, a) {
      var i, j :| 0 <= i < j < |keys| && keys[i] == p && keys[j] == a;
      assert more[i] == p && more[j] == a;
    }
    if p in keys {
      var i :| 0 <= i < |keys| && keys[i] == p;
      assert more[i] == p && more[|keys|] == k;
    }
  }

  lemma LinksEdited(notes: Notes, keys: seq<Id>, sources: Sources, prior: Prior, n: Note)
    requires LinksHold(notes, keys, sources) && LinksUnique(notes) && SupersededReplaced(notes)
    requires Revision(notes, sources, prior, n) && (forall id :: id in keys <==> id in notes)
    ensures var after := Edited(notes, prior, n);
            LinksHold(after, keys + [n.noteId], sources) && LinksUnique(after) && SupersededReplaced(after)
  {
    var after := Edited(notes, prior, n);
    assert forall a, p :: Replaces(after, a, p) <==> Replaces(notes, a, p) || (a == n.noteId && PriorId(prior) == Some(p));
    forall a, p | Replaces(after, a, p)
      ensures p in after && after[p].state == Superseded && SameMessage(sources, after[a], after[p])
              && Before(keys + [n.noteId], p, a)
    {
      BeforeAppend(keys, p, a, n.noteId);
    }
    forall p | p in after && after[p].state == Superseded ensures HasSuccessor(after, p) {
      if PriorId(prior) == Some(p) {
        assert Replaces(after, n.noteId, p);
      } else {
        var a :| Replaces(notes, a, p);
        assert Replaces(after, a, p);
      }
    }
  }

  /** The new chunk, if the revision has a body, linked to the chunk of the note it replaces. */
  ghost predicate RevisionChunk(notes: Notes, chunks: Chunks, prior: Prior, n: Note, c: EventChunk) {
    && c.chunkId !in chunks && c.noteId == n.noteId && c.state == Active
    && c.supersedes == (if prior.chunk.Some? then Some(prior.chunk.value.chunkId) else None)
  }

  function EditedChunks(chunks: Chunks, prior: Prior, c: EventChunk, bodied: bool): Chunks
    requires prior.chunk.Some? ==> prior.chunk.value.chunkId in chunks
  {
    var retired := RetiredChunks(chunks, prior, Superseded);
    if bodied then retired[c.chunkId := c] else retired
  }

  lemma PriorChunkOnly(notes: Notes, chunks: Chunks, prior: Prior)
    requires ChunksLinked(chunks, notes) && FoundPrior(notes, chunks, prior)
    ensures forall id :: id in chunks ==>
              (PriorId(prior) == Some(chunks[id].noteId) <==> prior.chunk.Some? && prior.chunk.value.chunkId == id)
  {
    forall id | id in chunks && PriorId(prior) == Some(chunks[id].noteId)
      ensures prior.chunk.Some? && prior.chunk.value.chunkId == id
    {
      assert HasChunk(chunks, chunks[id].noteId);
    }
  }

  lemma StatesEdited(notes: Notes, chunks: Chunks, sources: Sources, prior: Prior, n: Note, c: EventChunk, bodied: bool)
    requires StatesAgree(chunks, notes) && ChunksLinked(chunks, notes)
    requires FoundPrior(notes, chunks, prior) && Revision(notes, sources, prior, n)
    requires RevisionChunk(notes, chunks, prior, n, c)
    ensures StatesAgree(EditedChunks(chunks, prior, c, bodied), Edited(notes, prior, n))
  {
    PriorChunkOnly(notes, chunks, prior);
    var after, notes' := EditedChunks(chunks, prior, c, bodied), Edited(notes, prior, n);
    forall id | id in after ensures after[id].noteId in notes' && after[id].state == notes'[after[id].noteId].state {
      if id in chunks {
        assert chunks[id].noteId in notes && chunks[id].noteId != n.noteId;
      }
    }
  }

  lemma BodiesEdited(notes: Notes, chunks: Chunks, sources: Sources, prior: Prior, n: Note, c: EventChunk, bodied: bool)
    requires BodiesChunked(chunks, notes) && FoundPrior(notes, chunks, prior) && Revision(notes, sources, prior, n)
    requires RevisionChunk(notes, chunks, prior, n, c) && (bodied <==> n.noteText != "")
    ensures BodiesChunked(EditedChunks(chunks, prior, c, bodied), Edited(notes, prior, n))
  {
    var after, notes' := EditedChunks(chunks, prior, c, bodied), Edited(notes, prior, n);
    forall id | id in notes' && notes'[id].noteText != "" ensures HasChunk(after, id) {
      if id == n.noteId {
        assert after[c.chunkId].noteId == id;
      } else {
        var e :| e in chunks && chunks[e].noteId == id;
        assert e in after && after[e].noteId == id;
      }
    }
  }

  /** Links and note ids as they were, and the new chunk the only one more. */
  ghost predicate Extends(after: Chunks, chunks: Chunks, c: EventChunk) {
    && (forall id :: id in chunks ==>
          id in after && after[id].noteId == chunks[id].noteId && after[id].supersedes == chunks[id].supersedes)
    && (forall id :: id in after ==> id in chunks || (id == c.chunkId && after[id] == c))
  }

  /** The links of the notes, with the one the new note adds. */
  ghost predicate OneMoreLink(notes': Notes, notes: Notes, prior: Prior, n: Note) {
    forall a, p :: Replaces(notes', a, p) <==> Replaces(notes, a, p) || (a == n.noteId && PriorId(prior) == Some(p))
  }

  lemma EditedExtends(notes: Notes, chunks: Chunks, sources: Sources, prior: Prior, n: Note, c: EventChunk, bodied: bool)
    requires FoundPrior(notes, chunks, prior) && Revision(notes, sources, prior, n)
    requires RevisionChunk(notes, chunks, prior, n, c)
    ensures Extends(EditedChunks(chunks, prior, c, bodied), chunks, c)
    ensures OneMoreLink(Edited(notes, prior, n), notes, prior, n)
  {
  }

  lemma ChunkLinksEdited(notes: Notes, chunks: Chunks, sources: Sources, prior: Prior, n: Note, c: EventChunk, bodied: bool)
    requires ChunkLinks(chunks, notes) && ChunksLinked(chunks, notes)
    requires forall a, p :: Replaces(notes, a, p) ==> p in notes
    requires FoundPrior(notes, chunks, prior) && Revision(notes, sources, prior, n)
    requires RevisionChunk(notes, chunks, prior, n, c)
    ensures ChunkLinks(EditedChunks(chunks, prior, c, bodied), Edited(notes, prior, n))
  {
    EditedExtends(notes, chunks, sources, prior, n, c, bodied);
    PriorChunkOnly(notes, chunks, prior);
    ChunkLinksExtend(notes, chunks, prior, n, c, EditedChunks(chunks, prior, c, bodied), Edited(notes, prior, n));
  }

  /** The setting of the two link lemmas below. */
  ghost predicate OneMoreChunk(
    notes: Notes, chunks: Chunks, prior: Prior, n: Note, c: EventChunk, after: Chunks, notes': Notes)
  {
    && (forall a, p :: Replaces(notes, a, p) ==> p in notes)
    && (forall id :: id in chunks ==> chunks[id].noteId in notes)
    && (forall id :: id in chunks ==>
          (PriorId(prior) == Some(chunks[id].noteId) <==> prior.chunk.Some? && prior.chunk.value.chunkId == id))
    && Extends(after, chunks, c) && OneMoreLink(notes', notes, prior, n)
    && n.noteId !in notes && PriorId(prior) != Some(n.noteId)
    && c.chunkId !in chunks && c.noteId == n.noteId
    && c.supersedes == (if prior.chunk.Some? then Some(prior.chunk.value.chunkId) else None)
    && (prior.chunk.Some? ==> prior.chunk.value.chunkId in chunks)
  }

  lemma LinkForward(
    notes: Notes, chunks: Chunks, prior: Prior, n: Note, c: EventChunk, after: Chunks, notes': Notes, e: Id, q: Id)
    requires ChunkLinks(chunks, notes) && OneMoreChunk(notes, chunks, prior, n, c, after, notes')
    requires e in after && after[e].supersedes == Some(q)
    ensures q in after && Replaces(notes', after[e].noteId, after[q].noteId)
  {
    if e in chunks {
      assert q in chunks && Replaces(notes, chunks[e].noteId, chunks[q].noteId);
    } else {
      assert q in chunks && PriorId(prior) == Some(chunks[q].noteId);
    }
  }

  lemma LinkBack(
    notes: Notes, chunks: Chunks, prior: Prior, n: Note, c: EventChunk, after: Chunks, notes': Notes, e: Id, q: Id)
    requires ChunkLinks(chunks, notes) && OneMoreChunk(notes, chunks, prior, n, c, after, notes')
    requires e in after && q in after && Replaces(notes', after[e].noteId, after[q].noteId)
    ensures after[e].supersedes == Some(q)
  {
    var x, p := after[e].noteId, after[q].noteId;
    assert Replaces(notes, x, p) || PriorId(prior) == Some(p);
    assert p != n.noteId;
    assert q in chunks;
    if e in chunks {
      assert x in notes && Replaces(notes, chunks[e].noteId, chunks[q].noteId);
    }
  }

  lemma ChunkLinksExtend(
    notes: Notes, chunks: Chunks, prior: Prior, n: Note, c: EventChunk, after: Chunks, notes': Notes)
    requires ChunkLinks(chunks, notes) && OneMoreChunk(notes, chunks, prior, n, c, after, notes')
    ensures ChunkLinks(after, notes')
  {
    LinksForward(notes, chunks, prior, n, c, after, notes');
    LinksBack(notes, chunks, prior, n, c, after, notes');
  }

  lemma LinksForward(
    notes: Notes, chunks: Chunks, prior: Prior, n: Note, c: EventChunk, after: Chunks, notes': Notes)
    requires ChunkLinks(chunks, notes) && OneMoreChunk(notes, chunks, prior, n, c, after, notes')
    ensures ChunksPointBack(after, notes')
  {
    forall e, q | e in after && after[e].supersedes == Some(q) ensures q in after && Replaces(notes', after[e].noteId, after[q].noteId) {
      LinkForward(notes, chunks, prior, n, c, after, notes', e, q);
    }
  }

  lemma LinksBack(
    notes: Notes, chunks: Chunks, prior: Prior, n: Note, c: EventChunk, after: Chunks, notes': Notes)
    requires ChunkLinks(chunks, notes) && OneMoreChunk(notes, chunks, prior, n, c, after, notes')
    ensures NoteLinksFollowed(after, notes')
  {
    forall e, q | e in after && q in after && Replaces(notes', after[e].noteId, after[q].noteId) ensures after[e].supersedes == Some(q) {
      LinkBack(notes, chunks, prior, n, c, after, notes', e, q);
    }
  }

  lemma RecordsEdited(chunks: Chunks, records: Records, prior: Prior, c: EventChunk, bodied: bool, env: IngestEnv, communityId: Id)
    requires RecordsAgree(chunks, records) && RecordsLinked(records, chunks)
    requires prior.chunk.Some? ==> prior.chunk.value.chunkId in chunks
    requires c.chunkId == env.chunkId && c.chunkId !in chunks && c.status == FinalStatus(env)
    ensures RecordsAgree(EditedChunks(chunks, prior, c, bodied), if bodied then FinalRecords(env, communityId, records) else records)
  {
    var after, records' := EditedChunks(chunks, prior, c, bodied), if bodied then FinalRecords(env, communityId, records) else records;
    forall id | id in after && HasRecord(records', id) ensures after[id].status == Ready {
      var k :| k in records' && k.chunkId == id;
      if id != env.chunkId {
        assert k in records;
        assert HasRecord(records, id);
      } else if !bodied {
        assert k.chunkId in chunks;
      }
    }
  }
}
