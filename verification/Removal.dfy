/**
 * What a removal leaves: the newest live note of the message and its chunk are tombstoned, everything
 * else is as it was, and the outcome says so. A draft that takes a note's place removes it the same way.
 */
module Removal {
  import opened Candidates
  import opened Chains
  import opened CrashSafety
  import opened Diary
  import opened GuardedPlans
  import opened IngestEffects
  import opened Lifecycle
  import opened Models
  import opened Ordering
  import opened Plans
  import opened Tables
  import opened Wrappers

  /** A live note of the message with no newer one. */
  ghost predicate NewestLive(d: Diary, x: External, id: Id) {
    && id in ActiveNotes(d, x)
    && forall a :: a in ActiveNotes(d, x) ==>
         var n, m := d.notes.rows[id], d.notes.rows[a];
         m.createdAt < n.createdAt || (m.createdAt == n.createdAt && StringLeq(a, id))
  }

  /** One note and its chunk put into a state, and no other row of either table touched. */
  ghost predicate Retired(d: Diary, e: Diary, id: Id, state: LifecycleState) {
    && e.notes.keys == d.notes.keys && NoteRetired(d.notes.rows, e.notes.rows, id, state)
    && e.chunks.keys == d.chunks.keys && ChunkRetired(d.chunks.rows, e.chunks.rows, id, state)
  }

  ghost predicate NoteRetired(before: Notes, after: Notes, id: Id, state: LifecycleState) {
    && after.Keys == before.Keys
    && forall a :: a in before ==> after[a] == if a == id then before[a].(state := state) else before[a]
  }

  /** The live chunk of the note goes with it. */
  ghost predicate ChunkRetired(before: Chunks, after: Chunks, id: Id, state: LifecycleState) {
    && after.Keys == before.Keys
    && forall c :: c in before ==>
         after[c] == if before[c].noteId == id && before[c].state == Active then before[c].(state := state) else before[c]
  }

  ghost predicate RestKept(d: Diary, e: Diary) {
    e.sources == d.sources && e.idempotency == d.idempotency && e.embeddings == d.embeddings && e.deadLetters == d.deadLetters
  }

  // ---- What the lookup finds ----

  lemma PriorIsNewest(d: Diary, x: External)
    requires Sound(d)
    ensures var prior := PriorFor(d, x.chatId, x.messageId, x.communityId);
            && (prior.note.Some? <==> ActiveNotes(d, x) != {})
            && (prior.note.Some? ==> prior.note.value.noteId in d.notes.rows
                                     && d.notes.rows[prior.note.value.noteId] == prior.note.value
                                     && NewestLive(d, x, prior.note.value.noteId))
  {
    ActiveNoteIs(d, x.chatId, x.messageId, x.communityId);
    var prior := PriorFor(d, x.chatId, x.messageId, x.communityId);
    if prior.note.Some? {
      assert prior.note.value.noteId in ActiveNotes(d, x);
    }
  }

  /** There is only one. */
  lemma NewestLiveUnique(d: Diary, x: External, a: Id, b: Id)
    requires NewestLive(d, x, a) && NewestLive(d, x, b)
    ensures a == b
  {
    StringLeqAntisymmetric(a, b);
  }

  lemma PriorRetired(d: Diary, x: External, state: LifecycleState)
    requires Sound(d) && PriorFor(d, x.chatId, x.messageId, x.communityId).note.Some?
    ensures var prior := PriorFor(d, x.chatId, x.messageId, x.communityId);
            var e := ApplyAll(d, RetireWrites(prior, state));
            Retired(d, e, prior.note.value.noteId, state) && RestKept(d, e)
  {
    var prior := PriorFor(d, x.chatId, x.messageId, x.communityId);
    PriorRetirable(d, x.chatId, x.messageId, x.communityId);
    RetireEffect(d, prior, state);
    RowsRetired(d.notes.rows, d.chunks.rows, prior, state);
  }

  lemma RowsRetired(notes: Notes, chunks: Chunks, prior: Prior, state: LifecycleState)
    requires Retirable(notes, chunks, prior) && prior.note.Some?
    ensures NoteRetired(notes, RetiredNotes(notes, prior, state), prior.note.value.noteId, state)
    ensures ChunkRetired(chunks, RetiredChunks(chunks, prior, state), prior.note.value.noteId, state)
  {
  }

  /** Taking one live note away leaves the message's others. */
  lemma OneFewer(d: Diary, e: Diary, x: External, id: Id, state: LifecycleState)
    requires Retired(d, e, id, state) && e.sources == d.sources && state != Active && id in d.notes.rows
    ensures ActiveNotes(e, x) == ActiveNotes(d, x) - {id}
  {
  }

  // ---- A delete ----

  /** The result a delete reports. */
  function Reported(d: Diary, x: External): Result<DeleteOutcome, StoreError> {
    DeletePlan(d, x.chatId, x.messageId, x.communityId).result
  }

  function Deleted(d: Diary, x: External): Diary {
    Step(d, Delete(x.chatId, x.messageId, x.communityId))
  }

  /** A delete with nothing live to remove, or no community, changes nothing and says so. */
  lemma DeleteFindsNothing(d: Diary, x: External)
    requires Sound(d) && (x.communityId == "" || ActiveNotes(d, x) == {})
    ensures Deleted(d, x) == d
    ensures Reported(d, x) == if x.communityId == "" then Raised(ValueError) else Ok(DeleteOutcome(false, None))
  {
    PriorIsNewest(d, x);
  }

  /** The live note found, and what retiring it leaves of its message. */
  lemma PriorGone(d: Diary, x: External, state: LifecycleState) returns (id: Id)
    requires Sound(d) && ActiveNotes(d, x) != {} && state != Active
    ensures var prior := PriorFor(d, x.chatId, x.messageId, x.communityId);
            var e := ApplyAll(d, RetireWrites(prior, state));
            && prior.note.Some? && prior.note.value.noteId == id && id in d.notes.rows && prior.note.value == d.notes.rows[id]
            && NewestLive(d, x, id) && Retired(d, e, id, state) && RestKept(d, e)
            && ActiveNotes(e, x) == ActiveNotes(d, x) - {id}
  {
    PriorIsNewest(d, x);
    PriorRetired(d, x, state);
    var prior := PriorFor(d, x.chatId, x.messageId, x.communityId);
    id := prior.note.value.noteId;
    OneFewer(d, ApplyAll(d, RetireWrites(prior, state)), x, id, state);
  }

  /**
   * Otherwise exactly the newest live note of the message goes, with its chunk, and the outcome carries
   * its date.
   */
  lemma DeleteRemoves(d: Diary, x: External) returns (id: Id)
    requires Sound(d) && x.communityId != "" && ActiveNotes(d, x) != {}
    ensures NewestLive(d, x, id) && Retired(d, Deleted(d, x), id, Tombstoned) && RestKept(d, Deleted(d, x))
    ensures Reported(d, x) == Ok(DeleteOutcome(true, Some(d.notes.rows[id].noteDate)))
    ensures ActiveNotes(Deleted(d, x), x) == ActiveNotes(d, x) - {id}
  {
    id := PriorGone(d, x, Tombstoned);
    DeleteIs(d, x);
  }

  lemma DeleteIs(d: Diary, x: External)
    requires x.communityId != "" && PriorFor(d, x.chatId, x.messageId, x.communityId).note.Some?
    ensures var prior := PriorFor(d, x.chatId, x.messageId, x.communityId);
            && Deleted(d, x) == ApplyAll(d, RetireWrites(prior, Tombstoned))
            && Reported(d, x) == Ok(DeleteOutcome(true, Some(prior.note.value.noteDate)))
  {
  }

  lemma OneOut(all: set<Id>, id: Id)
    requires id in all
    ensures |all - {id}| == |all| - 1
  {
    assert all == (all - {id}) + {id};
  }

  /** A delete reports a removal exactly when the message had a live note, and takes one. */
  lemma DeletedWhen(d: Diary, x: External)
    requires Sound(d) && x.communityId != ""
    ensures Reported(d, x).Ok? && (Reported(d, x).value.deleted <==> ActiveNotes(d, x) != {})
    ensures |ActiveNotes(Deleted(d, x), x)| == if ActiveNotes(d, x) == {} then 0 else |ActiveNotes(d, x)| - 1
  {
    if ActiveNotes(d, x) == {} {
      DeleteFindsNothing(d, x);
    } else {
      var id := DeleteRemoves(d, x);
      OneOut(ActiveNotes(d, x), id);
    }
  }

  lemma AtMostOneLive(d: Diary, x: External)
    requires Settled(d)
    ensures forall a, b :: a in ActiveNotes(d, x) && b in ActiveNotes(d, x) ==> a == b
  {
  }

  /** After completed runs one delete empties the message, and a second one reports that nothing was there. */
  lemma DeleteTwice(d: Diary, x: External)
    requires Sound(d) && Settled(d) && x.communityId != ""
    ensures ActiveNotes(Deleted(d, x), x) == {}
    ensures Reported(Deleted(d, x), x) == Ok(DeleteOutcome(false, None)) && Deleted(Deleted(d, x), x) == Deleted(d, x)
  {
    if ActiveNotes(d, x) == {} {
      DeleteFindsNothing(d, x);
    } else {
      var id := DeleteRemoves(d, x);
      AtMostOneLive(d, x);
    }
    AfterSound(d, Event(Delete(x.chatId, x.messageId, x.communityId), None));
    DeleteFindsNothing(Deleted(d, x), x);
  }

  /** What was removed is in no leg of any retrieval from then on. */
  lemma RemovedIsNotFound(
    d: Diary, e: Diary, id: Id, scope: Scope, query: Vector, text: string, modelName: string, limit: int,
    distance: (Vector, Vector) -> real, tokenize: string -> set<string>)
    requires Retired(d, e, id, Tombstoned)
    ensures forall c :: c in DenseCandidates(e, scope, query, modelName, limit, distance) ==> c.noteId != id
    ensures forall c :: c in SparseCandidates(e, scope, text, limit, tokenize) ==> c.noteId != id
  {
    NoneLive(d, e, id, Tombstoned);
    NotInLeg(Values(e.chunks), DenseScore(e.embeddings, scope, query, modelName, distance), limit, id);
    NotInLeg(Values(e.chunks), SparseScore(scope, tokenize(text), tokenize), limit, id);
  }

  lemma NotInLeg(rows: seq<EventChunk>, score: Score, limit: int, id: Id)
    requires forall c :: c in rows && c.noteId == id ==> score(c) == None
    ensures forall c :: c in Leg(rows, score, limit) ==> c.noteId != id
  {
    if limit > 0 {
      LegMembers(rows, score, limit);
    }
  }

  lemma NoneLive(d: Diary, e: Diary, id: Id, state: LifecycleState)
    requires Retired(d, e, id, state) && state != Active
    ensures forall c :: c in Values(e.chunks) && c.noteId == id ==> c.state != Active
  {
    NoneLiveRow(d.chunks.rows, e.chunks.rows, id, state);
    AllValues(e.chunks, (c: EventChunk) => c.noteId == id ==> c.state != Active);
  }

  lemma NoneLiveRow(before: Chunks, after: Chunks, id: Id, state: LifecycleState)
    requires ChunkRetired(before, after, id, state) && state != Active
    ensures forall k :: k in after && after[k].noteId == id ==> after[k].state != Active
  {
    forall k | k in after && after[k].noteId == id ensures after[k].state != Active {
      assert k in before;
    }
  }

  // ---- A draft in the note's place ----

  /**
   * A message that comes back as a draft, under a new key, loses its newest live note in the same way;
   * its raw row is all it adds.
   */
  lemma DraftRemoves(d: Diary, dl: Delivery) returns (id: Id)
    requires Sound(d) && FreshIds(d, dl.env) && dl.message.Key() !in d.idempotency
    requires dl.message.route == DraftRoute && dl.message.communityId != "" && ActiveNotes(d, MessageOf(dl)) != {}
    ensures var e := Step(d, Ingest(dl));
            && NewestLive(d, MessageOf(dl), id) && Retired(d, e, id, Tombstoned)
            && e.embeddings == d.embeddings && e.deadLetters == d.deadLetters
            && ActiveNotes(e, MessageOf(dl)) == ActiveNotes(d, MessageOf(dl)) - {id}
  {
    var x, with := MessageOf(dl), WithSource(d, dl);
    SourceGuarded(d, dl);
    DraftIngestEffect(d, dl);
    SameLive(d, dl, x);
    id := PriorGone(with, x, Tombstoned);
  }

  lemma SameLive(d: Diary, dl: Delivery, x: External)
    requires Sound(d) && dl.env.sourceId !in d.sources.rows
    ensures ActiveNotes(WithSource(d, dl), x) == ActiveNotes(d, x)
  {
    forall id ensures id in ActiveNotes(WithSource(d, dl), x) <==> id in ActiveNotes(d, x) {
      if id in d.notes.rows {
        StillLive(d, dl, x, id);
      }
    }
  }
}
