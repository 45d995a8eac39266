/**
 * The in-memory store (`storage/mock/store.py`): dictionaries updated in place. `State()` and
 * `Trace()` are their values; `journal` is the history of single-row writes.
 */
module MockDomainStore {
  import opened Candidates
  import opened Diary
  import opened HardDelete
  import opened Models
  import opened Sorting
  import opened Tables
  import opened Traces
  import opened Wrappers

  class Store {
    var sources: Table<SourceMessage>
    var idempotency: map<DeliveryKey, Id>
    var notes: Table<Note>
    var chunks: Table<EventChunk>
    var embeddings: map<EmbeddingKey, EmbeddingRecord>
    var deadLetters: map<Id, IndexingDeadLetter>
    var queries: map<Id, Query>
    var retrievalHits: map<Id, RetrievalHit>
    var answerTraces: map<Id, AnswerTrace>
    var chatRouteDecisions: map<Id, ChatRouteDecision>
    var chatQueryRewrites: map<Id, ChatQueryRewrite>
    var chatKnowledgeSearches: map<Id, ChatKnowledgeSearch>
    const distance: (Vector, Vector) -> real
    const tokenize: string -> set<string>
    ghost var journal: seq<Write>

    constructor (distance: (Vector, Vector) -> real, tokenize: string -> set<string>)
      ensures State() == EMPTY && Trace() == NO_TRACES && journal == []
      ensures this.distance == distance && this.tokenize == tokenize
    {
      sources, idempotency, notes, chunks := Empty(), map[], Empty(), Empty();
      embeddings, deadLetters := map[], map[];
      queries, retrievalHits, answerTraces := map[], map[], map[];
      chatRouteDecisions, chatQueryRewrites, chatKnowledgeSearches := map[], map[], map[];
      this.distance := distance;
      this.tokenize := tokenize;
      journal := [];
    }

    function State(): Diary
      reads this
    {
      Diary(sources, idempotency, notes, chunks, embeddings, deadLetters)
    }

    function Trace(): Traces
      reads this
    {
      Traces(queries, retrievalHits, answerTraces, chatRouteDecisions, chatQueryRewrites, chatKnowledgeSearches)
    }

    /** Exactly these writes happened, in this order. */
    twostate predicate Wrote(ws: seq<Write>)
      reads this
    {
      && State() == ApplyAll(old(State()), ws)
      && journal == old(journal) + ws
      && Trace() == old(Trace())
    }

    // ---- Sources ----

    method GetOrCreateSourceMessage(source: SourceMessage) returns (r: SourceMessage, replayed: bool)
      requires forall k :: k in idempotency ==> idempotency[k] in sources.rows
      modifies this
      ensures replayed <==> source.Key() in old(idempotency)
      ensures replayed ==> r == old(sources.rows[idempotency[source.Key()]]) && Wrote([])
      ensures !replayed ==> r == source && Wrote([SaveSource(source)])
    {
      var key := source.Key();
      if key in idempotency {
        return sources.rows[idempotency[key]], true;
      }
      sources := Put(sources, source.sourceId, source);
      idempotency := idempotency[key := source.sourceId];
      journal := journal + [SaveSource(source)];
      return source, false;
    }

    method ListSourceMessages(communityId: Id) returns (r: Result<seq<SourceMessage>, StoreError>)
      ensures r == if communityId == "" then Raised(ValueError) else Ok(CommunitySources(State(), communityId))
    {
      if communityId == "" {
        return Raised(ValueError);
      }
      var all, test := Values(sources), SourceTest(communityId);
      var rows: seq<SourceMessage> := [];
      for i := 0 to |all|
        invariant rows == Filter(all[..i], test)
      {
        FilterNext(all, i, test);
        if all[i].communityId == communityId {
          rows := rows + [all[i]];
        }
      }
      assert all[..|all|] == all;
      return Ok(Sort(rows, SourceOldest));
    }

    method ListRecentDrafts(communityId: Id, limit: int) returns (r: Result<seq<SourceMessage>, StoreError>)
      ensures r == if communityId == "" || limit < 1 then Raised(ValueError)
                   else Ok(RecentDrafts(State(), communityId, limit))
    {
      if communityId == "" || limit < 1 {
        return Raised(ValueError);
      }
      var all, test := Values(sources), DraftTest(communityId);
      var rows: seq<SourceMessage> := [];
      for i := 0 to |all|
        invariant rows == Filter(all[..i], test)
      {
        FilterNext(all, i, test);
        if all[i].communityId == communityId && all[i].route == DraftRoute {
          rows := rows + [all[i]];
        }
      }
      assert all[..|all|] == all;
      return Ok(Take(Sort(rows, SourceNewest), limit));
    }

    // ---- Notes and chunks ----

    method SaveNote(note: Note)
      modifies this
      ensures Wrote([Write.SaveNote(note)])
    {
      notes := Put(notes, note.noteId, note);
      journal := journal + [Write.SaveNote(note)];
    }

    method SaveEventChunks(saved: seq<EventChunk>)
      requires |saved| <= 1
      modifies this
      ensures Wrote(if saved == [] then [] else [SaveChunk(saved[0])])
    {
      for i := 0 to |saved|
        invariant i == 0 ==> State() == old(State()) && journal == old(journal)
        invariant i == 1 ==> State() == Apply(old(State()), SaveChunk(saved[0]))
        invariant i == 1 ==> journal == old(journal) + [SaveChunk(saved[0])]
        invariant Trace() == old(Trace())
      {
        chunks := Put(chunks, saved[i].chunkId, saved[i]);
        journal := journal + [SaveChunk(saved[i])];
      }
    }

    method GetNoteBySourceMessageId(sourceId: Id) returns (r: Option<Note>)
      ensures r == NoteBySource(State(), sourceId)
    {
      var all, test := Values(notes), NoteFromTest(sourceId);
      for i := 0 to |all|
        invariant Filter(all[..i], test) == []
      {
        if all[i].sourceId == sourceId {
          FilterFirst(all, i, test);
          return Some(all[i]);
        }
        FilterNext(all, i, test);
      }
      assert all[..|all|] == all;
      return None;
    }

    method GetActiveNoteForExternalMessage(chatId: Id, messageId: Id, communityId: Id)
      returns (r: Result<Option<Note>, StoreError>)
      ensures r == if communityId == "" then Raised(ValueError)
                   else Ok(ActiveNoteFor(State(), chatId, messageId, communityId))
    {
      if communityId == "" {
        return Raised(ValueError);
      }
      var all, test := Values(notes), ActiveNoteTest(State(), chatId, messageId, communityId);
      var matches: seq<Note> := [];
      for i := 0 to |all|
        invariant matches == Filter(all[..i], test)
      {
        FilterNext(all, i, test);
        var note := all[i];
        if note.communityId != communityId || note.state != Active || note.sourceId !in sources.rows {
          continue;
        }
        var source := sources.rows[note.sourceId];
        if source.chatId == chatId && source.messageId == messageId {
          matches := matches + [note];
        }
      }
      assert all[..|all|] == all;
      if matches == [] {
        return Ok(None);
      }
      SortPermutes(matches, NoteNewest);
      return Ok(Some(Sort(matches, NoteNewest)[0]));
    }

    method CountEventChunksForSource(sourceId: Id) returns (n: nat)
      ensures n == CountChunks(State(), sourceId)
    {
      var all, test := Values(chunks), ChunkFromTest(sourceId);
      n := 0;
      for i := 0 to |all|
        invariant n == |Filter(all[..i], test)|
      {
        FilterNext(all, i, test);
        if all[i].sourceId == sourceId {
          n := n + 1;
        }
      }
      assert all[..|all|] == all;
    }

    method GetActiveChunkForNote(noteId: Id, communityId: Id) returns (r: Result<Option<EventChunk>, StoreError>)
      ensures r == if communityId == "" then Raised(ValueError) else Ok(ActiveChunkFor(State(), noteId, communityId))
    {
      if communityId == "" {
        return Raised(ValueError);
      }
      var all, test := Values(chunks), ActiveChunkTest(noteId, communityId);
      var matches: seq<EventChunk> := [];
      for i := 0 to |all|
        invariant matches == Filter(all[..i], test)
      {
        FilterNext(all, i, test);
        if all[i].noteId == noteId && all[i].communityId == communityId && all[i].state == Active {
          matches := matches + [all[i]];
        }
      }
      assert all[..|all|] == all;
      if matches == [] {
        return Ok(None);
      }
      SortPermutes(matches, ChunkNewest);
      return Ok(Some(Sort(matches, ChunkNewest)[0]));
    }

    /** `mark_note_superseded` and `mark_note_tombstoned`. */
    method MarkNote(noteId: Id, communityId: Id, state: LifecycleState) returns (r: Result<(), StoreError>)
      modifies this
      ensures r == if communityId == "" then Raised(ValueError)
                   else if noteId !in old(notes.rows) || old(notes.rows[noteId]).communityId != communityId then Raised(KeyError)
                   else Ok(())
      ensures Wrote(if r.Ok? then [SetNoteState(noteId, state)] else [])
    {
      if communityId == "" {
        return Raised(ValueError);
      }
      if noteId !in notes.rows || notes.rows[noteId].communityId != communityId {
        return Raised(KeyError);
      }
      notes := Put(notes, noteId, notes.rows[noteId].(state := state));
      journal := journal + [SetNoteState(noteId, state)];
      ApplyOne(old(State()), SetNoteState(noteId, state));
      return Ok(());
    }

    /** `mark_chunk_superseded` and `mark_chunk_tombstoned`. */
    method MarkChunk(chunkId: Id, communityId: Id, state: LifecycleState) returns (r: Result<(), StoreError>)
      modifies this
      ensures r == if communityId == "" then Raised(ValueError)
                   else if chunkId !in old(chunks.rows) || old(chunks.rows[chunkId]).communityId != communityId then Raised(KeyError)
                   else Ok(())
      ensures Wrote(if r.Ok? then [SetChunkState(chunkId, state)] else [])
    {
      if communityId == "" {
        return Raised(ValueError);
      }
      if chunkId !in chunks.rows || chunks.rows[chunkId].communityId != communityId {
        return Raised(KeyError);
      }
      chunks := Put(chunks, chunkId, chunks.rows[chunkId].(state := state));
      journal := journal + [SetChunkState(chunkId, state)];
      ApplyOne(old(State()), SetChunkState(chunkId, state));
      return Ok(());
    }

    // ---- Embeddings ----

    method SaveEmbeddingRecord(record: EmbeddingRecord) returns (r: Result<(), StoreError>)
      modifies this
      ensures r == if record.Key() in old(embeddings) then Raised(ValueError) else Ok(())
      ensures Wrote(if r.Ok? then [SaveRecord(record)] else [])
    {
      if record.Key() in embeddings {
        return Raised(ValueError);
      }
      embeddings := embeddings[record.Key() := record];
      journal := journal + [SaveRecord(record)];
      return Ok(());
    }

    method SetChunkEmbeddingStatus(chunkId: Id, status: EmbeddingStatus) returns (r: Result<(), StoreError>)
      modifies this
      ensures r == if chunkId !in old(chunks.rows) then Raised(KeyError) else Ok(())
      ensures Wrote(if r.Ok? then [SetChunkStatus(chunkId, status)] else [])
    {
      if chunkId !in chunks.rows {
        return Raised(KeyError);
      }
      chunks := Put(chunks, chunkId, chunks.rows[chunkId].(status := status));
      journal := journal + [SetChunkStatus(chunkId, status)];
      ApplyOne(old(State()), SetChunkStatus(chunkId, status));
      return Ok(());
    }

    method SaveIndexingDeadLetter(letter: IndexingDeadLetter) returns (r: Result<(), StoreError>)
      modifies this
      ensures r == if letter.letterId in old(deadLetters) then Raised(ValueError) else Ok(())
      ensures Wrote(if r.Ok? then [SaveDeadLetter(letter)] else [])
    {
      if letter.letterId in deadLetters {
        return Raised(ValueError);
      }
      deadLetters := deadLetters[letter.letterId := letter];
      journal := journal + [SaveDeadLetter(letter)];
      return Ok(());
    }

    method ListFailedEventChunks(communityId: Id, limit: Option<int>) returns (r: Result<seq<EventChunk>, StoreError>)
      ensures r == if communityId == "" || (limit.Some? && limit.value < 0) then Raised(ValueError)
                   else Ok(FailedChunks(State(), communityId, if limit.Some? then Some(limit.value) else None))
    {
      if communityId == "" || (limit.Some? && limit.value < 0) {
        return Raised(ValueError);
      }
      var all, test := Values(chunks), FailedTest(communityId);
      var rows: seq<EventChunk> := [];
      for i := 0 to |all|
        invariant rows == Filter(all[..i], test)
      {
        FilterNext(all, i, test);
        if all[i].communityId == communityId && all[i].status == Failed {
          rows := rows + [all[i]];
        }
      }
      assert all[..|all|] == all;
      var sorted := Sort(rows, ChunkOldest);
      return Ok(if limit.Some? then Take(sorted, limit.value) else sorted);
    }

    // ---- Retrieval legs ----

    method DenseCandidates(scope: Scope, query: Vector, modelName: string, limit: int)
      returns (r: Result<seq<EventChunk>, StoreError>)
      ensures r == if scope.communityId == "" then Raised(ValueError)
                   else if limit > 0 && DenseFails(State(), scope, query, modelName) then Raised(ValueError)
                   else Ok(Candidates.DenseCandidates(State(), scope, query, modelName, limit, distance))
    {
      if scope.communityId == "" {
        return Raised(ValueError);
      }
      if limit <= 0 {
        return Ok([]);
      }
      var ranked := ScanDense(Values(chunks), embeddings, scope, query, modelName, distance);
      if ranked.Raised? {
        return Raised(ranked.error);
      }
      return Ok(ChunksOf(Take(Sort(ranked.value, RankLeq), limit)));
    }

    method SparseCandidates(scope: Scope, queryText: string, limit: int)
      returns (r: Result<seq<EventChunk>, StoreError>)
      ensures r == if scope.communityId == "" then Raised(ValueError)
                   else Ok(Candidates.SparseCandidates(State(), scope, queryText, limit, tokenize))
    {
      if scope.communityId == "" {
        return Raised(ValueError);
      }
      if limit <= 0 {
        return Ok([]);
      }
      var queryTokens := tokenize(queryText);
      if queryTokens == {} {
        return Ok([]);
      }
      var ranked := ScanSparse(Values(chunks), scope, queryTokens, tokenize);
      return Ok(ChunksOf(Take(Sort(ranked, RankLeq), limit)));
    }

    // ---- Traces ----

    method SaveQuery(q: Query) returns (ok: bool)
      modifies this
      ensures ok == WithQuery(old(Trace()), q).Some?
      ensures Trace() == if ok then WithQuery(old(Trace()), q).value else old(Trace())
      ensures State() == old(State()) && journal == old(journal)
    {
      if q.queryId in queries {
        return false;
      }
      queries := queries[q.queryId := q];
      return true;
    }

    method SaveRetrievalHits(hits: seq<RetrievalHit>) returns (ok: bool)
      modifies this
      ensures ok == WithHits(old(Trace()), hits).Some?
      ensures ok ==> Trace() == WithHits(old(Trace()), hits).value
      ensures State() == old(State()) && journal == old(journal)
    {
      for i := 0 to |hits|
        invariant WithHits(old(Trace()), hits) == WithHits(Trace(), hits[i..])
        invariant State() == old(State()) && journal == old(journal)
      {
        if hits[i].hitId in retrievalHits {
          return false;
        }
        retrievalHits := retrievalHits[hits[i].hitId := hits[i]];
        assert hits[i..][1..] == hits[i + 1..];
      }
      return true;
    }

    method SaveAnswerTrace(a: AnswerTrace) returns (ok: bool)
      modifies this
      ensures ok == WithAnswer(old(Trace()), a).Some?
      ensures Trace() == if ok then WithAnswer(old(Trace()), a).value else old(Trace())
      ensures State() == old(State()) && journal == old(journal)
    {
      if a.queryId in answerTraces {
        return false;
      }
      answerTraces := answerTraces[a.queryId := a];
      return true;
    }

    method SaveChatRouteDecision(d: ChatRouteDecision) returns (ok: bool)
      modifies this
      ensures ok == WithDecision(old(Trace()), d).Some?
      ensures Trace() == if ok then WithDecision(old(Trace()), d).value else old(Trace())
      ensures State() == old(State()) && journal == old(journal)
    {
      if d.decisionId in chatRouteDecisions {
        return false;
      }
      chatRouteDecisions := chatRouteDecisions[d.decisionId := d];
      return true;
    }

    method SaveChatQueryRewrite(rw: ChatQueryRewrite) returns (ok: bool)
      modifies this
      ensures ok == WithRewrite(old(Trace()), rw).Some?
      ensures Trace() == if ok then WithRewrite(old(Trace()), rw).value else old(Trace())
      ensures State() == old(State()) && journal == old(journal)
    {
      if rw.decisionId in chatQueryRewrites || rw.decisionId !in chatRouteDecisions {
        return false;
      }
      chatQueryRewrites := chatQueryRewrites[rw.decisionId := rw];
      return true;
    }

    method SaveChatKnowledgeSearch(s: ChatKnowledgeSearch) returns (ok: bool)
      modifies this
      ensures ok == WithSearch(old(Trace()), s).Some?
      ensures Trace() == if ok then WithSearch(old(Trace()), s).value else old(Trace())
      ensures State() == old(State()) && journal == old(journal)
    {
      if s.decisionId in chatKnowledgeSearches || s.decisionId !in chatRouteDecisions {
        return false;
      }
      chatKnowledgeSearches := chatKnowledgeSearches[s.decisionId := s];
      return true;
    }

    // ---- Hard delete ----

    method HardDeleteSourceMessage(sourceId: Id, communityId: Id) returns (r: Result<HardDeleteOutcome, StoreError>)
      modifies this
      ensures r.Raised? <==> communityId == "" || sourceId !in old(sources.rows) || old(sources.rows[sourceId]).communityId != communityId
      ensures r.Raised? ==> r.error == if communityId == "" then ValueError else KeyError
      ensures r.Raised? ==> State() == old(State()) && Trace() == old(Trace())
      ensures r.Ok? ==> State() == Erased(old(State()), sourceId) && Trace() == ErasedTraces(old(State()), old(Trace()), sourceId)
      ensures r.Ok? ==> r.value == Tally(old(State()), old(Trace()), sourceId)
    {
      if communityId == "" {
        return Raised(ValueError);
      }
      if sourceId !in sources.rows || sources.rows[sourceId].communityId != communityId {
        return Raised(KeyError);
      }
      var tally := EraseSource(sourceId);
      return Ok(tally);
    }

    /** What was derived from the source goes first, then its key and its own row. */
    method EraseSource(sourceId: Id) returns (tally: HardDeleteOutcome)
      requires sourceId in sources.rows
      modifies this
      ensures State() == Erased(old(State()), sourceId) && Trace() == ErasedTraces(old(State()), old(Trace()), sourceId)
      ensures tally == Tally(old(State()), old(Trace()), sourceId)
    {
      tally := EraseDerived(sourceId);
      idempotency := idempotency - {sources.rows[sourceId].Key()};
      sources := Without(sources, {sourceId});
    }

    /** The leaves first: hits and records reference chunks, chunks and notes reference the source. */
    method EraseDerived(sourceId: Id) returns (tally: HardDeleteOutcome)
      modifies this`retrievalHits, this`embeddings, this`notes, this`chunks
      ensures Trace() == ErasedTraces(old(State()), old(Trace()), sourceId)
      ensures embeddings == old(embeddings) - RecordsFrom(old(State()), sourceId)
      ensures notes == Without(old(notes), NotesFrom(old(State()), sourceId))
      ensures chunks == Without(old(chunks), ChunksFrom(old(State()), sourceId))
      ensures tally == Tally(old(State()), old(Trace()), sourceId)
    {
      var chunkIds := ChunksFrom(State(), sourceId);
      var hitIds := HitsOn(Trace(), chunkIds);
      var embKeys := RecordsFrom(State(), sourceId);
      var noteIds := NotesFrom(State(), sourceId);
      retrievalHits := retrievalHits - hitIds;
      embeddings := embeddings - embKeys;
      notes := DeleteAll(notes, noteIds);
      chunks := DeleteAll(chunks, chunkIds);
      tally := HardDeleteOutcome(1, |noteIds|, |chunkIds|, |embKeys|, |hitIds|);
    }
  }

  /** The scan of the dense leg; two vectors of different lengths end it. */
  method ScanDense(
    rows: seq<EventChunk>, embeddings: map<EmbeddingKey, EmbeddingRecord>, scope: Scope, query: Vector,
    modelName: string, distance: (Vector, Vector) -> real)
    returns (r: Result<seq<Ranked>, StoreError>)
    ensures r == if exists c :: c in rows && Mismatched(c, embeddings, scope, query, modelName) then Raised(ValueError)
                 else Ok(RankUpTo(rows, |rows|, DenseScore(embeddings, scope, query, modelName, distance)))
  {
    var ranked: seq<Ranked> := [];
    for index := 0 to |rows|
      invariant ranked == RankUpTo(rows, index, DenseScore(embeddings, scope, query, modelName, distance))
      invariant forall i :: 0 <= i < index ==> !Mismatched(rows[i], embeddings, scope, query, modelName)
    {
      var chunk := rows[index];
      if !InScope(chunk, scope) {
        continue;
      }
      if chunk.status != Ready {
        continue;
      }
      var key := EmbeddingKey(chunk.chunkId, modelName);
      if key !in embeddings {
        continue;
      }
      if |query| != |embeddings[key].vector| {
        assert chunk in rows && Mismatched(chunk, embeddings, scope, query, modelName);
        return Raised(ValueError);
      }
      var d := distance(query, embeddings[key].vector);
      if d >= MOCK_DENSE_THRESHOLD {
        continue;
      }
      ranked := ranked + [Ranked(d, index, chunk)];
    }
    return Ok(ranked);
  }

  /** The scan of the sparse leg. */
  method ScanSparse(rows: seq<EventChunk>, scope: Scope, queryTokens: set<string>, tokenize: string -> set<string>)
    returns (ranked: seq<Ranked>)
    ensures ranked == RankUpTo(rows, |rows|, SparseScore(scope, queryTokens, tokenize))
  {
    ranked := [];
    for index := 0 to |rows|
      invariant ranked == RankUpTo(rows, index, SparseScore(scope, queryTokens, tokenize))
    {
      var chunk := rows[index];
      if !InScope(chunk, scope) {
        continue;
      }
      var overlap := |queryTokens * tokenize(chunk.chunkText)|;
      if overlap == 0 {
        continue;
      }
      ranked := ranked + [Ranked(-(overlap as real), index, chunk)];
    }
  }

  /** `for k in ids: del d[k]` */
  method DeleteAll<V>(t: Table<V>, ids: set<Id>) returns (r: Table<V>)
    ensures r == Without(t, ids)
  {
    var left, done := ids, {};
    r := t;
    WithoutNone(t);
    while left != {}
      invariant done + left == ids && r == Without(t, done)
      decreases |left|
    {
      var id :| id in left;
      WithoutMore(t, done, id);
      r := Without(r, {id});
      left, done := left - {id}, done + {id};
    }
    assert done == ids;
  }
}
