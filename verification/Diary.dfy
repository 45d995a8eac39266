/**
 * The diary tables as a value, the single writes that change them, and the store's lookups
 * (`storage/mock/store.py`).
 */
module Diary {
  import opened Models
  import opened Ordering
  import opened Sorting
  import opened Tables
  import opened Wrappers

  datatype Diary = Diary(
    sources: Table<SourceMessage>,
    idempotency: map<DeliveryKey, Id>,
    notes: Table<Note>,
    chunks: Table<EventChunk>,
    embeddings: map<EmbeddingKey, EmbeddingRecord>,
    deadLetters: map<Id, IndexingDeadLetter>)

  const EMPTY := Diary(Empty(), map[], Empty(), Empty(), map[], map[])

  /** One call that changes one row; the unit a crash cannot cut. */
  datatype Write =
    | SaveSource(source: SourceMessage)
    | SaveNote(note: Note)
    | SaveChunk(chunk: EventChunk)
    | SetNoteState(noteId: Id, noteState: LifecycleState)
    | SetChunkState(chunkId: Id, chunkState: LifecycleState)
    | SetChunkStatus(chunkId: Id, status: EmbeddingStatus)
    | SaveRecord(record: EmbeddingRecord)
    | SaveDeadLetter(letter: IndexingDeadLetter)

  function Apply(d: Diary, w: Write): Diary {
    match w
    case SaveSource(s) =>
      d.(sources := Put(d.sources, s.sourceId, s), idempotency := d.idempotency[s.Key() := s.sourceId])
    case SaveNote(n) => d.(notes := Put(d.notes, n.noteId, n))
    case SaveChunk(c) => d.(chunks := Put(d.chunks, c.chunkId, c))
    case SetNoteState(id, state) =>
      if id in d.notes.rows then d.(notes := Put(d.notes, id, d.notes.rows[id].(state := state))) else d
    case SetChunkState(id, state) =>
      if id in d.chunks.rows then d.(chunks := Put(d.chunks, id, d.chunks.rows[id].(state := state))) else d
    case SetChunkStatus(id, status) =>
      if id in d.chunks.rows then d.(chunks := Put(d.chunks, id, d.chunks.rows[id].(status := status))) else d
    case SaveRecord(r) => d.(embeddings := d.embeddings[r.Key() := r])
    case SaveDeadLetter(l) => d.(deadLetters := d.deadLetters[l.letterId := l])
  }

  function ApplyAll(d: Diary, ws: seq<Write>): Diary
    decreases |ws|
  {
    if ws == [] then d else ApplyAll(Apply(d, ws[0]), ws[1..])
  }

  lemma {:induction false} ApplyConcat(d: Diary, a: seq<Write>, b: seq<Write>)
    ensures ApplyAll(d, a + b) == ApplyAll(ApplyAll(d, a), b)
    decreases |a|
  {
    if a == [] {
      assert a + b == b;
    } else {
      assert (a + b)[1..] == a[1..] + b;
      ApplyConcat(Apply(d, a[0]), a[1..], b);
    }
  }

  lemma ApplyOne(d: Diary, w: Write)
    ensures ApplyAll(d, [w]) == Apply(d, w)
  {
    assert ApplyAll(Apply(d, w), [w][1..]) == Apply(d, w);
  }

  lemma ApplyTwo(d: Diary, w: Write, x: Write)
    ensures ApplyAll(d, [w, x]) == Apply(Apply(d, w), x)
  {
    assert [w, x][1..] == [x];
    ApplyOne(Apply(d, w), x);
  }

  lemma ApplyPair(d: Diary, w: Write, x: Write)
    ensures ApplyAll(d, [w, x]) == ApplyAll(ApplyAll(d, [w]), [x])
    ensures [w] + [x] == [w, x]
  {
    ApplyConcat(d, [w], [x]);
  }

  // ---- Lookups ----

  /** `created_at DESC, id DESC`, as an order that puts the newest first. */
  predicate NoteNewest(a: Note, b: Note) {
    b.createdAt < a.createdAt || (b.createdAt == a.createdAt && StringLeq(b.noteId, a.noteId))
  }

  predicate ChunkNewest(a: EventChunk, b: EventChunk) {
    b.createdAt < a.createdAt || (b.createdAt == a.createdAt && StringLeq(b.chunkId, a.chunkId))
  }

  predicate ChunkOldest(a: EventChunk, b: EventChunk) {
    a.createdAt < b.createdAt || (a.createdAt == b.createdAt && StringLeq(a.chunkId, b.chunkId))
  }

  predicate SourceNewest(a: SourceMessage, b: SourceMessage) {
    b.createdAt < a.createdAt || (b.createdAt == a.createdAt && StringLeq(b.sourceId, a.sourceId))
  }

  predicate SourceOldest(a: SourceMessage, b: SourceMessage) {
    a.createdAt < b.createdAt || (a.createdAt == b.createdAt && StringLeq(a.sourceId, b.sourceId))
  }

  /** Whether a note belongs to an external message, in one community. */
  predicate NoteOf(d: Diary, n: Note, chatId: Id, messageId: Id, communityId: Id) {
    && n.communityId == communityId
    && n.sourceId in d.sources.rows
    && d.sources.rows[n.sourceId].chatId == chatId
    && d.sources.rows[n.sourceId].messageId == messageId
  }

  predicate ActiveNoteOf(d: Diary, n: Note, chatId: Id, messageId: Id, communityId: Id) {
    n.state == Active && NoteOf(d, n, chatId, messageId, communityId)
  }

  function ActiveNoteTest(d: Diary, chatId: Id, messageId: Id, communityId: Id): Note -> bool {
    n => ActiveNoteOf(d, n, chatId, messageId, communityId)
  }

  predicate ActiveChunkOf(c: EventChunk, noteId: Id, communityId: Id) {
    c.noteId == noteId && c.communityId == communityId && c.state == Active
  }

  function ActiveChunkTest(noteId: Id, communityId: Id): EventChunk -> bool {
    c => ActiveChunkOf(c, noteId, communityId)
  }

  function First<T>(s: seq<T>): Option<T> {
    if s == [] then None else Some(s[0])
  }

  /** `get_active_note_for_external_message` */
  function ActiveNoteFor(d: Diary, chatId: Id, messageId: Id, communityId: Id): Option<Note> {
    First(Sort(Filter(Values(d.notes), ActiveNoteTest(d, chatId, messageId, communityId)), NoteNewest))
  }

  /** `get_active_chunk_for_note` */
  function ActiveChunkFor(d: Diary, noteId: Id, communityId: Id): Option<EventChunk> {
    First(Sort(Filter(Values(d.chunks), ActiveChunkTest(noteId, communityId)), ChunkNewest))
  }

  function NoteFromTest(sourceId: Id): Note -> bool {
    (n: Note) => n.sourceId == sourceId
  }

  /** `get_note_by_source_message_id` */
  function NoteBySource(d: Diary, sourceId: Id): Option<Note> {
    First(Filter(Values(d.notes), NoteFromTest(sourceId)))
  }

  function ChunkFromTest(sourceId: Id): EventChunk -> bool {
    (c: EventChunk) => c.sourceId == sourceId
  }

  /** `count_event_chunks_for_source` */
  function CountChunks(d: Diary, sourceId: Id): nat {
    |Filter(Values(d.chunks), ChunkFromTest(sourceId))|
  }

  function FailedTest(communityId: Id): EventChunk -> bool {
    (c: EventChunk) => c.communityId == communityId && c.status == Failed
  }

  function Limited<T>(s: seq<T>, limit: Option<nat>): seq<T> {
    if limit.Some? then Take(s, limit.value) else s
  }

  /** `list_failed_event_chunks`: oldest first. */
  function FailedChunks(d: Diary, communityId: Id, limit: Option<nat>): seq<EventChunk> {
    Limited(Sort(Filter(Values(d.chunks), FailedTest(communityId)), ChunkOldest), limit)
  }

  function DraftTest(communityId: Id): SourceMessage -> bool {
    (s: SourceMessage) => s.communityId == communityId && s.route == DraftRoute
  }

  function SourceTest(communityId: Id): SourceMessage -> bool {
    (s: SourceMessage) => s.communityId == communityId
  }

  /** `list_source_messages`: oldest first. */
  function CommunitySources(d: Diary, communityId: Id): seq<SourceMessage> {
    Sort(Filter(Values(d.sources), SourceTest(communityId)), SourceOldest)
  }

  /** `list_recent_drafts`: newest first. */
  function RecentDrafts(d: Diary, communityId: Id, limit: nat): seq<SourceMessage> {
    Take(Sort(Filter(Values(d.sources), DraftTest(communityId)), SourceNewest), limit)
  }

  // ---- What the lookups find ----

  lemma NoteNewestOrder()
    ensures TotalPreorder(NoteNewest)
  {
    forall a: Note, b: Note ensures NoteNewest(a, b) || NoteNewest(b, a) {
      StringLeqTotal(a.noteId, b.noteId);
    }
    forall a: Note, b: Note, c: Note | NoteNewest(a, b) && NoteNewest(b, c) ensures NoteNewest(a, c) {
      if c.createdAt == b.createdAt == a.createdAt {
        StringLeqTransitive(c.noteId, b.noteId, a.noteId);
      }
    }
  }

  lemma ChunkNewestOrder()
    ensures TotalPreorder(ChunkNewest)
  {
    forall a: EventChunk, b: EventChunk ensures ChunkNewest(a, b) || ChunkNewest(b, a) {
      StringLeqTotal(a.chunkId, b.chunkId);
    }
    forall a: EventChunk, b: EventChunk, c: EventChunk | ChunkNewest(a, b) && ChunkNewest(b, c)
      ensures ChunkNewest(a, c)
    {
      if c.createdAt == b.createdAt == a.createdAt {
        StringLeqTransitive(c.chunkId, b.chunkId, a.chunkId);
      }
    }
  }

  lemma ChunkOldestOrder()
    ensures TotalPreorder(ChunkOldest)
  {
    ChunkNewestOrder();
    assert forall a, b {:trigger ChunkOldest(a, b)} :: ChunkOldest(a, b) == ChunkNewest(b, a);
  }

  lemma SourceNewestOrder()
    ensures TotalPreorder(SourceNewest)
  {
    forall a: SourceMessage, b: SourceMessage ensures SourceNewest(a, b) || SourceNewest(b, a) {
      StringLeqTotal(a.sourceId, b.sourceId);
    }
    forall a: SourceMessage, b: SourceMessage, c: SourceMessage | SourceNewest(a, b) && SourceNewest(b, c)
      ensures SourceNewest(a, c)
    {
      if c.createdAt == b.createdAt == a.createdAt {
        StringLeqTransitive(c.sourceId, b.sourceId, a.sourceId);
      }
    }
  }

  /** Finds a note exactly when one is active for the message, and then the newest such note. */
  lemma ActiveNoteIs(d: Diary, chatId: Id, messageId: Id, communityId: Id)
    ensures match ActiveNoteFor(d, chatId, messageId, communityId)
            case None => forall id :: id in d.notes.rows ==> !ActiveNoteOf(d, d.notes.rows[id], chatId, messageId, communityId)
            case Some(n) =>
              && n in Values(d.notes) && ActiveNoteOf(d, n, chatId, messageId, communityId)
              && forall id :: id in d.notes.rows && ActiveNoteOf(d, d.notes.rows[id], chatId, messageId, communityId)
                   ==> NoteNewest(n, d.notes.rows[id])
  {
    var test := ActiveNoteTest(d, chatId, messageId, communityId);
    var found := Filter(Values(d.notes), test);
    var ranked := Sort(found, NoteNewest);
    NoteNewestOrder();
    SortSorts(found, NoteNewest);
    forall n: Note ensures n in ranked <==> n in Values(d.notes) && test(n) {
      SortIn(found, NoteNewest, n);
      FilterIn(Values(d.notes), test, n);
    }
    if ranked != [] {
      assert ranked[0] in ranked;
      forall id | id in d.notes.rows && test(d.notes.rows[id]) ensures NoteNewest(ranked[0], d.notes.rows[id]) {
        assert d.notes.rows[id] in ranked;
        StringLeqTotal(ranked[0].noteId, ranked[0].noteId);
      }
    } else {
      forall id | id in d.notes.rows ensures !test(d.notes.rows[id]) {
        assert d.notes.rows[id] !in ranked;
      }
    }
  }

  lemma ActiveChunkIs(d: Diary, noteId: Id, communityId: Id)
    ensures match ActiveChunkFor(d, noteId, communityId)
            case None => forall id :: id in d.chunks.rows ==> !ActiveChunkOf(d.chunks.rows[id], noteId, communityId)
            case Some(c) =>
              && c in Values(d.chunks) && ActiveChunkOf(c, noteId, communityId)
              && forall id :: id in d.chunks.rows && ActiveChunkOf(d.chunks.rows[id], noteId, communityId)
                   ==> ChunkNewest(c, d.chunks.rows[id])
  {
    var test := ActiveChunkTest(noteId, communityId);
    var found := Filter(Values(d.chunks), test);
    var ranked := Sort(found, ChunkNewest);
    ChunkNewestOrder();
    SortSorts(found, ChunkNewest);
    forall c: EventChunk ensures c in ranked <==> c in Values(d.chunks) && test(c) {
      SortIn(found, ChunkNewest, c);
      FilterIn(Values(d.chunks), test, c);
    }
    if ranked != [] {
      assert ranked[0] in ranked;
      forall id | id in d.chunks.rows && test(d.chunks.rows[id]) ensures ChunkNewest(ranked[0], d.chunks.rows[id]) {
        assert d.chunks.rows[id] in ranked;
        StringLeqTotal(ranked[0].chunkId, ranked[0].chunkId);
      }
    } else {
      forall id | id in d.chunks.rows ensures !test(d.chunks.rows[id]) {
        assert d.chunks.rows[id] !in ranked;
      }
    }
  }

  /** The note stands before every other of its source in the order they were stored. */
  predicate FirstStored(notes: seq<Note>, n: Note, sourceId: Id) {
    exists i :: 0 <= i < |notes| && notes[i] == n && forall j :: 0 <= j < i ==> notes[j].sourceId != sourceId
  }

  lemma {:induction false} FirstFound(notes: seq<Note>, sourceId: Id)
    requires Filter(notes, NoteFromTest(sourceId)) != []
    ensures FirstStored(notes, Filter(notes, NoteFromTest(sourceId))[0], sourceId)
  {
    if notes[0].sourceId != sourceId {
      FirstFound(notes[1..], sourceId);
      var i :| 0 <= i < |notes[1..]| && notes[1..][i] == Filter(notes, NoteFromTest(sourceId))[0]
               && forall j :: 0 <= j < i ==> notes[1..][j].sourceId != sourceId;
      forall j | 0 <= j < i + 1 ensures notes[j].sourceId != sourceId {
        assert j > 0 ==> notes[j] == notes[1..][j - 1];
      }
      assert notes[i + 1] == notes[1..][i];
    }
  }

  lemma NoteBySourceIs(d: Diary, sourceId: Id)
    ensures match NoteBySource(d, sourceId)
            case None => forall id :: id in d.notes.rows ==> d.notes.rows[id].sourceId != sourceId
            case Some(n) => n in Values(d.notes) && n.sourceId == sourceId && FirstStored(Values(d.notes), n, sourceId)
  {
    var test := NoteFromTest(sourceId);
    var found := Filter(Values(d.notes), test);
    forall n: Note ensures n in found <==> n in Values(d.notes) && test(n) {
      FilterIn(Values(d.notes), test, n);
    }
    if found != [] {
      assert found[0] in found;
      FirstFound(Values(d.notes), sourceId);
    } else {
      forall id | id in d.notes.rows ensures d.notes.rows[id].sourceId != sourceId {
        assert d.notes.rows[id] !in found;
      }
    }
  }
}
