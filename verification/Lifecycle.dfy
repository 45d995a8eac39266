/**
 * Runs of ingest, delete and retry over the diary, cut short anywhere or run to the end, and
 * what every single write of every such run keeps.
 */
module Lifecycle {
  import opened Diary
  import opened Models
  import opened Plans
  import opened Sorting
  import opened Tables
  import opened Wrappers

  datatype Op =
    | Ingest(delivery: Delivery)
    | Delete(chatId: Id, messageId: Id, communityId: Id)
    | Retry(communityId: Id, limit: Option<nat>, env: RetryEnv)

  function Writes(d: Diary, op: Op): seq<Write> {
    match op
    case Ingest(dl) => IngestPlan(d, dl).writes
    case Delete(chatId, messageId, communityId) => DeletePlan(d, chatId, messageId, communityId).writes
    case Retry(communityId, limit, env) => RetryPlan(d, communityId, limit, env).writes
  }

  /** The operation ran to its end. */
  function Step(d: Diary, op: Op): Diary {
    ApplyAll(d, Writes(d, op))
  }

  /** The process stopped after `k` writes of the operation. */
  function CutStep(d: Diary, op: Op, k: nat): Diary {
    ApplyAll(d, Take(Writes(d, op), k))
  }

  ghost predicate Fresh(d: Diary, op: Op) {
    match op
    case Ingest(dl) => FreshIds(d, dl.env)
    case Delete(_, _, _) => true
    case Retry(_, _, env) => FreshLetters(d, env)
  }

  // ---- The structural invariant ----

  type Sources = map<Id, SourceMessage>
  type Notes = map<Id, Note>
  type Chunks = map<Id, EventChunk>
  type Records = map<EmbeddingKey, EmbeddingRecord>

  ghost predicate SourcesIndexed(sources: Sources, index: map<DeliveryKey, Id>) {
    && (forall id :: id in sources ==>
          sources[id].sourceId == id && sources[id].Key() in index && index[sources[id].Key()] == id)
    && (forall k :: k in index ==> index[k] in sources && sources[index[k]].Key() == k)
  }

  /** A note belongs to the message it was parsed from. */
  predicate FromSource(n: Note, s: SourceMessage) {
    n.communityId == s.communityId && n.authorId == s.authorId && n.createdAt == s.createdAt
  }

  /** One note a source, each under its own id. */
  ghost predicate NotesLinked(notes: Notes, sources: Sources) {
    && (forall id :: id in notes ==>
          notes[id].noteId == id && notes[id].sourceId in sources && FromSource(notes[id], sources[notes[id].sourceId]))
    && (forall a, b :: a in notes && b in notes && notes[a].sourceId == notes[b].sourceId ==> a == b)
  }

  /** A chunk is its note's body, with its note's origin. */
  predicate FromNote(c: EventChunk, n: Note) {
    && c.sourceId == n.sourceId && c.communityId == n.communityId && c.authorId == n.authorId
    && c.noteDate == n.noteDate && c.chunkText == n.noteText && c.subjectId == n.subjectId && c.createdAt == n.createdAt
    && c.chunkText != ""
  }

  /** At most one chunk a note. */
  ghost predicate ChunksLinked(chunks: Chunks, notes: Notes) {
    && (forall id :: id in chunks ==>
          chunks[id].chunkId == id && chunks[id].noteId in notes && FromNote(chunks[id], notes[chunks[id].noteId]))
    && (forall a, b :: a in chunks && b in chunks && chunks[a].noteId == chunks[b].noteId ==> a == b)
  }

  predicate ForChunk(r: EmbeddingRecord, c: EventChunk) {
    r.chunkId == c.chunkId && r.sourceId == c.sourceId && r.communityId == c.communityId
  }

  ghost predicate RecordsLinked(records: Records, chunks: Chunks) {
    forall k :: k in records ==>
      records[k].Key() == k && k.chunkId in chunks && ForChunk(records[k], chunks[k.chunkId])
  }

  ghost predicate HasRecord(records: Records, chunkId: Id) {
    exists k :: k in records && k.chunkId == chunkId
  }

  /** What retrieval can see is never ahead of its note's life. */
  ghost predicate ActiveNested(chunks: Chunks, notes: Notes) {
    forall id :: id in chunks && chunks[id].state == Active ==>
      chunks[id].noteId in notes && notes[chunks[id].noteId].state == Active
  }

  ghost predicate ReadyBacked(chunks: Chunks, records: Records) {
    forall id :: id in chunks && chunks[id].status == Ready ==> HasRecord(records, id)
  }

  ghost predicate Sound(d: Diary) {
    && SourcesIndexed(d.sources.rows, d.idempotency)
    && NotesLinked(d.notes.rows, d.sources.rows)
    && ChunksLinked(d.chunks.rows, d.notes.rows)
    && RecordsLinked(d.embeddings, d.chunks.rows)
    && ActiveNested(d.chunks.rows, d.notes.rows)
    && ReadyBacked(d.chunks.rows, d.embeddings)
  }

  /** Nothing written is lost or rewritten; only states and statuses move, and a retired row stays as it is. */
  ghost predicate Keeps(d: Diary, e: Diary) {
    && (forall id :: id in d.sources.rows ==> id in e.sources.rows && e.sources.rows[id] == d.sources.rows[id])
    && (forall k :: k in d.idempotency ==> k in e.idempotency && e.idempotency[k] == d.idempotency[k])
    && NotesKept(d.notes.rows, e.notes.rows) && ChunksKept(d.chunks.rows, e.chunks.rows)
    && (forall k :: k in d.embeddings ==> k in e.embeddings && e.embeddings[k] == d.embeddings[k])
    && (forall id :: id in d.deadLetters ==> id in e.deadLetters && e.deadLetters[id] == d.deadLetters[id])
  }

  ghost predicate NotesKept(before: Notes, after: Notes) {
    forall id :: id in before ==> id in after && NoteKept(before[id], after[id])
  }

  ghost predicate ChunksKept(before: Chunks, after: Chunks) {
    forall id :: id in before ==> id in after && ChunkKept(before[id], after[id])
  }

  predicate NoteKept(n: Note, m: Note) {
    m == n.(state := m.state) && (n.state != Active ==> m.state == n.state)
  }

  predicate ChunkKept(c: EventChunk, e: EventChunk) {
    e == c.(state := e.state, status := e.status) && (c.state != Active ==> e.state == c.state)
  }

  // ---- Writes that keep it ----

  ghost predicate NewNoteFits(n: Note, notes: Notes, sources: Sources) {
    && n.noteId !in notes
    && n.sourceId in sources && FromSource(n, sources[n.sourceId])
    && (forall id :: id in notes ==> notes[id].sourceId != n.sourceId)
  }

  ghost predicate NewChunkFits(c: EventChunk, chunks: Chunks, notes: Notes) {
    && c.chunkId !in chunks
    && c.noteId in notes && FromNote(c, notes[c.noteId]) && notes[c.noteId].state == Active
    && (forall id :: id in chunks ==> chunks[id].noteId != c.noteId)
    && c.status == Pending
  }

  /** What a write must find for the invariant to survive it. */
  ghost predicate Admissible(d: Diary, w: Write) {
    match w
    case SaveSource(s) => s.sourceId !in d.sources.rows && s.Key() !in d.idempotency
    case SaveNote(n) => NewNoteFits(n, d.notes.rows, d.sources.rows)
    case SaveChunk(c) => NewChunkFits(c, d.chunks.rows, d.notes.rows)
    case SetNoteState(id, state) =>
      && id in d.notes.rows && d.notes.rows[id].state == Active && state != Active
      && (forall c :: c in d.chunks.rows && d.chunks.rows[c].noteId == id ==> d.chunks.rows[c].state != Active)
    case SetChunkState(id, state) => id in d.chunks.rows && d.chunks.rows[id].state == Active && state != Active
    case SetChunkStatus(id, status) => id in d.chunks.rows && (status == Ready ==> HasRecord(d.embeddings, id))
    case SaveRecord(r) => r.Key() !in d.embeddings && r.chunkId in d.chunks.rows && ForChunk(r, d.chunks.rows[r.chunkId])
    case SaveDeadLetter(l) => l.letterId !in d.deadLetters
  }

  lemma AddSource(s: SourceMessage, sources: Sources, index: map<DeliveryKey, Id>, notes: Notes)
    requires SourcesIndexed(sources, index) && NotesLinked(notes, sources)
    requires s.sourceId !in sources && s.Key() !in index
    ensures SourcesIndexed(sources[s.sourceId := s], index[s.Key() := s.sourceId])
    ensures NotesLinked(notes, sources[s.sourceId := s])
  {
  }

  lemma AddNote(n: Note, notes: Notes, sources: Sources, chunks: Chunks)
    requires NotesLinked(notes, sources) && ChunksLinked(chunks, notes) && ActiveNested(chunks, notes)
    requires NewNoteFits(n, notes, sources)
    ensures NotesLinked(notes[n.noteId := n], sources)
    ensures ChunksLinked(chunks, notes[n.noteId := n]) && ActiveNested(chunks, notes[n.noteId := n])
  {
  }

  lemma AddChunk(c: EventChunk, chunks: Chunks, notes: Notes, records: Records)
    requires ChunksLinked(chunks, notes) && RecordsLinked(records, chunks)
    requires ActiveNested(chunks, notes) && ReadyBacked(chunks, records)
    requires NewChunkFits(c, chunks, notes)
    ensures var after := chunks[c.chunkId := c];
            && ChunksLinked(after, notes) && RecordsLinked(records, after)
            && ActiveNested(after, notes) && ReadyBacked(after, records)
  {
  }

  lemma RetireNote(id: Id, state: LifecycleState, notes: Notes, sources: Sources, chunks: Chunks)
    requires NotesLinked(notes, sources) && ChunksLinked(chunks, notes) && ActiveNested(chunks, notes)
    requires id in notes && forall c :: c in chunks && chunks[c].noteId == id ==> chunks[c].state != Active
    ensures var after := notes[id := notes[id].(state := state)];
            NotesLinked(after, sources) && ChunksLinked(chunks, after) && ActiveNested(chunks, after)
  {
  }

  /** Changing a chunk's state or status, never towards Active and to Ready only over a record. */
  lemma ChangeChunk(c: EventChunk, chunks: Chunks, notes: Notes, records: Records)
    requires ChunksLinked(chunks, notes) && RecordsLinked(records, chunks)
    requires ActiveNested(chunks, notes) && ReadyBacked(chunks, records)
    requires c.chunkId in chunks && c == chunks[c.chunkId].(state := c.state, status := c.status)
    requires c.state == Active ==> chunks[c.chunkId].state == Active
    requires c.status == Ready ==> HasRecord(records, c.chunkId)
    ensures var after := chunks[c.chunkId := c];
            && ChunksLinked(after, notes) && RecordsLinked(records, after)
            && ActiveNested(after, notes) && ReadyBacked(after, records)
  {
  }

  lemma AddRecord(r: EmbeddingRecord, records: Records, chunks: Chunks)
    requires RecordsLinked(records, chunks) && ReadyBacked(chunks, records)
    requires r.chunkId in chunks && ForChunk(r, chunks[r.chunkId])
    ensures RecordsLinked(records[r.Key() := r], chunks) && ReadyBacked(chunks, records[r.Key() := r])
  {
    forall id | id in chunks && chunks[id].status == Ready ensures HasRecord(records[r.Key() := r], id) {
      var k :| k in records && k.chunkId == id;
      assert k in records[r.Key() := r];
    }
  }

  lemma SoundWrite(d: Diary, w: Write)
    requires Sound(d) && Admissible(d, w)
    ensures Sound(Apply(d, w))
  {
    var sources, notes, chunks, records := d.sources.rows, d.notes.rows, d.chunks.rows, d.embeddings;
    match w
    case SaveSource(s) => AddSource(s, sources, d.idempotency, notes);
    case SaveNote(n) => AddNote(n, notes, sources, chunks);
    case SaveChunk(c) => AddChunk(c, chunks, notes, records);
    case SetNoteState(id, state) => RetireNote(id, state, notes, sources, chunks);
    case SetChunkState(id, state) => ChangeChunk(chunks[id].(state := state), chunks, notes, records);
    case SetChunkStatus(id, status) => ChangeChunk(chunks[id].(status := status), chunks, notes, records);
    case SaveRecord(r) => AddRecord(r, records, chunks);
    case SaveDeadLetter(l) =>
  }

  lemma KeepsWrite(d: Diary, w: Write)
    requires Admissible(d, w)
    ensures Keeps(d, Apply(d, w))
  {
  }

  lemma KeepsTransitive(a: Diary, b: Diary, c: Diary)
    requires Keeps(a, b) && Keeps(b, c)
    ensures Keeps(a, c)
  {
  }

  // ---- Sequences of writes ----

  ghost predicate Guarded(d: Diary, ws: seq<Write>)
    decreases |ws|
  {
    ws == [] || (Admissible(d, ws[0]) && Guarded(Apply(d, ws[0]), ws[1..]))
  }

  lemma {:induction false} GuardedConcat(d: Diary, a: seq<Write>, b: seq<Write>)
    requires Guarded(d, a) && Guarded(ApplyAll(d, a), b)
    ensures Guarded(d, a + b)
    decreases |a|
  {
    if a == [] {
      assert a + b == b;
    } else {
      assert (a + b)[1..] == a[1..] + b;
      GuardedConcat(Apply(d, a[0]), a[1..], b);
    }
  }

  lemma GuardedOne(d: Diary, w: Write)
    requires Admissible(d, w)
    ensures Guarded(d, [w])
  {
    assert [w][1..] == [];
  }

  lemma GuardedTwo(d: Diary, w: Write, x: Write)
    requires Admissible(d, w) && Admissible(Apply(d, w), x)
    ensures Guarded(d, [w, x])
  {
    assert [w, x][1..] == [x];
    GuardedOne(Apply(d, w), x);
  }

  lemma TakeStep(d: Diary, ws: seq<Write>, k: nat)
    requires ws != [] && k > 0
    ensures ApplyAll(d, Take(ws, k)) == ApplyAll(Apply(d, ws[0]), Take(ws[1..], k - 1))
  {
    assert Take(ws, k)[0] == ws[0] && Take(ws, k)[1..] == Take(ws[1..], k - 1);
  }

  lemma TakeNone(d: Diary, ws: seq<Write>)
    ensures ApplyAll(d, Take(ws, 0)) == d
    ensures Keeps(d, d)
  {
    assert Take(ws, 0) == [];
  }

  /** Guarded writes keep the invariant and every row, wherever they are cut. */
  lemma {:induction false} GuardedPrefix(d: Diary, ws: seq<Write>, k: nat)
    requires Sound(d) && Guarded(d, ws)
    ensures Sound(ApplyAll(d, Take(ws, k))) && Keeps(d, ApplyAll(d, Take(ws, k)))
    decreases |ws|
  {
    if ws == [] || k == 0 {
      assert Take(ws, k) == Take(ws, 0);
      TakeNone(d, ws);
    } else {
      SoundWrite(d, ws[0]);
      KeepsWrite(d, ws[0]);
      TakeStep(d, ws, k);
      var e := Apply(d, ws[0]);
      GuardedPrefix(e, ws[1..], k - 1);
      KeepsTransitive(d, e, ApplyAll(e, Take(ws[1..], k - 1)));
    }
  }

  lemma GuardedAll(d: Diary, ws: seq<Write>)
    requires Sound(d) && Guarded(d, ws)
    ensures Sound(ApplyAll(d, ws)) && Keeps(d, ApplyAll(d, ws))
  {
    GuardedPrefix(d, ws, |ws|);
    assert Take(ws, |ws|) == ws;
  }
}
