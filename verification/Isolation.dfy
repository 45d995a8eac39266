/** Communities do not interfere: what one sees does not depend on what any other did. */
module Isolation {
  import opened Candidates
  import opened CrashSafety
  import opened Diary
  import opened GuardedPlans
  import opened IngestEffects
  import opened Lifecycle
  import opened Models
  import opened Plans
  import opened Reconciliation
  import opened Sorting
  import opened Tables
  import opened Wrappers

  /** The webhook derives the community from the chat. */
  type Tenancy = Id -> Id

  // ---- One community's part of the store ----

  function SourceIn(a: Id): SourceMessage -> bool {
    (s: SourceMessage) => s.communityId == a
  }

  function NoteIn(a: Id): Note -> bool {
    (n: Note) => n.communityId == a
  }

  function ChunkIn(a: Id): EventChunk -> bool {
    (c: EventChunk) => c.communityId == a
  }

  function RecordsIn(records: Records, a: Id): Records {
    map k | k in records && records[k].communityId == a :: records[k]
  }

  function KeysIn(index: map<DeliveryKey, Id>, tenancy: Tenancy, a: Id): map<DeliveryKey, Id> {
    map k | k in index && tenancy(k.chatId) == a :: index[k]
  }

  function LettersIn(letters: map<Id, IndexingDeadLetter>, a: Id): map<Id, IndexingDeadLetter> {
    map k | k in letters && letters[k].communityId == a :: letters[k]
  }

  function Restrict(d: Diary, tenancy: Tenancy, a: Id): Diary {
    Diary(Where(d.sources, SourceIn(a)), KeysIn(d.idempotency, tenancy, a), Where(d.notes, NoteIn(a)),
          Where(d.chunks, ChunkIn(a)), RecordsIn(d.embeddings, a), LettersIn(d.deadLetters, a))
  }

  // ---- A write is seen by its own community only ----

  /** Rows known to be of community `b`, where stored. */
  ghost predicate Theirs(d: Diary, notes: set<Id>, chunks: set<Id>, b: Id) {
    && (forall id :: id in notes && id in d.notes.rows ==> d.notes.rows[id].communityId == b)
    && (forall id :: id in chunks && id in d.chunks.rows ==> d.chunks.rows[id].communityId == b)
  }

  /** A write on rows of community `b` alone. */
  predicate Within(w: Write, tenancy: Tenancy, notes: set<Id>, chunks: set<Id>, b: Id) {
    match w
    case SaveSource(s) => s.communityId == b && tenancy(s.chatId) == b
    case SaveNote(n) => n.communityId == b
    case SaveChunk(c) => c.communityId == b
    case SetNoteState(id, _) => id in notes
    case SetChunkState(id, _) => id in chunks
    case SetChunkStatus(id, _) => id in chunks
    case SaveRecord(r) => r.communityId == b
    case SaveDeadLetter(l) => l.communityId == b
  }

  lemma TheirsStill(d: Diary, w: Write, tenancy: Tenancy, notes: set<Id>, chunks: set<Id>, b: Id)
    requires Theirs(d, notes, chunks, b) && Within(w, tenancy, notes, chunks, b)
    ensures Theirs(Apply(d, w), notes, chunks, b)
  {
  }

  lemma RestrictRecord(d: Diary, r: EmbeddingRecord, tenancy: Tenancy, a: Id)
    requires r.Key() in d.embeddings ==> d.embeddings[r.Key()].communityId == r.communityId
    ensures Restrict(Apply(d, SaveRecord(r)), tenancy, a)
         == if r.communityId == a then Apply(Restrict(d, tenancy, a), SaveRecord(r)) else Restrict(d, tenancy, a)
  {
    var records := d.embeddings;
    assert RecordsIn(records[r.Key() := r], a)
        == if r.communityId == a then RecordsIn(records, a)[r.Key() := r] else RecordsIn(records, a);
  }

  lemma RestrictLetter(d: Diary, l: IndexingDeadLetter, tenancy: Tenancy, a: Id)
    requires l.letterId !in d.deadLetters
    ensures Restrict(Apply(d, SaveDeadLetter(l)), tenancy, a)
         == if l.communityId == a then Apply(Restrict(d, tenancy, a), SaveDeadLetter(l)) else Restrict(d, tenancy, a)
  {
    var letters := d.deadLetters;
    assert LettersIn(letters[l.letterId := l], a)
        == if l.communityId == a then LettersIn(letters, a)[l.letterId := l] else LettersIn(letters, a);
  }

  lemma KeysRestrict(index: map<DeliveryKey, Id>, k: DeliveryKey, id: Id, tenancy: Tenancy, a: Id)
    ensures KeysIn(index[k := id], tenancy, a)
         == if tenancy(k.chatId) == a then KeysIn(index, tenancy, a)[k := id] else
              (map x | x in index && tenancy(x.chatId) == a :: index[x])
  {
  }

  lemma RestrictSource(d: Diary, s: SourceMessage, tenancy: Tenancy, a: Id)
    requires s.sourceId !in d.sources.rows && tenancy(s.chatId) == s.communityId
    ensures Restrict(Apply(d, SaveSource(s)), tenancy, a)
         == if s.communityId == a then Apply(Restrict(d, tenancy, a), SaveSource(s)) else Restrict(d, tenancy, a)
  {
    WherePutNew(d.sources, s.sourceId, s, SourceIn(a));
    KeysRestrict(d.idempotency, s.Key(), s.sourceId, tenancy, a);
  }

  lemma RestrictNote(d: Diary, id: Id, n: Note, tenancy: Tenancy, a: Id)
    requires id in d.notes.rows ==> d.notes.rows[id].communityId == n.communityId
    ensures var r := Restrict(d, tenancy, a);
            Restrict(d.(notes := Put(d.notes, id, n)), tenancy, a)
            == if n.communityId == a then r.(notes := Put(r.notes, id, n)) else r
  {
    if id in d.notes.rows {
      WherePutOld(d.notes, id, n, NoteIn(a));
    } else {
      WherePutNew(d.notes, id, n, NoteIn(a));
    }
  }

  lemma RestrictChunk(d: Diary, id: Id, c: EventChunk, tenancy: Tenancy, a: Id)
    requires id in d.chunks.rows ==> d.chunks.rows[id].communityId == c.communityId
    ensures var r := Restrict(d, tenancy, a);
            Restrict(d.(chunks := Put(d.chunks, id, c)), tenancy, a)
            == if c.communityId == a then r.(chunks := Put(r.chunks, id, c)) else r
  {
    if id in d.chunks.rows {
      WherePutOld(d.chunks, id, c, ChunkIn(a));
    } else {
      WherePutNew(d.chunks, id, c, ChunkIn(a));
    }
  }

  lemma RecordsOwn(d: Diary, r: EmbeddingRecord)
    requires Sound(d) && Admissible(d, SaveRecord(r))
    ensures r.Key() in d.embeddings ==> d.embeddings[r.Key()].communityId == r.communityId
  {
  }

  /** What community `a` sees of a write of community `b`: all of it or nothing. */
  lemma RestrictWrite(d: Diary, w: Write, tenancy: Tenancy, notes: set<Id>, chunks: set<Id>, b: Id, a: Id)
    requires Sound(d) && Admissible(d, w) && Theirs(d, notes, chunks, b) && Within(w, tenancy, notes, chunks, b)
    ensures Restrict(Apply(d, w), tenancy, a)
         == if a == b then Apply(Restrict(d, tenancy, a), w) else Restrict(d, tenancy, a)
  {
    match w
    case SaveSource(s) => RestrictSource(d, s, tenancy, a);
    case SaveNote(n) => RestrictNote(d, n.noteId, n, tenancy, a);
    case SaveChunk(c) => RestrictChunk(d, c.chunkId, c, tenancy, a);
    case SetNoteState(id, state) => RestrictNote(d, id, d.notes.rows[id].(state := state), tenancy, a);
    case SetChunkState(id, state) => RestrictChunk(d, id, d.chunks.rows[id].(state := state), tenancy, a);
    case SetChunkStatus(id, status) => RestrictChunk(d, id, d.chunks.rows[id].(status := status), tenancy, a);
    case SaveRecord(r) =>
      RecordsOwn(d, r);
      RestrictRecord(d, r, tenancy, a);
    case SaveDeadLetter(l) => RestrictLetter(d, l, tenancy, a);
  }

  lemma {:induction false} RestrictWrites(
    d: Diary, ws: seq<Write>, tenancy: Tenancy, notes: set<Id>, chunks: set<Id>, b: Id, a: Id)
    requires Sound(d) && Guarded(d, ws) && Theirs(d, notes, chunks, b)
    requires forall w :: w in ws ==> Within(w, tenancy, notes, chunks, b)
    ensures Restrict(ApplyAll(d, ws), tenancy, a)
         == if a == b then ApplyAll(Restrict(d, tenancy, a), ws) else Restrict(d, tenancy, a)
    decreases |ws|
  {
    if ws != [] {
      var w := ws[0];
      RestrictWrite(d, w, tenancy, notes, chunks, b, a);
      TheirsStill(d, w, tenancy, notes, chunks, b);
      SoundWrite(d, w);
      RestrictWrites(Apply(d, w), ws[1..], tenancy, notes, chunks, b, a);
    }
  }

  lemma {:induction false} GuardedTake(d: Diary, ws: seq<Write>, k: nat)
    requires Guarded(d, ws)
    ensures Guarded(d, Take(ws, k))
    decreases |ws|
  {
    if ws != [] && k > 0 {
      assert Take(ws, k)[0] == ws[0] && Take(ws, k)[1..] == Take(ws[1..], k - 1);
      GuardedTake(Apply(d, ws[0]), ws[1..], k - 1);
    }
  }

  // ---- Lookups of one community see its part only ----

  /** A lookup that only matches rows of `a` finds in the whole store what it finds in `a`'s part. */
  lemma LookupIn<V>(t: Table<V>, part: V -> bool, test: V -> bool, test': V -> bool)
    requires forall v :: v in Values(t) ==> (test(v) ==> part(v)) && (part(v) ==> test(v) == test'(v))
    ensures Filter(Values(Where(t, part)), test') == Filter(Values(t), test)
  {
    ValuesWhere(t, part);
    var vs := Values(t);
    forall v | v in Filter(vs, part) ensures test(v) == test'(v) {
      FilterIn(vs, part, v);
    }
    FilterAgree(Filter(vs, part), test', test);
    FilterFilter(vs, test, part);
  }

  lemma SameActive(d: Diary, tenancy: Tenancy, a: Id, n: Note, chatId: Id, messageId: Id)
    requires Sound(d) && n in Values(d.notes) && n.communityId == a
    ensures ActiveNoteOf(d, n, chatId, messageId, a) == ActiveNoteOf(Restrict(d, tenancy, a), n, chatId, messageId, a)
  {
    assert n.sourceId in d.sources.rows && d.sources.rows[n.sourceId].communityId == a;
  }

  lemma NoteLookup(d: Diary, tenancy: Tenancy, a: Id, chatId: Id, messageId: Id)
    requires Sound(d)
    ensures ActiveNoteFor(Restrict(d, tenancy, a), chatId, messageId, a) == ActiveNoteFor(d, chatId, messageId, a)
  {
    var r := Restrict(d, tenancy, a);
    forall n | n in Values(d.notes) && NoteIn(a)(n)
      ensures ActiveNoteOf(d, n, chatId, messageId, a) == ActiveNoteOf(r, n, chatId, messageId, a)
    {
      SameActive(d, tenancy, a, n, chatId, messageId);
    }
    LookupIn(d.notes, NoteIn(a), ActiveNoteTest(d, chatId, messageId, a), ActiveNoteTest(r, chatId, messageId, a));
  }

  lemma ChunkLookup(d: Diary, tenancy: Tenancy, a: Id, noteId: Id)
    ensures ActiveChunkFor(Restrict(d, tenancy, a), noteId, a) == ActiveChunkFor(d, noteId, a)
  {
    LookupIn(d.chunks, ChunkIn(a), ActiveChunkTest(noteId, a), ActiveChunkTest(noteId, a));
  }

  lemma PriorLookup(d: Diary, tenancy: Tenancy, a: Id, chatId: Id, messageId: Id)
    requires Sound(d)
    ensures PriorFor(Restrict(d, tenancy, a), chatId, messageId, a) == PriorFor(d, chatId, messageId, a)
  {
    NoteLookup(d, tenancy, a, chatId, messageId);
    var found := ActiveNoteFor(d, chatId, messageId, a);
    if found.Some? {
      ChunkLookup(d, tenancy, a, found.value.noteId);
    }
  }

  lemma FailedLookup(d: Diary, tenancy: Tenancy, a: Id, limit: Option<nat>)
    ensures FailedChunks(Restrict(d, tenancy, a), a, limit) == FailedChunks(d, a, limit)
  {
    LookupIn(d.chunks, ChunkIn(a), FailedTest(a), FailedTest(a));
  }

  lemma DraftLookup(d: Diary, tenancy: Tenancy, a: Id, limit: nat)
    ensures RecentDrafts(Restrict(d, tenancy, a), a, limit) == RecentDrafts(d, a, limit)
  {
    LookupIn(d.sources, SourceIn(a), DraftTest(a), DraftTest(a));
  }

  lemma ExportLookup(d: Diary, tenancy: Tenancy, a: Id)
    ensures CommunitySources(Restrict(d, tenancy, a), a) == CommunitySources(d, a)
  {
    LookupIn(d.sources, SourceIn(a), SourceTest(a), SourceTest(a));
  }

  /** A source of `a` has its note and chunks in `a`. */
  lemma AnswerLookup(d: Diary, tenancy: Tenancy, a: Id, s: SourceMessage)
    requires Sound(d) && s.sourceId in d.sources.rows && d.sources.rows[s.sourceId].communityId == a
    ensures Reconstruct(Restrict(d, tenancy, a), s) == Reconstruct(d, s)
  {
    DerivedIn(d, s.sourceId);
    NoteFound(d, tenancy, a, s.sourceId);
    ChunksCounted(d, tenancy, a, s.sourceId);
    SameAnswerIn(d, Restrict(d, tenancy, a), s);
  }

  lemma NoteFound(d: Diary, tenancy: Tenancy, a: Id, sourceId: Id)
    requires forall n :: n in Values(d.notes) && n.sourceId == sourceId ==> n.communityId == a
    ensures NoteBySource(Restrict(d, tenancy, a), sourceId) == NoteBySource(d, sourceId)
  {
    LookupIn(d.notes, NoteIn(a), NoteFromTest(sourceId), NoteFromTest(sourceId));
  }

  lemma ChunksCounted(d: Diary, tenancy: Tenancy, a: Id, sourceId: Id)
    requires forall c :: c in Values(d.chunks) && c.sourceId == sourceId ==> c.communityId == a
    ensures CountChunks(Restrict(d, tenancy, a), sourceId) == CountChunks(d, sourceId)
  {
    LookupIn(d.chunks, ChunkIn(a), ChunkFromTest(sourceId), ChunkFromTest(sourceId));
  }

  lemma DerivedIn(d: Diary, sourceId: Id)
    requires NotesLinked(d.notes.rows, d.sources.rows) && ChunksLinked(d.chunks.rows, d.notes.rows) && sourceId in d.sources.rows
    ensures forall n :: n in Values(d.notes) && n.sourceId == sourceId ==> n.communityId == d.sources.rows[sourceId].communityId
    ensures forall c :: c in Values(d.chunks) && c.sourceId == sourceId ==> c.communityId == d.sources.rows[sourceId].communityId
  {
    forall c | c in Values(d.chunks) && c.sourceId == sourceId ensures c.communityId == d.sources.rows[sourceId].communityId {
      assert c.noteId in d.notes.rows;
    }
  }

  lemma SameAnswerIn(d: Diary, r: Diary, s: SourceMessage)
    requires NoteBySource(r, s.sourceId) == NoteBySource(d, s.sourceId)
    requires CountChunks(r, s.sourceId) == CountChunks(d, s.sourceId)
    ensures Reconstruct(r, s) == Reconstruct(d, s)
  {
  }

  // ---- Operations write within their own community ----

  function CommunityOf(op: Op): Id {
    match op
    case Ingest(dl) => dl.message.communityId
    case Delete(_, _, communityId) => communityId
    case Retry(communityId, _, _) => communityId
  }

  /** The community an operation names is the one its chat belongs to. */
  predicate Tenanted(op: Op, tenancy: Tenancy) {
    match op
    case Ingest(dl) => tenancy(dl.message.chatId) == dl.message.communityId
    case Delete(chatId, _, communityId) => tenancy(chatId) == communityId
    case Retry(_, _, _) => true
  }

  function OwnNotes(d: Diary, b: Id): set<Id> {
    set id | id in d.notes.rows && d.notes.rows[id].communityId == b
  }

  function OwnChunks(d: Diary, op: Op): set<Id> {
    (set id | id in d.chunks.rows && d.chunks.rows[id].communityId == CommunityOf(op))
    + if op.Ingest? then {op.delivery.env.chunkId} else {}
  }

  lemma OwnAreTheirs(d: Diary, op: Op)
    requires Fresh(d, op)
    ensures Theirs(d, OwnNotes(d, CommunityOf(op)), OwnChunks(d, op), CommunityOf(op))
  {
  }

  lemma PriorOwn(d: Diary, chatId: Id, messageId: Id, communityId: Id)
    requires Sound(d)
    ensures var prior := PriorFor(d, chatId, messageId, communityId);
            && (prior.note.Some? ==> prior.note.value.noteId in OwnNotes(d, communityId))
            && (prior.chunk.Some? ==>
                  var c := prior.chunk.value.chunkId;
                  c in d.chunks.rows && d.chunks.rows[c].communityId == communityId)
  {
    ActiveNoteIs(d, chatId, messageId, communityId);
    var prior := PriorFor(d, chatId, messageId, communityId);
    if prior.note.Some? {
      ActiveChunkIs(d, prior.note.value.noteId, communityId);
    }
  }

  lemma IngestWithin(d: Diary, dl: Delivery, tenancy: Tenancy)
    requires Sound(d) && FreshIds(d, dl.env) && Tenanted(Ingest(dl), tenancy)
    ensures forall w :: w in Writes(d, Ingest(dl)) ==>
              Within(w, tenancy, OwnNotes(d, dl.message.communityId), OwnChunks(d, Ingest(dl)), dl.message.communityId)
  {
    if dl.message.Key() !in d.idempotency {
      IngestShape(d, dl);
      SourceGuarded(d, dl);
      PriorOwn(WithSource(d, dl), dl.message.chatId, dl.message.messageId, dl.message.communityId);
      forall w | w in Writes(d, Ingest(dl))
        ensures Within(w, tenancy, OwnNotes(d, dl.message.communityId), OwnChunks(d, Ingest(dl)), dl.message.communityId)
      {
        assert IngestWrite(w, d, dl);
      }
    }
  }

  lemma RecordsWithin(
    g: Group, communityId: Id, env: RetryEnv, ge: GroupEnv, records: seq<EmbeddingRecord>, some: seq<EmbeddingRecord>)
    requires ge.embed.Vectors? && |ge.embed.vectors| == |g.chunks|
    requires records == GroupRecords(g, communityId, env.now, env.client, ge.embed.vectors, ge.recordIds)
    requires forall r :: r in some ==> r in records
    ensures forall w :: w in SaveRecords(some) ==> w.SaveRecord? && w.record.communityId == communityId
  {
    RecordWrites(some);
    forall r | r in records ensures r.communityId == communityId {
      var i :| 0 <= i < |records| && records[i] == r;
    }
  }

  lemma RetryGroupWithin(
    d: Diary, communityId: Id, g: Group, env: RetryEnv, ge: GroupEnv, tenancy: Tenancy, notes: set<Id>, chunks: set<Id>)
    requires forall c :: c in g.chunks ==> c.chunkId in chunks
    ensures forall w :: w in RetryGroup(d, communityId, g, env, ge).writes ==> Within(w, tenancy, notes, chunks, communityId)
  {
    if ge.embed.Vectors? && |ge.embed.vectors| == |g.chunks| {
      var records := GroupRecords(g, communityId, env.now, env.client, ge.embed.vectors, ge.recordIds);
      RecordsWithin(g, communityId, env, ge, records, records);
      RecordsWithin(g, communityId, env, ge, records, records[..SavableRecords(d, records)]);
      StatusWrites(g.chunks, Ready);
    }
  }

  lemma {:induction false} RetryUpToWithin(
    d: Diary, communityId: Id, groups: seq<Group>, env: RetryEnv, n: nat, tenancy: Tenancy, notes: set<Id>, chunks: set<Id>)
    requires n <= |groups| && forall g, c :: g in groups && c in g.chunks ==> c.chunkId in chunks
    ensures forall w :: w in RetryUpTo(d, communityId, groups, env, n).writes ==> Within(w, tenancy, notes, chunks, communityId)
  {
    if n > 0 {
      RetryUpToWithin(d, communityId, groups, env, n - 1, tenancy, notes, chunks);
      var e := ApplyAll(d, RetryUpTo(d, communityId, groups, env, n - 1).writes);
      assert groups[n - 1] in groups;
      RetryGroupWithin(e, communityId, groups[n - 1], env, env.groups(n - 1), tenancy, notes, chunks);
    }
  }

  lemma ListedOwn(d: Diary, communityId: Id, limit: Option<nat>, env: RetryEnv)
    requires Sound(d)
    ensures var groups := Groups(FailedChunks(d, communityId, limit));
            forall g, c :: g in groups && c in g.chunks ==> c.chunkId in OwnChunks(d, Retry(communityId, limit, env))
  {
    ListedEmbeddable(d, communityId, limit);
  }

  lemma OpWithin(d: Diary, op: Op, tenancy: Tenancy)
    requires Sound(d) && Fresh(d, op) && Tenanted(op, tenancy)
    ensures forall w :: w in Writes(d, op) ==>
              Within(w, tenancy, OwnNotes(d, CommunityOf(op)), OwnChunks(d, op), CommunityOf(op))
  {
    match op
    case Ingest(dl) => IngestWithin(d, dl, tenancy);
    case Delete(chatId, messageId, communityId) => DeleteWithin(d, chatId, messageId, communityId, tenancy);
    case Retry(communityId, limit, env) => RetryWithin(d, communityId, limit, env, tenancy);
  }

  lemma DeleteWithin(d: Diary, chatId: Id, messageId: Id, communityId: Id, tenancy: Tenancy)
    requires Sound(d)
    ensures var op := Delete(chatId, messageId, communityId);
            forall w :: w in Writes(d, op) ==> Within(w, tenancy, OwnNotes(d, communityId), OwnChunks(d, op), communityId)
  {
    PriorOwn(d, chatId, messageId, communityId);
    RetireWithin(PriorFor(d, chatId, messageId, communityId), tenancy, OwnNotes(d, communityId),
                 OwnChunks(d, Delete(chatId, messageId, communityId)), communityId);
  }

  lemma RetireWithin(prior: Prior, tenancy: Tenancy, notes: set<Id>, chunks: set<Id>, communityId: Id)
    requires prior.note.Some? ==> prior.note.value.noteId in notes
    requires prior.chunk.Some? ==> prior.chunk.value.chunkId in chunks
    ensures forall w :: w in RetireWrites(prior, Tombstoned) ==> Within(w, tenancy, notes, chunks, communityId)
  {
    RetireMembers(prior, Tombstoned);
  }

  lemma RetryWithin(d: Diary, communityId: Id, limit: Option<nat>, env: RetryEnv, tenancy: Tenancy)
    requires Sound(d)
    ensures var op := Retry(communityId, limit, env);
            forall w :: w in Writes(d, op) ==> Within(w, tenancy, OwnNotes(d, communityId), OwnChunks(d, op), communityId)
  {
    if communityId != "" {
      var groups := Groups(FailedChunks(d, communityId, limit));
      ListedOwn(d, communityId, limit, env);
      RetryUpToWithin(d, communityId, groups, env, |groups|, tenancy, OwnNotes(d, communityId),
                      OwnChunks(d, Retry(communityId, limit, env)));
    }
  }

  // ---- An operation does in its community's part what it does in the whole store ----

  /** Every stored source belongs to its chat's community. */
  ghost predicate SourcesTenanted(sources: Sources, tenancy: Tenancy) {
    forall id :: id in sources ==> tenancy(sources[id].chatId) == sources[id].communityId
  }

  lemma {:induction false} StillTenanted(
    d: Diary, ws: seq<Write>, tenancy: Tenancy, notes: set<Id>, chunks: set<Id>, b: Id)
    requires SourcesTenanted(d.sources.rows, tenancy) && forall w :: w in ws ==> Within(w, tenancy, notes, chunks, b)
    ensures SourcesTenanted(ApplyAll(d, ws).sources.rows, tenancy)
    decreases |ws|
  {
    if ws != [] {
      assert Within(ws[0], tenancy, notes, chunks, b);
      StillTenanted(Apply(d, ws[0]), ws[1..], tenancy, notes, chunks, b);
    }
  }

  lemma SameReplay(d: Diary, dl: Delivery, tenancy: Tenancy)
    requires Sound(d) && SourcesTenanted(d.sources.rows, tenancy) && Tenanted(Ingest(dl), tenancy)
    requires dl.message.Key() in d.idempotency
    ensures IngestPlan(Restrict(d, tenancy, dl.message.communityId), dl) == IngestPlan(d, dl)
  {
    var key := dl.message.Key();
    var s := d.sources.rows[d.idempotency[key]];
    assert s.Key() == key;
    AnswerLookup(d, tenancy, dl.message.communityId, s);
  }

  lemma SameIngest(d: Diary, dl: Delivery, tenancy: Tenancy)
    requires Sound(d) && SourcesTenanted(d.sources.rows, tenancy)
    requires FreshIds(d, dl.env) && Tenanted(Ingest(dl), tenancy)
    ensures IngestPlan(Restrict(d, tenancy, dl.message.communityId), dl) == IngestPlan(d, dl)
  {
    var a, key := dl.message.communityId, dl.message.Key();
    var r := Restrict(d, tenancy, a);
    if key in d.idempotency {
      SameReplay(d, dl, tenancy);
    } else {
      SourceGuarded(d, dl);
      RestrictSource(d, NewSource(dl), tenancy, a);
      SameCapture(WithSource(d, dl), dl, tenancy);
      assert WithSource(r, dl) == Restrict(WithSource(d, dl), tenancy, a);
      assert key !in r.idempotency;
    }
  }

  lemma SameCapture(d: Diary, dl: Delivery, tenancy: Tenancy)
    requires Sound(d)
    ensures CapturePlan(Restrict(d, tenancy, dl.message.communityId), dl) == CapturePlan(d, dl)
  {
    PriorLookup(d, tenancy, dl.message.communityId, dl.message.chatId, dl.message.messageId);
  }

  lemma {:induction false} SavableSame(d: Diary, e: Diary, records: seq<EmbeddingRecord>)
    requires forall r :: r in records ==> (r.Key() in d.embeddings <==> r.Key() in e.embeddings)
    ensures SavableRecords(d, records) == SavableRecords(e, records)
    decreases |records|
  {
    if records != [] && records[0].Key() !in d.embeddings {
      assert records[0] in records;
      SavableSame(Apply(d, SaveRecord(records[0])), Apply(e, SaveRecord(records[0])), records[1..]);
    }
  }

  /** A chunk of `a` has its records in `a`. */
  lemma SameKey(d: Diary, tenancy: Tenancy, a: Id, k: EmbeddingKey)
    requires Sound(d) && k.chunkId in d.chunks.rows && d.chunks.rows[k.chunkId].communityId == a
    ensures var r := Restrict(d, tenancy, a);
            (k in r.embeddings <==> k in d.embeddings) && (k in d.embeddings ==> r.embeddings[k] == d.embeddings[k])
  {
  }

  lemma SameGroup(d: Diary, tenancy: Tenancy, a: Id, g: Group, env: RetryEnv, ge: GroupEnv)
    requires Sound(d) && Embeddable(d.chunks.rows, a, g)
    ensures RetryGroup(Restrict(d, tenancy, a), a, g, env, ge) == RetryGroup(d, a, g, env, ge)
  {
    if ge.embed.Vectors? && |ge.embed.vectors| == |g.chunks| {
      var records := GroupRecords(g, a, env.now, env.client, ge.embed.vectors, ge.recordIds);
      var r := Restrict(d, tenancy, a);
      GroupRecordsFit(d.chunks.rows, a, g, env, ge);
      forall e | e in records ensures e.Key() in d.embeddings <==> e.Key() in r.embeddings {
        SameRecord(d, tenancy, a, e);
      }
      SavableSame(d, r, records);
    }
  }

  lemma SameRecord(d: Diary, tenancy: Tenancy, a: Id, e: EmbeddingRecord)
    requires Sound(d) && e.chunkId in d.chunks.rows && ForChunk(e, d.chunks.rows[e.chunkId]) && e.communityId == a
    ensures e.Key() in d.embeddings <==> e.Key() in Restrict(d, tenancy, a).embeddings
  {
    SameKey(d, tenancy, a, e.Key());
  }

  /** After the same writes the next pass does the same in both stores. */
  predicate PassesAgree(d: Diary, r: Diary, a: Id, groups: seq<Group>, env: RetryEnv, i: nat)
    requires i < |groups|
  {
    var before, g, ge := RetryUpTo(d, a, groups, env, i).writes, groups[i], env.groups(i);
    RetryGroup(ApplyAll(r, before), a, g, env, ge) == RetryGroup(ApplyAll(d, before), a, g, env, ge)
  }

  lemma OnePassMore(d: Diary, a: Id, groups: seq<Group>, env: RetryEnv, n: nat)
    requires n < |groups|
    ensures var before, after := RetryUpTo(d, a, groups, env, n), RetryUpTo(d, a, groups, env, n + 1);
            var pass := RetryGroup(ApplyAll(d, before.writes), a, groups[n], env, env.groups(n));
            after == RetryState(before.writes + pass.writes, before.outcomes + [pass.outcome])
  {
  }

  lemma SameOneMore(d: Diary, r: Diary, a: Id, groups: seq<Group>, env: RetryEnv, n: nat)
    requires n < |groups| && PassesAgree(d, r, a, groups, env, n)
    requires RetryUpTo(r, a, groups, env, n) == RetryUpTo(d, a, groups, env, n)
    ensures RetryUpTo(r, a, groups, env, n + 1) == RetryUpTo(d, a, groups, env, n + 1)
  {
    OnePassMore(d, a, groups, env, n);
    OnePassMore(r, a, groups, env, n);
  }

  lemma {:induction false} SameUpTo(d: Diary, r: Diary, a: Id, groups: seq<Group>, env: RetryEnv, n: nat)
    requires n <= |groups| && forall i: nat :: i < n ==> PassesAgree(d, r, a, groups, env, i)
    ensures RetryUpTo(r, a, groups, env, n) == RetryUpTo(d, a, groups, env, n)
  {
    if n == 0 {
      NoPass(d, a, groups, env);
      NoPass(r, a, groups, env);
    } else {
      var before := n - 1;
      SameUpTo(d, r, a, groups, env, before);
      assert PassesAgree(d, r, a, groups, env, before);
      SameOneMore(d, r, a, groups, env, before);
    }
  }

  lemma NoPass(d: Diary, a: Id, groups: seq<Group>, env: RetryEnv)
    ensures RetryUpTo(d, a, groups, env, 0) == RetryState([], [])
  {
  }

  /** Before group `n` the two stores still agree on the community, and the group can be embedded. */
  lemma SoFar(
    d: Diary, tenancy: Tenancy, a: Id, groups: seq<Group>, env: RetryEnv, n: nat, notes: set<Id>, chunks: set<Id>)
    requires Sound(d) && FreshLetters(d, env) && n < |groups| && Theirs(d, notes, chunks, a)
    requires forall g :: g in groups ==> Embeddable(d.chunks.rows, a, g)
    requires forall g, c :: g in groups && c in g.chunks ==> c.chunkId in chunks
    ensures var before := RetryUpTo(d, a, groups, env, n).writes;
            && Sound(ApplyAll(d, before)) && Embeddable(ApplyAll(d, before).chunks.rows, a, groups[n])
            && Restrict(ApplyAll(d, before), tenancy, a) == ApplyAll(Restrict(d, tenancy, a), before)
  {
    var before := RetryUpTo(d, a, groups, env, n).writes;
    RetryUpToGuarded(d, a, groups, env, n);
    GuardedAll(d, before);
    RetryUpToWithin(d, a, groups, env, n, tenancy, notes, chunks);
    RestrictWrites(d, before, tenancy, notes, chunks, a, a);
    EmbeddableStill(d, ApplyAll(d, before), a, groups[n]);
  }

  lemma SameRetryUpTo(
    d: Diary, tenancy: Tenancy, a: Id, groups: seq<Group>, env: RetryEnv, n: nat, notes: set<Id>, chunks: set<Id>)
    requires Sound(d) && FreshLetters(d, env) && n <= |groups| && Theirs(d, notes, chunks, a)
    requires forall g :: g in groups ==> Embeddable(d.chunks.rows, a, g)
    requires forall g, c :: g in groups && c in g.chunks ==> c.chunkId in chunks
    ensures RetryUpTo(Restrict(d, tenancy, a), a, groups, env, n) == RetryUpTo(d, a, groups, env, n)
  {
    forall i: nat | i < n ensures PassesAgree(d, Restrict(d, tenancy, a), a, groups, env, i) {
      SamePass(d, tenancy, a, groups, env, i, notes, chunks);
    }
    SameUpTo(d, Restrict(d, tenancy, a), a, groups, env, n);
  }

  lemma SamePass(
    d: Diary, tenancy: Tenancy, a: Id, groups: seq<Group>, env: RetryEnv, n: nat, notes: set<Id>, chunks: set<Id>)
    requires Sound(d) && FreshLetters(d, env) && n < |groups| && Theirs(d, notes, chunks, a)
    requires forall g :: g in groups ==> Embeddable(d.chunks.rows, a, g)
    requires forall g, c :: g in groups && c in g.chunks ==> c.chunkId in chunks
    ensures PassesAgree(d, Restrict(d, tenancy, a), a, groups, env, n)
  {
    SoFar(d, tenancy, a, groups, env, n, notes, chunks);
    SameGroup(ApplyAll(d, RetryUpTo(d, a, groups, env, n).writes), tenancy, a, groups[n], env, env.groups(n));
  }

  lemma SameRetry(d: Diary, tenancy: Tenancy, a: Id, limit: Option<nat>, env: RetryEnv)
    requires Sound(d) && FreshLetters(d, env)
    ensures RetryPlan(Restrict(d, tenancy, a), a, limit, env) == RetryPlan(d, a, limit, env)
  {
    FailedLookup(d, tenancy, a, limit);
    ListedEmbeddable(d, a, limit);
    ListedOwn(d, a, limit, env);
    OwnAreTheirs(d, Retry(a, limit, env));
    var groups := Groups(FailedChunks(d, a, limit));
    SameRetryUpTo(d, tenancy, a, groups, env, |groups|, OwnNotes(d, a), OwnChunks(d, Retry(a, limit, env)));
  }

  lemma SameWrites(d: Diary, op: Op, tenancy: Tenancy)
    requires Sound(d) && SourcesTenanted(d.sources.rows, tenancy) && Fresh(d, op) && Tenanted(op, tenancy)
    ensures Writes(Restrict(d, tenancy, CommunityOf(op)), op) == Writes(d, op)
  {
    match op
    case Ingest(dl) => SameIngest(d, dl, tenancy);
    case Delete(chatId, messageId, communityId) => PriorLookup(d, tenancy, communityId, chatId, messageId);
    case Retry(communityId, limit, env) => SameRetry(d, tenancy, communityId, limit, env);
  }

  // ---- Whole runs ----

  lemma AfterRestrict(d: Diary, ev: Event, tenancy: Tenancy, a: Id)
    requires Sound(d) && SourcesTenanted(d.sources.rows, tenancy) && Fresh(d, ev.op) && Tenanted(ev.op, tenancy)
    ensures SourcesTenanted(After(d, ev).sources.rows, tenancy)
    ensures Restrict(After(d, ev), tenancy, a)
         == if CommunityOf(ev.op) == a then After(Restrict(d, tenancy, a), ev) else Restrict(d, tenancy, a)
  {
    var op, b := ev.op, CommunityOf(ev.op);
    var all := Writes(d, op);
    var ws := if ev.cut == None then all else Take(all, ev.cut.value);
    OpGuarded(d, op);
    if ev.cut.Some? {
      GuardedTake(d, all, ev.cut.value);
    }
    OpWithin(d, op, tenancy);
    assert forall w :: w in ws ==> w in all;
    OwnAreTheirs(d, op);
    StillTenanted(d, ws, tenancy, OwnNotes(d, b), OwnChunks(d, op), b);
    RestrictWrites(d, ws, tenancy, OwnNotes(d, b), OwnChunks(d, op), b, a);
    SameWrites(d, op, tenancy);
  }

  /** The run with every other community's operations left out. */
  function OnlyOf(evs: seq<Event>, a: Id): seq<Event> {
    if evs == [] then []
    else
      var before, last := OnlyOf(evs[..|evs| - 1], a), evs[|evs| - 1];
      if CommunityOf(last.op) == a then before + [last] else before
  }

  ghost predicate TenantedRun(evs: seq<Event>, tenancy: Tenancy) {
    forall i :: 0 <= i < |evs| ==> Tenanted(evs[i].op, tenancy)
  }

  lemma FreshPart(d: Diary, op: Op, tenancy: Tenancy, a: Id)
    requires Fresh(d, op)
    ensures Fresh(Restrict(d, tenancy, a), op)
  {
  }

  /** Crashes included, a community's part of the store is what its own operations alone would have left. */
  lemma {:induction false} RunRestrict(evs: seq<Event>, tenancy: Tenancy, a: Id)
    requires FreshRun(evs) && TenantedRun(evs, tenancy)
    ensures FreshRun(OnlyOf(evs, a)) && Run(OnlyOf(evs, a)) == Restrict(Run(evs), tenancy, a)
    ensures SourcesTenanted(Run(evs).sources.rows, tenancy)
  {
    if evs == [] {
      assert Run(evs) == EMPTY;
    } else {
      var before, last := evs[..|evs| - 1], evs[|evs| - 1];
      RunRestrict(before, tenancy, a);
      RunSound(before);
      AfterRestrict(Run(before), last, tenancy, a);
      FreshPart(Run(before), last.op, tenancy, a);
      if CommunityOf(last.op) == a {
        RunSnoc(OnlyOf(before, a), last);
      }
    }
  }

  lemma RunSnoc(evs: seq<Event>, last: Event)
    ensures Run(evs + [last]) == After(Run(evs), last)
    ensures FreshRun(evs + [last]) <==> FreshRun(evs) && Fresh(Run(evs), last.op)
  {
    assert (evs + [last])[..|evs + [last]| - 1] == evs;
  }

  // ---- What a community sees ----

  lemma {:induction false} KeyedPart(rows: seq<EventChunk>, a: Id, score: Score, score': Score)
    requires forall c :: c in rows ==> (c.communityId == a ==> score(c) == score'(c)) && (c.communityId != a ==> score(c) == None)
    ensures KeyedRows(Filter(rows, ChunkIn(a)), score') == KeyedRows(rows, score)
  {
    if rows != [] {
      KeyedPart(rows[1..], a, score, score');
      var rest := Filter(rows[1..], ChunkIn(a));
      if rows[0].communityId == a {
        assert ([rows[0]] + rest)[1..] == rest;
      } else {
        assert rows[0] in rows && score(rows[0]) == None;
        assert Filter(rows, ChunkIn(a)) == rest;
      }
    }
  }

  lemma SameScore(
    d: Diary, tenancy: Tenancy, scope: Scope, query: Vector, modelName: string, distance: (Vector, Vector) -> real, c: EventChunk)
    requires Sound(d) && c.chunkId in d.chunks.rows && d.chunks.rows[c.chunkId] == c && c.communityId == scope.communityId
    ensures DenseKey(c, Restrict(d, tenancy, scope.communityId).embeddings, scope, query, modelName, distance)
         == DenseKey(c, d.embeddings, scope, query, modelName, distance)
  {
    SameKey(d, tenancy, scope.communityId, EmbeddingKey(c.chunkId, modelName));
  }

  lemma SameDense(
    d: Diary, tenancy: Tenancy, scope: Scope, query: Vector, modelName: string, limit: int, distance: (Vector, Vector) -> real)
    requires Sound(d)
    ensures DenseCandidates(Restrict(d, tenancy, scope.communityId), scope, query, modelName, limit, distance)
         == DenseCandidates(d, scope, query, modelName, limit, distance)
  {
    var r := Restrict(d, tenancy, scope.communityId);
    var score := DenseScore(d.embeddings, scope, query, modelName, distance);
    var score' := DenseScore(r.embeddings, scope, query, modelName, distance);
    forall c | c in Values(d.chunks) && c.communityId == scope.communityId ensures score(c) == score'(c) {
      SoundIsConsistent(d);
      SameScore(d, tenancy, scope, query, modelName, distance, c);
    }
    KeyedPart(Values(d.chunks), scope.communityId, score, score');
    ValuesWhere(d.chunks, ChunkIn(scope.communityId));
    LegByKeys(Values(r.chunks), score', Values(d.chunks), score, limit);
  }

  lemma SameMismatch(d: Diary, tenancy: Tenancy, scope: Scope, query: Vector, modelName: string, c: EventChunk)
    requires Sound(d) && c.chunkId in d.chunks.rows && d.chunks.rows[c.chunkId] == c
    ensures Mismatched(c, Restrict(d, tenancy, scope.communityId).embeddings, scope, query, modelName)
        <==> Mismatched(c, d.embeddings, scope, query, modelName)
  {
    if c.communityId == scope.communityId {
      SameKey(d, tenancy, scope.communityId, EmbeddingKey(c.chunkId, modelName));
    }
  }

  lemma ChunksKeptIn(d: Diary, tenancy: Tenancy, a: Id, c: EventChunk)
    ensures c in Values(Restrict(d, tenancy, a).chunks) <==> c in Values(d.chunks) && c.communityId == a
  {
    ValuesWhere(d.chunks, ChunkIn(a));
    FilterIn(Values(d.chunks), ChunkIn(a), c);
  }

  /** The dense scan fails on a community's own vectors only. */
  lemma SameFailure(d: Diary, tenancy: Tenancy, scope: Scope, query: Vector, modelName: string)
    requires Sound(d)
    ensures DenseFails(Restrict(d, tenancy, scope.communityId), scope, query, modelName) <==> DenseFails(d, scope, query, modelName)
  {
    SoundIsConsistent(d);
    StoredOnce(d);
    if DenseFails(Restrict(d, tenancy, scope.communityId), scope, query, modelName) {
      FailsInWhole(d, tenancy, scope, query, modelName);
    }
    if DenseFails(d, scope, query, modelName) {
      FailsInPart(d, tenancy, scope, query, modelName);
    }
  }

  lemma FailsInWhole(d: Diary, tenancy: Tenancy, scope: Scope, query: Vector, modelName: string)
    requires Sound(d) && DenseFails(Restrict(d, tenancy, scope.communityId), scope, query, modelName)
    requires forall c :: c in Values(d.chunks) ==> c.chunkId in d.chunks.rows && d.chunks.rows[c.chunkId] == c
    ensures DenseFails(d, scope, query, modelName)
  {
    var r := Restrict(d, tenancy, scope.communityId);
    var c :| c in Values(r.chunks) && Mismatched(c, r.embeddings, scope, query, modelName);
    ChunksKeptIn(d, tenancy, scope.communityId, c);
    SameMismatch(d, tenancy, scope, query, modelName, c);
  }

  lemma FailsInPart(d: Diary, tenancy: Tenancy, scope: Scope, query: Vector, modelName: string)
    requires Sound(d) && DenseFails(d, scope, query, modelName)
    requires forall c :: c in Values(d.chunks) ==> c.chunkId in d.chunks.rows && d.chunks.rows[c.chunkId] == c
    ensures DenseFails(Restrict(d, tenancy, scope.communityId), scope, query, modelName)
  {
    var c :| c in Values(d.chunks) && Mismatched(c, d.embeddings, scope, query, modelName);
    ChunksKeptIn(d, tenancy, scope.communityId, c);
    SameMismatch(d, tenancy, scope, query, modelName, c);
  }

  lemma SameSparse(
    d: Diary, tenancy: Tenancy, scope: Scope, queryText: string, limit: int, tokenize: string -> set<string>)
    ensures SparseCandidates(Restrict(d, tenancy, scope.communityId), scope, queryText, limit, tokenize)
         == SparseCandidates(d, scope, queryText, limit, tokenize)
  {
    var r := Restrict(d, tenancy, scope.communityId);
    var score := SparseScore(scope, tokenize(queryText), tokenize);
    KeyedPart(Values(d.chunks), scope.communityId, score, score);
    ValuesWhere(d.chunks, ChunkIn(scope.communityId));
    LegByKeys(Values(r.chunks), score, Values(d.chunks), score, limit);
  }

  /**
   * Leaving every other community's operations out of a run changes nothing a community retrieves,
   * lists or holds, nor any order it comes in.
   */
  lemma OthersAreInvisible(
    evs: seq<Event>, tenancy: Tenancy, scope: Scope, query: Vector, modelName: string, queryText: string, limit: int,
    distance: (Vector, Vector) -> real, tokenize: string -> set<string>)
    requires FreshRun(evs) && TenantedRun(evs, tenancy)
    ensures var a, all, own := scope.communityId, Run(evs), Run(OnlyOf(evs, scope.communityId));
            && (DenseFails(own, scope, query, modelName) <==> DenseFails(all, scope, query, modelName))
            && DenseCandidates(own, scope, query, modelName, limit, distance)
               == DenseCandidates(all, scope, query, modelName, limit, distance)
            && SparseCandidates(own, scope, queryText, limit, tokenize) == SparseCandidates(all, scope, queryText, limit, tokenize)
            && (forall n: nat :: RecentDrafts(own, a, n) == RecentDrafts(all, a, n))
            && CommunitySources(own, a) == CommunitySources(all, a)
            && (forall n :: FailedChunks(own, a, n) == FailedChunks(all, a, n))
            && Filter(Values(own.notes), ActiveNoteIn(a)) == Filter(Values(all.notes), ActiveNoteIn(a))
  {
    var a, all := scope.communityId, Run(evs);
    RunRestrict(evs, tenancy, a);
    RunSound(evs);
    SameFailure(all, tenancy, scope, query, modelName);
    SameDense(all, tenancy, scope, query, modelName, limit, distance);
    SameSparse(all, tenancy, scope, queryText, limit, tokenize);
    forall n: nat ensures RecentDrafts(Restrict(all, tenancy, a), a, n) == RecentDrafts(all, a, n) {
      DraftLookup(all, tenancy, a, n);
    }
    forall n ensures FailedChunks(Restrict(all, tenancy, a), a, n) == FailedChunks(all, a, n) {
      FailedLookup(all, tenancy, a, n);
    }
    ExportLookup(all, tenancy, a);
    LookupIn(all.notes, NoteIn(a), ActiveNoteIn(a), ActiveNoteIn(a));
  }

  function ActiveNoteIn(a: Id): Note -> bool {
    (n: Note) => n.communityId == a && n.state == Active
  }

  /** A community's delivery is answered, and written, as if no other community existed. */
  lemma AnsweredAlone(evs: seq<Event>, tenancy: Tenancy, dl: Delivery)
    requires FreshRun(evs) && TenantedRun(evs, tenancy)
    requires FreshIds(Run(evs), dl.env) && Tenanted(Ingest(dl), tenancy)
    ensures IngestPlan(Run(OnlyOf(evs, dl.message.communityId)), dl) == IngestPlan(Run(evs), dl)
  {
    RunRestrict(evs, tenancy, dl.message.communityId);
    RunSound(evs);
    SameIngest(Run(evs), dl, tenancy);
  }
}
