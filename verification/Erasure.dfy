/** What an audited hard delete removes, what it leaves, and what becomes possible again after it. */
module Erasure {
  import opened Chains
  import opened CrashSafety
  import opened Diary
  import opened HardDelete
  import opened Lifecycle
  import opened Models
  import opened Plans
  import opened Tables
  import opened Traces

  // ---- Exactly what was derived from the source ----

  /** Under the invariant, what names the source is its note, that note's chunk, and that chunk's records. */
  lemma DerivedRows(d: Diary, t: Traces, sourceId: Id)
    requires Sound(d) && sourceId in d.sources.rows
    ensures forall id :: id in d.chunks.rows ==>
              (id in ChunksFrom(d, sourceId) <==> d.chunks.rows[id].noteId in NotesFrom(d, sourceId))
    ensures forall k :: k in d.embeddings ==> (k in RecordsFrom(d, sourceId) <==> k.chunkId in ChunksFrom(d, sourceId))
    ensures forall h :: h in t.hits ==>
              (h in HitsOn(t, ChunksFrom(d, sourceId)) <==> t.hits[h].chunkId in ChunksFrom(d, sourceId))
    ensures |NotesFrom(d, sourceId)| <= 1 && |ChunksFrom(d, sourceId)| <= 1
  {
    DerivedChunks(d, sourceId);
    forall a, b | a in NotesFrom(d, sourceId) && b in NotesFrom(d, sourceId) ensures a == b {
    }
    Single(NotesFrom(d, sourceId));
    Single(ChunksFrom(d, sourceId));
  }

  lemma DerivedChunks(d: Diary, sourceId: Id)
    requires Sound(d)
    ensures forall id :: id in d.chunks.rows ==>
              (id in ChunksFrom(d, sourceId) <==> d.chunks.rows[id].noteId in NotesFrom(d, sourceId))
    ensures forall a, b :: a in ChunksFrom(d, sourceId) && b in ChunksFrom(d, sourceId) ==> a == b
    ensures forall k :: k in d.embeddings ==> (k in RecordsFrom(d, sourceId) <==> k.chunkId in ChunksFrom(d, sourceId))
  {
    forall id | id in d.chunks.rows
      ensures id in ChunksFrom(d, sourceId) <==> d.chunks.rows[id].noteId in NotesFrom(d, sourceId)
    {
      assert d.chunks.rows[id].noteId in d.notes.rows;
    }
  }

  lemma Single<T>(s: set<T>)
    requires forall a, b :: a in s && b in s ==> a == b
    ensures |s| <= 1
  {
    if s != {} {
      var x :| x in s;
      assert s == {x};
    }
  }

  // ---- Everything else stays, and the tally counts the difference ----

  function OtherSource(sourceId: Id): SourceMessage -> bool {
    (s: SourceMessage) => s.sourceId != sourceId
  }

  function NoteElsewhere(sourceId: Id): Note -> bool {
    (n: Note) => n.sourceId != sourceId
  }

  function ChunkElsewhere(sourceId: Id): EventChunk -> bool {
    (c: EventChunk) => c.sourceId != sourceId
  }

  /** Each table keeps every row that does not name the source, unchanged and in its order. */
  lemma OthersKept(d: Diary, sourceId: Id)
    requires Consistent(d) && sourceId in d.sources.rows
    ensures var e := Erased(d, sourceId);
            && e.sources == Where(d.sources, OtherSource(sourceId))
            && e.notes == Where(d.notes, NoteElsewhere(sourceId))
            && e.chunks == Where(d.chunks, ChunkElsewhere(sourceId))
            && e.embeddings == (map k | k in d.embeddings && d.embeddings[k].sourceId != sourceId :: d.embeddings[k])
            && e.deadLetters == d.deadLetters
  {
    WithoutIsWhere(d.sources, {sourceId}, OtherSource(sourceId));
    WithoutIsWhere(d.notes, NotesFrom(d, sourceId), NoteElsewhere(sourceId));
    WithoutIsWhere(d.chunks, ChunksFrom(d, sourceId), ChunkElsewhere(sourceId));
  }

  /** The tally is how much each table shrank; of the traces only hits go. */
  lemma TallyIsDifference(d: Diary, t: Traces, sourceId: Id)
    requires sourceId in d.sources.rows
    ensures var e, tally := Erased(d, sourceId), Tally(d, t, sourceId);
            && |e.sources.rows| == |d.sources.rows| - tally.sources
            && |e.notes.rows| == |d.notes.rows| - tally.notes
            && |e.chunks.rows| == |d.chunks.rows| - tally.chunks
            && |e.embeddings| == |d.embeddings| - tally.embeddings
    ensures var u := ErasedTraces(d, t, sourceId);
            u == t.(hits := u.hits) && |u.hits| == |t.hits| - Tally(d, t, sourceId).hits
  {
    Fewer(d.sources.rows, {sourceId});
    Fewer(d.notes.rows, NotesFrom(d, sourceId));
    Fewer(d.chunks.rows, ChunksFrom(d, sourceId));
    Fewer(d.embeddings, RecordsFrom(d, sourceId));
    Fewer(t.hits, HitsOn(t, ChunksFrom(d, sourceId)));
  }

  lemma Fewer<K, V>(m: map<K, V>, ks: set<K>)
    requires ks <= m.Keys
    ensures |m - ks| == |m| - |ks|
  {
    assert (m - ks).Keys == m.Keys - ks;
    assert |m| == |m.Keys| && |m - ks| == |(m - ks).Keys|;
  }

  // ---- The invariant survives ----

  lemma IndexErased(sources: Sources, index: map<DeliveryKey, Id>, sourceId: Id)
    requires SourcesIndexed(sources, index) && sourceId in sources
    ensures SourcesIndexed(sources - {sourceId}, index - {sources[sourceId].Key()})
  {
  }

  lemma NotesErased(d: Diary, sourceId: Id)
    requires NotesLinked(d.notes.rows, d.sources.rows) && sourceId in d.sources.rows
    ensures NotesLinked(Erased(d, sourceId).notes.rows, Erased(d, sourceId).sources.rows)
  {
  }

  lemma ChunksErased(d: Diary, sourceId: Id)
    requires ChunksLinked(d.chunks.rows, d.notes.rows) && ActiveNested(d.chunks.rows, d.notes.rows) && sourceId in d.sources.rows
    ensures var e := Erased(d, sourceId);
            ChunksLinked(e.chunks.rows, e.notes.rows) && ActiveNested(e.chunks.rows, e.notes.rows)
  {
  }

  lemma RecordsErased(d: Diary, sourceId: Id)
    requires RecordsLinked(d.embeddings, d.chunks.rows) && ReadyBacked(d.chunks.rows, d.embeddings) && sourceId in d.sources.rows
    ensures var e := Erased(d, sourceId);
            RecordsLinked(e.embeddings, e.chunks.rows) && ReadyBacked(e.chunks.rows, e.embeddings)
  {
    var e := Erased(d, sourceId);
    forall id | id in e.chunks.rows && e.chunks.rows[id].status == Ready ensures HasRecord(e.embeddings, id) {
      var k :| k in d.embeddings && k.chunkId == id;
      assert k in e.embeddings;
    }
  }

  /** Index and sources stay in bijection, and no row is left without the row it came from. */
  lemma ErasedSound(d: Diary, sourceId: Id)
    requires Sound(d) && sourceId in d.sources.rows
    ensures Sound(Erased(d, sourceId))
  {
    IndexErased(d.sources.rows, d.idempotency, sourceId);
    NotesErased(d, sourceId);
    ChunksErased(d, sourceId);
    RecordsErased(d, sourceId);
  }

  /** Runs in which sources may also be erased. */
  datatype Action = Do(event: Event) | Erase(sourceId: Id)

  function Acted(d: Diary, a: Action): Diary {
    match a
    case Do(ev) => After(d, ev)
    case Erase(sourceId) => if sourceId in d.sources.rows then Erased(d, sourceId) else d
  }

  function Acting(acts: seq<Action>): Diary {
    if acts == [] then EMPTY else Acted(Acting(acts[..|acts| - 1]), acts[|acts| - 1])
  }

  ghost predicate FreshActs(acts: seq<Action>) {
    acts == [] ||
    (FreshActs(acts[..|acts| - 1])
     && (acts[|acts| - 1].Do? ==> Fresh(Acting(acts[..|acts| - 1]), acts[|acts| - 1].event.op)))
  }

  lemma {:induction false} ActingSound(acts: seq<Action>)
    requires FreshActs(acts)
    ensures Sound(Acting(acts))
  {
    if acts != [] {
      var before, last := acts[..|acts| - 1], acts[|acts| - 1];
      ActingSound(before);
      match last {
        case Do(ev) => AfterSound(Acting(before), ev);
        case Erase(sourceId) =>
          if sourceId in Acting(before).sources.rows {
            ErasedSound(Acting(before), sourceId);
          }
      }
    }
  }

  // ---- The freed key, and links that dangle ----

  /** The freed key is the only one freed, and its redelivery is captured as if never seen. */
  lemma FreedKey(d: Diary, sourceId: Id, dl: Delivery)
    requires Sound(d) && sourceId in d.sources.rows
    ensures var key, e := dl.message.Key(), Erased(d, sourceId);
            && (key in e.idempotency <==> key in d.idempotency && key != d.sources.rows[sourceId].Key())
            && (key == d.sources.rows[sourceId].Key() ==> CapturedAnew(e, dl))
  {
    if dl.message.Key() == d.sources.rows[sourceId].Key() {
      CapturesAnew(Erased(d, sourceId), dl);
    }
  }

  /** The delivery's raw row is written first, and the answer is a first answer. */
  predicate CapturedAnew(d: Diary, dl: Delivery) {
    var plan := IngestPlan(d, dl);
    && plan.writes != [] && plan.writes[0] == SaveSource(NewSource(dl))
    && (plan.result.Ok? ==> !plan.result.value.replayed && plan.result.value.sourceId == dl.env.sourceId)
  }

  lemma CapturesAnew(d: Diary, dl: Delivery)
    requires dl.message.Key() !in d.idempotency
    ensures CapturedAnew(d, dl)
  {
    var e := Apply(d, SaveSource(NewSource(dl)));
    FirstAnswer(e, dl);
    assert IngestPlan(d, dl) == Plan([SaveSource(NewSource(dl))] + CapturePlan(e, dl).writes, CapturePlan(e, dl).result);
  }

  lemma FirstAnswer(d: Diary, dl: Delivery)
    ensures var r := CapturePlan(d, dl).result; r.Ok? ==> !r.value.replayed && r.value.sourceId == dl.env.sourceId
  {
  }

  /** Every revision link still leads to a stored note. */
  ghost predicate LinksResolve(notes: Notes) {
    forall a, p :: Replaces(notes, a, p) ==> p in notes
  }

  /** Links survive an erasure exactly when no note from elsewhere replaced one of the erased notes. */
  lemma LinksDangleWhen(d: Diary, sourceId: Id)
    requires sourceId in d.sources.rows && LinksResolve(d.notes.rows)
    ensures LinksResolve(Erased(d, sourceId).notes.rows)
        <==> forall a, p :: Replaces(d.notes.rows, a, p) && p in NotesFrom(d, sourceId) ==> a in NotesFrom(d, sourceId)
  {
    var notes, e := d.notes.rows, Erased(d, sourceId).notes.rows;
    if LinksResolve(e) {
      forall a, p | Replaces(notes, a, p) && p in NotesFrom(d, sourceId) ensures a in NotesFrom(d, sourceId) {
        assert a !in NotesFrom(d, sourceId) ==> Replaces(e, a, p);
      }
    }
    if forall a, p :: Replaces(notes, a, p) && p in NotesFrom(d, sourceId) ==> a in NotesFrom(d, sourceId) {
      forall a, p | Replaces(e, a, p) ensures p in e {
        assert Replaces(notes, a, p);
      }
    }
  }
}
