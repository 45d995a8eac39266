/** At-least-once delivery refines exactly-once: what a redelivery changes, and what it answers. */
module Replay {
  import opened CrashSafety
  import opened Diary
  import opened GuardedPlans
  import opened IngestEffects
  import opened Lifecycle
  import opened Models
  import opened NoteParser
  import opened Plans
  import opened Sorting
  import opened Tables
  import opened Wrappers

  // ---- What belongs to a stored raw row stays what it was ----

  /** Nothing is ever derived later from a row that was already stored. */
  ghost predicate NoLate(d: Diary, e: Diary) {
    NoLateNotes(d.sources.rows, d.notes.rows, e.notes.rows) && NoLateChunks(d.sources.rows, d.chunks.rows, e.chunks.rows)
  }

  ghost predicate NoLateNotes(sources: Sources, before: Notes, after: Notes) {
    forall id :: id in after && after[id].sourceId in sources ==> id in before
  }

  ghost predicate NoLateChunks(sources: Sources, before: Chunks, after: Chunks) {
    forall id :: id in after && after[id].sourceId in sources ==> id in before
  }

  predicate Timely(w: Write, sources: Sources) {
    && (w.SaveNote? ==> w.note.sourceId !in sources)
    && (w.SaveChunk? ==> w.chunk.sourceId !in sources)
  }

  lemma TimelyWrite(sources: Sources, before: Diary, e: Diary, w: Write)
    requires NoLateNotes(sources, before.notes.rows, e.notes.rows) && NoLateChunks(sources, before.chunks.rows, e.chunks.rows)
    requires Timely(w, sources)
    ensures NoLateNotes(sources, before.notes.rows, Apply(e, w).notes.rows)
    ensures NoLateChunks(sources, before.chunks.rows, Apply(e, w).chunks.rows)
  {
  }

  lemma {:induction false} TimelyWrites(d: Diary, e: Diary, ws: seq<Write>)
    requires NoLate(d, e) && forall w :: w in ws ==> Timely(w, d.sources.rows)
    ensures NoLate(d, ApplyAll(e, ws))
    decreases |ws|
  {
    if ws != [] {
      TimelyWrite(d.sources.rows, d, e, ws[0]);
      TimelyWrites(d, Apply(e, ws[0]), ws[1..]);
    }
  }

  lemma OpTimely(d: Diary, op: Op)
    requires Fresh(d, op)
    ensures forall w :: w in Writes(d, op) ==> Timely(w, d.sources.rows)
  {
    match op
    case Ingest(dl) =>
      IngestShape(d, dl);
      forall w | w in Writes(d, op) ensures Timely(w, d.sources.rows) {
        assert IngestWrite(w, d, dl);
      }
    case Delete(chatId, messageId, communityId) =>
      RetireMembers(PriorFor(d, chatId, messageId, communityId), Tombstoned);
    case Retry(communityId, limit, env) =>
      if communityId != "" {
        var groups := Groups(FailedChunks(d, communityId, limit));
        RetryMild(d, communityId, groups, env, |groups|);
      }
  }

  lemma AfterNoLate(d: Diary, ev: Event)
    requires Fresh(d, ev.op)
    ensures NoLate(d, After(d, ev))
  {
    OpTimely(d, ev.op);
    WritesOf(d, ev);
    var ws: seq<Write> :| After(d, ev) == ApplyAll(d, ws) && forall w :: w in ws ==> w in Writes(d, ev.op);
    TimelyWrites(d, d, ws);
  }

  lemma NoLateTransitive(a: Diary, b: Diary, c: Diary)
    requires Keeps(a, b) && Keeps(b, c) && NoLate(a, b) && NoLate(b, c)
    ensures NoLate(a, c)
  {
    forall id | id in c.notes.rows && c.notes.rows[id].sourceId in a.sources.rows ensures id in a.notes.rows {
      assert NoteKept(b.notes.rows[id], c.notes.rows[id]);
    }
    forall id | id in c.chunks.rows && c.chunks.rows[id].sourceId in a.sources.rows ensures id in a.chunks.rows {
      assert ChunkKept(b.chunks.rows[id], c.chunks.rows[id]);
    }
  }

  lemma {:induction false} RunNoLate(evs: seq<Event>, n: nat)
    requires FreshRun(evs) && n <= |evs|
    ensures Keeps(Run(evs[..n]), Run(evs)) && NoLate(Run(evs[..n]), Run(evs))
  {
    RunKeeps(evs, n);
    if n == |evs| {
      assert evs[..n] == evs;
    } else {
      var before := evs[..|evs| - 1];
      RunNoLate(before, n);
      assert before[..n] == evs[..n];
      RunSound(before);
      AfterSound(Run(before), evs[|evs| - 1]);
      AfterNoLate(Run(before), evs[|evs| - 1]);
      NoLateTransitive(Run(evs[..n]), Run(before), Run(evs));
    }
  }

  // ---- The answer rebuilt from stored rows ----

  ghost predicate HasChunkFrom(chunks: Chunks, sourceId: Id) {
    exists id :: id in chunks && chunks[id].sourceId == sourceId
  }

  lemma OneChunk(d: Diary, a: Id, b: Id)
    requires NotesLinked(d.notes.rows, d.sources.rows) && ChunksLinked(d.chunks.rows, d.notes.rows)
    requires a in d.chunks.rows && b in d.chunks.rows && d.chunks.rows[a].sourceId == d.chunks.rows[b].sourceId
    ensures a == b
  {
    assert d.chunks.rows[a].noteId in d.notes.rows && d.chunks.rows[b].noteId in d.notes.rows;
  }

  lemma FoundFrom(d: Diary, sourceId: Id)
    requires forall id :: id in d.chunks.rows ==> d.chunks.rows[id].chunkId == id
    ensures var found := Filter(Values(d.chunks), ChunkFromTest(sourceId));
            && Distinct(found)
            && (forall c :: c in found ==> c.chunkId in d.chunks.rows && d.chunks.rows[c.chunkId] == c && c.sourceId == sourceId)
            && (forall id :: id in d.chunks.rows && d.chunks.rows[id].sourceId == sourceId ==> d.chunks.rows[id] in found)
  {
    var vs, test := Values(d.chunks), ChunkFromTest(sourceId);
    assert forall i :: 0 <= i < |vs| ==> vs[i].chunkId == d.chunks.keys[i];
    FilterDistinct(vs, test);
    forall c: EventChunk ensures c in Filter(vs, test) <==> c in vs && test(c) {
      FilterIn(vs, test, c);
    }
  }

  lemma CountIs(d: Diary, sourceId: Id)
    requires NotesLinked(d.notes.rows, d.sources.rows) && ChunksLinked(d.chunks.rows, d.notes.rows)
    ensures CountChunks(d, sourceId) == if HasChunkFrom(d.chunks.rows, sourceId) then 1 else 0
  {
    FoundFrom(d, sourceId);
    var found := Filter(Values(d.chunks), ChunkFromTest(sourceId));
    OneChunkAtMost(d, sourceId, found);
    if found != [] {
      assert found[0] in found;
    }
  }

  lemma OneChunkAtMost(d: Diary, sourceId: Id, found: seq<EventChunk>)
    requires NotesLinked(d.notes.rows, d.sources.rows) && ChunksLinked(d.chunks.rows, d.notes.rows) && Distinct(found)
    requires forall c :: c in found ==> c.chunkId in d.chunks.rows && d.chunks.rows[c.chunkId] == c && c.sourceId == sourceId
    ensures |found| <= 1
  {
    if found != [] {
      forall c | c in found ensures c in [found[0]] {
        assert found[0] in found;
        OneChunk(d, c.chunkId, found[0].chunkId);
      }
      DistinctFits(found, [found[0]]);
    }
  }

  lemma SameChunks(sources: Sources, before: Chunks, after: Chunks, sourceId: Id)
    requires NoLateChunks(sources, before, after) && sourceId in sources
    requires ChunksKept(before, after)
    ensures HasChunkFrom(before, sourceId) <==> HasChunkFrom(after, sourceId)
  {
    if HasChunkFrom(before, sourceId) {
      var id :| id in before && before[id].sourceId == sourceId;
      assert id in after && ChunkKept(before[id], after[id]);
    }
  }

  lemma SameNote(d: Diary, e: Diary, sourceId: Id)
    requires NotesLinked(d.notes.rows, d.sources.rows) && NotesLinked(e.notes.rows, e.sources.rows)
    requires NotesKept(d.notes.rows, e.notes.rows) && NoLateNotes(d.sources.rows, d.notes.rows, e.notes.rows)
    requires sourceId in d.sources.rows
    ensures NoteBySource(d, sourceId).Some? <==> NoteBySource(e, sourceId).Some?
    ensures NoteBySource(d, sourceId).Some? ==>
              NoteBySource(d, sourceId).value.noteDate == NoteBySource(e, sourceId).value.noteDate
  {
    NoteBySourceIs(d, sourceId);
    NoteBySourceIs(e, sourceId);
    if NoteBySource(d, sourceId).Some? {
      var id := NoteBySource(d, sourceId).value.noteId;
      assert id in e.notes.rows && NoteKept(d.notes.rows[id], e.notes.rows[id]);
    }
    if NoteBySource(e, sourceId).Some? {
      var id := NoteBySource(e, sourceId).value.noteId;
      assert id in d.notes.rows && NoteKept(d.notes.rows[id], e.notes.rows[id]);
    }
  }

  lemma CountStable(d: Diary, e: Diary, sourceId: Id)
    requires NotesLinked(d.notes.rows, d.sources.rows) && ChunksLinked(d.chunks.rows, d.notes.rows)
    requires NotesLinked(e.notes.rows, e.sources.rows) && ChunksLinked(e.chunks.rows, e.notes.rows)
    requires ChunksKept(d.chunks.rows, e.chunks.rows) && NoLateChunks(d.sources.rows, d.chunks.rows, e.chunks.rows)
    requires sourceId in d.sources.rows
    ensures CountChunks(d, sourceId) == CountChunks(e, sourceId)
  {
    CountIs(d, sourceId);
    CountIs(e, sourceId);
    SameChunks(d.sources.rows, d.chunks.rows, e.chunks.rows, sourceId);
  }

  lemma ReconstructStable(d: Diary, e: Diary, s: SourceMessage)
    requires Sound(d) && Sound(e) && Keeps(d, e) && NoLate(d, e) && s.sourceId in d.sources.rows
    ensures Reconstruct(e, s) == Reconstruct(d, s)
  {
    SameNote(d, e, s.sourceId);
    CountStable(d, e, s.sourceId);
    SameAnswer(d, e, s);
  }

  lemma SameAnswer(d: Diary, e: Diary, s: SourceMessage)
    requires NoteBySource(d, s.sourceId).Some? <==> NoteBySource(e, s.sourceId).Some?
    requires NoteBySource(d, s.sourceId).Some? ==>
               NoteBySource(d, s.sourceId).value.noteDate == NoteBySource(e, s.sourceId).value.noteDate
    requires CountChunks(d, s.sourceId) == CountChunks(e, s.sourceId)
    ensures Reconstruct(e, s) == Reconstruct(d, s)
  {
  }

  // ---- The first answer ----

  /** What a fresh delivery is meant to answer; it does whenever it returns at all. */
  function Intended(dl: Delivery): IngestResult {
    if dl.message.route == DraftRoute then IngestResult(NoFallback, dl.env.sourceId, None, 0, None, false)
    else
      match dl.parsed
      case None => IngestResult(InvalidInput, dl.env.sourceId, None, 0, Some(FirstLine(dl.message.payload)), false)
      case Some(parsed) =>
        IngestResult(NoFallback, dl.env.sourceId, Some(parsed.noteDate), if parsed.body == "" then 0 else 1, None, false)
  }

  /** How many writes it takes until the stored rows carry the whole answer. */
  function AnswerWrites(dl: Delivery): nat {
    if dl.message.route == DraftRoute || dl.parsed == None then 1
    else if dl.message.communityId == "" then 1
    else if dl.parsed.value.body == "" then 2
    else 3
  }

  /** Whether the raw row, the note and the chunk of a delivery are in place. */
  ghost predicate Derived(d: Diary, dl: Delivery, note: bool, chunk: bool) {
    && dl.env.sourceId in d.sources.rows && d.sources.rows[dl.env.sourceId] == NewSource(dl)
    && dl.message.Key() in d.idempotency && d.idempotency[dl.message.Key()] == dl.env.sourceId
    && (NoteFrom(d.notes.rows, dl.env.sourceId) <==> note)
    && (forall id :: id in d.notes.rows && d.notes.rows[id].sourceId == dl.env.sourceId ==>
          dl.parsed.Some? && d.notes.rows[id].noteDate == dl.parsed.value.noteDate)
    && (HasChunkFrom(d.chunks.rows, dl.env.sourceId) <==> chunk)
  }

  ghost predicate NoteFrom(notes: Notes, sourceId: Id) {
    exists id :: id in notes && notes[id].sourceId == sourceId
  }

  lemma DerivedNote(d: Diary, dl: Delivery, note: bool, chunk: bool)
    requires Derived(d, dl, note, chunk)
    ensures var found := NoteBySource(d, dl.env.sourceId);
            && (found.Some? <==> note)
            && (found.Some? ==> dl.parsed.Some? && found.value.noteDate == dl.parsed.value.noteDate)
  {
    NoteBySourceIs(d, dl.env.sourceId);
    if note {
      var id :| id in d.notes.rows && d.notes.rows[id].sourceId == dl.env.sourceId;
    }
  }

  lemma DerivedAnswer(d: Diary, dl: Delivery, note: bool, chunk: bool)
    requires Sound(d) && Derived(d, dl, note, chunk)
    ensures Reconstruct(d, NewSource(dl)) == StoredAnswer(dl, note, chunk)
  {
    DerivedNote(d, dl, note, chunk);
    CountIs(d, dl.env.sourceId);
  }

  // ---- What any prefix of a first delivery leaves ----

  predicate Quiet(w: Write) {
    !w.SaveSource? && !w.SaveNote? && !w.SaveChunk?
  }

  lemma NotesQuiet(notes: Notes, id: Id, state: LifecycleState, sourceId: Id)
    requires id in notes
    ensures NoteFrom(notes[id := notes[id].(state := state)], sourceId) <==> NoteFrom(notes, sourceId)
  {
    var after := notes[id := notes[id].(state := state)];
    assert forall x :: x in after <==> x in notes;
    assert forall x :: x in notes ==> after[x].sourceId == notes[x].sourceId;
  }

  lemma ChunksQuiet(chunks: Chunks, c: EventChunk, id: Id, sourceId: Id)
    requires id in chunks && c.sourceId == chunks[id].sourceId
    ensures HasChunkFrom(chunks[id := c], sourceId) <==> HasChunkFrom(chunks, sourceId)
  {
    var after := chunks[id := c];
    assert forall x :: x in after <==> x in chunks;
    assert forall x :: x in chunks ==> after[x].sourceId == chunks[x].sourceId;
  }

  lemma DerivedWrite(e: Diary, w: Write, dl: Delivery, note: bool, chunk: bool)
    requires Derived(e, dl, note, chunk) && Quiet(w)
    ensures Derived(Apply(e, w), dl, note, chunk)
  {
    match w
    case SetNoteState(id, state) =>
      if id in e.notes.rows {
        NotesQuiet(e.notes.rows, id, state, dl.env.sourceId);
      }
    case SetChunkState(id, state) =>
      if id in e.chunks.rows {
        ChunksQuiet(e.chunks.rows, e.chunks.rows[id].(state := state), id, dl.env.sourceId);
      }
    case SetChunkStatus(id, status) =>
      if id in e.chunks.rows {
        ChunksQuiet(e.chunks.rows, e.chunks.rows[id].(status := status), id, dl.env.sourceId);
      }
    case SaveRecord(_) =>
    case SaveDeadLetter(_) =>
  }

  lemma {:induction false} DerivedQuiet(e: Diary, ws: seq<Write>, dl: Delivery, note: bool, chunk: bool)
    requires Derived(e, dl, note, chunk) && forall w :: w in ws ==> Quiet(w)
    ensures Derived(ApplyAll(e, ws), dl, note, chunk)
    decreases |ws|
  {
    if ws != [] {
      DerivedWrite(e, ws[0], dl, note, chunk);
      DerivedQuiet(Apply(e, ws[0]), ws[1..], dl, note, chunk);
    }
  }

  /** The writes a delivery's answer is rebuilt from, which come before all the others. */
  function AnswerHead(d: Diary, dl: Delivery): seq<Write> {
    var save := SaveSource(NewSource(dl));
    if !NewRevision(d, dl) then [save]
    else
      var note := SaveNote(NewNote(dl, dl.parsed.value, Replaced(d, dl).note));
      if dl.parsed.value.body == "" then [save, note]
      else [save, note, SaveChunk(NewChunk(dl, dl.parsed.value, Replaced(d, dl).chunk))]
  }

  lemma RetiresQuiet(prior: Prior, state: LifecycleState)
    ensures forall w :: w in RetireWrites(prior, state) ==> Quiet(w)
  {
    RetireMembers(prior, state);
  }

  lemma HeadThenQuiet(d: Diary, dl: Delivery) returns (tail: seq<Write>)
    requires dl.message.Key() !in d.idempotency
    ensures Writes(d, Ingest(dl)) == AnswerHead(d, dl) + tail
    ensures forall w :: w in tail ==> Quiet(w)
  {
    var save, rest := SaveSource(NewSource(dl)), CapturePlan(WithSource(d, dl), dl).writes;
    assert Writes(d, Ingest(dl)) == [save] + rest;
    if NewRevision(d, dl) {
      var prior := Replaced(d, dl);
      var saves, retires := SaveWrites(dl, dl.parsed.value, prior), RetireWrites(prior, Superseded);
      var embeds := if dl.parsed.value.body == "" then [] else EmbedPlan(dl.env, dl.message.communityId).writes;
      RetiresQuiet(prior, Superseded);
      PiecesNoFlip(dl, dl.parsed.value, prior);
      tail := retires + embeds;
      Associate(saves, retires, embeds);
      Associate([save], saves, retires + embeds);
      assert AnswerHead(d, dl) == [save] + saves;
    } else {
      RetiresQuiet(Replaced(d, dl), Tombstoned);
      tail := rest;
    }
  }

  lemma HeadDerived(d: Diary, dl: Delivery, k: nat)
    requires Sound(d) && FreshIds(d, dl.env) && dl.message.Key() !in d.idempotency
    requires 1 <= k <= |AnswerHead(d, dl)|
    ensures Derived(ApplyAll(d, AnswerHead(d, dl)[..k]), dl, k >= 2, k >= 3)
  {
    var head := AnswerHead(d, dl);
    SourceDerived(d, dl);
    if k == 1 {
      assert head[..k] == [head[0]];
      ApplyOne(d, head[0]);
    } else {
      var e := WithSource(d, dl);
      var n := NewNote(dl, dl.parsed.value, Replaced(d, dl).note);
      NoteDerived(e, dl, n);
      if k == 2 {
        assert head[..k] == [head[0], head[1]];
        ApplyTwo(d, head[0], head[1]);
      } else {
        assert head[..k] == [head[0], head[1]] + [head[2]];
        ApplyConcat(d, [head[0], head[1]], [head[2]]);
        ApplyTwo(d, head[0], head[1]);
        ApplyOne(Apply(e, SaveNote(n)), head[2]);
        ChunkDerived(Apply(e, SaveNote(n)), dl, NewChunk(dl, dl.parsed.value, Replaced(d, dl).chunk));
      }
    }
  }

  lemma SourceDerived(d: Diary, dl: Delivery)
    requires Sound(d) && FreshIds(d, dl.env) && dl.message.Key() !in d.idempotency
    ensures Derived(WithSource(d, dl), dl, false, false)
  {
    NothingFrom(d, dl);
  }

  lemma NoteDerived(e: Diary, dl: Delivery, n: Note)
    requires Derived(e, dl, false, false) && n.sourceId == dl.env.sourceId
    requires dl.parsed.Some? && n.noteDate == dl.parsed.value.noteDate
    ensures Derived(Apply(e, SaveNote(n)), dl, true, false)
  {
    assert Apply(e, SaveNote(n)).notes.rows[n.noteId].sourceId == dl.env.sourceId;
  }

  lemma ChunkDerived(e: Diary, dl: Delivery, c: EventChunk)
    requires Derived(e, dl, true, false) && c.sourceId == dl.env.sourceId
    ensures Derived(Apply(e, SaveChunk(c)), dl, true, true)
  {
    assert Apply(e, SaveChunk(c)).chunks.rows[c.chunkId].sourceId == dl.env.sourceId;
  }

  lemma NothingFrom(d: Diary, dl: Delivery)
    requires Sound(d) && FreshIds(d, dl.env)
    ensures !NoteFrom(d.notes.rows, dl.env.sourceId) && !HasChunkFrom(d.chunks.rows, dl.env.sourceId)
  {
    assert forall id :: id in d.notes.rows ==> d.notes.rows[id].sourceId in d.sources.rows;
    assert forall id :: id in d.chunks.rows ==> d.chunks.rows[id].noteId in d.notes.rows;
  }

  lemma TakeConcat<T>(a: seq<T>, b: seq<T>, k: nat)
    ensures Take(a + b, k) == if k <= |a| then a[..k] else a + Take(b, k - |a|)
  {
  }

  /** After `k` writes of a first delivery: the raw row, then the note, then the chunk, as far as it got. */
  lemma CutDerived(d: Diary, dl: Delivery, k: nat)
    requires Sound(d) && FreshIds(d, dl.env) && dl.message.Key() !in d.idempotency && k >= 1
    ensures var n := |AnswerHead(d, dl)|;
            Derived(CutStep(d, Ingest(dl), k), dl, k >= 2 && n >= 2, k >= 3 && n >= 3)
  {
    var head := AnswerHead(d, dl);
    var tail := HeadThenQuiet(d, dl);
    TakeConcat(head, tail, k);
    if k <= |head| {
      HeadDerived(d, dl, k);
    } else {
      HeadDerived(d, dl, |head|);
      assert head[..|head|] == head;
      var rest := Take(tail, k - |head|);
      ApplyConcat(d, head, rest);
      DerivedQuiet(ApplyAll(d, head), rest, dl, |head| >= 2, |head| >= 3);
    }
  }

  // ---- Redelivery ----

  /** What is answered for rows that are, or are not yet, in place. */
  function StoredAnswer(dl: Delivery, note: bool, chunk: bool): IngestResult {
    if dl.message.route == DraftRoute then Intended(dl).(replayed := true)
    else if !note then IngestResult(InvalidInput, dl.env.sourceId, None, 0, Some(FirstLine(dl.message.payload)), true)
    else IngestResult(NoFallback, dl.env.sourceId,
                      if dl.parsed.Some? then Some(dl.parsed.value.noteDate) else None, if chunk then 1 else 0, None, true)
  }

  lemma CutAnswer(d: Diary, dl: Delivery, k: nat)
    requires Sound(d) && FreshIds(d, dl.env) && dl.message.Key() !in d.idempotency && k >= 1
    ensures var e, n := CutStep(d, Ingest(dl), k), |AnswerHead(d, dl)|;
            && dl.message.Key() in e.idempotency && e.idempotency[dl.message.Key()] == dl.env.sourceId
            && dl.env.sourceId in e.sources.rows && e.sources.rows[dl.env.sourceId] == NewSource(dl)
            && Reconstruct(e, NewSource(dl)) == StoredAnswer(dl, k >= 2 && n >= 2, k >= 3 && n >= 3)
  {
    OpGuarded(d, Ingest(dl));
    GuardedPrefix(d, Writes(d, Ingest(dl)), k);
    CutDerived(d, dl, k);
    var n := |AnswerHead(d, dl)|;
    DerivedAnswer(CutStep(d, Ingest(dl), k), dl, k >= 2 && n >= 2, k >= 3 && n >= 3);
  }

  /** Whether the rows a delivery gets to store can carry its answer at all. */
  predicate Answerable(dl: Delivery) {
    dl.message.route == DraftRoute || dl.parsed == None || dl.message.communityId != ""
  }

  /** A fresh delivery raises without a community to look in, or when the provider returns the wrong number of vectors. */
  lemma RaisesWhen(d: Diary, dl: Delivery)
    requires dl.message.Key() !in d.idempotency
    ensures IngestPlan(d, dl).result.Raised?
        <==> if dl.message.communityId == "" then dl.message.route == DraftRoute || dl.parsed.Some?
             else dl.message.route != DraftRoute && dl.parsed.Some? && dl.parsed.value.body != ""
                  && dl.env.client.Some? && dl.env.embed.Vectors? && |dl.env.embed.vectors| != 1
    ensures IngestPlan(d, dl).result.Ok? ==> IngestPlan(d, dl).result.value == Intended(dl)
  {
  }

  /** The stored rows answer in full exactly when all the rows the answer needs are there. */
  lemma AnsweredWhen(d: Diary, dl: Delivery, k: nat)
    requires dl.message.Key() !in d.idempotency && k >= 1
    ensures var n := |AnswerHead(d, dl)|;
            StoredAnswer(dl, k >= 2 && n >= 2, k >= 3 && n >= 3) == Intended(dl).(replayed := true)
            <==> Answerable(dl) && k >= AnswerWrites(dl)
    ensures Answerable(dl) ==> |AnswerHead(d, dl)| == AnswerWrites(dl)
  {
  }

  /**
   * A first delivery, whether it would return or raise, cut after `k` writes: with none the redelivery is
   * fresh; otherwise it writes nothing and answers what the delivery was meant to answer exactly when the
   * answer's rows can be stored and all were in place.
   */
  lemma InterruptedReplay(d: Diary, dl: Delivery, k: nat, again: Delivery)
    requires Sound(d) && FreshIds(d, dl.env) && dl.message.Key() !in d.idempotency
    requires again.message.Key() == dl.message.Key()
    ensures var e := CutStep(d, Ingest(dl), k);
            && (k == 0 ==> again.message.Key() !in e.idempotency)
            && (k > 0 ==>
                  && IngestPlan(e, again).writes == []
                  && (IngestPlan(e, again).result == Ok(Intended(dl).(replayed := true)) <==>
                      Answerable(dl) && k >= AnswerWrites(dl)))
  {
    if k == 0 {
      TakeNone(d, Writes(d, Ingest(dl)));
    } else {
      CutAnswer(d, dl, k);
      AnsweredWhen(d, dl, k);
    }
  }

  /** A fresh delivery with a community that ran to its end, by returning or by raising, has stored its answer. */
  lemma IntendedStored(d: Diary, dl: Delivery)
    requires Sound(d) && FreshIds(d, dl.env) && dl.message.Key() !in d.idempotency && Answerable(dl)
    ensures var e := Step(d, Ingest(dl));
            && dl.message.Key() in e.idempotency && e.idempotency[dl.message.Key()] in e.sources.rows
            && Reconstruct(e, e.sources.rows[e.idempotency[dl.message.Key()]]) == Intended(dl).(replayed := true)
  {
    var ws := Writes(d, Ingest(dl));
    var tail := HeadThenQuiet(d, dl);
    assert Take(ws, |ws|) == ws;
    CutAnswer(d, dl, |ws|);
    AnsweredWhen(d, dl, |ws|);
  }

  /** A delivery that returned, first or not, answers the same again right away. */
  lemma AnswerStored(d: Diary, dl: Delivery)
    requires Sound(d) && FreshIds(d, dl.env) && IngestPlan(d, dl).result.Ok?
    ensures var e := Step(d, Ingest(dl));
            && dl.message.Key() in e.idempotency && e.idempotency[dl.message.Key()] in e.sources.rows
            && Reconstruct(e, e.sources.rows[e.idempotency[dl.message.Key()]])
               == IngestPlan(d, dl).result.value.(replayed := true)
  {
    if dl.message.Key() !in d.idempotency {
      RaisesWhen(d, dl);
      IntendedStored(d, dl);
    }
  }

  /**
   * Once an ingest has returned, every later delivery with its chat, message and edit number answers the
   * same, marked as replayed, and writes nothing, whatever ran or crashed in between.
   */
  lemma ReplayAnswers(evs: seq<Event>, n: nat, again: Delivery)
    requires FreshRun(evs) && n < |evs| && evs[n].op.Ingest? && evs[n].cut == None
    requires again.message.Key() == evs[n].op.delivery.message.Key()
    requires IngestPlan(Run(evs[..n]), evs[n].op.delivery).result.Ok?
    ensures IngestPlan(Run(evs), again)
         == Plan([], Ok(IngestPlan(Run(evs[..n]), evs[n].op.delivery).result.value.(replayed := true)))
  {
    var dl := evs[n].op.delivery;
    FreshPrefix(evs, n);
    FreshPrefix(evs, n + 1);
    assert evs[..n + 1][..n] == evs[..n];
    RunSound(evs[..n]);
    RunSound(evs[..n + 1]);
    RunSound(evs);
    AnswerStored(Run(evs[..n]), dl);
    StillAnswers(evs, n + 1, dl.message.Key());
  }

  /** An answer stored at one moment of a run is the answer at its end. */
  lemma StillAnswers(evs: seq<Event>, n: nat, key: DeliveryKey)
    requires FreshRun(evs) && n <= |evs| && key in Run(evs[..n]).idempotency
    requires Sound(Run(evs[..n])) && Sound(Run(evs))
    ensures var d, e := Run(evs[..n]), Run(evs);
            && key in e.idempotency && e.idempotency[key] in e.sources.rows
            && Reconstruct(e, e.sources.rows[e.idempotency[key]]) == Reconstruct(d, d.sources.rows[d.idempotency[key]])
  {
    RunNoLate(evs, n);
    var d := Run(evs[..n]);
    ReconstructStable(d, Run(evs), d.sources.rows[d.idempotency[key]]);
  }

  /**
   * A first delivery that raised over the provider's vectors has stored everything first: every later
   * delivery of it writes nothing and is answered with success.
   */
  lemma RaisedReplays(evs: seq<Event>, n: nat, again: Delivery)
    requires FreshRun(evs) && n < |evs| && evs[n].op.Ingest? && evs[n].cut == None
    requires again.message.Key() == evs[n].op.delivery.message.Key()
    requires evs[n].op.delivery.message.Key() !in Run(evs[..n]).idempotency
    requires IngestPlan(Run(evs[..n]), evs[n].op.delivery).result.Raised? && evs[n].op.delivery.message.communityId != ""
    ensures IngestPlan(Run(evs), again) == Plan([], Ok(Intended(evs[n].op.delivery).(replayed := true)))
    ensures Intended(evs[n].op.delivery).fallback == NoFallback && Intended(evs[n].op.delivery).eventsCount == 1
  {
    var dl := evs[n].op.delivery;
    FreshPrefix(evs, n);
    FreshPrefix(evs, n + 1);
    assert evs[..n + 1][..n] == evs[..n];
    RunSound(evs[..n]);
    RunSound(evs[..n + 1]);
    RunSound(evs);
    RaisesWhen(Run(evs[..n]), dl);
    IntendedStored(Run(evs[..n]), dl);
    StillAnswers(evs, n + 1, dl.message.Key());
  }

  lemma {:induction false} FreshPrefix(evs: seq<Event>, n: nat)
    requires FreshRun(evs) && n <= |evs|
    ensures FreshRun(evs[..n])
    ensures n < |evs| ==> Fresh(Run(evs[..n]), evs[n].op)
  {
    if n == |evs| {
      assert evs[..n] == evs;
    } else if n < |evs| - 1 {
      var before := evs[..|evs| - 1];
      FreshPrefix(before, n);
      assert before[..n] == evs[..n] && before[n] == evs[n];
    }
  }

  // ---- A run with duplicates ends where the run without them does ----

  predicate Delivers(ev: Event, key: DeliveryKey) {
    ev.op.Ingest? && ev.op.delivery.message.Key() == key && ev.cut != Some(0)
  }

  /** Some ingest of this key has got at least as far as its first write. */
  predicate Delivered(evs: seq<Event>, key: DeliveryKey) {
    exists i :: 0 <= i < |evs| && Delivers(evs[i], key)
  }

  /** The run with every redelivery left out. */
  function FirstDeliveries(evs: seq<Event>): seq<Event> {
    if evs == [] then []
    else
      var before, last := evs[..|evs| - 1], evs[|evs| - 1];
      if last.op.Ingest? && Delivered(before, last.op.delivery.message.Key()) then FirstDeliveries(before)
      else FirstDeliveries(before) + [last]
  }

  /** The idempotency index holds exactly the keys delivered so far. */
  lemma {:induction false} IndexIsDelivered(evs: seq<Event>, key: DeliveryKey)
    requires FreshRun(evs)
    ensures key in Run(evs).idempotency <==> Delivered(evs, key)
  {
    if evs != [] {
      var before, last := evs[..|evs| - 1], evs[|evs| - 1];
      IndexIsDelivered(before, key);
      RunSound(before);
      AfterIndex(Run(before), last, key);
      DeliveredSnoc(evs, key);
    }
  }

  lemma DeliveredSnoc(evs: seq<Event>, key: DeliveryKey)
    requires evs != []
    ensures Delivered(evs, key) <==> Delivered(evs[..|evs| - 1], key) || Delivers(evs[|evs| - 1], key)
  {
    var before := evs[..|evs| - 1];
    if Delivered(before, key) {
      var i :| 0 <= i < |before| && Delivers(before[i], key);
      assert Delivers(evs[i], key);
    }
    if Delivered(evs, key) {
      var i :| 0 <= i < |evs| && Delivers(evs[i], key);
      assert i < |before| ==> Delivers(before[i], key);
    }
  }

  lemma AfterIndex(d: Diary, ev: Event, key: DeliveryKey)
    requires Sound(d) && Fresh(d, ev.op)
    ensures key in After(d, ev).idempotency <==> key in d.idempotency || Delivers(ev, key)
  {
    AfterSound(d, ev);
    if key in After(d, ev).idempotency && key !in d.idempotency {
      OnlyOwnKey(d, ev, key);
    }
    if Delivers(ev, key) && key !in d.idempotency {
      DeliveredKey(d, ev, key);
    }
  }

  lemma DeliveredKey(d: Diary, ev: Event, key: DeliveryKey)
    requires Sound(d) && Fresh(d, ev.op) && Delivers(ev, key) && key !in d.idempotency
    ensures key in After(d, ev).idempotency
  {
    var dl, all := ev.op.delivery, Writes(d, ev.op);
    assert Take(all, |all|) == all;
    CutDerived(d, dl, if ev.cut == None then |all| else ev.cut.value);
  }

  lemma OnlyOwnKey(d: Diary, ev: Event, key: DeliveryKey)
    requires key in After(d, ev).idempotency && key !in d.idempotency
    ensures Delivers(ev, key)
  {
    WritesOf(d, ev);
    var ws: seq<Write> :| After(d, ev) == ApplyAll(d, ws) && forall w :: w in ws ==> w in Writes(d, ev.op);
    OpKeys(d, ev.op);
    KeysAfter(d, ws, key);
    if ev.cut == Some(0) {
      TakeNone(d, Writes(d, ev.op));
    }
  }

  /** Only an ingest saves a raw row, and only its own. */
  lemma OpKeys(d: Diary, op: Op)
    ensures forall w :: w in Writes(d, op) && w.SaveSource? ==> op.Ingest? && w.source.Key() == op.delivery.message.Key()
  {
    match op
    case Ingest(dl) => IngestShape(d, dl);
    case Delete(chatId, messageId, communityId) => RetireMembers(PriorFor(d, chatId, messageId, communityId), Tombstoned);
    case Retry(communityId, limit, env) =>
      if communityId != "" {
        var groups := Groups(FailedChunks(d, communityId, limit));
        RetryMild(d, communityId, groups, env, |groups|);
      }
  }

  lemma {:induction false} KeysAfter(d: Diary, ws: seq<Write>, key: DeliveryKey)
    ensures key in ApplyAll(d, ws).idempotency ==>
              key in d.idempotency || exists w :: w in ws && w.SaveSource? && w.source.Key() == key
    decreases |ws|
  {
    if ws != [] {
      KeysAfter(Apply(d, ws[0]), ws[1..], key);
    }
  }

  /** At-least-once delivery, with redeliveries cut anywhere, ends in the store of exactly-once delivery. */
  lemma {:induction false} DuplicatesChangeNothing(evs: seq<Event>)
    requires FreshRun(evs)
    ensures FreshRun(FirstDeliveries(evs)) && Run(FirstDeliveries(evs)) == Run(evs)
  {
    if evs != [] {
      var before, last := evs[..|evs| - 1], evs[|evs| - 1];
      DuplicatesChangeNothing(before);
      if last.op.Ingest? && Delivered(before, last.op.delivery.message.Key()) {
        IndexIsDelivered(before, last.op.delivery.message.Key());
        assert After(Run(before), last) == Run(before);
      } else {
        assert FirstDeliveries(evs)[..|FirstDeliveries(evs)| - 1] == FirstDeliveries(before);
      }
    }
  }
}
