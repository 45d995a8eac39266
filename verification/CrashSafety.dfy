/** Runs that may stop inside any operation: what holds after every prefix of their writes. */
module CrashSafety {
  import opened Diary
  import opened GuardedPlans
  import opened IngestEffects
  import opened Lifecycle
  import opened Models
  import opened Plans
  import opened Reconciliation
  import opened Sorting
  import opened Tables
  import opened Wrappers

  /** One operation of a run; `cut` says after how many writes the process stopped, if it did. */
  datatype Event = Event(op: Op, cut: Option<nat>)

  function After(d: Diary, ev: Event): Diary {
    if ev.cut == None then Step(d, ev.op) else CutStep(d, ev.op, ev.cut.value)
  }

  function Run(evs: seq<Event>): Diary {
    if evs == [] then EMPTY else After(Run(evs[..|evs| - 1]), evs[|evs| - 1])
  }

  /** Every operation drew identifiers that were new when it started. */
  ghost predicate FreshRun(evs: seq<Event>) {
    evs == [] || (FreshRun(evs[..|evs| - 1]) && Fresh(Run(evs[..|evs| - 1]), evs[|evs| - 1].op))
  }

  lemma AfterSound(d: Diary, ev: Event)
    requires Sound(d) && Fresh(d, ev.op)
    ensures Sound(After(d, ev)) && Keeps(d, After(d, ev))
  {
    OpGuarded(d, ev.op);
    if ev.cut == None {
      GuardedAll(d, Writes(d, ev.op));
    } else {
      GuardedPrefix(d, Writes(d, ev.op), ev.cut.value);
    }
  }

  /**
   * At every moment of every run, crashes included: the index and the sources are in bijection, lineage
   * is complete, an Active chunk has an Active note, and a Ready chunk has its record.
   */
  lemma {:induction false} RunSound(evs: seq<Event>)
    requires FreshRun(evs)
    ensures Sound(Run(evs))
  {
    if evs != [] {
      RunSound(evs[..|evs| - 1]);
      AfterSound(Run(evs[..|evs| - 1]), evs[|evs| - 1]);
    }
  }

  /** Text, authorship, dates and lineage never change once written, and a retired revision never moves again. */
  lemma {:induction false} RunKeeps(evs: seq<Event>, n: nat)
    requires FreshRun(evs) && n <= |evs|
    ensures Keeps(Run(evs[..n]), Run(evs))
  {
    if n == |evs| {
      assert evs[..n] == evs;
    } else {
      var before := evs[..|evs| - 1];
      RunKeeps(before, n);
      assert before[..n] == evs[..n];
      RunSound(before);
      StillKeeps(Run(evs[..n]), Run(before), evs[|evs| - 1]);
    }
  }

  lemma StillKeeps(d: Diary, e: Diary, ev: Event)
    requires Keeps(d, e) && Sound(e) && Fresh(e, ev.op)
    ensures Keeps(d, After(e, ev))
  {
    AfterSound(e, ev);
    KeepsTransitive(d, e, After(e, ev));
  }

  // ---- The live revisions of one external message ----

  datatype External = External(chatId: Id, messageId: Id, communityId: Id)

  function ActiveNotes(d: Diary, x: External): set<Id> {
    set id | id in d.notes.rows && ActiveNoteOf(d, d.notes.rows[id], x.chatId, x.messageId, x.communityId)
  }

  function MessageOf(dl: Delivery): External {
    External(dl.message.chatId, dl.message.messageId, dl.message.communityId)
  }

  /** The writes that can change a given note. */
  predicate Touches(w: Write, id: Id) {
    (w.SaveNote? && w.note.noteId == id) || (w.SetNoteState? && w.noteId == id)
  }

  lemma {:induction false} Untouched(d: Diary, ws: seq<Write>, id: Id)
    requires forall w :: w in ws ==> !Touches(w, id)
    ensures var e := ApplyAll(d, ws);
            (id in e.notes.rows <==> id in d.notes.rows) && (id in d.notes.rows ==> e.notes.rows[id] == d.notes.rows[id])
    decreases |ws|
  {
    if ws != [] {
      assert !Touches(ws[0], id);
      Untouched(Apply(d, ws[0]), ws[1..], id);
    }
  }

  /** An operation saves no note but the one an ingest brings. */
  predicate SavesOnly(ws: seq<Write>, d: Diary, op: Op) {
    forall w :: w in ws && w.SaveNote? ==>
      op.Ingest? && NewRevision(d, op.delivery) && w.note.noteId == op.delivery.env.noteId
  }

  lemma {:induction false} RetryMild(d: Diary, communityId: Id, groups: seq<Group>, env: RetryEnv, n: nat)
    requires n <= |groups|
    ensures forall w :: w in RetryUpTo(d, communityId, groups, env, n).writes ==>
              w.SaveRecord? || w.SetChunkStatus? || w.SaveDeadLetter?
  {
    if n > 0 {
      RetryMild(d, communityId, groups, env, n - 1);
      var before := RetryUpTo(d, communityId, groups, env, n - 1).writes;
      RetryGroupWrites(ApplyAll(d, before), communityId, groups[n - 1], env, env.groups(n - 1));
    }
  }

  /** Everything an ingest may write. */
  predicate IngestWrite(w: Write, d: Diary, dl: Delivery) {
    match w
    case SaveSource(s) => s == NewSource(dl)
    case SaveNote(n) => NewRevision(d, dl) && n == NewNote(dl, dl.parsed.value, Replaced(d, dl).note)
    case SaveChunk(c) => NewRevision(d, dl) && c == NewChunk(dl, dl.parsed.value, Replaced(d, dl).chunk)
    case SetNoteState(id, _) => Replaced(d, dl).note.Some? && id == Replaced(d, dl).note.value.noteId
    case SetChunkState(id, _) => Replaced(d, dl).chunk.Some? && id == Replaced(d, dl).chunk.value.chunkId
    case SetChunkStatus(id, _) => id == dl.env.chunkId
    case SaveRecord(r) => r.chunkId == dl.env.chunkId && r.sourceId == dl.env.sourceId && r.communityId == dl.message.communityId
    case SaveDeadLetter(l) => l.letterId == dl.env.letterId && l.communityId == dl.message.communityId
  }

  lemma RetireMembers(prior: Prior, state: LifecycleState)
    ensures forall w :: w in RetireWrites(prior, state) ==>
              prior.note.Some?
              && (w == SetNoteState(prior.note.value.noteId, state)
                  || (prior.chunk.Some? && w == SetChunkState(prior.chunk.value.chunkId, state)))
  {
  }

  lemma RetireShape(d: Diary, dl: Delivery, state: LifecycleState)
    ensures forall w :: w in RetireWrites(Replaced(d, dl), state) ==> IngestWrite(w, d, dl)
  {
    var prior := Replaced(d, dl);
    RetireMembers(prior, state);
    forall w | w in RetireWrites(prior, state) ensures IngestWrite(w, d, dl) {
    }
  }

  lemma EmbedShape(d: Diary, dl: Delivery)
    ensures forall w :: w in EmbedPlan(dl.env, dl.message.communityId).writes ==> IngestWrite(w, d, dl)
  {
  }

  lemma SaveShape(d: Diary, dl: Delivery)
    requires NewRevision(d, dl)
    ensures forall w :: w in SaveWrites(dl, dl.parsed.value, Replaced(d, dl)) ==> IngestWrite(w, d, dl)
  {
  }

  lemma IngestShape(d: Diary, dl: Delivery)
    ensures forall w :: w in IngestPlan(d, dl).writes ==> IngestWrite(w, d, dl)
  {
    if dl.message.Key() !in d.idempotency {
      var rest := CapturePlan(WithSource(d, dl), dl).writes;
      assert IngestPlan(d, dl).writes == [SaveSource(NewSource(dl))] + rest;
      forall w | w in rest ensures IngestWrite(w, d, dl) {
        RestShape(d, dl, w);
      }
    }
  }

  lemma RestShape(d: Diary, dl: Delivery, w: Write)
    requires dl.message.Key() !in d.idempotency && w in CapturePlan(WithSource(d, dl), dl).writes
    ensures IngestWrite(w, d, dl)
  {
    RetireShape(d, dl, Tombstoned);
    RetireShape(d, dl, Superseded);
    EmbedShape(d, dl);
    if dl.message.route != DraftRoute {
      SaveShape(d, dl);
    }
  }

  lemma OpSavesOnly(d: Diary, op: Op)
    ensures SavesOnly(Writes(d, op), d, op)
  {
    match op
    case Ingest(dl) => IngestShape(d, dl);
    case Delete(chatId, messageId, communityId) => RetireMembers(PriorFor(d, chatId, messageId, communityId), Tombstoned);
    case Retry(communityId, limit, env) =>
      if communityId != "" {
        var groups := Groups(FailedChunks(d, communityId, limit));
        RetryMild(d, communityId, groups, env, |groups|);
      }
  }

  /** The operation captures a new revision of this message. */
  predicate Revises(d: Diary, op: Op, x: External) {
    op.Ingest? && NewRevision(d, op.delivery) && MessageOf(op.delivery) == x
  }

  /** Whatever the cut, the only note an event can add to a message's live ones is the one its ingest brings. */
  lemma ActiveAfter(d: Diary, ev: Event, x: External)
    requires Sound(d) && Fresh(d, ev.op)
    ensures ActiveNotes(After(d, ev), x)
         <= ActiveNotes(d, x) + if Revises(d, ev.op, x) then {ev.op.delivery.env.noteId} else {}
  {
    AfterSound(d, ev);
    var e := After(d, ev);
    forall id | id in ActiveNotes(e, x) && id !in ActiveNotes(d, x)
      ensures Revises(d, ev.op, x) && id == ev.op.delivery.env.noteId
    {
      if id in d.notes.rows {
        StillActive(d, e, id, x);
      }
      NewNoteOrigin(d, ev, id);
    }
  }

  lemma StillActive(d: Diary, e: Diary, id: Id, x: External)
    requires Sound(d) && Keeps(d, e) && id in d.notes.rows
    ensures id in ActiveNotes(e, x) ==> id in ActiveNotes(d, x)
    ensures id in ActiveNotes(d, x) && e.notes.rows[id].state == Active ==> id in ActiveNotes(e, x)
  {
    assert NoteKept(d.notes.rows[id], e.notes.rows[id]);
    assert d.notes.rows[id].sourceId in d.sources.rows;
  }

  lemma WritesOf(d: Diary, ev: Event)
    ensures exists ws :: After(d, ev) == ApplyAll(d, ws) && forall w :: w in ws ==> w in Writes(d, ev.op)
  {
    var ws := if ev.cut == None then Writes(d, ev.op) else Take(Writes(d, ev.op), ev.cut.value);
    assert After(d, ev) == ApplyAll(d, ws);
  }

  /** A note that was not there before is the ingest's own, and carries the ingest's message. */
  lemma NewNoteOrigin(d: Diary, ev: Event, id: Id)
    requires Sound(d) && Fresh(d, ev.op)
    requires id in After(d, ev).notes.rows && id !in d.notes.rows
    ensures ev.op.Ingest? && NewRevision(d, ev.op.delivery) && id == ev.op.delivery.env.noteId
    ensures forall x :: id in ActiveNotes(After(d, ev), x) ==> MessageOf(ev.op.delivery) == x
  {
    WritesOf(d, ev);
    var ws: seq<Write> :| After(d, ev) == ApplyAll(d, ws) && forall w :: w in ws ==> w in Writes(d, ev.op);
    OpSavesOnly(d, ev.op);
    OnlyNewNotes(d, d, ws, ev.op);
    OwnWrites(d, ev.op.delivery);
    NewRowsFrom(d, ws, ev.op.delivery);
  }

  lemma {:induction false} OnlyNewNotes(d: Diary, e: Diary, ws: seq<Write>, op: Op)
    requires SavesOnly(ws, d, op)
    ensures forall id :: id in ApplyAll(e, ws).notes.rows ==>
              id in e.notes.rows || (op.Ingest? && NewRevision(d, op.delivery) && id == op.delivery.env.noteId)
    decreases |ws|
  {
    if ws != [] {
      assert ws[0] in ws;
      assert forall w :: w in ws[1..] ==> w in ws;
      OnlyNewNotes(d, Apply(e, ws[0]), ws[1..], op);
    }
  }

  /** Along the writes of an ingest, its note and its source are always the ones the delivery determines. */
  ghost predicate OwnRows(d: Diary, dl: Delivery) {
    && (dl.env.noteId in d.notes.rows ==>
          d.notes.rows[dl.env.noteId].sourceId == dl.env.sourceId
          && d.notes.rows[dl.env.noteId].communityId == dl.message.communityId)
    && (dl.env.sourceId in d.sources.rows ==> d.sources.rows[dl.env.sourceId] == NewSource(dl))
  }

  /** The rows an ingest's own writes create. */
  predicate OwnWrite(w: Write, dl: Delivery) {
    && (w.SaveNote? ==> w.note.sourceId == dl.env.sourceId && w.note.communityId == dl.message.communityId)
    && (w.SaveSource? ==> w.source == NewSource(dl))
  }

  lemma OwnWrites(d: Diary, dl: Delivery)
    ensures forall w :: w in IngestPlan(d, dl).writes ==> OwnWrite(w, dl)
  {
    IngestShape(d, dl);
  }

  lemma OwnStep(e: Diary, w: Write, dl: Delivery)
    requires OwnRows(e, dl) && OwnWrite(w, dl)
    ensures OwnRows(Apply(e, w), dl)
  {
  }

  lemma {:induction false} NewRowsFrom(e: Diary, ws: seq<Write>, dl: Delivery)
    requires OwnRows(e, dl)
    requires forall w :: w in ws ==> OwnWrite(w, dl)
    ensures OwnRows(ApplyAll(e, ws), dl)
    decreases |ws|
  {
    if ws != [] {
      OwnStep(e, ws[0], dl);
      NewRowsFrom(Apply(e, ws[0]), ws[1..], dl);
    }
  }

  // ---- Never without a live revision while an edit replaces it ----

  /** Operations that are not meant to remove anything: captures of notes, and retries. */
  predicate NotARemoval(op: Op) {
    op.Retry? || (op.Ingest? && op.delivery.message.route != DraftRoute)
  }

  /**
   * After any prefix of an edit's writes, and of any other operation that removes nothing, a message
   * that had a live revision still has one.
   */
  lemma NeverZeroActive(d: Diary, op: Op, k: nat, x: External)
    requires Sound(d) && Fresh(d, op) && NotARemoval(op)
    requires ActiveNotes(d, x) != {}
    ensures ActiveNotes(CutStep(d, op, k), x) != {}
  {
    var id :| id in ActiveNotes(d, x);
    var ws := Take(Writes(d, op), k);
    OpGuarded(d, op);
    GuardedPrefix(d, Writes(d, op), k);
    if forall w :: w in ws ==> !Touches(w, id) {
      Untouched(d, ws, id);
      StillActive(d, CutStep(d, op, k), id, x);
    } else {
      var w :| w in ws && Touches(w, id);
      assert w in Writes(d, op);
      TouchingIsIngest(d, op, w, id);
      ReplacementActive(d, op.delivery, k, x, id);
    }
  }

  /** The prefix that retired the note had put its replacement in place. */
  lemma ReplacementActive(d: Diary, dl: Delivery, k: nat, x: External, id: Id)
    requires Sound(d) && FreshIds(d, dl.env) && NewRevision(d, dl) && id in ActiveNotes(d, x)
    requires Replaced(d, dl).note.Some? && Replaced(d, dl).note.value.noteId == id
    requires exists w :: w in Take(Writes(d, Ingest(dl)), k) && Touches(w, id)
    ensures dl.env.noteId in ActiveNotes(CutStep(d, Ingest(dl), k), x)
  {
    ReplacedFirst(d, dl, k, id);
    ReplacedSameMessage(d, dl, x, id);
  }

  /** Only an edit of the note's own message, and only its flip, touches a stored note. */
  lemma TouchingIsIngest(d: Diary, op: Op, w: Write, id: Id)
    requires Fresh(d, op) && NotARemoval(op) && id in d.notes.rows && w in Writes(d, op) && Touches(w, id)
    ensures op.Ingest? && w == SetNoteState(id, Superseded) && NewRevision(d, op.delivery)
    ensures Replaced(d, op.delivery).note.Some? && Replaced(d, op.delivery).note.value.noteId == id
  {
    if op.Retry? {
      if op.communityId != "" {
        var groups := Groups(FailedChunks(d, op.communityId, op.limit));
        RetryMild(d, op.communityId, groups, op.env, |groups|);
      }
    } else {
      var dl := op.delivery;
      IngestShape(d, dl);
      assert IngestWrite(w, d, dl);
      FlipIsSupersede(d, dl, w);
    }
  }

  lemma FlipIsSupersede(d: Diary, dl: Delivery, w: Write)
    requires w in IngestPlan(d, dl).writes && w.SetNoteState? && dl.message.route != DraftRoute
    ensures w.noteState == Superseded && NewRevision(d, dl)
  {
    if !NewRevision(d, dl) {
      NothingFlipped(d, dl);
    }
    var parsed, prior := dl.parsed.value, Replaced(d, dl);
    var saves, retires := SaveWrites(dl, parsed, prior), RetireWrites(prior, Superseded);
    var embeds := if parsed.body == "" then [] else EmbedPlan(dl.env, dl.message.communityId).writes;
    StepPieces(d, dl, saves, retires, embeds);
    InPieces(w, SaveSource(NewSource(dl)), saves, retires, embeds);
    FlipIsRetire(dl, parsed, prior, w);
  }

  lemma InPieces<T>(w: T, x: T, a: seq<T>, b: seq<T>, c: seq<T>)
    requires w in [x] + (a + b + c)
    ensures w == x || w in a || w in b || w in c
  {
  }

  lemma FlipIsRetire(dl: Delivery, parsed: ParsedNote, prior: Prior, w: Write)
    requires w.SetNoteState?
    requires w in SaveWrites(dl, parsed, prior) || w in RetireWrites(prior, Superseded)
             || w in (if parsed.body == "" then [] else EmbedPlan(dl.env, dl.message.communityId).writes)
    ensures w.noteState == Superseded
  {
    PiecesNoFlip(dl, parsed, prior);
    RetireMembers(prior, Superseded);
  }

  lemma NothingFlipped(d: Diary, dl: Delivery)
    requires !NewRevision(d, dl) && dl.message.route != DraftRoute
    ensures forall w :: w in IngestPlan(d, dl).writes ==> !w.SetNoteState?
  {
  }

  /** The saves and the embedding step flip nothing and save one note between them. */
  lemma PiecesNoFlip(dl: Delivery, parsed: ParsedNote, prior: Prior)
    ensures forall w :: w in SaveWrites(dl, parsed, prior) ==> w.SaveChunk? || w == SaveNote(NewNote(dl, parsed, prior.note))
    ensures forall w :: w in EmbedPlan(dl.env, dl.message.communityId).writes ==>
              w.SetChunkStatus? || w.SaveRecord? || w.SaveDeadLetter?
  {
  }

  /** By the time the prior note is flipped the new one is saved, and nothing after touches it. */
  lemma ReplacedFirst(d: Diary, dl: Delivery, k: nat, id: Id)
    requires Sound(d) && FreshIds(d, dl.env) && NewRevision(d, dl) && id in d.notes.rows
    requires exists w :: w in Take(Writes(d, Ingest(dl)), k) && Touches(w, id)
    ensures var e := CutStep(d, Ingest(dl), k);
            && dl.env.noteId in e.notes.rows
            && e.notes.rows[dl.env.noteId] == NewNote(dl, dl.parsed.value, Replaced(d, dl).note)
            && dl.env.sourceId in e.sources.rows && e.sources.rows[dl.env.sourceId] == NewSource(dl)
  {
    var n := NewNote(dl, dl.parsed.value, Replaced(d, dl).note);
    var ws := Take(Writes(d, Ingest(dl)), k);
    var rest := FirstTwo(d, dl, k, id);
    var e := Apply(WithSource(d, dl), SaveNote(n));
    ApplyTwo(d, SaveSource(NewSource(dl)), SaveNote(n));
    ApplyConcat(d, [SaveSource(NewSource(dl)), SaveNote(n)], rest);
    Untouched(e, rest, dl.env.noteId);
    OwnWrites(d, dl);
    NewRowsFrom(e, rest, dl);
    SourceStays(e, rest, dl.env.sourceId);
  }

  lemma {:induction false} SourceStays(d: Diary, ws: seq<Write>, id: Id)
    requires id in d.sources.rows
    ensures id in ApplyAll(d, ws).sources.rows
    decreases |ws|
  {
    if ws != [] {
      SourceStays(Apply(d, ws[0]), ws[1..], id);
    }
  }

  lemma TakePastTwo(a: Write, b: Write, tail: seq<Write>, k: nat, id: Id) returns (rest: seq<Write>)
    requires !Touches(a, id) && !Touches(b, id)
    requires exists w :: w in Take([a, b] + tail, k) && Touches(w, id)
    ensures Take([a, b] + tail, k) == [a, b] + rest
    ensures forall w :: w in rest ==> w in tail
  {
    var all := [a, b] + tail;
    var w :| w in Take(all, k) && Touches(w, id);
    var i :| 0 <= i < |Take(all, k)| && all[i] == w;
    assert i != 0 && i != 1;
    rest := Take(tail, k - 2);
  }

  /** A cut that has reached the flip has passed the raw row and the new note, in that order. */
  lemma FirstTwo(d: Diary, dl: Delivery, k: nat, id: Id) returns (rest: seq<Write>)
    requires Sound(d) && FreshIds(d, dl.env) && NewRevision(d, dl) && id in d.notes.rows
    requires exists w :: w in Take(Writes(d, Ingest(dl)), k) && Touches(w, id)
    ensures var n := NewNote(dl, dl.parsed.value, Replaced(d, dl).note);
            Take(Writes(d, Ingest(dl)), k) == [SaveSource(NewSource(dl)), SaveNote(n)] + rest
    ensures forall w :: w in rest ==> !Touches(w, dl.env.noteId) && w in Writes(d, Ingest(dl))
  {
    var save, n := SaveSource(NewSource(dl)), SaveNote(NewNote(dl, dl.parsed.value, Replaced(d, dl).note));
    var tail := TailWrites(d, dl);
    NewNoteElse(d, dl, id);
    rest := TakePastTwo(save, n, tail, k, id);
    TailIn(save, n, tail);
  }

  lemma NewNoteElse(d: Diary, dl: Delivery, id: Id)
    requires FreshIds(d, dl.env) && dl.parsed.Some? && id in d.notes.rows
    ensures !Touches(SaveNote(NewNote(dl, dl.parsed.value, Replaced(d, dl).note)), id)
  {
  }

  lemma TailIn(a: Write, b: Write, tail: seq<Write>)
    ensures forall w :: w in tail ==> w in [a, b] + tail
  {
  }

  /** What follows the raw row and the new note, none of it touching that note. */
  lemma TailWrites(d: Diary, dl: Delivery) returns (tail: seq<Write>)
    requires Sound(d) && FreshIds(d, dl.env) && NewRevision(d, dl)
    ensures Writes(d, Ingest(dl)) == [SaveSource(NewSource(dl)), SaveNote(NewNote(dl, dl.parsed.value, Replaced(d, dl).note))] + tail
    ensures forall w :: w in tail ==> !Touches(w, dl.env.noteId)
  {
    var parsed, prior := dl.parsed.value, Replaced(d, dl);
    var saves, retires := SaveWrites(dl, parsed, prior), RetireWrites(prior, Superseded);
    var embeds := if parsed.body == "" then [] else EmbedPlan(dl.env, dl.message.communityId).writes;
    StepPieces(d, dl, saves, retires, embeds);
    tail := saves[1..] + retires + embeds;
    Regroup(SaveSource(NewSource(dl)), saves, retires, embeds);
    SourceGuarded(d, dl);
    PriorRetirable(WithSource(d, dl), dl.message.chatId, dl.message.messageId, dl.message.communityId);
    TailUntouched(dl, parsed, prior);
  }

  lemma TailUntouched(dl: Delivery, parsed: ParsedNote, prior: Prior)
    requires prior.note.Some? ==> prior.note.value.noteId != dl.env.noteId
    ensures forall w :: w in SaveWrites(dl, parsed, prior)[1..] ==> !Touches(w, dl.env.noteId)
    ensures forall w :: w in RetireWrites(prior, Superseded) ==> !Touches(w, dl.env.noteId)
    ensures forall w :: w in EmbedPlan(dl.env, dl.message.communityId).writes ==> !Touches(w, dl.env.noteId)
  {
    RetireMembers(prior, Superseded);
    PiecesNoFlip(dl, parsed, prior);
    assert forall w :: w in SaveWrites(dl, parsed, prior)[1..] ==> w.SaveChunk?;
  }

  lemma Regroup(w: Write, a: seq<Write>, b: seq<Write>, c: seq<Write>)
    requires a != []
    ensures [w] + (a + b + c) == [w, a[0]] + (a[1..] + b + c)
  {
  }

  lemma ReplacedSameMessage(d: Diary, dl: Delivery, x: External, id: Id)
    requires Sound(d) && FreshIds(d, dl.env) && id in ActiveNotes(d, x)
    requires Replaced(d, dl).note.Some? && Replaced(d, dl).note.value.noteId == id
    ensures MessageOf(dl) == x
  {
    ActiveNoteIs(WithSource(d, dl), dl.message.chatId, dl.message.messageId, dl.message.communityId);
    assert d.notes.rows[id].sourceId in d.sources.rows;
  }

  // ---- How many live revisions crashes can leave behind ----

  /** The interrupted ingests of one message. */
  function Interrupts(evs: seq<Event>, x: External): nat {
    if evs == [] then 0
    else
      var last := evs[|evs| - 1];
      Interrupts(evs[..|evs| - 1], x)
      + if last.cut.Some? && last.op.Ingest? && MessageOf(last.op.delivery) == x then 1 else 0
  }

  /** A completed capture leaves as many live revisions as there were, or the one it brought. */
  lemma CompletedReplaces(d: Diary, dl: Delivery, x: External)
    requires Sound(d) && FreshIds(d, dl.env) && Revises(d, Ingest(dl), x)
    ensures ActiveNotes(d, x) == {} || |ActiveNotes(Step(d, Ingest(dl)), x)| <= |ActiveNotes(d, x)|
  {
    var before, after := ActiveNotes(d, x), ActiveNotes(Step(d, Ingest(dl)), x);
    ActiveAfter(d, Event(Ingest(dl), None), x);
    if before != {} {
      NoteIngestEffect(d, dl);
      ReplacedIsLive(d, dl, x);
      var prior := Replaced(d, dl).note.value.noteId;
      assert prior !in after;
      SubsetCount(after, (before - {prior}) + {dl.env.noteId});
    }
  }

  /** What an edit replaces is one of its message's live revisions, and there is one whenever any is live. */
  lemma ReplacedIsLive(d: Diary, dl: Delivery, x: External)
    requires Sound(d) && FreshIds(d, dl.env) && MessageOf(dl) == x && dl.message.Key() !in d.idempotency
    ensures Replaced(d, dl).note.Some? <==> ActiveNotes(d, x) != {}
    ensures Replaced(d, dl).note.Some? ==> Replaced(d, dl).note.value.noteId in ActiveNotes(d, x)
  {
    var e := WithSource(d, dl);
    ActiveNoteIs(e, x.chatId, x.messageId, x.communityId);
    forall id | id in d.notes.rows
      ensures ActiveNoteOf(e, e.notes.rows[id], x.chatId, x.messageId, x.communityId) <==> id in ActiveNotes(d, x)
    {
      StillLive(d, dl, x, id);
    }
  }

  /** A delivery's own row makes no stored note live or retired. */
  lemma StillLive(d: Diary, dl: Delivery, x: External, id: Id)
    requires NotesLinked(d.notes.rows, d.sources.rows) && dl.env.sourceId !in d.sources.rows && id in d.notes.rows
    ensures var e := WithSource(d, dl);
            ActiveNoteOf(e, e.notes.rows[id], x.chatId, x.messageId, x.communityId) <==> id in ActiveNotes(d, x)
  {
    assert d.notes.rows[id].sourceId in d.sources.rows;
  }

  /** One event adds at most one live revision, and only by being cut short; otherwise it leaves at most one more than none. */
  lemma OneEvent(d: Diary, ev: Event, x: External)
    requires Sound(d) && Fresh(d, ev.op)
    ensures var before, after := |ActiveNotes(d, x)|, |ActiveNotes(After(d, ev), x)|;
            && after <= before + 1
            && (!(ev.cut.Some? && ev.op.Ingest? && MessageOf(ev.op.delivery) == x) ==> after <= before || after <= 1)
  {
    ActiveAfter(d, ev, x);
    var before, after := ActiveNotes(d, x), ActiveNotes(After(d, ev), x);
    if Revises(d, ev.op, x) {
      SubsetCount(after, before + {ev.op.delivery.env.noteId});
      if ev.cut == None {
        CompletedReplaces(d, ev.op.delivery, x);
        if before == {} {
          SubsetCount(after, {ev.op.delivery.env.noteId});
        }
      }
    } else {
      SubsetCount(after, before);
    }
  }

  /** Over any run a message has at most one live revision for each of its interrupted ingests, and one more. */
  lemma {:induction false} ActiveBound(evs: seq<Event>, x: External)
    requires FreshRun(evs)
    ensures |ActiveNotes(Run(evs), x)| <= 1 + Interrupts(evs, x)
  {
    if evs != [] {
      var before := evs[..|evs| - 1];
      ActiveBound(before, x);
      RunSound(before);
      OneEvent(Run(before), evs[|evs| - 1], x);
    }
  }
}
