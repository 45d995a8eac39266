/**
 * Whole runs of the dispatcher: messages on every route, other processes at work on the same diary, and
 * restarts, which lose the `/sources` cache.
 */
module Serving {
  import opened Answering
  import opened Calendar
  import opened Candidates
  import opened CrashSafety
  import opened Diary
  import opened Dispatcher
  import opened Erasure
  import opened Grounding
  import opened HardDelete
  import opened Legs
  import opened Lifecycle
  import opened Models
  import opened NoteParser
  import opened NoteRoundTrip
  import opened Plans
  import opened Removal
  import opened Sorting
  import opened Tables
  import opened Traces
  import opened Wrappers

  // ---- Runs ----

  datatype Happening =
    | Message(message: InboundMessage, env: DispatchEnv)
    | Elsewhere(action: Action)
    | Restart

  const START := World(EMPTY, NO_TRACES, map[])

  function Leaving(w: World, o: Outcome): World {
    World(ApplyAll(w.diary, o.writes), if o.traces.Some? then o.traces.value else w.traces, o.cache)
  }

  function ActedOn(w: World, a: Action): World {
    var traces := if a.Erase? && a.sourceId in w.diary.sources.rows then ErasedTraces(w.diary, w.traces, a.sourceId) else w.traces;
    World(Acted(w.diary, a), traces, w.cache)
  }

  function Next(u: Setup, w: World, h: Happening): World
  {
    match h
    case Message(m, env) => Leaving(w, Handled(u, w, m, env))
    case Elsewhere(a) => ActedOn(w, a)
    case Restart => w.(cache := map[])
  }

  function Served(u: Setup, hs: seq<Happening>): World
  {
    if hs == [] then START else Next(u, Served(u, hs[..|hs| - 1]), hs[|hs| - 1])
  }

  /** Whatever draws identifiers draws new ones. */
  ghost predicate FreshHappening(w: World, h: Happening) {
    match h
    case Message(m, env) => FreshFor(w, m, env)
    case Elsewhere(a) => a.Do? ==> Fresh(w.diary, a.event.op)
    case Restart => true
  }

  ghost predicate FreshServed(u: Setup, hs: seq<Happening>)
  {
    hs == [] ||
    (FreshServed(u, hs[..|hs| - 1]) && FreshHappening(Served(u, hs[..|hs| - 1]), hs[|hs| - 1]))
  }

  lemma {:induction false} FreshBefore(u: Setup, hs: seq<Happening>, n: nat)
    requires FreshServed(u, hs) && n <= |hs|
    ensures FreshServed(u, hs[..n])
  {
    if n == |hs| {
      assert hs[..n] == hs;
    } else {
      var before := hs[..|hs| - 1];
      FreshBefore(u, before, n);
      assert before[..n] == hs[..n];
    }
  }

  // ---- The diary over a run ----

  /** What a message does to the diary, as one operation of the domain service; None when it does nothing. */
  function OpOf(u: Setup, m: InboundMessage, env: DispatchEnv): Option<Op> {
    if m.route == NoteRoute || m.route == DraftRoute then Some(Ingest(DeliveryFor(u.isoFallback, m, env.ingest)))
    else if m.route == DeleteRoute && m.replyTo.Some? then Some(Delete(m.chatId, m.replyTo.value, m.communityId))
    else None
  }

  lemma CapturesAreIngests(u: Setup, w: World, m: InboundMessage, env: DispatchEnv)
    requires m.route == NoteRoute || m.route == DraftRoute
    ensures Handled(u, w, m, env).writes == IngestPlan(w.diary, DeliveryFor(u.isoFallback, m, env.ingest)).writes
  {
    if m.route == NoteRoute {
      assert Handled(u, w, m, env) == NoteHandled(u.isoFallback, w, m, env.ingest);
    } else {
      assert Handled(u, w, m, env) == DraftHandled(u.isoFallback, w, m, env.ingest);
    }
  }

  lemma RemovalsAreDeletes(u: Setup, w: World, m: InboundMessage, env: DispatchEnv)
    requires m.route == DeleteRoute
    ensures Handled(u, w, m, env).writes
         == if m.replyTo == None then [] else DeletePlan(w.diary, m.chatId, m.replyTo.value, m.communityId).writes
  {
    assert Handled(u, w, m, env) == DeleteHandled(w, m);
  }

  lemma OthersWriteNothing(u: Setup, w: World, m: InboundMessage, env: DispatchEnv)
    requires m.route != NoteRoute && m.route != DraftRoute && m.route != DeleteRoute
    ensures Handled(u, w, m, env).writes == []
  {
  }

  /** The writes of a message are those of its operation. */
  lemma WritesAreOps(u: Setup, w: World, m: InboundMessage, env: DispatchEnv)
    ensures var op := OpOf(u, m, env);
            Handled(u, w, m, env).writes == if op.Some? then Writes(w.diary, op.value) else []
  {
    if m.route == NoteRoute || m.route == DraftRoute {
      CapturesAreIngests(u, w, m, env);
    } else if m.route == DeleteRoute {
      RemovalsAreDeletes(u, w, m, env);
    } else {
      OthersWriteNothing(u, w, m, env);
    }
  }

  lemma MessageSound(d: Diary, op: Op)
    requires Sound(d) && Fresh(d, op)
    ensures Sound(ApplyAll(d, Writes(d, op)))
  {
    AfterSound(d, Event(op, None));
  }

  lemma ActedSound(d: Diary, a: Action)
    requires Sound(d) && (a.Do? ==> Fresh(d, a.event.op))
    ensures Sound(Acted(d, a))
  {
    match a
    case Do(ev) => AfterSound(d, ev);
    case Erase(sourceId) =>
      if sourceId in d.sources.rows {
        ErasedSound(d, sourceId);
      }
  }

  lemma NextSound(u: Setup, w: World, h: Happening)
    requires Sound(w.diary) && FreshHappening(w, h)
    ensures Sound(Next(u, w, h).diary)
  {
    match h
    case Message(m, env) =>
      WritesAreOps(u, w, m, env);
      var op := OpOf(u, m, env);
      if op.Some? {
        MessageSound(w.diary, op.value);
      }
    case Elsewhere(a) => ActedSound(w.diary, a);
    case Restart =>
  }

  lemma StartSound()
    ensures Sound(START.diary)
  {
  }

  /** The dispatcher keeps the diary's invariant over every run, whatever else works on the store. */
  lemma {:induction false} ServedSound(u: Setup, hs: seq<Happening>)
    requires FreshServed(u, hs)
    ensures Sound(Served(u, hs).diary)
  {
    if hs == [] {
      StartSound();
    } else {
      ServedSound(u, hs[..|hs| - 1]);
      NextSound(u, Served(u, hs[..|hs| - 1]), hs[|hs| - 1]);
    }
  }

  // ---- The cache over a run ----

  datatype CacheChange = Kept | Filled(communityId: Id, chunks: seq<EventChunk>) | Lost

  function Changed(cache: SourcesCache, c: CacheChange): SourcesCache {
    match c
    case Kept => cache
    case Filled(communityId, chunks) => cache[communityId := chunks]
    case Lost => map[]
  }

  function CacheFrom(cs: seq<CacheChange>): SourcesCache {
    if cs == [] then map[] else Changed(CacheFrom(cs[..|cs| - 1]), cs[|cs| - 1])
  }

  /** The answer a message got, if it was an `/ask` that was answered. */
  function AnswerTo(u: Setup, w: World, m: InboundMessage, env: DispatchEnv): Option<AnswerResult>
  {
    if m.route != AskRoute then None
    else
      var reply := AskHandled(u, w, m, env.ask).reply;
      if reply.Ok? && reply.value.AskAnswered? then Some(reply.value.answer) else None
  }

  function ChangeBy(u: Setup, w: World, h: Happening): CacheChange
  {
    match h
    case Message(m, env) =>
      var a := AnswerTo(u, w, m, env);
      if a.Some? then Filled(m.communityId, CitedChunks(a.value)) else Kept
    case Elsewhere(_) => Kept
    case Restart => Lost
  }

  /** A message other than an `/ask` leaves the cache alone, whatever its route does. */
  lemma OtherRoutesKeepCache(u: Setup, w: World, m: InboundMessage, env: DispatchEnv)
    requires m.route != AskRoute
    ensures Handled(u, w, m, env).cache == w.cache
    ensures var reply := Handled(u, w, m, env).reply; !(reply.Ok? && reply.value.AskAnswered?)
  {
    if m.route == NoteRoute {
      assert Handled(u, w, m, env) == NoteHandled(u.isoFallback, w, m, env.ingest);
    } else if m.route == DraftRoute {
      assert Handled(u, w, m, env) == DraftHandled(u.isoFallback, w, m, env.ingest);
    } else if m.route == ChatRoute {
      assert Handled(u, w, m, env) == ChatHandled(u, w, m, env.chat);
    } else if m.route == DeleteRoute {
      assert Handled(u, w, m, env) == DeleteHandled(w, m);
    } else {
      ReadsKeepCache(u, w, m);
    }
  }

  lemma ReadsKeepCache(u: Setup, w: World, m: InboundMessage)
    ensures var reply := ReadReply(u.settings, u.parseInt, w, m); !(reply.Ok? && reply.value.AskAnswered?)
  {
  }

  lemma AskFillsCache(u: Setup, w: World, m: InboundMessage, env: DispatchEnv)
    requires m.route == AskRoute
    ensures var a := AnswerTo(u, w, m, env);
            Handled(u, w, m, env).cache == if a.Some? then w.cache[m.communityId := CitedChunks(a.value)] else w.cache
  {
  }

  lemma NextCache(u: Setup, w: World, h: Happening)
    ensures Next(u, w, h).cache == Changed(w.cache, ChangeBy(u, w, h))
  {
    if h.Message? {
      if h.message.route == AskRoute {
        AskFillsCache(u, w, h.message, h.env);
      } else {
        OtherRoutesKeepCache(u, w, h.message, h.env);
      }
    }
  }

  function ChangeAt(u: Setup, hs: seq<Happening>, i: nat): CacheChange
    requires i < |hs|
  {
    ChangeBy(u, Served(u, hs[..i]), hs[i])
  }

  function Changes(u: Setup, hs: seq<Happening>): seq<CacheChange>
  {
    seq(|hs|, i requires 0 <= i < |hs| => ChangeAt(u, hs, i))
  }

  lemma ChangesSnoc(u: Setup, hs: seq<Happening>)
    requires hs != []
    ensures Changes(u, hs) == Changes(u, hs[..|hs| - 1]) + [ChangeBy(u, Served(u, hs[..|hs| - 1]), hs[|hs| - 1])]
  {
    var before := hs[..|hs| - 1];
    forall i | 0 <= i < |before| ensures Changes(u, hs)[i] == Changes(u, before)[i] {
      assert before[..i] == hs[..i];
    }
  }

  lemma {:induction false} CacheIs(u: Setup, hs: seq<Happening>)
    ensures Served(u, hs).cache == CacheFrom(Changes(u, hs))
  {
    if hs != [] {
      var before := hs[..|hs| - 1];
      CacheIs(u, before);
      NextCache(u, Served(u, before), hs[|hs| - 1]);
      ChangesSnoc(u, hs);
      assert Changes(u, hs)[..|hs| - 1] == Changes(u, before);
    }
  }

  /** The change is the community's last so far: it filled the entry, and nothing filled or lost it since. */
  predicate LastFill(cs: seq<CacheChange>, communityId: Id, i: nat) {
    && i < |cs| && cs[i].Filled? && cs[i].communityId == communityId
    && forall j :: i < j < |cs| ==> !cs[j].Lost? && !(cs[j].Filled? && cs[j].communityId == communityId)
  }

  lemma {:induction false} EntryOfLastFill(cs: seq<CacheChange>, communityId: Id, i: nat)
    requires LastFill(cs, communityId, i)
    ensures communityId in CacheFrom(cs) && CacheFrom(cs)[communityId] == cs[i].chunks
  {
    if i < |cs| - 1 {
      EntryOfLastFill(cs[..|cs| - 1], communityId, i);
    }
  }

  lemma {:induction false} EntryWasFilled(cs: seq<CacheChange>, communityId: Id) returns (i: nat)
    requires communityId in CacheFrom(cs)
    ensures LastFill(cs, communityId, i)
  {
    var n := |cs| - 1;
    if cs[n].Filled? && cs[n].communityId == communityId {
      i := n;
    } else {
      i := EntryWasFilled(cs[..n], communityId);
    }
  }

  // ---- What /sources shows ----

  /** The i-th happening is the community's last answered `/ask` since the last restart. */
  ghost predicate LastAsk(u: Setup, hs: seq<Happening>, communityId: Id, i: nat)
  {
    && i < |hs| && AnswersFor(u, hs, communityId, i)
    && forall j: nat :: i < j < |hs| ==> !hs[j].Restart? && !AnswersFor(u, hs, communityId, j)
  }

  function AnswerAt(u: Setup, hs: seq<Happening>, i: nat): Option<AnswerResult>
    requires i < |hs|
  {
    if hs[i].Message? then AnswerTo(u, Served(u, hs[..i]), hs[i].message, hs[i].env) else None
  }

  predicate AnswersFor(u: Setup, hs: seq<Happening>, communityId: Id, i: nat)
    requires i < |hs|
  {
    AnswerAt(u, hs, i).Some? && hs[i].message.communityId == communityId
  }

  lemma ChangeAtIs(u: Setup, hs: seq<Happening>, i: nat)
    requires i < |hs|
    ensures var c := Changes(u, hs)[i];
            && (c.Lost? <==> hs[i].Restart?)
            && (c.Filled? <==> AnswerAt(u, hs, i).Some?)
            && (c.Filled? ==> c == Filled(hs[i].message.communityId, CitedChunks(AnswerAt(u, hs, i).value)))
  {
  }

  lemma LastAskIsLastFill(u: Setup, hs: seq<Happening>, communityId: Id, i: nat)
    ensures LastAsk(u, hs, communityId, i) <==> LastFill(Changes(u, hs), communityId, i)
  {
    forall j: nat | j < |hs|
      ensures AnswersFor(u, hs, communityId, j) <==> Changes(u, hs)[j].Filled? && Changes(u, hs)[j].communityId == communityId
      ensures Changes(u, hs)[j].Lost? <==> hs[j].Restart?
    {
      ChangeAtIs(u, hs, j);
    }
  }

  /** The reply to a `/sources` is read off the cache. */
  lemma SourcesReplyIs(u: Setup, w: World, m: InboundMessage, env: DispatchEnv)
    requires m.route == SourcesRoute
    ensures Handled(u, w, m, env).reply == Ok(Sources(SourcesFor(w.cache, m.communityId)))
  {
  }

  lemma AnswerIsGrounded(
    u: Setup, c: AskConfig, decode: Decoder, view: Diary -> SearchView, w: World, m: InboundMessage, env: DispatchEnv)
    requires c.topK > 0 && u.ask == AskingWith(c, decode, view) && view(w.diary).diary == w.diary
    requires Consistent(w.diary) && AnswerTo(u, w, m, env).Some?
    ensures GroundedAnswer(AnswerTo(u, w, m, env).value, w.diary, Scope(m.communityId, None, None))
  {
    AskGrounded(view(w.diary), c, decode, m, None, None, env.ask);
  }

  /**
   * After any traffic on any routes, erasures and other processes' work included, a `/sources` message
   * is answered with exactly the chunks cited by its community's last answered `/ask`, in fused order,
   * each of them that community's own and as the diary held it when it was asked; or, when that answer
   * cited nothing, is told so.
   */
  lemma SourcesShowLastAsk(
    u: Setup, c: AskConfig, decode: Decoder, view: Diary -> SearchView, hs: seq<Happening>, i: nat, m: InboundMessage, env: DispatchEnv)
    requires c.topK > 0 && u.ask == AskingWith(c, decode, view) && forall d :: view(d).diary == d
    requires FreshServed(u, hs) && m.route == SourcesRoute && LastAsk(u, hs, m.communityId, i)
    ensures var reply, a := Handled(u, Served(u, hs), m, env).reply, AnswerAt(u, hs, i).value;
            && reply == Ok(Sources(if a.citedChunkIds == [] then NothingCited else Cited(CitedChunks(a))))
            && (forall id :: id in a.citedChunkIds <==> Shown(CitedChunks(a), id))
            && ContextFrom(CitedChunks(a), Served(u, hs[..i]).diary, Scope(m.communityId, None, None))
            && (a.context.Some? ==> CitedChunks(a) == Filter(a.context.value.orderedChunks, CitedTest(CitedSet(a))))
  {
    var a, w := AnswerAt(u, hs, i).value, Served(u, hs[..i]);
    SourcesReplyIs(u, Served(u, hs), m, env);
    CacheIs(u, hs);
    LastAskIsLastFill(u, hs, m.communityId, i);
    EntryOfLastFill(Changes(u, hs), m.communityId, i);
    ChangeAtIs(u, hs, i);
    FreshBefore(u, hs, i);
    ServedSound(u, hs[..i]);
    AnswerIsGrounded(u, c, decode, view, w, hs[i].message, hs[i].env);
    ShownAreCited(a, w.diary, Scope(m.communityId, None, None));
    CitedNothing(a);
  }

  lemma CitedNothing(a: AnswerResult)
    requires forall id :: id in a.citedChunkIds <==> Shown(CitedChunks(a), id)
    ensures CitedChunks(a) == [] <==> a.citedChunkIds == []
  {
    if a.citedChunkIds != [] {
      assert a.citedChunkIds[0] in a.citedChunkIds;
      assert Shown(CitedChunks(a), a.citedChunkIds[0]);
    }
    if CitedChunks(a) != [] {
      assert CitedChunks(a)[0] in CitedChunks(a);
      assert Shown(CitedChunks(a), CitedChunks(a)[0].chunkId);
    }
  }

  /** And it is told there was no `/ask` exactly when its community has had none answered since the last restart. */
  lemma NoPriorAskWhen(u: Setup, hs: seq<Happening>, m: InboundMessage, env: DispatchEnv)
    requires m.route == SourcesRoute
    ensures Handled(u, Served(u, hs), m, env).reply == Ok(Sources(NoPriorAsk)) <==> forall i: nat :: !LastAsk(u, hs, m.communityId, i)
  {
    SourcesReplyIs(u, Served(u, hs), m, env);
    CacheIs(u, hs);
    var cs := Changes(u, hs);
    if m.communityId in CacheFrom(cs) {
      var i := EntryWasFilled(cs, m.communityId);
      LastAskIsLastFill(u, hs, m.communityId, i);
    } else if i: nat :| LastAsk(u, hs, m.communityId, i) {
      LastAskIsLastFill(u, hs, m.communityId, i);
      EntryOfLastFill(cs, m.communityId, i);
    }
  }

  // ---- What /note answers ----

  /**
   * A fresh `/note` is turned down exactly when it is blank; otherwise its date is the one its first line
   * spells, or the day it was received when that line spells none, and it fails only over the provider's
   * vectors.
   */
  lemma FreshNoteReply(isoFallback: IsoFallback, w: World, m: InboundMessage, env: IngestEnv)
    requires m.route == NoteRoute && m.Key() !in w.diary.idempotency && m.communityId != ""
    ensures var reply, lines := NoteHandled(isoFallback, w, m, env).reply, NonEmptyLines(m.payload);
            && (lines == [] <==> reply.Ok? && reply.value.InvalidDate?)
            && (reply.Ok? && lines != [] ==>
                  reply.value.NoteSaved? && reply.value.saved.noteDate.Some? && DayOf(lines[0], m.receivedOn, reply.value.saved.noteDate.value))
            && (reply.Raised? ==> reply == Raised(StoreFault(ValueError)) && EmbedPlan(env, m.communityId).result.Raised?)
  {
    var dl := DeliveryFor(isoFallback, m, env);
    NormalizedParses(m.payload, m.receivedOn, isoFallback);
    FreshReply(Apply(w.diary, SaveSource(NewSource(dl))), dl);
    assert IngestPlan(w.diary, dl).result == CapturePlan(Apply(w.diary, SaveSource(NewSource(dl))), dl).result;
  }

  /** The day a note is filed under. */
  ghost predicate DayOf(line: string, received: Date, day: Date) {
    SixForms(line, day) || ((forall d :: !SixForms(line, d)) && day == received)
  }

  lemma FreshReply(d: Diary, dl: Delivery)
    requires dl.message.route == NoteRoute && dl.message.communityId != ""
    ensures var reply := NoteReply(CapturePlan(d, dl).result);
            && (dl.parsed == None <==> reply.Ok? && reply.value.InvalidDate?)
            && (reply.Ok? && dl.parsed.Some? ==>
                  reply.value.NoteSaved? && reply.value.saved.noteDate == Some(dl.parsed.value.noteDate))
            && (reply.Raised? ==> reply == Raised(StoreFault(ValueError)) && EmbedPlan(dl.env, dl.message.communityId).result.Raised?)
  {
  }

  /** The reply cannot be worded in one case: the delivery replays a message first stored as a draft. */
  lemma NoteReplyFailsWhen(isoFallback: IsoFallback, w: World, m: InboundMessage, env: IngestEnv)
    requires m.route == NoteRoute && Consistent(w.diary)
    ensures NoteHandled(isoFallback, w, m, env).reply == Raised(NoDateToPrint)
        <==> m.Key() in w.diary.idempotency && w.diary.sources.rows[w.diary.idempotency[m.Key()]].route == DraftRoute
  {
    var dl := DeliveryFor(isoFallback, m, env);
    if m.Key() in w.diary.idempotency {
      ReplayedReply(w.diary, w.diary.sources.rows[w.diary.idempotency[m.Key()]]);
    } else {
      DatedReply(Apply(w.diary, SaveSource(NewSource(dl))), dl);
    }
  }

  lemma ReplayedReply(d: Diary, source: SourceMessage)
    ensures NoteReply(Ok(Reconstruct(d, source))) == Raised(NoDateToPrint) <==> source.route == DraftRoute
  {
  }

  lemma DatedReply(d: Diary, dl: Delivery)
    requires dl.message.route == NoteRoute
    ensures NoteReply(CapturePlan(d, dl).result) != Raised(NoDateToPrint)
  {
  }

  // ---- What /delete answers ----

  /**
   * A `/delete` that names a message reports a removal exactly when that message has a live note in the
   * community, and then the newest one is gone with its chunk.
   */
  lemma DeleteReply(u: Setup, w: World, m: InboundMessage, env: DispatchEnv)
    requires Sound(w.diary) && m.route == DeleteRoute && m.replyTo.Some? && m.communityId != ""
    ensures var x, o := External(m.chatId, m.replyTo.value, m.communityId), Handled(u, w, m, env);
            && o.reply == Ok(Removal(ActiveNotes(w.diary, x) != {}))
            && o.cache == w.cache && o.traces == Some(w.traces)
            && (ActiveNotes(w.diary, x) == {} ==> ApplyAll(w.diary, o.writes) == w.diary)
            && (ActiveNotes(w.diary, x) != {} ==>
                  exists id :: NewestLive(w.diary, x, id) && Retired(w.diary, ApplyAll(w.diary, o.writes), id, Tombstoned))
  {
    var x := External(m.chatId, m.replyTo.value, m.communityId);
    RemovalsAreDeletes(u, w, m, env);
    DeletedWhen(w.diary, x);
    if ActiveNotes(w.diary, x) == {} {
      DeleteFindsNothing(w.diary, x);
    } else {
      var id := DeleteRemoves(w.diary, x);
    }
    assert Handled(u, w, m, env) == DeleteHandled(w, m);
  }
}
