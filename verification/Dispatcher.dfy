/**
 * The dispatcher (`services/dispatcher.py`): one reply for each message by its route, the `/sources`
 * cache that `/ask` fills, and the clamping of `/drafts`.
 */
module Dispatcher {
  import opened Answering
  import opened ChatPlans
  import opened Diary
  import opened DomainService
  import opened MockDomainStore
  import opened Models
  import opened NoteParser
  import opened Ordering
  import opened Plans
  import opened RoutedChat
  import opened Sorting
  import opened Tables
  import opened Text
  import opened Traces
  import opened Wrappers

  // ---- /ask and /sources ----

  /** The answer when the search seam is not implemented. */
  function UnsearchedAsk(m: InboundMessage): AnswerResult {
    AnswerResult(NoEvidence, Strip(m.payload), [], None, None, [], None, None, [])
  }

  function CitedTest(cited: set<Id>): EventChunk -> bool {
    (c: EventChunk) => c.chunkId in cited
  }

  function CitedSet(answer: AnswerResult): set<Id> {
    set id | id in answer.citedChunkIds
  }

  /** The cited chunks of an answer, in the order the context holds them. */
  function CitedChunks(answer: AnswerResult): seq<EventChunk> {
    if answer.context.Some? && CitedSet(answer) != {} then
      Filter(answer.context.value.orderedChunks, CitedTest(CitedSet(answer)))
    else []
  }

  type SourcesCache = map<Id, seq<EventChunk>>

  datatype SourcesReply = NoPriorAsk | NothingCited | Cited(chunks: seq<EventChunk>)

  function SourcesFor(cache: SourcesCache, communityId: Id): SourcesReply {
    if communityId !in cache then NoPriorAsk
    else if cache[communityId] == [] then NothingCited
    else Cited(cache[communityId])
  }

  // ---- /drafts ----

  datatype DraftsSettings = DraftsSettings(defaultLimit: int, maxLimit: int)

  datatype DraftsHeader = MostRecent(n: nat) | ShowingAll(n: nat, asked: int) | ShowingMostRecent(n: nat, asked: int)

  datatype DraftsReply =
    | DraftsUsage
    | NoDrafts(requested: int)
    | DraftsList(header: DraftsHeader, requested: int, drafts: seq<SourceMessage>)

  /** `_format_drafts_header` */
  function HeaderFor(returned: nat, requested: int, explicitly: bool, maxLimit: int): DraftsHeader {
    if !explicitly || returned == requested then MostRecent(returned)
    else if returned < requested then
      if returned < maxLimit then ShowingAll(returned, requested) else ShowingMostRecent(returned, requested)
    else MostRecent(returned)
  }

  /** How many drafts are asked for: the default, or a positive number; None on anything else. */
  function RequestedDrafts(payload: string, settings: DraftsSettings, parseInt: string -> Option<int>): Option<int> {
    var arg := Strip(payload);
    if arg == "" then Some(settings.defaultLimit)
    else if parseInt(arg) == None || parseInt(arg).value < 1 then None
    else parseInt(arg)
  }

  /** `_dispatch_drafts` */
  function DraftsFor(
    d: Diary, communityId: Id, payload: string, settings: DraftsSettings, parseInt: string -> Option<int>)
    : Result<DraftsReply, StoreError>
  {
    match RequestedDrafts(payload, settings, parseInt)
    case None => Ok(DraftsUsage)
    case Some(requested) =>
      var limit := Min(requested, settings.maxLimit);
      if communityId == "" || limit < 1 then Raised(ValueError)
      else
        var drafts := RecentDrafts(d, communityId, limit);
        if drafts == [] then Ok(NoDrafts(requested))
        else Ok(DraftsList(HeaderFor(|drafts|, requested, Strip(payload) != "", settings.maxLimit), requested, drafts))
  }

  // ---- Every route ----

  datatype ExportFormat = Json | Txt

  /** No other character lower-cases to a letter of the two formats. */
  function LowerAscii(c: char): char {
    if 'A' <= c <= 'Z' then c - 'A' + 'a' else c
  }

  /** The argument of `/export`, in any case. */
  function FormatOf(payload: string): Option<ExportFormat> {
    var stripped := Strip(payload);
    var arg := seq(|stripped|, i requires 0 <= i < |stripped| => LowerAscii(stripped[i]));
    if arg == "json" then Some(Json) else if arg == "txt" then Some(Txt) else None
  }

  /** What a handler answers, before it is worded. */
  datatype Reply =
    | Welcome
    | Commands
    | NotUnderstood
    | Clarification
    | InvalidDate(got: string)
    | NoteSaved(saved: IngestResult)
    | DraftStored(replayed: bool)
    | AskAnswered(answer: AnswerResult)
    | ChatUnavailable
    | ChatAnswered(chatted: RoutedChatResult)
    | Sources(sources: SourcesReply)
    | Drafts(drafts: DraftsReply)
    | ExportUsage
    | Exported(format: ExportFormat, messages: seq<SourceMessage>)
    | NoDeleteTarget
    | Removal(deleted: bool)

  /** What a handler lets through: a store error, an answering error, or its own failed assertion. */
  datatype Fault = StoreFault(error: StoreError) | AnswerFault(failure: AskError) | NoDateToPrint

  /** `_format_ingest_reply` */
  function NoteReply(r: Result<IngestResult, StoreError>): Result<Reply, Fault> {
    match r
    case Raised(e) => Raised(StoreFault(e))
    case Ok(result) =>
      if result.fallback == InvalidInput then
        Ok(InvalidDate(if result.invalidFirstLine.Some? then result.invalidFirstLine.value else ""))
      else if result.noteDate == None then Raised(NoDateToPrint)
      else Ok(NoteSaved(result))
  }

  function DraftReply(r: Result<IngestResult, StoreError>): Result<Reply, Fault> {
    if r.Ok? then Ok(DraftStored(r.value.replayed)) else Raised(StoreFault(r.error))
  }

  function RemovalReply(r: Result<DeleteOutcome, StoreError>): Result<Reply, Fault> {
    if r.Ok? then Ok(Removal(r.value.deleted)) else Raised(StoreFault(r.error))
  }

  function DraftsReplyOf(r: Result<DraftsReply, StoreError>): Result<Reply, Fault> {
    if r.Ok? then Ok(Drafts(r.value)) else Raised(StoreFault(r.error))
  }

  function ExportReply(d: Diary, m: InboundMessage): Result<Reply, Fault> {
    match FormatOf(m.payload)
    case None => Ok(ExportUsage)
    case Some(format) =>
      if m.communityId == "" then Raised(StoreFault(ValueError)) else Ok(Exported(format, CommunitySources(d, m.communityId)))
  }

  type Asking = (Diary, InboundMessage, AskEnv) -> Result<Answered, AskError>

  type Chatting = (Diary, InboundMessage, ChatEnv) -> Result<Chatted, AskError>

  /** The services a dispatcher calls, `chat` only where it is enabled, and its settings. */
  datatype Setup = Setup(
    ask: Asking, chat: Option<Chatting>, settings: DraftsSettings, isoFallback: IsoFallback, parseInt: string -> Option<int>)

  ghost function AskingWith(c: AskConfig, decode: Decoder, view: Diary -> SearchView): Asking
    requires c.topK > 0
  {
    (d: Diary, m: InboundMessage, env: AskEnv) => AskPlan(view(d), c, decode, m, None, None, env)
  }

  ghost function ChattingWith(c: ChatConfig, decode: Decoder, view: Diary -> SearchView): Chatting
    requires c.ask.topK > 0
  {
    (d: Diary, m: InboundMessage, env: ChatEnv) => ChatPlan(view(d), c, decode, m, None, env)
  }

  function ViewWith(distance: (Vector, Vector) -> real, tokenize: string -> set<string>): Diary -> SearchView {
    (d: Diary) => SearchView(d, distance, tokenize)
  }

  /** The clock, fresh identifiers and providers' answers each service draws on. */
  datatype DispatchEnv = DispatchEnv(ingest: IngestEnv, ask: AskEnv, chat: ChatEnv)

  /** A note or draft as the domain service receives it. */
  function DeliveryFor(isoFallback: IsoFallback, m: InboundMessage, env: IngestEnv): Delivery {
    var payload := if m.route == NoteRoute then NormalizedPayload(m.payload, m.receivedOn, isoFallback) else m.payload;
    Delivery(m.(payload := payload), ParseNote(payload, isoFallback), env)
  }

  /** Everything a message can meet or change. */
  datatype World = World(diary: Diary, traces: Traces, cache: SourcesCache)

  /** What one message comes to: its reply, its writes to the diary in order, the cache and the traces after it. */
  datatype Outcome = Outcome(reply: Result<Reply, Fault>, writes: seq<Write>, cache: SourcesCache, traces: Option<Traces>)

  function Quiet(w: World, reply: Result<Reply, Fault>): Outcome {
    Outcome(reply, [], w.cache, Some(w.traces))
  }

  function NoteHandled(isoFallback: IsoFallback, w: World, m: InboundMessage, env: IngestEnv): Outcome {
    var plan := IngestPlan(w.diary, DeliveryFor(isoFallback, m, env));
    Quiet(w, NoteReply(plan.result)).(writes := plan.writes)
  }

  function DraftHandled(isoFallback: IsoFallback, w: World, m: InboundMessage, env: IngestEnv): Outcome {
    var plan := IngestPlan(w.diary, DeliveryFor(isoFallback, m, env));
    Quiet(w, DraftReply(plan.result)).(writes := plan.writes)
  }

  function DeleteHandled(w: World, m: InboundMessage): Outcome {
    if m.replyTo == None then Quiet(w, Ok(NoDeleteTarget))
    else
      var plan := DeletePlan(w.diary, m.chatId, m.replyTo.value, m.communityId);
      Quiet(w, RemovalReply(plan.result)).(writes := plan.writes)
  }

  /** The routes that only read. */
  function ReadReply(settings: DraftsSettings, parseInt: string -> Option<int>, w: World, m: InboundMessage): Result<Reply, Fault> {
    match m.route
    case StartRoute => Ok(Welcome)
    case HelpRoute => Ok(Commands)
    case SourcesRoute => Ok(Sources(SourcesFor(w.cache, m.communityId)))
    case DraftsRoute => DraftsReplyOf(DraftsFor(w.diary, m.communityId, m.payload, settings, parseInt))
    case ExportRoute => ExportReply(w.diary, m)
    case ClarifyRoute => Ok(Clarification)
    case _ => Ok(NotUnderstood)
  }

  /** Every answer overwrites the community's entry, one without a search too; an exception leaves it. */
  function AskHandled(u: Setup, w: World, m: InboundMessage, env: AskEnv): Outcome
  {
    var plan := u.ask(w.diary, m, env);
    var told := if plan.Ok? then Ok(plan.value.result)
                else if plan.error == SearchNotImplemented then Ok(UnsearchedAsk(m)) else Raised(plan.error);
    Outcome(if told.Ok? then Ok(AskAnswered(told.value)) else Raised(AnswerFault(told.error)),
            [],
            if told.Ok? then w.cache[m.communityId := CitedChunks(told.value)] else w.cache,
            if plan.Ok? then Persisted(w.traces, plan.value.rows) else Some(w.traces))
  }

  function ChatHandled(u: Setup, w: World, m: InboundMessage, env: ChatEnv): Outcome
  {
    if u.chat == None then Quiet(w, Ok(ChatUnavailable))
    else
      var plan := u.chat.value(w.diary, m, env);
      if plan.Ok? then Quiet(w, Ok(ChatAnswered(plan.value.result))).(traces := PersistedChat(w.traces, plan.value.rows))
      else Quiet(w, Raised(AnswerFault(plan.error)))
  }

  /** `dispatch` */
  function Handled(u: Setup, w: World, m: InboundMessage, env: DispatchEnv): Outcome
  {
    if m.route == NoteRoute then NoteHandled(u.isoFallback, w, m, env.ingest)
    else if m.route == DraftRoute then DraftHandled(u.isoFallback, w, m, env.ingest)
    else if m.route == AskRoute then AskHandled(u, w, m, env.ask)
    else if m.route == ChatRoute then ChatHandled(u, w, m, env.chat)
    else if m.route == DeleteRoute then DeleteHandled(w, m)
    else Quiet(w, ReadReply(u.settings, u.parseInt, w, m))
  }

  /** A message that draws identifiers draws new ones. */
  ghost predicate FreshFor(w: World, m: InboundMessage, env: DispatchEnv) {
    && (m.route == NoteRoute || m.route == DraftRoute ==> FreshIds(w.diary, env.ingest))
    && (m.route == AskRoute ==> FreshAsk(w.traces, env.ask))
    && (m.route == ChatRoute ==> FreshChat(w.traces, env.chat))
  }

  class Service {
    const store: Store
    const domain: DomainService.Service
    const query: QueryService.Service
    const chat: RoutedChat.Chat?
    const settings: DraftsSettings
    const parseInt: string -> Option<int>
    var latestSources: SourcesCache

    constructor (
      store: Store, domain: DomainService.Service, query: QueryService.Service, chat: RoutedChat.Chat?,
      settings: DraftsSettings, parseInt: string -> Option<int>)
      ensures this.store == store && this.domain == domain && this.query == query && this.chat == chat
      ensures this.settings == settings && this.parseInt == parseInt && latestSources == map[]
    {
      this.store, this.domain, this.query, this.chat := store, domain, query, chat;
      this.settings, this.parseInt := settings, parseInt;
      latestSources := map[];
    }

    ghost predicate Wired() {
      && domain.store == store && query.store == store && query.config.topK > 0
      && (chat != null ==> chat.store == store && chat.Wired())
    }

    ghost function SetupOf(): Setup
      requires Wired()
    {
      var view := ViewWith(store.distance, store.tokenize);
      Setup(AskingWith(query.config, query.decode, view),
            if chat == null then None else Some(ChattingWith(chat.config, chat.decode, view)),
            settings, domain.isoFallback, parseInt)
    }

    function Here(): World
      reads this, store
    {
      World(store.State(), store.Trace(), latestSources)
    }

    /** What the message's handling says is what happened. */
    twostate predicate Did(o: Outcome)
      reads this, store
    {
      && store.State() == ApplyAll(old(store.State()), o.writes) && store.journal == old(store.journal) + o.writes
      && latestSources == o.cache && Some(store.Trace()) == o.traces
    }

    /** `dispatch`: one reply, the route's writes in order, and the cache touched by an answered `/ask` only. */
    method Dispatch(m: InboundMessage, env: DispatchEnv) returns (r: Result<Reply, Fault>)
      requires Wired() && Consistent(store.State()) && FreshFor(Here(), m, env)
      modifies this`latestSources, store
      ensures r == Handled(SetupOf(), old(Here()), m, env).reply && Did(Handled(SetupOf(), old(Here()), m, env))
    {
      if m.route == NoteRoute {
        r := DispatchNote(m, env.ingest);
      } else if m.route == DraftRoute {
        r := DispatchDraft(m, env.ingest);
      } else if m.route == AskRoute {
        r := DispatchAsk(m, env.ask);
      } else if m.route == ChatRoute {
        r := DispatchChat(m, env.chat);
      } else if m.route == DeleteRoute {
        r := DispatchDelete(m);
      } else {
        r := DispatchRead(m);
      }
    }

    /** The routes that change nothing. */
    method DispatchRead(m: InboundMessage) returns (r: Result<Reply, Fault>)
      ensures r == ReadReply(settings, parseInt, Here(), m)
    {
      match m.route
      case StartRoute => return Ok(Welcome);
      case HelpRoute => return Ok(Commands);
      case SourcesRoute =>
        var sources := DispatchSources(m);
        return Ok(Sources(sources));
      case DraftsRoute =>
        var drafts := DispatchDrafts(m);
        return DraftsReplyOf(drafts);
      case ExportRoute => r := DispatchExport(m);
      case ClarifyRoute => return Ok(Clarification);
      case _ => return Ok(NotUnderstood);
    }

    method DispatchNote(m: InboundMessage, env: IngestEnv) returns (r: Result<Reply, Fault>)
      requires Wired() && Consistent(store.State()) && FreshIds(store.State(), env) && m.route == NoteRoute
      modifies store
      ensures r == NoteHandled(domain.isoFallback, old(Here()), m, env).reply && Did(NoteHandled(domain.isoFallback, old(Here()), m, env))
    {
      var message := NormalizeNoteFirstLine(m, domain.isoFallback);
      var ingested := domain.Ingest(message, env);
      return NoteReply(ingested);
    }

    method DispatchDraft(m: InboundMessage, env: IngestEnv) returns (r: Result<Reply, Fault>)
      requires Wired() && Consistent(store.State()) && FreshIds(store.State(), env) && m.route == DraftRoute
      modifies store
      ensures r == DraftHandled(domain.isoFallback, old(Here()), m, env).reply && Did(DraftHandled(domain.isoFallback, old(Here()), m, env))
    {
      var ingested := domain.Ingest(m, env);
      return DraftReply(ingested);
    }

    method DispatchDelete(m: InboundMessage) returns (r: Result<Reply, Fault>)
      requires Wired() && Consistent(store.State())
      modifies store
      ensures r == DeleteHandled(old(Here()), m).reply && Did(DeleteHandled(old(Here()), m))
    {
      if m.replyTo == None {
        return Ok(NoDeleteTarget);
      }
      var outcome := domain.DeleteNoteForExternalMessage(m.chatId, m.replyTo.value, m.communityId);
      return RemovalReply(outcome);
    }

    method DispatchExport(m: InboundMessage) returns (r: Result<Reply, Fault>)
      ensures r == ExportReply(store.State(), m)
    {
      var format := FormatOf(m.payload);
      if format == None {
        return Ok(ExportUsage);
      }
      var messages := store.ListSourceMessages(m.communityId);
      if messages.Raised? {
        return Raised(StoreFault(messages.error));
      }
      return Ok(Exported(format.value, messages.value));
    }

    method UpdateLatestSources(communityId: Id, answer: AnswerResult)
      modifies this`latestSources
      ensures latestSources == old(latestSources)[communityId := CitedChunks(answer)]
    {
      var citedIds := CitedSet(answer);
      var cited: seq<EventChunk> := [];
      if answer.context.Some? && citedIds != {} {
        var chunks := answer.context.value.orderedChunks;
        for i := 0 to |chunks|
          invariant cited == Filter(chunks[..i], CitedTest(citedIds)) && latestSources == old(latestSources)
        {
          FilterNext(chunks, i, CitedTest(citedIds));
          if chunks[i].chunkId in citedIds {
            cited := cited + [chunks[i]];
          }
        }
        assert chunks[..|chunks|] == chunks;
      }
      latestSources := latestSources[communityId := cited];
    }

    /** `/ask` */
    method DispatchAsk(m: InboundMessage, env: AskEnv) returns (r: Result<Reply, Fault>)
      requires Wired() && FreshAsk(store.Trace(), env)
      modifies this`latestSources, store
      ensures r == AskHandled(SetupOf(), old(Here()), m, env).reply && Did(AskHandled(SetupOf(), old(Here()), m, env))
    {
      var answer := query.Answer(m, None, None, env);
      if answer == Raised(SearchNotImplemented) {
        answer := Ok(UnsearchedAsk(m));
      }
      if answer.Raised? {
        return Raised(AnswerFault(answer.error));
      }
      UpdateLatestSources(m.communityId, answer.value);
      return Ok(AskAnswered(answer.value));
    }

    /** `/chat` */
    method DispatchChat(m: InboundMessage, env: ChatEnv) returns (r: Result<Reply, Fault>)
      requires Wired() && FreshChat(store.Trace(), env)
      modifies store
      ensures r == ChatHandled(SetupOf(), old(Here()), m, env).reply && Did(ChatHandled(SetupOf(), old(Here()), m, env))
    {
      if chat == null {
        return Ok(ChatUnavailable);
      }
      var result := chat.Chat(m, None, env);
      if result.Raised? {
        return Raised(AnswerFault(result.error));
      }
      return Ok(ChatAnswered(result.value));
    }

    method DispatchSources(m: InboundMessage) returns (reply: SourcesReply)
      ensures reply == SourcesFor(latestSources, m.communityId)
    {
      if m.communityId !in latestSources {
        return NoPriorAsk;
      }
      var chunks := latestSources[m.communityId];
      if chunks == [] {
        return NothingCited;
      }
      return Cited(chunks);
    }

    method DispatchDrafts(m: InboundMessage) returns (r: Result<DraftsReply, StoreError>)
      ensures r == DraftsFor(store.State(), m.communityId, m.payload, settings, parseInt)
    {
      var payload := Strip(m.payload);
      var requested, explicitly := settings.defaultLimit, false;
      if payload != "" {
        var parsed := parseInt(payload);
        if parsed == None {
          return Ok(DraftsUsage);
        }
        requested := parsed.value;
        if requested < 1 {
          return Ok(DraftsUsage);
        }
        explicitly := true;
      }
      var limit := Min(requested, settings.maxLimit);
      var drafts := store.ListRecentDrafts(m.communityId, limit);
      if drafts.Raised? {
        return Raised(drafts.error);
      }
      if drafts.value == [] {
        return Ok(NoDrafts(requested));
      }
      var header := HeaderFor(|drafts.value|, requested, explicitly, settings.maxLimit);
      return Ok(DraftsList(header, requested, drafts.value));
    }
  }

  // ---- What /drafts promises ----

  function AllDrafts(d: Diary, communityId: Id): seq<SourceMessage> {
    Sort(Filter(Values(d.sources), DraftTest(communityId)), SourceNewest)
  }

  lemma AllDraftsAre(d: Diary, communityId: Id)
    ensures var all := AllDrafts(d, communityId);
            && Sorted(all, SourceNewest)
            && (forall s :: s in all <==> s in Values(d.sources) && s.communityId == communityId && s.route == DraftRoute)
  {
    var found := Filter(Values(d.sources), DraftTest(communityId));
    SourceNewestOrder();
    SortSorts(found, SourceNewest);
    forall s: SourceMessage
      ensures s in AllDrafts(d, communityId) <==> s in Values(d.sources) && s.communityId == communityId && s.route == DraftRoute
    {
      SortIn(found, SourceNewest, s);
      FilterIn(Values(d.sources), DraftTest(communityId), s);
    }
  }

  /**
   * The listed drafts are the community's newest, newest first and within the cap; a header that says all
   * are shown is true, and one that says only the most recent are shown means the cap was reached.
   */
  lemma DraftsHonest(d: Diary, communityId: Id, payload: string, settings: DraftsSettings, parseInt: string -> Option<int>)
    requires var r := DraftsFor(d, communityId, payload, settings, parseInt); r.Ok? && r.value.DraftsList?
    ensures var reply, all := DraftsFor(d, communityId, payload, settings, parseInt).value, AllDrafts(d, communityId);
            && reply.drafts == Take(all, Min(reply.requested, settings.maxLimit))
            && 1 <= |reply.drafts| <= settings.maxLimit && |reply.drafts| <= reply.requested
            && (reply.header.ShowingAll? ==> reply.drafts == all && |all| < reply.requested)
            && (reply.header.ShowingMostRecent? ==> |reply.drafts| == settings.maxLimit < reply.requested)
  {
    var reply := DraftsFor(d, communityId, payload, settings, parseInt).value;
    var limit := Min(reply.requested, settings.maxLimit);
    assert reply.drafts == RecentDrafts(d, communityId, limit) == Take(AllDrafts(d, communityId), limit);
  }
}
