/** Exactly when a question ends in the error nobody catches, on every route. */
module UncaughtErrors {
  import opened AnswerParsers
  import opened Answering
  import opened Candidates
  import opened ChatPlans
  import opened FusionBounds
  import opened Grounding
  import opened Models
  import opened Plans
  import opened Tables
  import opened Text
  import opened Traces
  import opened Wrappers

  /** The provider answered, and its text decodes to something a given parser chokes on. */
  predicate Chokes(chat: ChatOutcome, decode: Decoder, bad: Option<Json> -> bool) {
    chat.Response? && bad(decode(chat.rawText))
  }

  lemma GradingsChokeWhen(chunks: seq<EventChunk>, refs: set<string>, chat: ChatOutcome, chatModel: string, decode: Decoder)
    ensures GradeAsk(chunks, chat, chatModel, decode) == Raised(UnhashableMarker) <==> Chokes(chat, decode, StructuredButMarker)
    ensures GradeNotesPlusModel(chunks, chat, chatModel, decode) == Raised(UnhashableMarker) <==> Chokes(chat, decode, ModelButMarker)
    ensures GradeNotesPlusKnowledge(chunks, refs, chat, chatModel, decode) == Raised(UnhashableMarker)
        <==> Chokes(chat, decode, KnowledgeButMarker)
  {
    if chat.Response? {
      StructuredTypeErrorWhen(decode(chat.rawText), IdSet(chunks));
      NotesPlusModelTypeErrorWhen(decode(chat.rawText), IdSet(chunks));
      NotesPlusKnowledgeTypeErrorWhen(decode(chat.rawText), IdSet(chunks), refs);
    }
  }

  lemma RetrievalNeverChokes(v: SearchView, c: AskConfig, scope: Scope, queryText: string, env: AskEnv)
    requires c.topK > 0
    ensures Retrieved(v, c, scope, queryText, env) != Raised(UnhashableMarker)
  {
  }

  /** An `/ask` reached the provider: it had a community and a question, and retrieval found something. */
  ghost predicate AskReaches(v: SearchView, c: AskConfig, m: InboundMessage, dates: Option<DateRange>, subject: Option<Id>, env: AskEnv)
    requires c.topK > 0
  {
    var r := Retrieved(v, c, Scope(m.communityId, dates, subject), NormalizeQuery(m.payload), env);
    m.communityId != "" && NormalizeQuery(m.payload) != "" && r.Ok? && r.value.merged != []
  }

  /** `/ask` ends in the uncaught error exactly when it reached a provider whose answer chokes the parser. */
  lemma AskRaisesWhen(
    v: SearchView, c: AskConfig, decode: Decoder, m: InboundMessage, dates: Option<DateRange>, subject: Option<Id>, env: AskEnv)
    requires Consistent(v.diary) && c.topK > 0
    ensures AskPlan(v, c, decode, m, dates, subject, env) == Raised(UnhashableMarker)
        <==> AskReaches(v, c, m, dates, subject, env) && Chokes(env.chat, decode, StructuredButMarker)
  {
    var queryText, scope := NormalizeQuery(m.payload), Scope(m.communityId, dates, subject);
    var r := Retrieved(v, c, scope, queryText, env);
    RetrievalNeverChokes(v, c, scope, queryText, env);
    MergedInScope(v, c, scope, queryText, env);
    if r.Ok? {
      OneCommunity(MergedChunks(r.value.merged), v.diary, scope);
      GradingsChokeWhen(MergedChunks(r.value.merged), {}, env.chat, c.chatModel, decode);
    }
  }

  /** What a mixed route retrieves under. */
  ghost function MixedFind(v: SearchView, config: ChatConfig, m: InboundMessage, question: string, subject: Option<Id>, env: ChatEnv)
    : Result<RetrievedCandidates, AskError>
    requires config.ask.topK > 0
  {
    var capture := Captured(config.rewriterModel, env.rewrite);
    Retrieved(v, config.ask, Scope(m.communityId, capture.dates, subject), RetrievalQuery(capture, question), env.ask)
  }

  lemma MixedFindSound(v: SearchView, config: ChatConfig, m: InboundMessage, question: string, subject: Option<Id>, env: ChatEnv)
    requires Consistent(v.diary) && config.ask.topK > 0
    ensures var r := MixedFind(v, config, m, question, subject, env);
            r != Raised(UnhashableMarker) && (r.Ok? ==> !SpansCommunities(MergedChunks(r.value.merged)))
  {
    var capture := Captured(config.rewriterModel, env.rewrite);
    var scope, text := Scope(m.communityId, capture.dates, subject), RetrievalQuery(capture, question);
    RetrievalNeverChokes(v, config.ask, scope, text, env.ask);
    MergedInScope(v, config.ask, scope, text, env.ask);
    var r := Retrieved(v, config.ask, scope, text, env.ask);
    if r.Ok? {
      OneCommunity(MergedChunks(r.value.merged), v.diary, scope);
    }
  }

  lemma NotesPlusModelRaisesWhen(
    v: SearchView, config: ChatConfig, decode: Decoder, m: InboundMessage, question: string, subject: Option<Id>, env: ChatEnv)
    requires Consistent(v.diary) && config.ask.topK > 0
    ensures NotesPlusModelPlan(v, config, decode, m, question, subject, env) == Raised(UnhashableMarker)
        <==> MixedFind(v, config, m, question, subject, env).Ok? && Chokes(env.ask.chat, decode, ModelButMarker)
  {
    MixedFindSound(v, config, m, question, subject, env);
    var r := MixedFind(v, config, m, question, subject, env);
    if r.Ok? {
      GradingsChokeWhen(MergedChunks(r.value.merged), {}, env.ask.chat, config.ask.chatModel, decode);
    }
  }

  lemma NotesPlusKnowledgeRaisesWhen(
    v: SearchView, config: ChatConfig, decode: Decoder, m: InboundMessage, question: string, subject: Option<Id>, env: ChatEnv)
    requires Consistent(v.diary) && config.ask.topK > 0
    ensures NotesPlusKnowledgePlan(v, config, decode, m, question, subject, env) == Raised(UnhashableMarker)
        <==> MixedFind(v, config, m, question, subject, env).Ok? && Chokes(env.ask.chat, decode, KnowledgeButMarker)
  {
    MixedFindSound(v, config, m, question, subject, env);
    var r := MixedFind(v, config, m, question, subject, env);
    if r.Ok? {
      GradingsChokeWhen(MergedChunks(r.value.merged), Refs(Excerpts(env.search)), env.ask.chat, config.ask.chatModel, decode);
    }
  }

  /** What each route needs of the provider's answer to end in the error; a model-only answer never does. */
  ghost predicate RouteChokes(
    v: SearchView, config: ChatConfig, decode: Decoder, m: InboundMessage, question: string, subject: Option<Id>,
    effective: AnswerRoute, env: ChatEnv)
    requires config.ask.topK > 0
  {
    match effective
    case ModelOnly => false
    case NotesPlusModel =>
      MixedFind(v, config, m, question, subject, env).Ok? && Chokes(env.ask.chat, decode, ModelButMarker)
    case NotesPlusKnowledge =>
      MixedFind(v, config, m, question, subject, env).Ok? && Chokes(env.ask.chat, decode, KnowledgeButMarker)
    case NotesLookup =>
      AskReaches(v, config.ask, m, None, subject, env.ask) && Chokes(env.ask.chat, decode, StructuredButMarker)
  }

  lemma RouteRaisesWhen(
    v: SearchView, config: ChatConfig, decode: Decoder, m: InboundMessage, question: string, subject: Option<Id>,
    effective: AnswerRoute, env: ChatEnv)
    requires Consistent(v.diary) && config.ask.topK > 0
    ensures RoutePlan(v, config, decode, m, question, subject, effective, env) == Raised(UnhashableMarker)
        <==> RouteChokes(v, config, decode, m, question, subject, effective, env)
  {
    match effective
    case ModelOnly =>
    case NotesPlusModel => NotesPlusModelRaisesWhen(v, config, decode, m, question, subject, env);
    case NotesPlusKnowledge => NotesPlusKnowledgeRaisesWhen(v, config, decode, m, question, subject, env);
    case NotesLookup => AskRaisesWhen(v, config.ask, decode, m, None, subject, env.ask);
  }

  /** `/chat` ends in the uncaught error exactly when the route it took does. */
  lemma ChatRaisesWhen(v: SearchView, config: ChatConfig, decode: Decoder, m: InboundMessage, subject: Option<Id>, env: ChatEnv)
    requires Consistent(v.diary) && config.ask.topK > 0
    ensures var question := Strip(m.payload);
            var effective := EffectiveRoute(RequestedRoute(question, env.classification), config);
            ChatPlan(v, config, decode, m, subject, env) == Raised(UnhashableMarker)
            <==> m.communityId != "" && RouteChokes(v, config, decode, m, question, subject, effective, env)
  {
    if m.communityId != "" {
      var question := Strip(m.payload);
      var requested := RequestedRoute(question, env.classification);
      var effective := EffectiveRoute(requested, config);
      ChatPlanIs(v, config, decode, m, subject, env, requested, effective);
      RouteRaisesWhen(v, config, decode, m, question, subject, effective, env);
    }
  }
}
