/** What a routed chat does with every outcome of its providers: the specification of `RoutedChat`. */
module ChatPlans {
  import opened Answering
  import opened Candidates
  import opened Models
  import opened Tables
  import opened Text
  import opened Traces
  import opened Wrappers

  // ---- What the providers came to ----

  datatype Classification =
    | Classified(route: AnswerRoute, rawOutput: string, latencyMs: int)
    | UnusableRoute(rawOutput: string)
    | ClassifierDown

  datatype RewriteOutcome =
    | Rewrite(retrievalQuery: string, dates: Option<DateRange>, subjectScope: Option<Id>, modelName: string,
              rawOutput: string, latencyMs: int)
    | UnusableRewrite(rawOutput: string)
    | RewriterDown

  datatype OutwardOutcome =
    | Outward(searchQuery: string, modelName: string, rawOutput: string, latencyMs: int)
    | UnusableOutward(rawOutput: string)
    | OutwardDown

  datatype KnowledgeExcerpt = KnowledgeExcerpt(ref: string, title: string, text: string)

  datatype SearchOutcome =
    | SearchFound(excerpts: seq<KnowledgeExcerpt>, rawOutput: string, latencyMs: int)
    | UnusableSearch(rawOutput: string)
    | SourceDown

  /** Which optional parts are wired, by the name each goes by. */
  datatype ChatConfig = ChatConfig(
    ask: AskConfig, classifierModel: string, rewriterModel: Option<string>, outwardModel: Option<string>,
    providerName: Option<string>)

  datatype ChatEnv = ChatEnv(
    ask: AskEnv, classification: Classification, rewrite: RewriteOutcome, outward: OutwardOutcome, search: SearchOutcome,
    decisionId: Id, rewriteId: Id, searchId: Id, decidedAt: Time, rewriteAt: Time, searchAt: Time)

  // ---- The rewrite steps ----

  datatype RewriteCapture = RewriteCapture(
    rewrittenQuery: Option<string>, dates: Option<DateRange>, subjectScope: Option<Id>, modelName: string,
    rawOutput: string, latencyMs: int)

  function NoRewrite(modelName: string, rawOutput: string, latencyMs: int): RewriteCapture {
    RewriteCapture(None, None, None, modelName, rawOutput, latencyMs)
  }

  /** `_rewrite`: a failure of any kind falls back to the question itself, without dates. */
  function Captured(rewriterModel: Option<string>, outcome: RewriteOutcome): RewriteCapture {
    if rewriterModel == None then NoRewrite("", "", 0)
    else
      match outcome
      case UnusableRewrite(rawOutput) => NoRewrite(rewriterModel.value, rawOutput, 0)
      case RewriterDown => NoRewrite(rewriterModel.value, "", 0)
      case Rewrite(retrievalQuery, dates, subjectScope, modelName, rawOutput, latencyMs) =>
        if NormalizeQuery(retrievalQuery) == "" then NoRewrite(modelName, rawOutput, latencyMs)
        else RewriteCapture(Some(NormalizeQuery(retrievalQuery)), dates, subjectScope, modelName, rawOutput, latencyMs)
  }

  datatype OutwardCapture = OutwardCapture(searchQuery: Option<string>, modelName: string, rawOutput: string, latencyMs: int)

  /**
   * The question is searched as it is, without dates, exactly when no rewriter is wired, it failed, or
   * its query is blank once normalised; otherwise its query and its dates are used.
   */
  lemma RewriteDegradesWhen(rewriterModel: Option<string>, outcome: RewriteOutcome, question: string)
    ensures var c := Captured(rewriterModel, outcome);
            var usable := rewriterModel.Some? && outcome.Rewrite? && NormalizeQuery(outcome.retrievalQuery) != "";
            && (c.rewrittenQuery == None <==> !usable)
            && (!usable ==> c.dates == None && RetrievalQuery(c, question) == NormalizeQuery(question))
            && (usable ==> c.dates == outcome.dates && RetrievalQuery(c, question) == NormalizeQuery(outcome.retrievalQuery))
  {
  }

  /** `_rewrite_outward` */
  function OutwardCaptured(outwardModel: Option<string>, outcome: OutwardOutcome): OutwardCapture {
    if outwardModel == None then OutwardCapture(None, "", "", 0)
    else
      match outcome
      case UnusableOutward(rawOutput) => OutwardCapture(None, outwardModel.value, rawOutput, 0)
      case OutwardDown => OutwardCapture(None, outwardModel.value, "", 0)
      case Outward(searchQuery, modelName, rawOutput, latencyMs) =>
        OutwardCapture(NonEmpty(Strip(searchQuery)), modelName, rawOutput, latencyMs)
  }

  datatype KnowledgeCapture = KnowledgeCapture(
    outwardQuery: string, outwardModel: string, outwardRaw: string, outwardLatencyMs: int,
    resultCount: nat, rawOutput: string, latencyMs: int)

  function Excerpts(outcome: SearchOutcome): seq<KnowledgeExcerpt> {
    if outcome.SearchFound? then outcome.excerpts else []
  }

  function Refs(excerpts: seq<KnowledgeExcerpt>): set<string> {
    set e | e in excerpts :: e.ref
  }

  function KnowledgeCaptured(outward: OutwardCapture, question: string, outcome: SearchOutcome): KnowledgeCapture {
    KnowledgeCapture(
      if outward.searchQuery.Some? then outward.searchQuery.value else question,
      outward.modelName, outward.rawOutput, outward.latencyMs, |Excerpts(outcome)|,
      if outcome.SourceDown? then "" else outcome.rawOutput,
      if outcome.SearchFound? then outcome.latencyMs else 0)
  }

  // ---- The routes ----

  function RequestedRoute(question: string, c: Classification): Option<AnswerRoute> {
    if question != "" && c.Classified? then Some(c.route) else None
  }

  /** Whatever cannot be dispatched goes to the notes lookup. */
  function EffectiveRoute(requested: Option<AnswerRoute>, config: ChatConfig): AnswerRoute {
    if requested == None || (requested == Some(NotesPlusKnowledge) && config.providerName == None) then NotesLookup
    else requested.value
  }

  /** What a route hands back: the answer, the query it traced, and what its extra steps produced. */
  datatype RouteAnswer = RouteAnswer(
    result: AnswerResult, queryId: Option<Id>, rewrite: Option<RewriteCapture>, knowledge: Option<KnowledgeCapture>)

  /** A route's answer with the query rows it saved. */
  datatype Routed = Routed(answer: RouteAnswer, rows: Option<QueryRows>)

  /** The synthetic answer when the search seam is not implemented: no query was traced. */
  function Unsearched(question: string): RouteAnswer {
    RouteAnswer(AnswerResult(NoEvidence, question, [], None, None, [], None, None, []), None, None, None)
  }

  function RetrievalQuery(capture: RewriteCapture, question: string): string {
    if capture.rewrittenQuery.Some? then capture.rewrittenQuery.value else NormalizeQuery(question)
  }

  /** `_answer_notes_plus_model` */
  ghost function NotesPlusModelPlan(
    v: SearchView, config: ChatConfig, decode: Decoder, m: InboundMessage, question: string, subject: Option<Id>, env: ChatEnv)
    : Result<Routed, AskError>
    requires config.ask.topK > 0
  {
    var capture := Captured(config.rewriterModel, env.rewrite);
    match Retrieved(v, config.ask, Scope(m.communityId, capture.dates, subject), RetrievalQuery(capture, question), env.ask)
    case Raised(e) => Raised(e)
    case Ok(found) =>
      if SpansCommunities(MergedChunks(found.merged)) then Raised(CrossCommunity)
      else
        match GradeNotesPlusModel(MergedChunks(found.merged), env.ask.chat, config.ask.chatModel, decode)
        case Raised(e) => Raised(e)
        case Ok(g) =>
          var done := Finalized(config.ask, env.ask, m.communityId, question, subject, found,
                                NOTES_PLUS_MODEL_PROMPT_VERSION, env.ask.now, g);
          Ok(Routed(RouteAnswer(done.result, Some(env.ask.queryId), Some(capture), None), Some(done.rows)))
  }

  /** `_answer_notes_plus_knowledge` */
  ghost function NotesPlusKnowledgePlan(
    v: SearchView, config: ChatConfig, decode: Decoder, m: InboundMessage, question: string, subject: Option<Id>, env: ChatEnv)
    : Result<Routed, AskError>
    requires config.ask.topK > 0
  {
    var capture := Captured(config.rewriterModel, env.rewrite);
    match Retrieved(v, config.ask, Scope(m.communityId, capture.dates, subject), RetrievalQuery(capture, question), env.ask)
    case Raised(e) => Raised(e)
    case Ok(found) =>
      var outward := OutwardCaptured(config.outwardModel, env.outward);
      var knowledge := KnowledgeCaptured(outward, question, env.search);
      if SpansCommunities(MergedChunks(found.merged)) then Raised(CrossCommunity)
      else
        match GradeNotesPlusKnowledge(MergedChunks(found.merged), Refs(Excerpts(env.search)), env.ask.chat,
                                      config.ask.chatModel, decode)
        case Raised(e) => Raised(e)
        case Ok(g) =>
          var done := Finalized(config.ask, env.ask, m.communityId, question, subject, found,
                                NOTES_PLUS_KNOWLEDGE_PROMPT_VERSION, env.ask.now, g);
          Ok(Routed(RouteAnswer(done.result, Some(env.ask.queryId), Some(capture), Some(knowledge)), Some(done.rows)))
  }

  /** The same providers, but a rewriter that names another subject. */
  function WithRewriterSubject(env: ChatEnv, subject: Option<Id>): ChatEnv {
    if env.rewrite.Rewrite? then env.(rewrite := env.rewrite.(subjectScope := subject)) else env
  }

  lemma SameCapture(config: ChatConfig, env: ChatEnv, named: Option<Id>)
    ensures var other := WithRewriterSubject(env, named);
            var c, o := Captured(config.rewriterModel, env.rewrite), Captured(config.rewriterModel, other.rewrite);
            && o == c.(subjectScope := o.subjectScope)
            && other.ask == env.ask && other.outward == env.outward && other.search == env.search
  {
  }

  /** The subject a rewriter names scopes nothing: only the rewrite row shows it. */
  lemma RewriterSubjectIgnored(
    v: SearchView, config: ChatConfig, decode: Decoder, m: InboundMessage, question: string, subject: Option<Id>, env: ChatEnv,
    named: Option<Id>)
    requires config.ask.topK > 0
    ensures SameButRewrite(NotesPlusModelPlan(v, config, decode, m, question, subject, WithRewriterSubject(env, named)),
                           NotesPlusModelPlan(v, config, decode, m, question, subject, env))
    ensures SameButRewrite(NotesPlusKnowledgePlan(v, config, decode, m, question, subject, WithRewriterSubject(env, named)),
                           NotesPlusKnowledgePlan(v, config, decode, m, question, subject, env))
  {
    ModelIgnoresSubject(v, config, decode, m, question, subject, env, named);
    KnowledgeIgnoresSubject(v, config, decode, m, question, subject, env, named);
  }

  lemma ModelIgnoresSubject(
    v: SearchView, config: ChatConfig, decode: Decoder, m: InboundMessage, question: string, subject: Option<Id>, env: ChatEnv,
    named: Option<Id>)
    requires config.ask.topK > 0
    ensures SameButRewrite(NotesPlusModelPlan(v, config, decode, m, question, subject, WithRewriterSubject(env, named)),
                           NotesPlusModelPlan(v, config, decode, m, question, subject, env))
  {
    SameCapture(config, env, named);
  }

  lemma KnowledgeIgnoresSubject(
    v: SearchView, config: ChatConfig, decode: Decoder, m: InboundMessage, question: string, subject: Option<Id>, env: ChatEnv,
    named: Option<Id>)
    requires config.ask.topK > 0
    ensures SameButRewrite(NotesPlusKnowledgePlan(v, config, decode, m, question, subject, WithRewriterSubject(env, named)),
                           NotesPlusKnowledgePlan(v, config, decode, m, question, subject, env))
  {
    SameCapture(config, env, named);
  }

  predicate SameButRewrite(a: Result<Routed, AskError>, b: Result<Routed, AskError>) {
    if a.Ok? && b.Ok? then a.value.rows == b.value.rows && a.value.answer == b.value.answer.(rewrite := a.value.answer.rewrite)
    else a.Raised? && b.Raised? && a.error == b.error
  }

  /** `_answer_model_only` */
  function ModelOnlyPlan(config: ChatConfig, decode: Decoder, m: InboundMessage, question: string, env: ChatEnv): Routed {
    var g := GradeModelOnly(env.ask.chat, config.ask.chatModel, decode);
    Routed(
      RouteAnswer(AnswerResult(g.fallback, question, [], None, g.answerText, [], None, None, []), Some(env.ask.queryId), None, None),
      Some(QueryRows(
        Query(env.ask.queryId, m.communityId, question, config.ask.chatModel, g.fallback, env.ask.now, None), [],
        AnswerTrace(env.ask.traceId, env.ask.queryId, MODEL_ONLY_PROMPT_VERSION, [], g.traceText, g.fallback,
                    config.ask.chatModel, g.tokenCounts, g.latencyMs, env.ask.now))))
  }

  /** The notes lookup is the grounded `/ask`. */
  ghost function LookupPlan(
    v: SearchView, config: ChatConfig, decode: Decoder, m: InboundMessage, subject: Option<Id>, env: ChatEnv)
    : Result<Routed, AskError>
    requires config.ask.topK > 0
  {
    match AskPlan(v, config.ask, decode, m, None, subject, env.ask)
    case Raised(e) => Raised(e)
    case Ok(done) => Ok(Routed(RouteAnswer(done.result, Some(env.ask.queryId), None, None), Some(done.rows)))
  }

  /** An unimplemented search seam is answered without a query; every other exception goes on. */
  function OrUnsearched(r: Result<Routed, AskError>, question: string): Result<Routed, AskError> {
    if r == Raised(SearchNotImplemented) then Ok(Routed(Unsearched(question), None)) else r
  }

  ghost function RoutePlan(
    v: SearchView, config: ChatConfig, decode: Decoder, m: InboundMessage, question: string, subject: Option<Id>,
    effective: AnswerRoute, env: ChatEnv): Result<Routed, AskError>
    requires config.ask.topK > 0
  {
    match effective
    case ModelOnly => Ok(ModelOnlyPlan(config, decode, m, question, env))
    case NotesPlusModel => OrUnsearched(NotesPlusModelPlan(v, config, decode, m, question, subject, env), question)
    case NotesPlusKnowledge => OrUnsearched(NotesPlusKnowledgePlan(v, config, decode, m, question, subject, env), question)
    case NotesLookup => OrUnsearched(LookupPlan(v, config, decode, m, subject, env), question)
  }

  // ---- The whole chat ----

  datatype RoutedChatResult = RoutedChatResult(
    requested: Option<AnswerRoute>, effective: AnswerRoute, answer: AnswerResult, decisionId: Id)

  datatype ChatRows = ChatRows(
    rows: Option<QueryRows>, decision: ChatRouteDecision, rewrite: Option<ChatQueryRewrite>,
    search: Option<ChatKnowledgeSearch>)

  datatype Chatted = Chatted(rows: ChatRows, result: RoutedChatResult)

  function RawClassification(question: string, c: Classification): string {
    if question == "" || c.ClassifierDown? then "" else c.rawOutput
  }

  function ClassifierLatency(question: string, c: Classification): int {
    if question != "" && c.Classified? then c.latencyMs else 0
  }

  function DecisionRow(
    config: ChatConfig, m: InboundMessage, question: string, requested: Option<AnswerRoute>, effective: AnswerRoute,
    queryId: Option<Id>, env: ChatEnv): ChatRouteDecision
  {
    ChatRouteDecision(
      env.decisionId, m.communityId, question, requested, effective, config.classifierModel,
      RawClassification(question, env.classification), ClassifierLatency(question, env.classification), queryId,
      env.decidedAt)
  }

  function RewriteRow(m: InboundMessage, capture: RewriteCapture, env: ChatEnv): ChatQueryRewrite {
    ChatQueryRewrite(env.rewriteId, env.decisionId, m.communityId, capture.rewrittenQuery, capture.dates,
                     capture.subjectScope, capture.modelName, capture.rawOutput, capture.latencyMs, env.rewriteAt)
  }

  function SearchRow(config: ChatConfig, m: InboundMessage, k: KnowledgeCapture, env: ChatEnv): ChatKnowledgeSearch {
    ChatKnowledgeSearch(env.searchId, env.decisionId, m.communityId, k.outwardQuery, k.outwardModel, k.outwardRaw,
                        k.outwardLatencyMs, if config.providerName.Some? then config.providerName.value else "",
                        k.resultCount, k.rawOutput, k.latencyMs, env.searchAt)
  }

  /** The rows and the result of a chat whose route has answered. */
  function Concluded(
    config: ChatConfig, m: InboundMessage, question: string, requested: Option<AnswerRoute>, effective: AnswerRoute,
    routed: Routed, env: ChatEnv): Chatted
  {
    var a := routed.answer;
    Chatted(
      ChatRows(routed.rows, DecisionRow(config, m, question, requested, effective, a.queryId, env),
               if a.rewrite.Some? then Some(RewriteRow(m, a.rewrite.value, env)) else None,
               if a.knowledge.Some? then Some(SearchRow(config, m, a.knowledge.value, env)) else None),
      RoutedChatResult(requested, effective, a.result, env.decisionId))
  }

  lemma ChatPlanIs(
    v: SearchView, config: ChatConfig, decode: Decoder, m: InboundMessage, subject: Option<Id>, env: ChatEnv,
    requested: Option<AnswerRoute>, effective: AnswerRoute)
    requires config.ask.topK > 0 && m.communityId != ""
    requires requested == RequestedRoute(Strip(m.payload), env.classification) && effective == EffectiveRoute(requested, config)
    ensures var routed := RoutePlan(v, config, decode, m, Strip(m.payload), subject, effective, env);
            && (routed.Raised? ==> ChatPlan(v, config, decode, m, subject, env) == Raised(routed.error))
            && (routed.Ok? ==> ChatPlan(v, config, decode, m, subject, env)
                               == Ok(Concluded(config, m, Strip(m.payload), requested, effective, routed.value, env)))
  {
  }

  /** `chat` */
  ghost function ChatPlan(
    v: SearchView, config: ChatConfig, decode: Decoder, m: InboundMessage, subject: Option<Id>, env: ChatEnv)
    : Result<Chatted, AskError>
    requires config.ask.topK > 0
  {
    if m.communityId == "" then Raised(MissingCommunity)
    else
      var question := Strip(m.payload);
      var requested := RequestedRoute(question, env.classification);
      var effective := EffectiveRoute(requested, config);
      match RoutePlan(v, config, decode, m, question, subject, effective, env)
      case Raised(e) => Raised(e)
      case Ok(routed) => Ok(Concluded(config, m, question, requested, effective, routed, env))
  }

  // ---- Saving it ----

  function PersistedIf(t: Traces, rows: Option<QueryRows>): Option<Traces> {
    if rows.Some? then Persisted(t, rows.value) else Some(t)
  }

  function PersistedRewrite(t: Option<Traces>, rewrite: Option<ChatQueryRewrite>): Option<Traces> {
    if t.Some? && rewrite.Some? then WithRewrite(t.value, rewrite.value) else t
  }

  function PersistedSearch(t: Option<Traces>, search: Option<ChatKnowledgeSearch>): Option<Traces> {
    if t.Some? && search.Some? then WithSearch(t.value, search.value) else t
  }

  /** Query rows first, then the decision, then the rows that link to it. */
  function PersistedChat(t: Traces, rows: ChatRows): Option<Traces> {
    match PersistedIf(t, rows.rows)
    case None => None
    case Some(t1) => PersistedSearch(PersistedRewrite(WithDecision(t1, rows.decision), rows.rewrite), rows.search)
  }

  lemma FreshLinks(t: Traces, env: ChatEnv, rows: ChatRows)
    requires env.decisionId !in t.decisions && env.decisionId !in t.rewrites && env.decisionId !in t.searches
    requires rows.decision.decisionId == env.decisionId
    requires rows.rewrite.Some? ==> rows.rewrite.value.decisionId == env.decisionId
    requires rows.search.Some? ==> rows.search.value.decisionId == env.decisionId
    ensures PersistedSearch(PersistedRewrite(WithDecision(t, rows.decision), rows.rewrite), rows.search)
         == Some(t.(decisions := t.decisions[env.decisionId := rows.decision],
                    rewrites := if rows.rewrite.Some? then t.rewrites[env.decisionId := rows.rewrite.value] else t.rewrites,
                    searches := if rows.search.Some? then t.searches[env.decisionId := rows.search.value] else t.searches))
  {
  }

  ghost predicate FreshChat(t: Traces, env: ChatEnv) {
    FreshAsk(t, env.ask) && env.decisionId !in t.decisions && env.decisionId !in t.rewrites && env.decisionId !in t.searches
  }
}
