/**
 * Where a chat goes and what it brings back, told from the question, the classifier's answer and what is
 * wired: the decision row, the route taken, its answer and the rows of its extra steps.
 */
module ChatRouting {
  import opened Answering
  import opened ChatPlans
  import opened Models
  import opened Outcomes
  import opened Tables
  import opened Text
  import opened TraceAccounting
  import opened Traces
  import opened UncaughtErrors
  import opened Wrappers

  // ---- The decision ----

  /** A question that was classified asks for its class; only knowledge without a provider cannot be had. */
  predicate RoutedAs(question: string, c: Classification, config: ChatConfig, requested: Option<AnswerRoute>, effective: AnswerRoute) {
    && (requested.Some? <==> question != "" && c.Classified?)
    && (requested.Some? ==> requested.value == c.route)
    && (requested == Some(effective) <==> requested.Some? && !(requested.value == NotesPlusKnowledge && config.providerName == None))
    && (requested != Some(effective) ==> effective == NotesLookup)
  }

  /** The classifier's own words, where it was asked and said any. */
  predicate ClassifierTold(d: ChatRouteDecision, question: string, c: Classification, config: ChatConfig) {
    && d.classifierModelName == config.classifierModel
    && d.classifierRawOutput == (if question == "" then "" else match c case Classified(_, raw, _) => raw case UnusableRoute(raw) => raw case ClassifierDown => "")
    && (d.classifierLatencyMs != 0 ==> question != "" && c.Classified? && d.classifierLatencyMs == c.latencyMs)
    && (question != "" && c.Classified? ==> d.classifierLatencyMs == c.latencyMs)
  }

  predicate DecisionTold(d: ChatRouteDecision, m: InboundMessage, config: ChatConfig, env: ChatEnv) {
    && d.decisionId == env.decisionId && d.communityId == m.communityId && d.questionText == Strip(m.payload)
    && d.createdAt == env.decidedAt
    && RoutedAs(Strip(m.payload), env.classification, config, d.requested, d.effective)
    && ClassifierTold(d, Strip(m.payload), env.classification, config)
  }

  // ---- The rows of the extra steps ----

  predicate Rewritten(config: ChatConfig, env: ChatEnv) {
    config.rewriterModel.Some? && env.rewrite.Rewrite? && NormalizeQuery(env.rewrite.retrievalQuery) != ""
  }

  /** The rewriter's query, dates and subject when it gave a usable query, and its own words in any case. */
  predicate RewriteTold(r: ChatQueryRewrite, m: InboundMessage, config: ChatConfig, env: ChatEnv) {
    && r.rewriteId == env.rewriteId && r.decisionId == env.decisionId && r.communityId == m.communityId && r.createdAt == env.rewriteAt
    && (if Rewritten(config, env) then
          && r.rewrittenQuery == Some(NormalizeQuery(env.rewrite.retrievalQuery))
          && r.dates == env.rewrite.dates && r.subjectScope == env.rewrite.subjectScope
        else r.rewrittenQuery == None && r.dates == None && r.subjectScope == None)
    && (config.rewriterModel == None ==> r.modelName == "" && r.rawOutput == "" && r.latencyMs == 0)
    && (config.rewriterModel.Some? ==>
          match env.rewrite
          case Rewrite(_, _, _, modelName, raw, latencyMs) => r.modelName == modelName && r.rawOutput == raw && r.latencyMs == latencyMs
          case UnusableRewrite(raw) => r.modelName == config.rewriterModel.value && r.rawOutput == raw && r.latencyMs == 0
          case RewriterDown => r.modelName == config.rewriterModel.value && r.rawOutput == "" && r.latencyMs == 0)
  }

  predicate Reworded(config: ChatConfig, env: ChatEnv) {
    config.outwardModel.Some? && env.outward.Outward? && Strip(env.outward.searchQuery) != ""
  }

  /** What went outside: the reworded question, or the question itself, and what came back. */
  predicate SearchTold(s: ChatKnowledgeSearch, m: InboundMessage, config: ChatConfig, env: ChatEnv) {
    && s.searchId == env.searchId && s.decisionId == env.decisionId && s.communityId == m.communityId && s.createdAt == env.searchAt
    && s.outwardQuery == (if Reworded(config, env) then Strip(env.outward.searchQuery) else Strip(m.payload))
    && (config.outwardModel == None ==> s.outwardModelName == "" && s.outwardRawOutput == "" && s.outwardLatencyMs == 0)
    && (config.outwardModel.Some? ==>
          match env.outward
          case Outward(_, modelName, raw, latencyMs) =>
            s.outwardModelName == modelName && s.outwardRawOutput == raw && s.outwardLatencyMs == latencyMs
          case UnusableOutward(raw) =>
            s.outwardModelName == config.outwardModel.value && s.outwardRawOutput == raw && s.outwardLatencyMs == 0
          case OutwardDown =>
            s.outwardModelName == config.outwardModel.value && s.outwardRawOutput == "" && s.outwardLatencyMs == 0)
    && (config.providerName.Some? ==> s.providerName == config.providerName.value)
    && match env.search
       case SearchFound(excerpts, raw, latencyMs) => s.resultCount == |excerpts| && s.rawOutput == raw && s.latencyMs == latencyMs
       case UnusableSearch(raw) => s.resultCount == 0 && s.rawOutput == raw && s.latencyMs == 0
       case SourceDown => s.resultCount == 0 && s.rawOutput == "" && s.latencyMs == 0
  }

  // ---- The answer of each route ----

  /** The answer of a route whose search seam is missing: no words, no context, no query. */
  predicate Unanswerable(a: AnswerResult, question: string) {
    && a.fallback == NoEvidence && a.queryText == question && a.context == None && a.evidence == []
    && a.answerText == None && a.citedChunkIds == [] && NoPlanes(a)
  }

  /** What the route's own steps came to; without rows its search seam is missing. */
  ghost predicate RouteTold(
    v: SearchView, config: ChatConfig, decode: Decoder, m: InboundMessage, subject: Option<Id>, env: ChatEnv, effective: AnswerRoute,
    a: AnswerResult, rows: Option<QueryRows>)
    requires config.ask.topK > 0
  {
    var question := Strip(m.payload);
    match effective
    case ModelOnly =>
      && rows.Some? && rows.value.hits == [] && a.queryText == question
      && rows.value.query.queryText == question && rows.value.query.communityId == m.communityId
      && ModelOnlyTold(a, rows.value.answer, env.ask.chat, decode, config.ask.chatModel)
    case NotesLookup =>
      var ask := AskPlan(v, config.ask, decode, m, None, subject, env.ask);
      if rows.Some? then ask == Ok(Answered(rows.value, a)) else ask == Raised(SearchNotImplemented) && Unanswerable(a, question)
    case NotesPlusModel =>
      if rows.Some? then
        && FoundFor(v, config, m, question, subject, env, a)
        && ModelTold(a, rows.value.answer, env.ask.chat, decode, ContextIds(a), config.ask.chatModel)
      else MixedFind(v, config, m, question, subject, env) == Raised(SearchNotImplemented) && Unanswerable(a, question)
    case NotesPlusKnowledge =>
      if rows.Some? then
        && FoundFor(v, config, m, question, subject, env, a)
        && KnowledgeTold(a, rows.value.answer, env.ask.chat, decode, ContextIds(a), Offered(env.search), config.ask.chatModel)
      else MixedFind(v, config, m, question, subject, env) == Raised(SearchNotImplemented) && Unanswerable(a, question)
  }

  /** A rewrite step belongs to a mixed route that searched, a knowledge step to the knowledge route that did. */
  predicate StepsOf(r: Routed, effective: AnswerRoute, question: string, config: ChatConfig, env: ChatEnv) {
    && r.answer.rewrite == (if (effective == NotesPlusModel || effective == NotesPlusKnowledge) && r.rows.Some?
                            then Some(Captured(config.rewriterModel, env.rewrite)) else None)
    && r.answer.knowledge == (if effective == NotesPlusKnowledge && r.rows.Some?
                              then Some(KnowledgeCaptured(OutwardCaptured(config.outwardModel, env.outward), question, env.search))
                              else None)
  }

  lemma ModelSearched(
    v: SearchView, config: ChatConfig, decode: Decoder, m: InboundMessage, question: string, subject: Option<Id>, env: ChatEnv)
    requires config.ask.topK > 0
    requires NotesPlusModelPlan(v, config, decode, m, question, subject, env) == Raised(SearchNotImplemented)
    ensures MixedFind(v, config, m, question, subject, env) == Raised(SearchNotImplemented)
  {
    var r := MixedFind(v, config, m, question, subject, env);
    if r.Ok? {
      GradingErrors(MergedChunks(r.value.merged), {}, env.ask.chat, config.ask.chatModel, decode);
    }
  }

  lemma KnowledgeSearched(
    v: SearchView, config: ChatConfig, decode: Decoder, m: InboundMessage, question: string, subject: Option<Id>, env: ChatEnv)
    requires config.ask.topK > 0
    requires NotesPlusKnowledgePlan(v, config, decode, m, question, subject, env) == Raised(SearchNotImplemented)
    ensures MixedFind(v, config, m, question, subject, env) == Raised(SearchNotImplemented)
  {
    var r := MixedFind(v, config, m, question, subject, env);
    if r.Ok? {
      GradingErrors(MergedChunks(r.value.merged), Refs(Excerpts(env.search)), env.ask.chat, config.ask.chatModel, decode);
    }
  }

  lemma ModelRouteTold(v: SearchView, config: ChatConfig, decode: Decoder, m: InboundMessage, subject: Option<Id>, env: ChatEnv)
    requires config.ask.topK > 0
    ensures var r := RoutePlan(v, config, decode, m, Strip(m.payload), subject, NotesPlusModel, env);
            r.Ok? ==> RouteTold(v, config, decode, m, subject, env, NotesPlusModel, r.value.answer.result, r.value.rows)
                      && StepsOf(r.value, NotesPlusModel, Strip(m.payload), config, env)
  {
    if NotesPlusModelPlan(v, config, decode, m, Strip(m.payload), subject, env) == Raised(SearchNotImplemented) {
      ModelSearched(v, config, decode, m, Strip(m.payload), subject, env);
    }
    NotesPlusModelEnds(v, config, decode, m, Strip(m.payload), subject, env);
  }

  lemma KnowledgeRouteTold(v: SearchView, config: ChatConfig, decode: Decoder, m: InboundMessage, subject: Option<Id>, env: ChatEnv)
    requires config.ask.topK > 0
    ensures var r := RoutePlan(v, config, decode, m, Strip(m.payload), subject, NotesPlusKnowledge, env);
            r.Ok? ==> RouteTold(v, config, decode, m, subject, env, NotesPlusKnowledge, r.value.answer.result, r.value.rows)
                      && StepsOf(r.value, NotesPlusKnowledge, Strip(m.payload), config, env)
  {
    if NotesPlusKnowledgePlan(v, config, decode, m, Strip(m.payload), subject, env) == Raised(SearchNotImplemented) {
      KnowledgeSearched(v, config, decode, m, Strip(m.payload), subject, env);
    }
    NotesPlusKnowledgeEnds(v, config, decode, m, Strip(m.payload), subject, env);
  }

  lemma PlainRouteTold(
    v: SearchView, config: ChatConfig, decode: Decoder, m: InboundMessage, subject: Option<Id>, env: ChatEnv, effective: AnswerRoute)
    requires config.ask.topK > 0 && (effective == NotesLookup || effective == ModelOnly)
    ensures var r := RoutePlan(v, config, decode, m, Strip(m.payload), subject, effective, env);
            r.Ok? ==> RouteTold(v, config, decode, m, subject, env, effective, r.value.answer.result, r.value.rows)
                      && StepsOf(r.value, effective, Strip(m.payload), config, env)
  {
    ModelOnlyEnds(config, decode, m, Strip(m.payload), env);
  }

  /** The rows a chat leaves beside its query: the decision, and one row for each extra step taken. */
  predicate LinksTold(rows: ChatRows, m: InboundMessage, config: ChatConfig, env: ChatEnv) {
    var mixed := rows.decision.effective == NotesPlusModel || rows.decision.effective == NotesPlusKnowledge;
    && DecisionTold(rows.decision, m, config, env)
    && (rows.rewrite.Some? <==> mixed && rows.rows.Some?)
    && (rows.rewrite.Some? ==> RewriteTold(rows.rewrite.value, m, config, env))
    && (rows.search.Some? <==> rows.decision.effective == NotesPlusKnowledge && rows.rows.Some?)
    && (rows.search.Some? ==> SearchTold(rows.search.value, m, config, env))
  }

  lemma CapturesTold(config: ChatConfig, m: InboundMessage, env: ChatEnv)
    ensures RewriteTold(RewriteRow(m, Captured(config.rewriterModel, env.rewrite), env), m, config, env)
    ensures var k := KnowledgeCaptured(OutwardCaptured(config.outwardModel, env.outward), Strip(m.payload), env.search);
            SearchTold(SearchRow(config, m, k, env), m, config, env)
  {
  }

  lemma ConcludedTold(
    config: ChatConfig, m: InboundMessage, requested: Option<AnswerRoute>, effective: AnswerRoute, routed: Routed, env: ChatEnv)
    requires requested == RequestedRoute(Strip(m.payload), env.classification) && effective == EffectiveRoute(requested, config)
    requires StepsOf(routed, effective, Strip(m.payload), config, env)
    ensures LinksTold(Concluded(config, m, Strip(m.payload), requested, effective, routed, env).rows, m, config, env)
  {
    CapturesTold(config, m, env);
  }

  /**
   * A chat that returns took the route its question was classified to, or the notes lookup when there was
   * no usable class or no provider for it; its result, its decision row and the rows of its extra steps
   * say so, and its answer is what that route's own steps came to.
   */
  lemma ChatRouted(v: SearchView, config: ChatConfig, decode: Decoder, m: InboundMessage, subject: Option<Id>, env: ChatEnv)
    requires config.ask.topK > 0
    ensures var plan := ChatPlan(v, config, decode, m, subject, env);
            plan.Ok? ==>
              var result, rows := plan.value.result, plan.value.rows;
              && result.requested == rows.decision.requested && result.effective == rows.decision.effective
              && result.decisionId == env.decisionId && LinksTold(rows, m, config, env)
              && RouteTold(v, config, decode, m, subject, env, result.effective, result.answer, rows.rows)
    ensures m.communityId == "" ==> ChatPlan(v, config, decode, m, subject, env) == Raised(MissingCommunity)
  {
    if m.communityId != "" {
      var requested := RequestedRoute(Strip(m.payload), env.classification);
      var effective := EffectiveRoute(requested, config);
      ChatPlanIs(v, config, decode, m, subject, env, requested, effective);
      var routed := RoutePlan(v, config, decode, m, Strip(m.payload), subject, effective, env);
      match effective {
        case NotesPlusModel => ModelRouteTold(v, config, decode, m, subject, env);
        case NotesPlusKnowledge => KnowledgeRouteTold(v, config, decode, m, subject, env);
        case _ => PlainRouteTold(v, config, decode, m, subject, env, effective);
      }
      if routed.Ok? {
        ConcludedTold(config, m, requested, effective, routed.value, env);
      }
    }
  }
}
