/** The `/chat` service (`services/routed_chat.py`): classify, dispatch, and trace every call. */
module RoutedChat {
  import opened AnswerParsers
  import opened Answering
  import opened Candidates
  import opened ChatPlans
  import opened FusionBounds
  import opened MockDomainStore
  import opened Models
  import opened QueryService
  import opened Tables
  import opened Text
  import opened Traces
  import opened Wrappers

  class Chat {
    const store: Store
    const query: QueryService.Service
    const config: ChatConfig
    const decode: Decoder

    constructor (store: Store, query: QueryService.Service, config: ChatConfig, decode: Decoder)
      requires query.store == store && query.config == config.ask && query.decode == decode
      ensures this.store == store && this.query == query && this.config == config && this.decode == decode
    {
      this.store, this.query, this.config, this.decode := store, query, config, decode;
    }

    /** The services share one store, one configuration and one decoder. */
    ghost predicate Wired() {
      query.store == store && query.config == config.ask && query.decode == decode && config.ask.topK > 0
    }

    method Rewrite(env: ChatEnv) returns (capture: RewriteCapture)
      ensures capture == Captured(config.rewriterModel, env.rewrite)
    {
      if config.rewriterModel == None {
        return RewriteCapture(None, None, None, "", "", 0);
      }
      match env.rewrite
      case UnusableRewrite(rawOutput) =>
        return RewriteCapture(None, None, None, config.rewriterModel.value, rawOutput, 0);
      case RewriterDown =>
        return RewriteCapture(None, None, None, config.rewriterModel.value, "", 0);
      case Rewrite(retrievalQuery, dates, subjectScope, modelName, rawOutput, latencyMs) =>
        var rewritten := NormalizeQuery(retrievalQuery);
        if rewritten == "" {
          return RewriteCapture(None, None, None, modelName, rawOutput, latencyMs);
        }
        return RewriteCapture(Some(rewritten), dates, subjectScope, modelName, rawOutput, latencyMs);
    }

    method RewriteOutward(env: ChatEnv) returns (capture: OutwardCapture)
      ensures capture == OutwardCaptured(config.outwardModel, env.outward)
    {
      if config.outwardModel == None {
        return OutwardCapture(None, "", "", 0);
      }
      match env.outward
      case UnusableOutward(rawOutput) => return OutwardCapture(None, config.outwardModel.value, rawOutput, 0);
      case OutwardDown => return OutwardCapture(None, config.outwardModel.value, "", 0);
      case Outward(searchQuery, modelName, rawOutput, latencyMs) =>
        var stripped := Strip(searchQuery);
        if stripped == "" {
          return OutwardCapture(None, modelName, rawOutput, latencyMs);
        }
        return OutwardCapture(Some(stripped), modelName, rawOutput, latencyMs);
    }

    /** Query, hits and answer trace of a mixed route, written from one grading. */
    method SaveMixed(
      m: InboundMessage, question: string, subject: Option<Id>, found: RetrievedCandidates, promptVersion: string,
      g: Grading, env: ChatEnv) returns (result: AnswerResult)
      requires Wired() && FreshChat(store.Trace(), env)
      modifies store
      ensures var done := Finalized(config.ask, env.ask, m.communityId, question, subject, found, promptVersion, env.ask.now, g);
              result == done.result && Some(store.Trace()) == Persisted(old(store.Trace()), done.rows)
      ensures store.State() == old(store.State()) && store.journal == old(store.journal)
    {
      var chunks := MergedChunks(found.merged);
      var q := Query(env.ask.queryId, m.communityId, question, config.ask.embedModel, g.fallback, env.ask.now, subject);
      var hits := BuildRetrievalHits(env.ask.queryId, config.ask.embedModel, env.ask.now, found, env.ask.hitIds);
      HitRowIds(env.ask.queryId, config.ask.embedModel, env.ask.now, found, env.ask.hitIds);
      var trace := AnswerTrace(env.ask.traceId, env.ask.queryId, promptVersion, ChunkIds(chunks), g.traceText, g.fallback,
                               g.traceModel, g.tokenCounts, g.latencyMs, env.ask.now);
      query.SaveRows(QueryRows(q, hits, trace), env.ask);
      result := AnswerResult(g.fallback, question, EvidenceOf(chunks),
                             Some(AnswerContext(env.ask.queryId, question, chunks, config.ask.embedModel, env.ask.now)),
                             g.answerText, g.cited, g.modelText, g.knowledgeText, g.knowledgeRefs);
    }

    method AnswerNotesPlusModel(m: InboundMessage, question: string, subject: Option<Id>, env: ChatEnv)
      returns (r: Result<RouteAnswer, AskError>)
      requires Wired() && FreshChat(store.Trace(), env)
      modifies store
      ensures var plan := NotesPlusModelPlan(old(ViewOf(store)), config, decode, m, question, subject, env);
              && (plan.Raised? ==> r == Raised(plan.error) && store.Trace() == old(store.Trace()))
              && (plan.Ok? ==> r == Ok(plan.value.answer)
                               && Some(store.Trace()) == PersistedIf(old(store.Trace()), plan.value.rows))
      ensures store.State() == old(store.State()) && store.journal == old(store.journal)
    {
      var capture := Rewrite(env);
      var retrievalQuery := if capture.rewrittenQuery.Some? then capture.rewrittenQuery.value else NormalizeQuery(question);
      var found := query.Retrieve(Scope(m.communityId, capture.dates, subject), retrievalQuery, env.ask);
      if found.Raised? {
        return Raised(found.error);
      }
      var chunks := MergedChunks(found.value.merged);
      if SpansCommunities(chunks) {
        return Raised(CrossCommunity);
      }
      var graded := GradeNotesPlusModel(chunks, env.ask.chat, config.ask.chatModel, decode);
      if graded.Raised? {
        return Raised(graded.error);
      }
      var done := SaveMixed(m, question, subject, found.value, NOTES_PLUS_MODEL_PROMPT_VERSION, graded.value, env);
      return Ok(RouteAnswer(done, Some(env.ask.queryId), Some(capture), None));
    }

    /** The outward rewrite and the knowledge search; a failed search leaves an empty knowledge plane. */
    method SearchKnowledge(question: string, env: ChatEnv)
      returns (knowledge: KnowledgeCapture, excerpts: seq<KnowledgeExcerpt>)
      ensures knowledge == KnowledgeCaptured(OutwardCaptured(config.outwardModel, env.outward), question, env.search)
      ensures excerpts == Excerpts(env.search)
    {
      var outward := RewriteOutward(env);
      var searchedQuery := if outward.searchQuery.Some? then outward.searchQuery.value else question;
      var searchRaw, searchLatency := "", 0;
      excerpts := [];
      match env.search {
        case UnusableSearch(rawOutput) => searchRaw := rawOutput;
        case SourceDown =>
        case SearchFound(results, rawOutput, latencyMs) =>
          excerpts, searchRaw, searchLatency := results, rawOutput, latencyMs;
      }
      knowledge := KnowledgeCapture(searchedQuery, outward.modelName, outward.rawOutput, outward.latencyMs,
                                    |excerpts|, searchRaw, searchLatency);
    }

    method AnswerNotesPlusKnowledge(m: InboundMessage, question: string, subject: Option<Id>, env: ChatEnv)
      returns (r: Result<RouteAnswer, AskError>)
      requires Wired() && FreshChat(store.Trace(), env)
      modifies store
      ensures var plan := NotesPlusKnowledgePlan(old(ViewOf(store)), config, decode, m, question, subject, env);
              && (plan.Raised? ==> r == Raised(plan.error) && store.Trace() == old(store.Trace()))
              && (plan.Ok? ==> r == Ok(plan.value.answer)
                               && Some(store.Trace()) == PersistedIf(old(store.Trace()), plan.value.rows))
      ensures store.State() == old(store.State()) && store.journal == old(store.journal)
    {
      var capture := Rewrite(env);
      var retrievalQuery := if capture.rewrittenQuery.Some? then capture.rewrittenQuery.value else NormalizeQuery(question);
      var found := query.Retrieve(Scope(m.communityId, capture.dates, subject), retrievalQuery, env.ask);
      if found.Raised? {
        return Raised(found.error);
      }
      var knowledge, excerpts := SearchKnowledge(question, env);
      var chunks := MergedChunks(found.value.merged);
      if SpansCommunities(chunks) {
        return Raised(CrossCommunity);
      }
      var graded := GradeNotesPlusKnowledge(chunks, Refs(excerpts), env.ask.chat, config.ask.chatModel, decode);
      if graded.Raised? {
        return Raised(graded.error);
      }
      var done := SaveMixed(m, question, subject, found.value, NOTES_PLUS_KNOWLEDGE_PROMPT_VERSION, graded.value, env);
      return Ok(RouteAnswer(done, Some(env.ask.queryId), Some(capture), Some(knowledge)));
    }

    method AnswerModelOnly(m: InboundMessage, question: string, env: ChatEnv) returns (a: RouteAnswer)
      requires Wired() && FreshChat(store.Trace(), env)
      modifies store
      ensures var plan := ModelOnlyPlan(config, decode, m, question, env);
              a == plan.answer && Some(store.Trace()) == PersistedIf(old(store.Trace()), plan.rows)
      ensures store.State() == old(store.State()) && store.journal == old(store.journal)
    {
      var fallback, answerText, traceText := NoFallback, "", "";
      var tokenCounts: TokenCounts, latencyMs := map[], 0;
      match env.ask.chat {
        case ProviderDown => fallback := ProviderUnavailable;
        case Response(rawText, _, counts, latency) =>
          tokenCounts, latencyMs := counts, latency;
          var parsed := ParseModelOnly(decode(rawText));
          if parsed.Raised? {
            fallback, traceText := ParseFailure, rawText;
          } else {
            answerText, traceText := parsed.value, parsed.value;
          }
      }
      var q := Query(env.ask.queryId, m.communityId, question, config.ask.chatModel, fallback, env.ask.now, None);
      var trace := AnswerTrace(env.ask.traceId, env.ask.queryId, MODEL_ONLY_PROMPT_VERSION, [], traceText, fallback,
                               config.ask.chatModel, tokenCounts, latencyMs, env.ask.now);
      query.SaveRows(QueryRows(q, [], trace), env.ask);
      a := RouteAnswer(AnswerResult(fallback, question, [], None, Some(answerText), [], None, None, []),
                       Some(env.ask.queryId), None, None);
    }

    method AnswerNotesLookup(m: InboundMessage, subject: Option<Id>, env: ChatEnv) returns (r: Result<RouteAnswer, AskError>)
      requires Wired() && FreshChat(store.Trace(), env)
      modifies store
      ensures var plan := LookupPlan(old(ViewOf(store)), config, decode, m, subject, env);
              && (plan.Raised? ==> r == Raised(plan.error) && store.Trace() == old(store.Trace()))
              && (plan.Ok? ==> r == Ok(plan.value.answer)
                               && Some(store.Trace()) == PersistedIf(old(store.Trace()), plan.value.rows))
      ensures store.State() == old(store.State()) && store.journal == old(store.journal)
    {
      AnsweredContext(ViewOf(store), config.ask, decode, m, None, subject, env.ask);
      var answer := query.Answer(m, None, subject, env.ask);
      if answer.Raised? {
        return Raised(answer.error);
      }
      var context := answer.value.context;
      return Ok(RouteAnswer(answer.value, if context.Some? then Some(context.value.queryId) else None, None, None));
    }

    /** The branches that handle an unimplemented search seam alike. */
    method Dispatch(m: InboundMessage, question: string, subject: Option<Id>, effective: AnswerRoute, env: ChatEnv)
      returns (r: Result<RouteAnswer, AskError>)
      requires Wired() && FreshChat(store.Trace(), env)
      modifies store
      ensures var plan := RoutePlan(old(ViewOf(store)), config, decode, m, question, subject, effective, env);
              && (plan.Raised? ==> r == Raised(plan.error) && store.Trace() == old(store.Trace()))
              && (plan.Ok? ==> r == Ok(plan.value.answer)
                               && Some(store.Trace()) == PersistedIf(old(store.Trace()), plan.value.rows))
      ensures store.State() == old(store.State()) && store.journal == old(store.journal)
    {
      if effective == ModelOnly {
        var a := AnswerModelOnly(m, question, env);
        return Ok(a);
      }
      if effective == NotesPlusModel {
        r := AnswerNotesPlusModel(m, question, subject, env);
      } else if effective == NotesPlusKnowledge {
        r := AnswerNotesPlusKnowledge(m, question, subject, env);
      } else {
        r := AnswerNotesLookup(m, subject, env);
      }
      if r == Raised(SearchNotImplemented) {
        r := Ok(Unsearched(question));
      }
    }

    /** A classifier failure of any kind leaves the route unrequested. */
    method Classify(question: string, env: ChatEnv)
      returns (requested: Option<AnswerRoute>, rawOutput: string, latencyMs: int)
      ensures requested == RequestedRoute(question, env.classification)
      ensures rawOutput == RawClassification(question, env.classification)
      ensures latencyMs == ClassifierLatency(question, env.classification)
    {
      requested, rawOutput, latencyMs := None, "", 0;
      if question != "" {
        match env.classification {
          case Classified(route, raw, latency) => requested, rawOutput, latencyMs := Some(route), raw, latency;
          case UnusableRoute(raw) => rawOutput := raw;
          case ClassifierDown =>
        }
      }
    }

    method Chat(m: InboundMessage, subject: Option<Id>, env: ChatEnv) returns (r: Result<RoutedChatResult, AskError>)
      requires Wired() && FreshChat(store.Trace(), env)
      modifies store
      ensures var plan := ChatPlan(old(ViewOf(store)), config, decode, m, subject, env);
              && (plan.Raised? ==> r == Raised(plan.error) && store.Trace() == old(store.Trace()))
              && (plan.Ok? ==> r == Ok(plan.value.result)
                               && Some(store.Trace()) == PersistedChat(old(store.Trace()), plan.value.rows))
      ensures store.State() == old(store.State()) && store.journal == old(store.journal)
    {
      if m.communityId == "" {
        return Raised(MissingCommunity);
      }
      var question := Strip(m.payload);
      var requested, rawOutput, latencyMs := Classify(question, env);
      var effective := NotesLookup;
      if requested == Some(NotesLookup) || requested == Some(ModelOnly) || requested == Some(NotesPlusModel)
         || (requested == Some(NotesPlusKnowledge) && config.providerName.Some?) {
        effective := requested.value;
      }
      ghost var t0 := store.Trace();
      ChatPlanIs(old(ViewOf(store)), config, decode, m, subject, env, requested, effective);
      var routed := Dispatch(m, question, subject, effective, env);
      if routed.Raised? {
        return Raised(routed.error);
      }
      var a := routed.value;
      var decision := ChatRouteDecision(env.decisionId, m.communityId, question, requested, effective, config.classifierModel,
                                        rawOutput, latencyMs, a.queryId, env.decidedAt);
      ghost var plan := RoutePlan(old(ViewOf(store)), config, decode, m, question, subject, effective, env).value;
      LinksStillFresh(t0, store.Trace(), plan.rows, env);
      SaveLinks(m, decision, a, env);
      return Ok(RoutedChatResult(requested, effective, a.result, env.decisionId));
    }

    /** The decision row, then the rows that link to it. */
    method SaveLinks(m: InboundMessage, decision: ChatRouteDecision, a: RouteAnswer, env: ChatEnv)
      requires decision.decisionId == env.decisionId
      requires env.decisionId !in store.chatRouteDecisions && env.decisionId !in store.chatQueryRewrites
      requires env.decisionId !in store.chatKnowledgeSearches
      modifies store
      ensures Some(store.Trace()) ==
              PersistedSearch(
                PersistedRewrite(WithDecision(old(store.Trace()), decision),
                                 if a.rewrite.Some? then Some(RewriteRow(m, a.rewrite.value, env)) else None),
                if a.knowledge.Some? then Some(SearchRow(config, m, a.knowledge.value, env)) else None)
      ensures store.State() == old(store.State()) && store.journal == old(store.journal)
    {
      var savedDecision := store.SaveChatRouteDecision(decision);
      if a.rewrite.Some? {
        var savedRewrite := store.SaveChatQueryRewrite(RewriteRow(m, a.rewrite.value, env));
      }
      if a.knowledge.Some? {
        var savedSearch := store.SaveChatKnowledgeSearch(SearchRow(config, m, a.knowledge.value, env));
      }
    }
  }

  /** Saving query rows leaves the decision tables alone. */
  lemma LinksStillFresh(t: Traces, u: Traces, rows: Option<QueryRows>, env: ChatEnv)
    requires Some(u) == PersistedIf(t, rows)
    ensures u.decisions == t.decisions && u.rewrites == t.rewrites && u.searches == t.searches
  {
    if rows.Some? {
      HitsOnly(WithQuery(t, rows.value.query).value, rows.value.hits);
    }
  }

  lemma {:induction false} HitsOnly(t: Traces, hits: seq<RetrievalHit>)
    ensures WithHits(t, hits).Some? ==> WithHits(t, hits).value == t.(hits := WithHits(t, hits).value.hits)
    decreases |hits|
  {
    if hits != [] && hits[0].hitId !in t.hits {
      HitsOnly(t.(hits := t.hits[hits[0].hitId := hits[0]]), hits[1..]);
    }
  }
}
