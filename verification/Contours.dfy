/** Whatever branch an answer takes, its rows and its result tell the same story about the provider call. */
module Contours {
  import opened Answering
  import opened Candidates
  import opened ChatPlans
  import opened FusionBounds
  import opened Models
  import opened Tables
  import opened Text
  import opened Traces
  import opened Wrappers

  /** A failed parse keeps the raw output, a failed call leaves nothing, and neither cites anything. */
  predicate CallTraced(fallback: FallbackMode, text: string, tokens: TokenCounts, latencyMs: int, cited: seq<Id>, chat: ChatOutcome) {
    && (fallback == ParseFailure ==>
          chat.Response? && text == chat.rawText && tokens == chat.tokenCounts && latencyMs == chat.latencyMs && cited == [])
    && (fallback == ProviderUnavailable ==> chat.ProviderDown? && text == "" && tokens == map[] && latencyMs == 0 && cited == [])
    && (cited != [] ==> chat.Response? && tokens == chat.tokenCounts && latencyMs == chat.latencyMs)
  }

  /** The merged hits are the context, in its order, with ranks from one. */
  ghost predicate MergedAreContext(hits: seq<RetrievalHit>, chunks: seq<EventChunk>) {
    && (forall h :: h in hits && h.leg == MergedLeg ==> 1 <= h.rank <= |chunks| && chunks[h.rank - 1].chunkId == h.chunkId)
    && (forall i :: 0 <= i < |chunks| ==> MergedHit(hits, i + 1, chunks[i].chunkId))
  }

  ghost predicate MergedHit(hits: seq<RetrievalHit>, rank: nat, chunkId: Id) {
    exists h :: h in hits && h.leg == MergedLeg && h.rank == rank && h.chunkId == chunkId
  }

  /** The evidence lists the context, chunk by chunk. */
  ghost predicate EvidenceListed(evidence: seq<Evidence>, chunks: seq<EventChunk>) {
    && |evidence| == |chunks|
    && forall i :: 0 <= i < |chunks| ==>
         evidence[i].chunkId == chunks[i].chunkId && evidence[i].noteDate == chunks[i].noteDate
         && evidence[i].chunkText == chunks[i].chunkText
  }

  /** The query row, the answer trace, the hits and the returned answer agree. */
  ghost predicate FaithfulTrace(rows: QueryRows, a: AnswerResult, chat: ChatOutcome) {
    var q, t := rows.query, rows.answer;
    && q.fallback == a.fallback == t.fallback && q.queryText == a.queryText && q.queryId == t.queryId
    && CallTraced(a.fallback, t.answerText, t.tokenCounts, t.latencyMs, a.citedChunkIds, chat)
    && (a.context == None ==> t.contextChunkIds == [] && rows.hits == [] && a.evidence == [])
    && (a.context.Some? ==>
          var chunks := a.context.value.orderedChunks;
          && a.context.value.queryId == q.queryId
          && t.contextChunkIds == ChunkIds(chunks) && EvidenceListed(a.evidence, chunks) && MergedAreContext(rows.hits, chunks))
  }

  lemma HitsAreContext(queryId: Id, modelName: string, at: Time, found: RetrievedCandidates, ids: IdSource)
    ensures MergedAreContext(HitRows(queryId, modelName, at, found, ids), MergedChunks(found.merged))
  {
    var rows, chunks, n := HitRows(queryId, modelName, at, found, ids), MergedChunks(found.merged), |found.dense| + |found.sparse|;
    assert forall i :: 0 <= i < n ==> rows[i].leg != MergedLeg;
    forall h | h in rows && h.leg == MergedLeg ensures 1 <= h.rank <= |chunks| && chunks[h.rank - 1].chunkId == h.chunkId {
      var i :| 0 <= i < |rows| && rows[i] == h;
    }
    forall i | 0 <= i < |chunks| ensures MergedHit(rows, i + 1, chunks[i].chunkId) {
      assert rows[n + i] in rows && rows[n + i].leg == MergedLeg;
    }
  }

  predicate GradingTraced(g: Grading, chat: ChatOutcome) {
    CallTraced(g.fallback, g.traceText, g.tokenCounts, g.latencyMs, g.cited, chat)
  }

  lemma GradingsTraced(chunks: seq<EventChunk>, refs: set<string>, chat: ChatOutcome, chatModel: string, decode: Decoder)
    ensures var g := GradeAsk(chunks, chat, chatModel, decode); g.Ok? ==> GradingTraced(g.value, chat)
    ensures var g := GradeNotesPlusModel(chunks, chat, chatModel, decode); g.Ok? ==> GradingTraced(g.value, chat)
    ensures var g := GradeNotesPlusKnowledge(chunks, refs, chat, chatModel, decode); g.Ok? ==> GradingTraced(g.value, chat)
    ensures GradingTraced(GradeModelOnly(chat, chatModel, decode), chat)
  {
  }

  lemma FinalizedFaithful(
    c: AskConfig, env: AskEnv, communityId: Id, queryText: string, subject: Option<Id>, found: RetrievedCandidates,
    promptVersion: string, tracedAt: Time, g: Grading)
    requires GradingTraced(g, env.chat)
    ensures var done := Finalized(c, env, communityId, queryText, subject, found, promptVersion, tracedAt, g);
            FaithfulTrace(done.rows, done.result, env.chat)
  {
    HitsAreContext(env.queryId, c.embedModel, env.now, found, env.hitIds);
  }

  /** Every `/ask` that returns, empty, unanswered, unparsed or graded, is traced faithfully. */
  lemma AskFaithful(
    v: SearchView, c: AskConfig, decode: Decoder, m: InboundMessage, dates: Option<DateRange>, subject: Option<Id>, env: AskEnv)
    requires c.topK > 0
    ensures var plan := AskPlan(v, c, decode, m, dates, subject, env);
            plan.Ok? ==> FaithfulTrace(plan.value.rows, plan.value.result, env.chat)
  {
    var queryText := NormalizeQuery(m.payload);
    if m.communityId != "" && queryText == "" {
      FinalizedFaithful(c, env, m.communityId, queryText, subject, NothingFound(c), PROMPT_VERSION, env.traceNow,
                        Unanswered(NoEvidence, c.chatModel));
    } else if m.communityId != "" {
      SearchedFaithful(v, c, decode, m, dates, subject, env);
    }
  }

  lemma SearchedFaithful(
    v: SearchView, c: AskConfig, decode: Decoder, m: InboundMessage, dates: Option<DateRange>, subject: Option<Id>, env: AskEnv)
    requires c.topK > 0 && m.communityId != "" && NormalizeQuery(m.payload) != ""
    ensures var plan := AskPlan(v, c, decode, m, dates, subject, env);
            plan.Ok? ==> FaithfulTrace(plan.value.rows, plan.value.result, env.chat)
  {
    var queryText := NormalizeQuery(m.payload);
    var r := Retrieved(v, c, Scope(m.communityId, dates, subject), queryText, env);
    if r.Ok? {
      var g := if r.value.merged == [] then Ok(Unanswered(NoEvidence, c.chatModel))
               else GradeAsk(MergedChunks(r.value.merged), env.chat, c.chatModel, decode);
      GradingsTraced(MergedChunks(r.value.merged), {}, env.chat, c.chatModel, decode);
      if g.Ok? {
        FinalizedFaithful(c, env, m.communityId, queryText, subject, r.value, PROMPT_VERSION, env.traceNow, g.value);
      }
    }
  }

  ghost predicate RoutedFaithful(r: Routed, chat: ChatOutcome) {
    r.rows.Some? ==> FaithfulTrace(r.rows.value, r.answer.result, chat)
  }

  lemma NotesPlusModelFaithful(
    v: SearchView, config: ChatConfig, decode: Decoder, m: InboundMessage, question: string, subject: Option<Id>, env: ChatEnv)
    requires config.ask.topK > 0
    ensures var r := NotesPlusModelPlan(v, config, decode, m, question, subject, env);
            r.Ok? ==> RoutedFaithful(r.value, env.ask.chat)
  {
    var capture := Captured(config.rewriterModel, env.rewrite);
    var r := Retrieved(v, config.ask, Scope(m.communityId, capture.dates, subject), RetrievalQuery(capture, question), env.ask);
    if NotesPlusModelPlan(v, config, decode, m, question, subject, env).Ok? {
      var g := GradeNotesPlusModel(MergedChunks(r.value.merged), env.ask.chat, config.ask.chatModel, decode).value;
      GradingsTraced(MergedChunks(r.value.merged), {}, env.ask.chat, config.ask.chatModel, decode);
      FinalizedFaithful(config.ask, env.ask, m.communityId, question, subject, r.value, NOTES_PLUS_MODEL_PROMPT_VERSION,
                        env.ask.now, g);
    }
  }

  lemma NotesPlusKnowledgeFaithful(
    v: SearchView, config: ChatConfig, decode: Decoder, m: InboundMessage, question: string, subject: Option<Id>, env: ChatEnv)
    requires config.ask.topK > 0
    ensures var r := NotesPlusKnowledgePlan(v, config, decode, m, question, subject, env);
            r.Ok? ==> RoutedFaithful(r.value, env.ask.chat)
  {
    var capture := Captured(config.rewriterModel, env.rewrite);
    var r := Retrieved(v, config.ask, Scope(m.communityId, capture.dates, subject), RetrievalQuery(capture, question), env.ask);
    if NotesPlusKnowledgePlan(v, config, decode, m, question, subject, env).Ok? {
      var refs := Refs(Excerpts(env.search));
      var g := GradeNotesPlusKnowledge(MergedChunks(r.value.merged), refs, env.ask.chat, config.ask.chatModel, decode).value;
      GradingsTraced(MergedChunks(r.value.merged), refs, env.ask.chat, config.ask.chatModel, decode);
      FinalizedFaithful(config.ask, env.ask, m.communityId, question, subject, r.value, NOTES_PLUS_KNOWLEDGE_PROMPT_VERSION,
                        env.ask.now, g);
    }
  }

  lemma RouteFaithful(
    v: SearchView, config: ChatConfig, decode: Decoder, m: InboundMessage, question: string, subject: Option<Id>,
    effective: AnswerRoute, env: ChatEnv)
    requires config.ask.topK > 0
    ensures var r := RoutePlan(v, config, decode, m, question, subject, effective, env);
            r.Ok? ==> RoutedFaithful(r.value, env.ask.chat)
  {
    match effective
    case ModelOnly => GradingsTraced([], {}, env.ask.chat, config.ask.chatModel, decode);
    case NotesPlusModel => NotesPlusModelFaithful(v, config, decode, m, question, subject, env);
    case NotesPlusKnowledge => NotesPlusKnowledgeFaithful(v, config, decode, m, question, subject, env);
    case NotesLookup => AskFaithful(v, config.ask, decode, m, None, subject, env.ask);
  }

  /** So is every `/chat`, whichever route it took. */
  lemma ChatFaithful(v: SearchView, config: ChatConfig, decode: Decoder, m: InboundMessage, subject: Option<Id>, env: ChatEnv)
    requires config.ask.topK > 0
    ensures var plan := ChatPlan(v, config, decode, m, subject, env);
            plan.Ok? && plan.value.rows.rows.Some? ==>
              FaithfulTrace(plan.value.rows.rows.value, plan.value.result.answer, env.ask.chat)
  {
    if m.communityId != "" {
      var question := Strip(m.payload);
      var requested := RequestedRoute(question, env.classification);
      var effective := EffectiveRoute(requested, config);
      ChatPlanIs(v, config, decode, m, subject, env, requested, effective);
      RouteFaithful(v, config, decode, m, question, subject, effective, env);
    }
  }
}
