/** End to end: what an answer cites, where that comes from, and what `/sources` shows of it later. */
module Grounding {
  import opened AnswerParsers
  import opened Answering
  import opened Candidates
  import opened ChatPlans
  import opened Diary
  import opened Dispatcher
  import opened Fusion
  import opened FusionBounds
  import opened Legs
  import opened Models
  import opened Plans
  import opened Sorting
  import opened Tables
  import opened Text
  import opened TraceAccounting
  import opened Traces
  import opened Wrappers

  // ---- The context ----

  /** Fusion brings in nothing of its own. */
  lemma FusedFromLegs(dense: seq<EventChunk>, sparse: seq<EventChunk>, n: nat)
    ensures var merged := Take(Fused([dense, sparse], DEFAULT_RRF_K), n);
            && |merged| <= n && NoMergedRepeat(merged)
            && forall c :: c in MergedChunks(merged) ==> c in dense || c in sparse
  {
    var legs := [dense, sparse];
    var hits := Fused(legs, DEFAULT_RRF_K);
    FusedNoRepeat(legs, DEFAULT_RRF_K, n);
    assert legs[..1] == [dense] && [dense][..0] == [];
    assert Fusion.Concat([dense]) == [] + dense;
    assert Fusion.Concat(legs) == dense + sparse;
    var merged := Take(hits, n);
    forall c | c in MergedChunks(merged) ensures c in dense || c in sparse {
      var i :| 0 <= i < |merged| && MergedChunks(merged)[i] == c;
      assert IsHit(legs, DEFAULT_RRF_K, hits[i]);
    }
  }

  lemma MergedInScope(v: SearchView, c: AskConfig, scope: Scope, queryText: string, env: AskEnv)
    requires Consistent(v.diary) && c.topK > 0
    ensures var r := Retrieved(v, c, scope, queryText, env);
            r.Ok? ==> ContextFrom(MergedChunks(r.value.merged), v.diary, scope) && |r.value.merged| <= c.topK
  {
    RetrievedIsSound(v, c, scope, queryText, env);
    var r := Retrieved(v, c, scope, queryText, env);
    if r.Ok? {
      FusedFromLegs(r.value.dense, r.value.sparse, c.topK);
    }
  }

  /** Chunks both legs found come before chunks one leg found. */
  ghost predicate ConsensusLeads(found: RetrievedCandidates) {
    forall i, j :: 0 <= i < j < |found.merged| && InBoth(found.dense, found.sparse, found.merged[j].chunk.chunkId) ==>
      InBoth(found.dense, found.sparse, found.merged[i].chunk.chunkId)
  }

  lemma FoundConsensusFirst(found: RetrievedCandidates, d: Diary, scope: Scope, c: AskConfig)
    requires c.topK > 0 && SoundFind(found, d, scope, c) && c.candidateK <= DEFAULT_RRF_K + 1
    ensures ConsensusLeads(found)
  {
    var hits := Fused([found.dense, found.sparse], DEFAULT_RRF_K);
    forall i, j | 0 <= i < j < |found.merged| && InBoth(found.dense, found.sparse, found.merged[j].chunk.chunkId)
      ensures InBoth(found.dense, found.sparse, found.merged[i].chunk.chunkId)
    {
      ConsensusFirst(found.dense, found.sparse, DEFAULT_RRF_K, hits, i, j);
    }
  }

  /**
   * With a candidate pool of at most 61 a leg (20 by default), what `retrieve` returns lists every chunk
   * both legs found before any that only one found.
   */
  lemma RetrievedConsensusFirst(v: SearchView, c: AskConfig, scope: Scope, queryText: string, env: AskEnv)
    requires Consistent(v.diary) && 0 < c.topK && c.candidateK <= DEFAULT_RRF_K + 1
    ensures var r := Retrieved(v, c, scope, queryText, env); r.Ok? ==> ConsensusLeads(r.value)
  {
    RetrievedIsSound(v, c, scope, queryText, env);
    var r := Retrieved(v, c, scope, queryText, env);
    if r.Ok? {
      FoundConsensusFirst(r.value, v.diary, scope, c);
    }
  }

  /** Chunks of one community never span two. */
  lemma OneCommunity(chunks: seq<EventChunk>, d: Diary, scope: Scope)
    requires ContextFrom(chunks, d, scope)
    ensures !SpansCommunities(chunks)
  {
    var communities := set c | c in chunks :: c.communityId;
    assert communities <= {scope.communityId};
    SubsetCount(communities, {scope.communityId});
  }

  // ---- Grounded answers ----

  /**
   * The answer's context is in scope, it cites nothing else, and every ending that claims evidence has
   * citations.
   */
  ghost predicate GroundedAnswer(a: AnswerResult, d: Diary, scope: Scope) {
    && (a.context.Some? ==> ContextFrom(a.context.value.orderedChunks, d, scope))
    && (forall id :: id in a.citedChunkIds ==> a.context.Some? && id in IdSet(a.context.value.orderedChunks))
    && (a.context.Some? && (a.fallback == NoFallback || a.fallback == WeakEvidence || a.fallback == Ambiguous) ==>
          a.citedChunkIds != [])
  }

  /** A grading that cites from the chunks only, and must cite to claim evidence. */
  ghost predicate GroundedGrading(g: Grading, chunks: seq<EventChunk>) {
    && Grounded(g.cited, IdSet(chunks))
    && (g.fallback == NoFallback || g.fallback == WeakEvidence || g.fallback == Ambiguous ==> g.cited != [])
  }

  lemma AskGradingGrounded(chunks: seq<EventChunk>, chat: ChatOutcome, chatModel: string, decode: Decoder)
    ensures var g := GradeAsk(chunks, chat, chatModel, decode);
            g != Raised(CrossCommunity) && (g.Ok? ==> GroundedGrading(g.value, chunks))
  {
    if chat.Response? && ParseStructured(decode(chat.rawText), IdSet(chunks)).Ok? {
      StructuredForward(decode(chat.rawText), IdSet(chunks));
    }
  }

  lemma MixedGradingGrounded(chunks: seq<EventChunk>, refs: set<string>, chat: ChatOutcome, chatModel: string, decode: Decoder)
    ensures var g := GradeNotesPlusModel(chunks, chat, chatModel, decode);
            g != Raised(CrossCommunity) && (g.Ok? ==> GroundedGrading(g.value, chunks))
    ensures var g := GradeNotesPlusKnowledge(chunks, refs, chat, chatModel, decode);
            && g != Raised(CrossCommunity)
            && (g.Ok? ==> GroundedGrading(g.value, chunks) && Grounded(g.value.knowledgeRefs, refs))
  {
    if chat.Response? {
      if ParseNotesPlusModel(decode(chat.rawText), IdSet(chunks)).Ok? {
        NotesPlusModelForward(decode(chat.rawText), IdSet(chunks));
      }
      if ParseNotesPlusKnowledge(decode(chat.rawText), IdSet(chunks), refs).Ok? {
        NotesPlusKnowledgeForward(decode(chat.rawText), IdSet(chunks), refs);
      }
    }
  }

  lemma FinalizedGrounded(
    c: AskConfig, env: AskEnv, queryText: string, subject: Option<Id>, found: RetrievedCandidates, promptVersion: string,
    tracedAt: Time, g: Grading, d: Diary, scope: Scope)
    requires ContextFrom(MergedChunks(found.merged), d, scope) && GroundedGrading(g, MergedChunks(found.merged))
    ensures GroundedAnswer(Finalized(c, env, scope.communityId, queryText, subject, found, promptVersion, tracedAt, g).result, d, scope)
  {
  }

  /**
   * Whatever the store holds, the query asks and the model outputs: an `/ask` answer is grounded in the
   * asker's own live chunks within the date and subject scope, and never ends in the cross-community error.
   */
  lemma AskGrounded(
    v: SearchView, c: AskConfig, decode: Decoder, m: InboundMessage, dates: Option<DateRange>, subject: Option<Id>, env: AskEnv)
    requires Consistent(v.diary) && c.topK > 0
    ensures var plan := AskPlan(v, c, decode, m, dates, subject, env);
            && plan != Raised(CrossCommunity)
            && (plan.Ok? ==> GroundedAnswer(plan.value.result, v.diary, Scope(m.communityId, dates, subject)))
  {
    var queryText, scope := NormalizeQuery(m.payload), Scope(m.communityId, dates, subject);
    if m.communityId != "" && queryText != "" {
      SearchedGrounded(v, c, decode, m, dates, subject, env);
    }
  }

  lemma SearchedGrounded(
    v: SearchView, c: AskConfig, decode: Decoder, m: InboundMessage, dates: Option<DateRange>, subject: Option<Id>, env: AskEnv)
    requires Consistent(v.diary) && c.topK > 0 && m.communityId != "" && NormalizeQuery(m.payload) != ""
    ensures var plan := AskPlan(v, c, decode, m, dates, subject, env);
            && plan != Raised(CrossCommunity)
            && (plan.Ok? ==> GroundedAnswer(plan.value.result, v.diary, Scope(m.communityId, dates, subject)))
  {
    var queryText, scope := NormalizeQuery(m.payload), Scope(m.communityId, dates, subject);
    var r := Retrieved(v, c, scope, queryText, env);
    MergedInScope(v, c, scope, queryText, env);
    RetrievedErrors(v, c, scope, queryText, env);
    if r.Ok? {
      var chunks := MergedChunks(r.value.merged);
      OneCommunity(chunks, v.diary, scope);
      var g := if chunks == [] then Ok(Unanswered(NoEvidence, c.chatModel)) else GradeAsk(chunks, env.chat, c.chatModel, decode);
      AskGradingGrounded(chunks, env.chat, c.chatModel, decode);
      if g.Ok? {
        FinalizedGrounded(c, env, queryText, subject, r.value, PROMPT_VERSION, env.traceNow, g.value, v.diary, scope);
      }
    }
  }

  lemma RetrievedErrors(v: SearchView, c: AskConfig, scope: Scope, queryText: string, env: AskEnv)
    requires c.topK > 0
    ensures Retrieved(v, c, scope, queryText, env) != Raised(CrossCommunity)
  {
  }

  // ---- Grounded chats ----

  lemma NotesPlusModelGrounded(
    v: SearchView, config: ChatConfig, decode: Decoder, m: InboundMessage, question: string, subject: Option<Id>, env: ChatEnv)
    requires Consistent(v.diary) && config.ask.topK > 0
    ensures var plan := NotesPlusModelPlan(v, config, decode, m, question, subject, env);
            && plan != Raised(CrossCommunity)
            && (plan.Ok? ==>
                  GroundedAnswer(plan.value.answer.result, v.diary,
                                 Scope(m.communityId, Captured(config.rewriterModel, env.rewrite).dates, subject)))
  {
    var capture := Captured(config.rewriterModel, env.rewrite);
    var scope, text := Scope(m.communityId, capture.dates, subject), RetrievalQuery(capture, question);
    var r := Retrieved(v, config.ask, scope, text, env.ask);
    MergedInScope(v, config.ask, scope, text, env.ask);
    RetrievedErrors(v, config.ask, scope, text, env.ask);
    if r.Ok? {
      var chunks := MergedChunks(r.value.merged);
      OneCommunity(chunks, v.diary, scope);
      var g := GradeNotesPlusModel(chunks, env.ask.chat, config.ask.chatModel, decode);
      MixedGradingGrounded(chunks, {}, env.ask.chat, config.ask.chatModel, decode);
      if g.Ok? {
        FinalizedGrounded(config.ask, env.ask, question, subject, r.value, NOTES_PLUS_MODEL_PROMPT_VERSION, env.ask.now,
                          g.value, v.diary, scope);
      }
    }
  }

  /** The knowledge route also cites only refs its search returned. */
  lemma NotesPlusKnowledgeGrounded(
    v: SearchView, config: ChatConfig, decode: Decoder, m: InboundMessage, question: string, subject: Option<Id>, env: ChatEnv)
    requires Consistent(v.diary) && config.ask.topK > 0
    ensures var plan := NotesPlusKnowledgePlan(v, config, decode, m, question, subject, env);
            && plan != Raised(CrossCommunity)
            && (plan.Ok? ==>
                  && GroundedAnswer(plan.value.answer.result, v.diary,
                                    Scope(m.communityId, Captured(config.rewriterModel, env.rewrite).dates, subject))
                  && Grounded(plan.value.answer.result.knowledgeRefs, Refs(Excerpts(env.search))))
  {
    var capture := Captured(config.rewriterModel, env.rewrite);
    var scope, text := Scope(m.communityId, capture.dates, subject), RetrievalQuery(capture, question);
    var r := Retrieved(v, config.ask, scope, text, env.ask);
    MergedInScope(v, config.ask, scope, text, env.ask);
    RetrievedErrors(v, config.ask, scope, text, env.ask);
    if r.Ok? {
      var chunks, refs := MergedChunks(r.value.merged), Refs(Excerpts(env.search));
      OneCommunity(chunks, v.diary, scope);
      var g := GradeNotesPlusKnowledge(chunks, refs, env.ask.chat, config.ask.chatModel, decode);
      MixedGradingGrounded(chunks, refs, env.ask.chat, config.ask.chatModel, decode);
      if g.Ok? {
        FinalizedGrounded(config.ask, env.ask, question, subject, r.value, NOTES_PLUS_KNOWLEDGE_PROMPT_VERSION, env.ask.now,
                          g.value, v.diary, scope);
      }
    }
  }

  /** The dates a chat's retrieval was scoped to: only a mixed route's rewrite sets any. */
  function ChatDates(config: ChatConfig, effective: AnswerRoute, env: ChatEnv): Option<DateRange> {
    if Mixed(effective) then Captured(config.rewriterModel, env.rewrite).dates else None
  }

  /** The same for every route of `/chat`; a model-only answer has no context and cites nothing. */
  lemma ChatGrounded(v: SearchView, config: ChatConfig, decode: Decoder, m: InboundMessage, subject: Option<Id>, env: ChatEnv)
    requires Consistent(v.diary) && config.ask.topK > 0
    ensures var plan := ChatPlan(v, config, decode, m, subject, env);
            && plan != Raised(CrossCommunity)
            && (plan.Ok? ==>
                  var r := plan.value.result;
                  GroundedAnswer(r.answer, v.diary, Scope(m.communityId, ChatDates(config, r.effective, env), subject)))
  {
    if m.communityId != "" {
      var question := Strip(m.payload);
      var requested := RequestedRoute(question, env.classification);
      var effective := EffectiveRoute(requested, config);
      ChatPlanIs(v, config, decode, m, subject, env, requested, effective);
      RouteGrounded(v, config, decode, m, question, subject, effective, env);
    }
  }

  lemma RouteGrounded(
    v: SearchView, config: ChatConfig, decode: Decoder, m: InboundMessage, question: string, subject: Option<Id>,
    effective: AnswerRoute, env: ChatEnv)
    requires Consistent(v.diary) && config.ask.topK > 0
    ensures var r := RoutePlan(v, config, decode, m, question, subject, effective, env);
            && r != Raised(CrossCommunity)
            && (r.Ok? ==> GroundedAnswer(r.value.answer.result, v.diary,
                                         Scope(m.communityId, ChatDates(config, effective, env), subject)))
  {
    match effective
    case ModelOnly =>
    case NotesPlusModel => NotesPlusModelGrounded(v, config, decode, m, question, subject, env);
    case NotesPlusKnowledge => NotesPlusKnowledgeGrounded(v, config, decode, m, question, subject, env);
    case NotesLookup => AskGrounded(v, config.ask, decode, m, None, subject, env.ask);
  }

  // ---- /sources ----

  /** What `/sources` shows of a grounded answer: exactly its citations, in fused order, each from its scope. */
  lemma ShownAreCited(a: AnswerResult, d: Diary, scope: Scope)
    requires GroundedAnswer(a, d, scope)
    ensures forall id :: id in a.citedChunkIds <==> Shown(CitedChunks(a), id)
    ensures ContextFrom(CitedChunks(a), d, scope)
    ensures a.context.Some? ==> CitedChunks(a) == Filter(a.context.value.orderedChunks, CitedTest(CitedSet(a)))
  {
    if a.context.Some? {
      var chunks := a.context.value.orderedChunks;
      forall c: EventChunk ensures c in Filter(chunks, CitedTest(CitedSet(a))) <==> c in chunks && c.chunkId in a.citedChunkIds {
        FilterIn(chunks, CitedTest(CitedSet(a)), c);
      }
      forall id | id in a.citedChunkIds ensures Shown(CitedChunks(a), id) {
        var c :| c in chunks && c.chunkId == id;
        assert id in CitedSet(a) && c in CitedChunks(a);
      }
      if CitedSet(a) == {} {
        FilterNone(chunks, CitedTest(CitedSet(a)));
      }
    }
  }

  ghost predicate Shown(chunks: seq<EventChunk>, id: Id) {
    exists c :: c in chunks && c.chunkId == id
  }
}
