/** The `/ask` service (`services/query_service.py`): hybrid retrieval, grading, and one trace a call. */
module QueryService {
  import opened Answering
  import opened Candidates
  import opened Fusion
  import opened FusionBounds
  import opened MockDomainStore
  import opened Models
  import opened Tables
  import opened Traces
  import opened Wrappers

  function ViewOf(store: Store): SearchView
    reads store
  {
    SearchView(store.State(), store.distance, store.tokenize)
  }

  class Service {
    const store: Store
    const config: AskConfig
    const decode: Decoder

    constructor (store: Store, config: AskConfig, decode: Decoder)
      ensures this.store == store && this.config == config && this.decode == decode
    {
      this.store, this.config, this.decode := store, config, decode;
    }

    method Retrieve(scope: Scope, queryText: string, env: AskEnv) returns (r: Result<RetrievedCandidates, AskError>)
      requires config.topK > 0
      ensures r == Retrieved(ViewOf(store), config, scope, queryText, env)
    {
      if scope.communityId == "" {
        return Raised(MissingCommunity);
      }
      if env.embedding == None {
        return Raised(EmbeddingFailed);
      }
      if !env.searchImplemented {
        return Raised(SearchNotImplemented);
      }
      var dense := store.DenseCandidates(scope, env.embedding.value, config.embedModel, config.candidateK);
      if dense.Raised? {
        return Raised(VectorMismatch);
      }
      var sparse := store.SparseCandidates(scope, queryText, config.candidateK);
      var merged := ReciprocalRankFusion([dense.value, sparse.value], config.topK, DEFAULT_RRF_K);
      return Ok(RetrievedCandidates(dense.value, sparse.value, merged.value, config.embedModel));
    }

    /** Query row first, then its hits, then its answer trace. */
    method SaveRows(rows: QueryRows, ghost env: AskEnv)
      requires FreshAsk(store.Trace(), env) && rows.query.queryId == env.queryId && rows.answer.queryId == env.queryId
      requires forall i :: 0 <= i < |rows.hits| ==> rows.hits[i].hitId == env.hitIds(i)
      modifies store
      ensures Some(store.Trace()) == Persisted(old(store.Trace()), rows)
      ensures store.State() == old(store.State()) && store.journal == old(store.journal)
    {
      FreshPersists(store.Trace(), env, rows);
      var savedQuery := store.SaveQuery(rows.query);
      if rows.hits != [] {
        var savedHits := store.SaveRetrievalHits(rows.hits);
      }
      var savedAnswer := store.SaveAnswerTrace(rows.answer);
    }

    method Finalize(
      communityId: Id, queryText: string, subject: Option<Id>, found: RetrievedCandidates, g: Grading, env: AskEnv)
      returns (result: AnswerResult)
      requires FreshAsk(store.Trace(), env)
      modifies store
      ensures var done := Finalized(config, env, communityId, queryText, subject, found, PROMPT_VERSION, env.traceNow, g);
              result == done.result && Some(store.Trace()) == Persisted(old(store.Trace()), done.rows)
      ensures store.State() == old(store.State()) && store.journal == old(store.journal)
    {
      var chunks := MergedChunks(found.merged);
      var query := Query(env.queryId, communityId, queryText, config.embedModel, g.fallback, env.now, subject);
      var hits := BuildRetrievalHits(env.queryId, config.embedModel, env.now, found, env.hitIds);
      HitRowIds(env.queryId, config.embedModel, env.now, found, env.hitIds);
      var trace := AnswerTrace(env.traceId, env.queryId, PROMPT_VERSION, ChunkIds(chunks), g.traceText, g.fallback,
                               g.traceModel, g.tokenCounts, g.latencyMs, env.traceNow);
      SaveRows(QueryRows(query, hits, trace), env);
      result := AnswerResult(g.fallback, queryText, EvidenceOf(chunks),
                             Some(AnswerContext(env.queryId, queryText, chunks, config.embedModel, env.now)),
                             g.answerText, g.cited, g.modelText, g.knowledgeText, g.knowledgeRefs);
    }

    method Answer(m: InboundMessage, dates: Option<DateRange>, subject: Option<Id>, env: AskEnv)
      returns (r: Result<AnswerResult, AskError>)
      requires config.topK > 0 && FreshAsk(store.Trace(), env)
      modifies store
      ensures var plan := AskPlan(old(ViewOf(store)), config, decode, m, dates, subject, env);
              && (plan.Raised? ==> r == Raised(plan.error) && store.Trace() == old(store.Trace()))
              && (plan.Ok? ==> r == Ok(plan.value.result) && Some(store.Trace()) == Persisted(old(store.Trace()), plan.value.rows))
      ensures store.State() == old(store.State()) && store.journal == old(store.journal)
    {
      if m.communityId == "" {
        return Raised(MissingCommunity);
      }
      var queryText := NormalizeQuery(m.payload);
      if queryText == "" {
        var empty := Finalize(m.communityId, queryText, subject, NothingFound(config), Unanswered(NoEvidence, config.chatModel), env);
        return Ok(empty);
      }
      var found := Retrieve(Scope(m.communityId, dates, subject), queryText, env);
      if found.Raised? {
        return Raised(found.error);
      }
      if found.value.merged == [] {
        var nothing := Finalize(m.communityId, queryText, subject, found.value, Unanswered(NoEvidence, config.chatModel), env);
        return Ok(nothing);
      }
      var chunks := MergedChunks(found.value.merged);
      if SpansCommunities(chunks) {
        return Raised(CrossCommunity);
      }
      var graded := GradeAsk(chunks, env.chat, config.chatModel, decode);
      if graded.Raised? {
        return Raised(graded.error);
      }
      var answered := Finalize(m.communityId, queryText, subject, found.value, graded.value, env);
      return Ok(answered);
    }
  }

  /** The constructor's checks: the default candidate pool covers the default cut. */
  method Create(store: Store, config: AskConfig, decode: Decoder) returns (r: Result<Service, StoreError>)
    ensures r.Ok? <==> 0 < config.topK <= config.candidateK
    ensures r.Ok? ==> r.value.store == store && r.value.config == config && r.value.decode == decode
    ensures r.Raised? ==> r.error == ValueError
  {
    if config.topK <= 0 || config.candidateK < config.topK {
      return Raised(ValueError);
    }
    var service := new Service(store, config, decode);
    return Ok(service);
  }
}
