/** The question-answering trace tables and the rows they hold. */
module Traces {
  import opened Candidates
  import opened Models
  import opened Tables
  import opened Wrappers

  datatype RetrievalLeg = DenseLeg | SparseLeg | MergedLeg

  datatype Query = Query(
    queryId: Id, communityId: Id, queryText: string, modelName: string, fallback: FallbackMode,
    createdAt: Time, subjectScope: Option<Id>)

  datatype RetrievalHit = RetrievalHit(
    hitId: Id, queryId: Id, chunkId: Id, leg: RetrievalLeg, rank: nat, score: real,
    modelName: string, createdAt: Time)

  type TokenCounts = map<string, int>

  datatype AnswerTrace = AnswerTrace(
    traceId: Id, queryId: Id, promptVersion: string, contextChunkIds: seq<Id>, answerText: string,
    fallback: FallbackMode, modelName: string, tokenCounts: TokenCounts, latencyMs: int, createdAt: Time)

  datatype AnswerRoute = NotesLookup | NotesPlusModel | NotesPlusKnowledge | ModelOnly

  datatype ChatRouteDecision = ChatRouteDecision(
    decisionId: Id, communityId: Id, questionText: string, requested: Option<AnswerRoute>, effective: AnswerRoute,
    classifierModelName: string, classifierRawOutput: string, classifierLatencyMs: int,
    queryId: Option<Id>, createdAt: Time)

  datatype ChatQueryRewrite = ChatQueryRewrite(
    rewriteId: Id, decisionId: Id, communityId: Id, rewrittenQuery: Option<string>, dates: Option<DateRange>,
    subjectScope: Option<Id>, modelName: string, rawOutput: string, latencyMs: int, createdAt: Time)

  datatype ChatKnowledgeSearch = ChatKnowledgeSearch(
    searchId: Id, decisionId: Id, communityId: Id, outwardQuery: string, outwardModelName: string,
    outwardRawOutput: string, outwardLatencyMs: int, providerName: string, resultCount: nat,
    rawOutput: string, latencyMs: int, createdAt: Time)

  /** Answer traces are keyed by query; rewrite and knowledge rows by decision. */
  datatype Traces = Traces(
    queries: map<Id, Query>,
    hits: map<Id, RetrievalHit>,
    answers: map<Id, AnswerTrace>,
    decisions: map<Id, ChatRouteDecision>,
    rewrites: map<Id, ChatQueryRewrite>,
    searches: map<Id, ChatKnowledgeSearch>)

  const NO_TRACES := Traces(map[], map[], map[], map[], map[], map[])

  /** The rows one `save_*` call adds; None when the store raises instead. */
  function WithQuery(t: Traces, q: Query): Option<Traces> {
    if q.queryId in t.queries then None else Some(t.(queries := t.queries[q.queryId := q]))
  }

  function WithAnswer(t: Traces, a: AnswerTrace): Option<Traces> {
    if a.queryId in t.answers then None else Some(t.(answers := t.answers[a.queryId := a]))
  }

  function WithHits(t: Traces, hits: seq<RetrievalHit>): Option<Traces>
    decreases |hits|
  {
    if hits == [] then Some(t)
    else if hits[0].hitId in t.hits then None
    else WithHits(t.(hits := t.hits[hits[0].hitId := hits[0]]), hits[1..])
  }

  function WithDecision(t: Traces, d: ChatRouteDecision): Option<Traces> {
    if d.decisionId in t.decisions then None else Some(t.(decisions := t.decisions[d.decisionId := d]))
  }

  function WithRewrite(t: Traces, r: ChatQueryRewrite): Option<Traces> {
    if r.decisionId in t.rewrites || r.decisionId !in t.decisions then None
    else Some(t.(rewrites := t.rewrites[r.decisionId := r]))
  }

  function WithSearch(t: Traces, s: ChatKnowledgeSearch): Option<Traces> {
    if s.decisionId in t.searches || s.decisionId !in t.decisions then None
    else Some(t.(searches := t.searches[s.decisionId := s]))
  }
}
