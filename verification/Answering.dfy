/**
 * What one question is answered with and which rows trace it: the specification the methods of
 * `QueryService` and `RoutedChat` are proved against.
 */
module Answering {
  import opened AnswerParsers
  import Calendar
  import opened Candidates
  import opened Diary
  import opened Fusion
  import opened FusionBounds
  import opened Models
  import opened Sorting
  import opened Tables
  import opened Text
  import opened Traces
  import opened Wrappers

  datatype AnswerContext = AnswerContext(
    queryId: Id, queryText: string, orderedChunks: seq<EventChunk>, modelName: string, createdAt: Time)

  datatype Evidence = Evidence(chunkId: Id, noteDate: Calendar.Date, chunkText: string)

  datatype AnswerResult = AnswerResult(
    fallback: FallbackMode, queryText: string, evidence: seq<Evidence>, context: Option<AnswerContext>,
    answerText: Option<string>, citedChunkIds: seq<Id>, modelText: Option<string>,
    knowledgeText: Option<string>, knowledgeRefs: seq<string>)

  /** `json.loads`; None when the text is not JSON. */
  type Decoder = string -> Option<Json>

  datatype ChatOutcome =
    | ProviderDown
    | Response(rawText: string, modelName: string, tokenCounts: TokenCounts, latencyMs: int)

  datatype AskConfig = AskConfig(embedModel: string, chatModel: string, topK: int, candidateK: int)

  /** The fresh ids, clock readings and provider outcomes one question draws on. */
  datatype AskEnv = AskEnv(
    queryId: Id, traceId: Id, hitIds: IdSource, now: Time, traceNow: Time,
    searchImplemented: bool, embedding: Option<Vector>, chat: ChatOutcome)

  datatype AskError =
    | MissingCommunity | EmbeddingFailed | SearchNotImplemented | VectorMismatch | CrossCommunity | UnhashableMarker

  /** The store the search seam reads, and the metric and tokeniser it uses. */
  datatype SearchView = SearchView(
    diary: Diary, distance: (Vector, Vector) -> real, tokenize: string -> set<string>)

  const PROMPT_VERSION := "v1"
  const MODEL_ONLY_PROMPT_VERSION := "model-only-v1"
  const NOTES_PLUS_MODEL_PROMPT_VERSION := "notes-plus-model-v1"
  const NOTES_PLUS_KNOWLEDGE_PROMPT_VERSION := "notes-plus-knowledge-v1"

  function StripPunctuation(s: string): string {
    if s != "" && s[|s| - 1] in "?.!,;:" then StripPunctuation(s[..|s| - 1]) else s
  }

  /** `normalize_query` */
  function NormalizeQuery(payload: string): string {
    Strip(StripPunctuation(Strip(payload)))
  }

  // ---- Retrieval ----

  /** `QueryService.retrieve` */
  ghost function Retrieved(
    v: SearchView, c: AskConfig, scope: Scope, queryText: string, env: AskEnv): Result<RetrievedCandidates, AskError>
    requires c.topK > 0
  {
    if scope.communityId == "" then Raised(MissingCommunity)
    else if env.embedding == None then Raised(EmbeddingFailed)
    else if !env.searchImplemented then Raised(SearchNotImplemented)
    else if c.candidateK > 0 && DenseFails(v.diary, scope, env.embedding.value, c.embedModel) then Raised(VectorMismatch)
    else
      var dense := DenseCandidates(v.diary, scope, env.embedding.value, c.embedModel, c.candidateK, v.distance);
      var sparse := SparseCandidates(v.diary, scope, queryText, c.candidateK, v.tokenize);
      Ok(RetrievedCandidates(dense, sparse, Take(Fused([dense, sparse], DEFAULT_RRF_K), c.topK), c.embedModel))
  }

  /** `assemble_answer_context`: the merged chunks in fused order. */
  function MergedChunks(merged: seq<FusedHit>): (chunks: seq<EventChunk>)
    ensures |chunks| == |merged|
    ensures forall i :: 0 <= i < |chunks| ==> chunks[i] == merged[i].chunk
  {
    seq(|merged|, i requires 0 <= i < |merged| => merged[i].chunk)
  }

  function EvidenceOf(chunks: seq<EventChunk>): (es: seq<Evidence>)
    ensures |es| == |chunks|
    ensures forall i :: 0 <= i < |es| ==> es[i] == Evidence(chunks[i].chunkId, chunks[i].noteDate, chunks[i].chunkText)
  {
    seq(|chunks|, i requires 0 <= i < |chunks| => Evidence(chunks[i].chunkId, chunks[i].noteDate, chunks[i].chunkText))
  }

  /** What the prompt builders refuse. */
  predicate SpansCommunities(chunks: seq<EventChunk>) {
    |set c | c in chunks :: c.communityId| > 1
  }

  // ---- Grading ----

  /** One decision per question: how it ends, and what of it is traced and returned. */
  datatype Grading = Grading(
    fallback: FallbackMode, traceText: string, traceModel: string, tokenCounts: TokenCounts, latencyMs: int,
    answerText: Option<string>, cited: seq<Id>, modelText: Option<string>, knowledgeText: Option<string>,
    knowledgeRefs: seq<string>)

  /** A question no provider answered. */
  function Unanswered(fallback: FallbackMode, chatModel: string): Grading {
    Grading(fallback, "", chatModel, map[], 0, None, [], None, None, [])
  }

  function Unparsed(rawText: string, traceModel: string, tokenCounts: TokenCounts, latencyMs: int): Grading {
    Grading(ParseFailure, rawText, traceModel, tokenCounts, latencyMs, None, [], None, None, [])
  }

  function MarkerFallback(m: Marker): FallbackMode {
    match m
    case Confident => NoFallback
    case Uncertain => WeakEvidence
    case NoEvidenceMarker => NoEvidence
    case AmbiguousMarker => Ambiguous
  }

  function NotesFallback(m: NotesMarker): FallbackMode {
    match m
    case NotesConfident => NoFallback
    case NotesUncertain => WeakEvidence
    case NotesNoEvidence => NoEvidence
  }

  function NonEmpty(text: string): Option<string> {
    if text == "" then None else Some(text)
  }

  function GradeAsk(chunks: seq<EventChunk>, chat: ChatOutcome, chatModel: string, decode: Decoder): Result<Grading, AskError> {
    match chat
    case ProviderDown => Ok(Unanswered(ProviderUnavailable, chatModel))
    case Response(rawText, modelName, tokenCounts, latencyMs) =>
      match ParseStructured(decode(rawText), IdSet(chunks))
      case Raised(e) => if e == TypeError then Raised(UnhashableMarker) else Ok(Unparsed(rawText, modelName, tokenCounts, latencyMs))
      case Ok(a) =>
        Ok(Grading(MarkerFallback(a.uncertainty), a.answerText, modelName, tokenCounts, latencyMs, Some(a.answerText),
                   a.citedChunkIds, None, None, []))
  }

  function GradeNotesPlusModel(chunks: seq<EventChunk>, chat: ChatOutcome, chatModel: string, decode: Decoder)
    : Result<Grading, AskError>
  {
    match chat
    case ProviderDown => Ok(Unanswered(ProviderUnavailable, chatModel))
    case Response(rawText, _, tokenCounts, latencyMs) =>
      match ParseNotesPlusModel(decode(rawText), IdSet(chunks))
      case Raised(e) => if e == TypeError then Raised(UnhashableMarker) else Ok(Unparsed(rawText, chatModel, tokenCounts, latencyMs))
      case Ok(a) =>
        Ok(Grading(NotesFallback(a.notesMarker), rawText, chatModel, tokenCounts, latencyMs, NonEmpty(a.notesText),
                   a.citedChunkIds, Some(a.modelText), None, []))
  }

  function GradeNotesPlusKnowledge(
    chunks: seq<EventChunk>, refs: set<string>, chat: ChatOutcome, chatModel: string, decode: Decoder): Result<Grading, AskError>
  {
    match chat
    case ProviderDown => Ok(Unanswered(ProviderUnavailable, chatModel))
    case Response(rawText, _, tokenCounts, latencyMs) =>
      match ParseNotesPlusKnowledge(decode(rawText), IdSet(chunks), refs)
      case Raised(e) => if e == TypeError then Raised(UnhashableMarker) else Ok(Unparsed(rawText, chatModel, tokenCounts, latencyMs))
      case Ok(a) =>
        Ok(Grading(NotesFallback(a.notesMarker), rawText, chatModel, tokenCounts, latencyMs, NonEmpty(a.notesText),
                   a.citedChunkIds, Some(a.modelText), NonEmpty(a.knowledgeText), a.citedKnowledgeRefs))
  }

  function GradeModelOnly(chat: ChatOutcome, chatModel: string, decode: Decoder): Grading {
    match chat
    case ProviderDown => Unanswered(ProviderUnavailable, chatModel).(answerText := Some(""))
    case Response(rawText, _, tokenCounts, latencyMs) =>
      match ParseModelOnly(decode(rawText))
      case Raised(_) => Unparsed(rawText, chatModel, tokenCounts, latencyMs).(answerText := Some(""))
      case Ok(text) => Grading(NoFallback, text, chatModel, tokenCounts, latencyMs, Some(text), [], None, None, [])
  }

  // ---- The rows of one question ----

  datatype QueryRows = QueryRows(query: Query, hits: seq<RetrievalHit>, answer: AnswerTrace)

  datatype Answered = Answered(rows: QueryRows, result: AnswerResult)

  /** `_finalize`: Query, hits and answer trace written from one grading, and the result. */
  function Finalized(
    c: AskConfig, env: AskEnv, communityId: Id, queryText: string, subject: Option<Id>, found: RetrievedCandidates,
    promptVersion: string, tracedAt: Time, g: Grading): Answered
  {
    var chunks := MergedChunks(found.merged);
    Answered(
      QueryRows(
        Query(env.queryId, communityId, queryText, c.embedModel, g.fallback, env.now, subject),
        HitRows(env.queryId, c.embedModel, env.now, found, env.hitIds),
        AnswerTrace(env.traceId, env.queryId, promptVersion, ChunkIds(chunks), g.traceText, g.fallback, g.traceModel,
                    g.tokenCounts, g.latencyMs, tracedAt)),
      AnswerResult(g.fallback, queryText, EvidenceOf(chunks),
                   Some(AnswerContext(env.queryId, queryText, chunks, c.embedModel, env.now)),
                   g.answerText, g.cited, g.modelText, g.knowledgeText, g.knowledgeRefs))
  }

  function NothingFound(c: AskConfig): RetrievedCandidates {
    RetrievedCandidates([], [], [], c.embedModel)
  }

  /** `QueryService.answer` */
  ghost function AskPlan(
    v: SearchView, c: AskConfig, decode: Decoder, m: InboundMessage, dates: Option<DateRange>, subject: Option<Id>, env: AskEnv)
    : Result<Answered, AskError>
    requires c.topK > 0
  {
    var queryText := NormalizeQuery(m.payload);
    if m.communityId == "" then Raised(MissingCommunity)
    else if queryText == "" then
      Ok(Finalized(c, env, m.communityId, queryText, subject, NothingFound(c), PROMPT_VERSION, env.traceNow,
                   Unanswered(NoEvidence, c.chatModel)))
    else
      match Retrieved(v, c, Scope(m.communityId, dates, subject), queryText, env)
      case Raised(e) => Raised(e)
      case Ok(found) =>
        if found.merged == [] then
          Ok(Finalized(c, env, m.communityId, queryText, subject, found, PROMPT_VERSION, env.traceNow,
                       Unanswered(NoEvidence, c.chatModel)))
        else if SpansCommunities(MergedChunks(found.merged)) then Raised(CrossCommunity)
        else
          match GradeAsk(MergedChunks(found.merged), env.chat, c.chatModel, decode)
          case Raised(e) => Raised(e)
          case Ok(g) => Ok(Finalized(c, env, m.communityId, queryText, subject, found, PROMPT_VERSION, env.traceNow, g))
  }

  /** An answered `/ask` carries the context of the query it traced. */
  lemma AnsweredContext(
    v: SearchView, c: AskConfig, decode: Decoder, m: InboundMessage, dates: Option<DateRange>, subject: Option<Id>, env: AskEnv)
    requires c.topK > 0
    ensures var plan := AskPlan(v, c, decode, m, dates, subject, env);
            plan.Ok? ==> plan.value.result.context.Some? && plan.value.result.context.value.queryId == env.queryId
  {
  }

  // ---- Saving them ----

  function Persisted(t: Traces, rows: QueryRows): Option<Traces> {
    match WithQuery(t, rows.query)
    case None => None
    case Some(t1) =>
      match WithHits(t1, rows.hits)
      case None => None
      case Some(t2) => WithAnswer(t2, rows.answer)
  }

  /** The ids a question draws are new, and each hit row gets its own. */
  ghost predicate FreshAsk(t: Traces, env: AskEnv) {
    && env.queryId !in t.queries && env.queryId !in t.answers
    && (forall i: nat :: env.hitIds(i) !in t.hits)
    && (forall i: nat, j: nat :: i < j ==> env.hitIds(i) != env.hitIds(j))
  }

  function HitMap(hits: seq<RetrievalHit>): map<Id, RetrievalHit> {
    if hits == [] then map[] else HitMap(hits[1..])[hits[0].hitId := hits[0]]
  }

  lemma {:induction false} HitMapKeys(hits: seq<RetrievalHit>)
    ensures forall h :: h in HitMap(hits) ==> exists i :: 0 <= i < |hits| && hits[i].hitId == h && HitMap(hits)[h] == hits[i]
    ensures forall i :: 0 <= i < |hits| ==> hits[i].hitId in HitMap(hits)
  {
    if hits != [] {
      HitMapKeys(hits[1..]);
      forall h | h in HitMap(hits) ensures exists i :: 0 <= i < |hits| && hits[i].hitId == h && HitMap(hits)[h] == hits[i] {
        if h == hits[0].hitId {
          assert hits[0].hitId == h && HitMap(hits)[h] == hits[0];
        } else {
          var i :| 0 <= i < |hits[1..]| && hits[1..][i].hitId == h && HitMap(hits[1..])[h] == hits[1..][i];
          assert hits[i + 1].hitId == h;
        }
      }
    }
  }

  lemma {:induction false} FreshHitsSave(t: Traces, hits: seq<RetrievalHit>)
    requires forall i :: 0 <= i < |hits| ==> hits[i].hitId !in t.hits
    requires forall i, j :: 0 <= i < j < |hits| ==> hits[i].hitId != hits[j].hitId
    ensures WithHits(t, hits) == Some(t.(hits := t.hits + HitMap(hits)))
    decreases |hits|
  {
    if hits == [] {
      assert t.hits + map[] == t.hits;
    } else {
      FreshHitsSave(t.(hits := t.hits[hits[0].hitId := hits[0]]), hits[1..]);
      HitMapKeys(hits[1..]);
      assert hits[0].hitId !in HitMap(hits[1..]);
      assert t.hits[hits[0].hitId := hits[0]] + HitMap(hits[1..]) == t.hits + HitMap(hits);
    }
  }

  /** The hit rows of one question use the ids it drew, in order. */
  lemma HitRowIds(queryId: Id, modelName: string, at: Time, found: RetrievedCandidates, ids: IdSource)
    ensures var rows := HitRows(queryId, modelName, at, found, ids);
            forall i :: 0 <= i < |rows| ==> rows[i].hitId == ids(i) && rows[i].queryId == queryId
  {
  }

  /** With fresh ids every row of a question is saved. */
  lemma FreshPersists(t: Traces, env: AskEnv, rows: QueryRows)
    requires FreshAsk(t, env) && rows.query.queryId == env.queryId && rows.answer.queryId == env.queryId
    requires forall i :: 0 <= i < |rows.hits| ==> rows.hits[i].hitId == env.hitIds(i)
    ensures Persisted(t, rows) == Some(t.(queries := t.queries[env.queryId := rows.query],
                                          hits := t.hits + HitMap(rows.hits),
                                          answers := t.answers[env.queryId := rows.answer]))
  {
    var t1 := t.(queries := t.queries[env.queryId := rows.query]);
    FreshHitsSave(t1, rows.hits);
  }
}
