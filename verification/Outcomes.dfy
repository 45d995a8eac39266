/**
 * How every question ends, told from the provider's own text: the marker it wrote, the words and the
 * citations it gave, and what is returned and traced when it gave none.
 */
module Outcomes {
  import opened AnswerParsers
  import opened Answering
  import opened Candidates
  import opened ChatPlans
  import opened Models
  import opened Tables
  import opened Traces
  import opened UncaughtErrors
  import opened Wrappers

  /** The ending each marker stands for. */
  function EndingFor(marker: string): FallbackMode {
    if marker == "confident" then NoFallback
    else if marker == "uncertain" then WeakEvidence
    else if marker == "ambiguous" then Ambiguous
    else NoEvidence
  }

  /** What is returned and what is traced of one answer. */
  predicate Told(a: AnswerResult, t: AnswerTrace, ending: FallbackMode, text: Option<string>, cited: seq<Id>, traced: string) {
    a.fallback == ending && t.fallback == ending && a.answerText == text && a.citedChunkIds == cited && t.answerText == traced
  }

  predicate Metered(t: AnswerTrace, promptVersion: string, modelName: string, tokens: TokenCounts, latencyMs: int) {
    t.promptVersion == promptVersion && t.modelName == modelName && t.tokenCounts == tokens && t.latencyMs == latencyMs
  }

  predicate NoPlanes(a: AnswerResult) {
    a.modelText == None && a.knowledgeText == None && a.knowledgeRefs == []
  }

  // ---- The structured answer ----

  /** The payload is an object of exactly these three fields, says this, and is allowed to. */
  predicate StructuredOk(payload: Option<Json>, context: set<Id>, text: string, cited: seq<Id>, marker: string) {
    && payload == Some(JObject(map["answer_text" := JString(text), "cited_chunk_ids" := JArray(Texts(cited)),
                                   "uncertainty" := JString(marker)]))
    && marker in {"confident", "uncertain", "no_evidence", "ambiguous"}
    && (forall id :: id in cited ==> id in context) && (cited == [] ==> marker == "no_evidence")
  }

  lemma AcceptedAs(payload: Option<Json>, context: set<Id>, text: string, cited: seq<Id>, marker: string)
    requires StructuredOk(payload, context, text, cited, marker)
    ensures MarkerOf(marker).Some? && MarkerFallback(MarkerOf(marker).value) == EndingFor(marker)
    ensures ParseStructured(payload, context) == Ok(StructuredAnswer(text, cited, MarkerOf(marker).value))
  {
    var a := StructuredAnswer(text, cited, MarkerOf(marker).value);
    assert payload == Some(RenderStructured(a));
    StructuredBack(a, context);
  }

  lemma AcceptedOnly(payload: Option<Json>, context: set<Id>)
    requires ParseStructured(payload, context).Ok?
    ensures var a := ParseStructured(payload, context).value;
            StructuredOk(payload, context, a.answerText, a.citedChunkIds, MarkerText(a.uncertainty))
  {
    StructuredForward(payload, context);
  }

  ghost predicate StructuredRejected(payload: Option<Json>, context: set<Id>) {
    forall text, cited, marker :: !StructuredOk(payload, context, text, cited, marker)
  }

  /** The ending of an `/ask` that found something. */
  ghost predicate AskTold(a: AnswerResult, t: AnswerTrace, chat: ChatOutcome, decode: Decoder, context: set<Id>, chatModel: string) {
    match chat
    case ProviderDown => Told(a, t, ProviderUnavailable, None, [], "") && Metered(t, "v1", chatModel, map[], 0)
    case Response(raw, modelName, tokens, latencyMs) =>
      && Metered(t, "v1", modelName, tokens, latencyMs)
      && (forall text, cited, marker :: StructuredOk(decode(raw), context, text, cited, marker) ==>
            Told(a, t, EndingFor(marker), Some(text), cited, text))
      && (StructuredRejected(decode(raw), context) ==> Told(a, t, ParseFailure, None, [], raw))
  }

  predicate Graded(a: AnswerResult, t: AnswerTrace, g: Grading, promptVersion: string) {
    && Told(a, t, g.fallback, g.answerText, g.cited, g.traceText) && Metered(t, promptVersion, g.traceModel, g.tokenCounts, g.latencyMs)
    && a.modelText == g.modelText && a.knowledgeText == g.knowledgeText && a.knowledgeRefs == g.knowledgeRefs
  }

  lemma AskGradingTold(
    chunks: seq<EventChunk>, chat: ChatOutcome, chatModel: string, decode: Decoder, a: AnswerResult, t: AnswerTrace)
    requires GradeAsk(chunks, chat, chatModel, decode).Ok? && Graded(a, t, GradeAsk(chunks, chat, chatModel, decode).value, "v1")
    ensures AskTold(a, t, chat, decode, IdSet(chunks), chatModel) && NoPlanes(a)
  {
    if chat.Response? {
      var payload, context := decode(chat.rawText), IdSet(chunks);
      forall text, cited, marker | StructuredOk(payload, context, text, cited, marker)
        ensures Told(a, t, EndingFor(marker), Some(text), cited, text)
      {
        AcceptedAs(payload, context, text, cited, marker);
      }
      if ParseStructured(payload, context).Ok? {
        AcceptedOnly(payload, context);
      }
    }
  }

  /** The ids of what a question was answered from. */
  function ContextIds(a: AnswerResult): set<Id>
    requires a.context.Some?
  {
    IdSet(a.context.value.orderedChunks)
  }

  ghost predicate AskEnded(
    v: SearchView, c: AskConfig, decode: Decoder, m: InboundMessage, dates: Option<DateRange>, subject: Option<Id>, env: AskEnv,
    done: Answered)
    requires c.topK > 0
  {
    var a, t := done.result, done.rows.answer;
    && a.context.Some? && NoPlanes(a) && a.queryText == NormalizeQuery(m.payload) && done.rows.query.queryText == a.queryText
    && done.rows.query.communityId == m.communityId && done.rows.query.subjectScope == subject
    && done.rows.query.modelName == c.embedModel && done.rows.query.createdAt == env.now && t.createdAt == env.traceNow
    && (AskReaches(v, c, m, dates, subject, env) <==> a.context.value.orderedChunks != [])
    && (AskReaches(v, c, m, dates, subject, env) ==>
          var found := Retrieved(v, c, Scope(m.communityId, dates, subject), NormalizeQuery(m.payload), env);
          found.Ok? && a.context.value.orderedChunks == MergedChunks(found.value.merged))
    && (!AskReaches(v, c, m, dates, subject, env) ==>
          Told(a, t, NoEvidence, None, [], "") && Metered(t, "v1", c.chatModel, map[], 0))
    && (AskReaches(v, c, m, dates, subject, env) ==> AskTold(a, t, env.chat, decode, ContextIds(a), c.chatModel))
  }

  /**
   * An `/ask` without a question, or that finds nothing, ends without evidence; any other ends as its
   * provider's marker says, in the provider's words and with its citations, or as unavailable or
   * unparsed when the provider failed or its text is not such an answer.
   */
  lemma AskEnds(
    v: SearchView, c: AskConfig, decode: Decoder, m: InboundMessage, dates: Option<DateRange>, subject: Option<Id>, env: AskEnv)
    requires c.topK > 0
    ensures var plan := AskPlan(v, c, decode, m, dates, subject, env);
            plan.Ok? ==> AskEnded(v, c, decode, m, dates, subject, env, plan.value)
  {
    var plan := AskPlan(v, c, decode, m, dates, subject, env);
    var r := Retrieved(v, c, Scope(m.communityId, dates, subject), NormalizeQuery(m.payload), env);
    if plan.Ok? && NormalizeQuery(m.payload) != "" && r.value.merged != [] {
      AskGradingTold(MergedChunks(r.value.merged), env.chat, c.chatModel, decode, plan.value.result, plan.value.rows.answer);
    }
  }

  // ---- The mixed routes ----

  /** The three fields the two mixed parsers share, consistent with each other. */
  predicate NotesOk(fields: map<string, Json>, context: set<Id>, text: string, cited: seq<Id>, model: string, marker: string) {
    && "notes_text" in fields && fields["notes_text"] == JString(text)
    && "cited_chunk_ids" in fields && fields["cited_chunk_ids"] == JArray(Texts(cited))
    && "model_text" in fields && fields["model_text"] == JString(model)
    && "notes_uncertainty" in fields && fields["notes_uncertainty"] == JString(marker)
    && marker in {"confident", "uncertain", "no_evidence"}
    && (forall id :: id in cited ==> id in context)
    && (marker == "no_evidence" <==> cited == []) && (marker == "no_evidence" <==> text == "")
  }

  predicate ModelOk(payload: Option<Json>, context: set<Id>, text: string, cited: seq<Id>, model: string, marker: string) {
    payload.Some? && payload.value.JObject? && NotesOk(payload.value.fields, context, text, cited, model, marker)
  }

  ghost predicate ModelRejected(payload: Option<Json>, context: set<Id>) {
    forall text, cited, model, marker :: !ModelOk(payload, context, text, cited, model, marker)
  }

  /** No text is returned as none. */
  function Worded(text: string): Option<string> {
    if |text| == 0 then None else Some(text)
  }

  ghost predicate ModelTold(a: AnswerResult, t: AnswerTrace, chat: ChatOutcome, decode: Decoder, context: set<Id>, chatModel: string) {
    match chat
    case ProviderDown =>
      Told(a, t, ProviderUnavailable, None, [], "") && Metered(t, "notes-plus-model-v1", chatModel, map[], 0) && NoPlanes(a)
    case Response(raw, _, tokens, latencyMs) =>
      && Metered(t, "notes-plus-model-v1", chatModel, tokens, latencyMs) && a.knowledgeText == None && a.knowledgeRefs == []
      && (forall text, cited, model, marker :: ModelOk(decode(raw), context, text, cited, model, marker) ==>
            Told(a, t, EndingFor(marker), Worded(text), cited, raw) && a.modelText == Some(model))
      && (ModelRejected(decode(raw), context) ==> Told(a, t, ParseFailure, None, [], raw) && NoPlanes(a))
  }

  lemma ModelAcceptedAs(payload: Option<Json>, context: set<Id>, text: string, cited: seq<Id>, model: string, marker: string)
    requires ModelOk(payload, context, text, cited, model, marker)
    ensures NotesMarkerOf(marker).Some? && NotesFallback(NotesMarkerOf(marker).value) == EndingFor(marker)
    ensures ParseNotesPlusModel(payload, context) == Ok(NotesPlusModelAnswer(text, cited, model, NotesMarkerOf(marker).value))
  {
    NotesPlusModelBack(payload, context, NotesPlusModelAnswer(text, cited, model, NotesMarkerOf(marker).value));
  }

  lemma ModelAcceptedOnly(payload: Option<Json>, context: set<Id>)
    requires ParseNotesPlusModel(payload, context).Ok?
    ensures var a := ParseNotesPlusModel(payload, context).value;
            ModelOk(payload, context, a.notesText, a.citedChunkIds, a.modelText, NotesMarkerText(a.notesMarker))
  {
    NotesPlusModelForward(payload, context);
    NotesSaid(payload.value.fields, ParseNotesPlusModel(payload, context).value);
  }

  lemma NotesSaid(fields: map<string, Json>, a: NotesPlusModelAnswer)
    requires Says(Some(JObject(fields)), RenderNotesPlusModel(a))
    ensures "notes_text" in fields && fields["notes_text"] == JString(a.notesText)
    ensures "cited_chunk_ids" in fields && fields["cited_chunk_ids"] == JArray(Texts(a.citedChunkIds))
    ensures "model_text" in fields && fields["model_text"] == JString(a.modelText)
    ensures "notes_uncertainty" in fields && fields["notes_uncertainty"] == JString(NotesMarkerText(a.notesMarker))
  {
    assert forall name :: name in {"notes_text", "cited_chunk_ids", "model_text", "notes_uncertainty"} ==>
        name in RenderNotesPlusModel(a) && fields[name] == RenderNotesPlusModel(a)[name];
  }

  lemma ModelGradingTold(
    chunks: seq<EventChunk>, chat: ChatOutcome, chatModel: string, decode: Decoder, a: AnswerResult, t: AnswerTrace)
    requires GradeNotesPlusModel(chunks, chat, chatModel, decode).Ok?
    requires Graded(a, t, GradeNotesPlusModel(chunks, chat, chatModel, decode).value, "notes-plus-model-v1")
    ensures ModelTold(a, t, chat, decode, IdSet(chunks), chatModel)
  {
    if chat.Response? {
      var payload, context := decode(chat.rawText), IdSet(chunks);
      forall text, cited, model, marker | ModelOk(payload, context, text, cited, model, marker)
        ensures Told(a, t, EndingFor(marker), Worded(text), cited, chat.rawText) && a.modelText == Some(model)
      {
        ModelAcceptedAs(payload, context, text, cited, model, marker);
      }
      if ParseNotesPlusModel(payload, context).Ok? {
        ModelAcceptedOnly(payload, context);
      }
    }
  }

  predicate KnowledgeOk(
    payload: Option<Json>, context: set<Id>, offered: set<string>, text: string, cited: seq<Id>, knowledge: string,
    refs: seq<string>, model: string, marker: string)
  {
    && payload.Some? && payload.value.JObject? && NotesOk(payload.value.fields, context, text, cited, model, marker)
    && "knowledge_text" in payload.value.fields && payload.value.fields["knowledge_text"] == JString(knowledge)
    && "cited_knowledge_refs" in payload.value.fields && payload.value.fields["cited_knowledge_refs"] == JArray(Texts(refs))
    && (forall ref :: ref in refs ==> ref in offered) && (knowledge == "" <==> refs == [])
  }

  ghost predicate KnowledgeRejected(payload: Option<Json>, context: set<Id>, offered: set<string>) {
    forall text, cited, knowledge, refs, model, marker ::
      !KnowledgeOk(payload, context, offered, text, cited, knowledge, refs, model, marker)
  }

  ghost predicate KnowledgeTold(
    a: AnswerResult, t: AnswerTrace, chat: ChatOutcome, decode: Decoder, context: set<Id>, offered: set<string>, chatModel: string)
  {
    match chat
    case ProviderDown =>
      Told(a, t, ProviderUnavailable, None, [], "") && Metered(t, "notes-plus-knowledge-v1", chatModel, map[], 0) && NoPlanes(a)
    case Response(raw, _, tokens, latencyMs) =>
      && Metered(t, "notes-plus-knowledge-v1", chatModel, tokens, latencyMs)
      && (forall text, cited, knowledge, refs, model, marker ::
            KnowledgeOk(decode(raw), context, offered, text, cited, knowledge, refs, model, marker) ==>
              && Told(a, t, EndingFor(marker), Worded(text), cited, raw) && a.modelText == Some(model)
              && a.knowledgeText == Worded(knowledge) && a.knowledgeRefs == refs)
      && (KnowledgeRejected(decode(raw), context, offered) ==> Told(a, t, ParseFailure, None, [], raw) && NoPlanes(a))
  }

  lemma KnowledgeAcceptedAs(
    payload: Option<Json>, context: set<Id>, offered: set<string>, text: string, cited: seq<Id>, knowledge: string,
    refs: seq<string>, model: string, marker: string)
    requires KnowledgeOk(payload, context, offered, text, cited, knowledge, refs, model, marker)
    ensures NotesMarkerOf(marker).Some? && NotesFallback(NotesMarkerOf(marker).value) == EndingFor(marker)
    ensures ParseNotesPlusKnowledge(payload, context, offered)
         == Ok(NotesPlusKnowledgeAnswer(text, cited, knowledge, refs, model, NotesMarkerOf(marker).value))
  {
    NotesPlusKnowledgeBack(payload, context, offered,
                           NotesPlusKnowledgeAnswer(text, cited, knowledge, refs, model, NotesMarkerOf(marker).value));
  }

  lemma KnowledgeAcceptedOnly(payload: Option<Json>, context: set<Id>, offered: set<string>)
    requires ParseNotesPlusKnowledge(payload, context, offered).Ok?
    ensures var a := ParseNotesPlusKnowledge(payload, context, offered).value;
            KnowledgeOk(payload, context, offered, a.notesText, a.citedChunkIds, a.knowledgeText, a.citedKnowledgeRefs,
                        a.modelText, NotesMarkerText(a.notesMarker))
  {
    NotesPlusKnowledgeForward(payload, context, offered);
    var a, fields := ParseNotesPlusKnowledge(payload, context, offered).value, payload.value.fields;
    assert forall name :: name in KNOWLEDGE_FIELDS ==>
        name in RenderNotesPlusKnowledge(a) && fields[name] == RenderNotesPlusKnowledge(a)[name];
  }

  lemma KnowledgeGradingTold(
    chunks: seq<EventChunk>, offered: set<string>, chat: ChatOutcome, chatModel: string, decode: Decoder, a: AnswerResult,
    t: AnswerTrace)
    requires GradeNotesPlusKnowledge(chunks, offered, chat, chatModel, decode).Ok?
    requires Graded(a, t, GradeNotesPlusKnowledge(chunks, offered, chat, chatModel, decode).value, "notes-plus-knowledge-v1")
    ensures KnowledgeTold(a, t, chat, decode, IdSet(chunks), offered, chatModel)
  {
    if chat.Response? {
      var payload, context := decode(chat.rawText), IdSet(chunks);
      forall text, cited, knowledge, refs, model, marker
        | KnowledgeOk(payload, context, offered, text, cited, knowledge, refs, model, marker)
        ensures Told(a, t, EndingFor(marker), Worded(text), cited, chat.rawText) && a.modelText == Some(model)
        ensures a.knowledgeText == Worded(knowledge) && a.knowledgeRefs == refs
      {
        KnowledgeAcceptedAs(payload, context, offered, text, cited, knowledge, refs, model, marker);
      }
      if ParseNotesPlusKnowledge(payload, context, offered).Ok? {
        KnowledgeAcceptedOnly(payload, context, offered);
      }
    }
  }

  // ---- The model-only route ----

  predicate TextOk(payload: Option<Json>, text: string) {
    && payload.Some? && payload.value.JObject?
    && "answer_text" in payload.value.fields && payload.value.fields["answer_text"] == JString(text)
  }

  /** Words and nothing else: no context, no citation. */
  ghost predicate ModelOnlyTold(a: AnswerResult, t: AnswerTrace, chat: ChatOutcome, decode: Decoder, chatModel: string) {
    && a.context == None && a.evidence == [] && NoPlanes(a)
    && match chat
       case ProviderDown => Told(a, t, ProviderUnavailable, Some(""), [], "") && Metered(t, "model-only-v1", chatModel, map[], 0)
       case Response(raw, _, tokens, latencyMs) =>
         && Metered(t, "model-only-v1", chatModel, tokens, latencyMs)
         && (forall text :: TextOk(decode(raw), text) ==> Told(a, t, NoFallback, Some(text), [], text))
         && ((forall text :: !TextOk(decode(raw), text)) ==> Told(a, t, ParseFailure, Some(""), [], raw))
  }

  lemma ModelOnlyEnds(config: ChatConfig, decode: Decoder, m: InboundMessage, question: string, env: ChatEnv)
    ensures var r := ModelOnlyPlan(config, decode, m, question, env);
            && r.rows.Some? && r.rows.value.hits == [] && r.answer.result.queryText == question
            && r.rows.value.query.queryText == question && r.rows.value.query.communityId == m.communityId
            && ModelOnlyTold(r.answer.result, r.rows.value.answer, env.ask.chat, decode, config.ask.chatModel)
  {
    if env.ask.chat.Response? {
      var payload := decode(env.ask.chat.rawText);
      if ParseModelOnly(payload).Ok? {
        assert TextOk(payload, ParseModelOnly(payload).value);
      }
    }
  }

  // ---- What the mixed routes answer ----

  /** What a mixed route that returned has retrieved, as its context. */
  ghost predicate FoundFor(v: SearchView, config: ChatConfig, m: InboundMessage, question: string, subject: Option<Id>, env: ChatEnv, a: AnswerResult)
    requires config.ask.topK > 0
  {
    var r := MixedFind(v, config, m, question, subject, env);
    r.Ok? && a.context.Some? && a.context.value.orderedChunks == MergedChunks(r.value.merged) && a.queryText == question
  }

  lemma NotesPlusModelEnds(
    v: SearchView, config: ChatConfig, decode: Decoder, m: InboundMessage, question: string, subject: Option<Id>, env: ChatEnv)
    requires config.ask.topK > 0
    ensures var r := NotesPlusModelPlan(v, config, decode, m, question, subject, env);
            r.Ok? ==>
              && r.value.rows.Some? && FoundFor(v, config, m, question, subject, env, r.value.answer.result)
              && ModelTold(r.value.answer.result, r.value.rows.value.answer, env.ask.chat, decode,
                           ContextIds(r.value.answer.result), config.ask.chatModel)
  {
    var r, found := NotesPlusModelPlan(v, config, decode, m, question, subject, env), MixedFind(v, config, m, question, subject, env);
    if r.Ok? {
      ModelGradingTold(MergedChunks(found.value.merged), env.ask.chat, config.ask.chatModel, decode, r.value.answer.result,
                       r.value.rows.value.answer);
    }
  }

  lemma NotesPlusKnowledgeEnds(
    v: SearchView, config: ChatConfig, decode: Decoder, m: InboundMessage, question: string, subject: Option<Id>, env: ChatEnv)
    requires config.ask.topK > 0
    ensures var r := NotesPlusKnowledgePlan(v, config, decode, m, question, subject, env);
            r.Ok? ==>
              && r.value.rows.Some? && FoundFor(v, config, m, question, subject, env, r.value.answer.result)
              && KnowledgeTold(r.value.answer.result, r.value.rows.value.answer, env.ask.chat, decode,
                               ContextIds(r.value.answer.result), Offered(env.search), config.ask.chatModel)
  {
    var r, found := NotesPlusKnowledgePlan(v, config, decode, m, question, subject, env), MixedFind(v, config, m, question, subject, env);
    OfferedIs(env.search);
    if r.Ok? {
      KnowledgeGradingTold(MergedChunks(found.value.merged), Refs(Excerpts(env.search)), env.ask.chat, config.ask.chatModel, decode,
                           r.value.answer.result, r.value.rows.value.answer);
    }
  }

  lemma OfferedIs(search: SearchOutcome)
    ensures Refs(Excerpts(search)) == Offered(search)
  {
  }

  /** The refs a search that worked came back with. */
  function Offered(search: SearchOutcome): set<string> {
    if search.SearchFound? then set e | e in search.excerpts :: e.ref else {}
  }
}
