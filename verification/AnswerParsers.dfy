/**
 * The validators of provider answers over decoded JSON (`core/domain/answer_schema.py`,
 * `core/chat/enriched_prompt.py`, `core/chat/knowledge_prompt.py`, `core/chat/model_prompt.py`).
 */
module AnswerParsers {
  import opened Tables
  import opened Wrappers

  /** What `json.loads` returns. */
  datatype Json =
    | JNull
    | JBool(value: bool)
    | JNumber(number: real)
    | JString(text: string)
    | JArray(items: seq<Json>)
    | JObject(fields: map<string, Json>)

  /** `TypeError` is what testing a list or an object for membership in a frozenset raises; nobody catches it. */
  datatype AnswerError = MalformedJson | SchemaMismatch | FabricatedCitation | TypeError

  function StringsOf(items: seq<Json>): Option<seq<string>> {
    if items == [] then Some([])
    else
      var rest := StringsOf(items[1..]);
      if items[0].JString? && rest.Some? then Some([items[0].text] + rest.value) else None
  }

  function Texts(texts: seq<string>): (items: seq<Json>)
    ensures |items| == |texts|
    ensures forall i :: 0 <= i < |items| ==> items[i] == JString(texts[i])
  {
    seq(|texts|, i requires 0 <= i < |texts| => JString(texts[i]))
  }

  lemma {:induction false} StringsRoundTrip(items: seq<Json>)
    ensures StringsOf(items).Some? <==> exists texts :: items == Texts(texts)
    ensures StringsOf(items).Some? ==> items == Texts(StringsOf(items).value)
  {
    if items != [] {
      StringsRoundTrip(items[1..]);
      if exists texts :: items == Texts(texts) {
        var texts :| items == Texts(texts);
        assert items[1..] == Texts(texts[1..]);
      }
      if StringsOf(items).Some? {
        assert items == Texts(StringsOf(items).value);
      }
    } else {
      assert items == Texts([]);
    }
  }

  lemma TextsInjective(a: seq<string>, b: seq<string>)
    requires Texts(a) == Texts(b)
    ensures a == b
  {
    assert forall i :: 0 <= i < |a| ==> Texts(a)[i] == Texts(b)[i];
  }

  lemma StringsOfTexts(texts: seq<string>)
    ensures StringsOf(Texts(texts)) == Some(texts)
  {
    StringsRoundTrip(Texts(texts));
    TextsInjective(texts, StringsOf(Texts(texts)).value);
  }

  function TextField(fields: map<string, Json>, name: string): Option<string> {
    if name in fields && fields[name].JString? then Some(fields[name].text) else None
  }

  function TextsField(fields: map<string, Json>, name: string): Option<seq<string>> {
    if name in fields && fields[name].JArray? then StringsOf(fields[name].items) else None
  }

  /** A marker is looked up in a frozenset, which a list or an object cannot be. */
  predicate Unhashable(j: Json) {
    j.JArray? || j.JObject?
  }

  // ---- /ask: the structured answer ----

  datatype Marker = Confident | Uncertain | NoEvidenceMarker | AmbiguousMarker

  function MarkerText(m: Marker): string {
    match m
    case Confident => "confident"
    case Uncertain => "uncertain"
    case NoEvidenceMarker => "no_evidence"
    case AmbiguousMarker => "ambiguous"
  }

  function MarkerOf(text: string): Option<Marker> {
    if text == "confident" then Some(Confident)
    else if text == "uncertain" then Some(Uncertain)
    else if text == "no_evidence" then Some(NoEvidenceMarker)
    else if text == "ambiguous" then Some(AmbiguousMarker)
    else None
  }

  datatype StructuredAnswer = StructuredAnswer(answerText: string, citedChunkIds: seq<Id>, uncertainty: Marker)

  const REQUIRED_FIELDS := {"answer_text", "cited_chunk_ids", "uncertainty"}

  /** `parse_structured_answer`; `payload` is None when the text is not JSON. */
  function ParseStructured(payload: Option<Json>, context: set<Id>): Result<StructuredAnswer, AnswerError> {
    if payload == None then Raised(MalformedJson)
    else if !payload.value.JObject? then Raised(SchemaMismatch)
    else
      var fields := payload.value.fields;
      if !(REQUIRED_FIELDS <= fields.Keys) then Raised(SchemaMismatch)
      else if !(fields.Keys <= REQUIRED_FIELDS) then Raised(SchemaMismatch)
      else
        var text, cited := TextField(fields, "answer_text"), TextsField(fields, "cited_chunk_ids");
        assert "uncertainty" in REQUIRED_FIELDS;
        var marker := fields["uncertainty"];
        if text == None || cited == None then Raised(SchemaMismatch)
        else if Unhashable(marker) then Raised(TypeError)
        else if !marker.JString? || MarkerOf(marker.text) == None then Raised(SchemaMismatch)
        else if exists id :: id in cited.value && id !in context then Raised(FabricatedCitation)
        else if cited.value == [] && marker.text != "no_evidence" then Raised(SchemaMismatch)
        else Ok(StructuredAnswer(text.value, cited.value, MarkerOf(marker.text).value))
  }

  predicate Grounded(cited: seq<Id>, context: set<Id>) {
    forall id :: id in cited ==> id in context
  }

  /** The one payload that says `a`. */
  function RenderStructured(a: StructuredAnswer): Json {
    JObject(map["answer_text" := JString(a.answerText), "cited_chunk_ids" := JArray(Texts(a.citedChunkIds)),
                "uncertainty" := JString(MarkerText(a.uncertainty))])
  }

  lemma StructuredForward(payload: Option<Json>, context: set<Id>)
    requires ParseStructured(payload, context).Ok?
    ensures var a := ParseStructured(payload, context).value;
            && payload == Some(RenderStructured(a)) && Grounded(a.citedChunkIds, context)
            && (a.citedChunkIds == [] ==> a.uncertainty == NoEvidenceMarker)
  {
    var a, fields := ParseStructured(payload, context).value, payload.value.fields;
    StringsRoundTrip(fields["cited_chunk_ids"].items);
    assert fields.Keys == REQUIRED_FIELDS;
    assert fields == RenderStructured(a).fields;
  }

  lemma StructuredBack(a: StructuredAnswer, context: set<Id>)
    requires Grounded(a.citedChunkIds, context) && (a.citedChunkIds == [] ==> a.uncertainty == NoEvidenceMarker)
    ensures ParseStructured(Some(RenderStructured(a)), context) == Ok(a)
  {
    StringsOfTexts(a.citedChunkIds);
    assert RenderStructured(a).fields.Keys == REQUIRED_FIELDS;
  }

  /**
   * Accepted answers are exactly the renderings of grounded ones: citations from the context only, and
   * none only where the model found no evidence.
   */
  lemma StructuredAccepts(payload: Option<Json>, context: set<Id>, a: StructuredAnswer)
    ensures ParseStructured(payload, context) == Ok(a)
        <==> payload == Some(RenderStructured(a)) && Grounded(a.citedChunkIds, context)
             && (a.citedChunkIds == [] ==> a.uncertainty == NoEvidenceMarker)
  {
    if ParseStructured(payload, context) == Ok(a) {
      StructuredForward(payload, context);
    }
    if Grounded(a.citedChunkIds, context) && (a.citedChunkIds == [] ==> a.uncertainty == NoEvidenceMarker) {
      StructuredBack(a, context);
    }
  }

  /** The other direction is not enforced: an answer may cite chunks and still be marked no_evidence. */
  lemma NoEvidenceMayCite(id: Id)
    ensures var a := StructuredAnswer("", [id], NoEvidenceMarker);
            ParseStructured(Some(RenderStructured(a)), {id}) == Ok(a)
  {
    StructuredBack(StructuredAnswer("", [id], NoEvidenceMarker), {id});
  }

  /** A payload right in everything but a marker that is a list or an object. */
  predicate StructuredButMarker(payload: Option<Json>) {
    && payload.Some? && payload.value.JObject? && payload.value.fields.Keys == REQUIRED_FIELDS
    && TextField(payload.value.fields, "answer_text").Some?
    && TextsField(payload.value.fields, "cited_chunk_ids").Some?
    && "uncertainty" in payload.value.fields && Unhashable(payload.value.fields["uncertainty"])
  }

  /** The uncaught error needs exactly such a payload; what it cites does not matter. */
  lemma StructuredTypeErrorWhen(payload: Option<Json>, context: set<Id>)
    ensures ParseStructured(payload, context) == Raised(TypeError) <==> StructuredButMarker(payload)
  {
  }

  /** Any answer's rendering becomes one when its marker is replaced by a list. */
  lemma StructuredTypeErrorExists(a: StructuredAnswer, items: seq<Json>)
    ensures StructuredButMarker(Some(JObject(RenderStructured(a).fields["uncertainty" := JArray(items)])))
  {
    StringsOfTexts(a.citedChunkIds);
    var fields := RenderStructured(a).fields["uncertainty" := JArray(items)];
    assert fields.Keys == REQUIRED_FIELDS;
    assert fields["cited_chunk_ids"] == JArray(Texts(a.citedChunkIds)) && fields["answer_text"] == JString(a.answerText);
  }

  // ---- /chat: notes and model ----

  datatype NotesMarker = NotesConfident | NotesUncertain | NotesNoEvidence

  function NotesMarkerText(m: NotesMarker): string {
    match m
    case NotesConfident => "confident"
    case NotesUncertain => "uncertain"
    case NotesNoEvidence => "no_evidence"
  }

  function NotesMarkerOf(text: string): Option<NotesMarker> {
    if text == "confident" then Some(NotesConfident)
    else if text == "uncertain" then Some(NotesUncertain)
    else if text == "no_evidence" then Some(NotesNoEvidence)
    else None
  }

  datatype NotesPlusModelAnswer = NotesPlusModelAnswer(
    notesText: string, citedChunkIds: seq<Id>, modelText: string, notesMarker: NotesMarker)

  const MODEL_FIELDS := {"notes_text", "cited_chunk_ids", "model_text", "notes_uncertainty"}

  /** `parse_notes_plus_model_answer` */
  function ParseNotesPlusModel(payload: Option<Json>, context: set<Id>): Result<NotesPlusModelAnswer, AnswerError> {
    if payload == None then Raised(MalformedJson)
    else if !payload.value.JObject? then Raised(SchemaMismatch)
    else
      var fields := payload.value.fields;
      if !(MODEL_FIELDS <= fields.Keys) then Raised(SchemaMismatch)
      else
        var notes, cited := TextField(fields, "notes_text"), TextsField(fields, "cited_chunk_ids");
        var model := TextField(fields, "model_text");
        assert "notes_uncertainty" in MODEL_FIELDS;
        var marker := fields["notes_uncertainty"];
        if notes == None || cited == None || model == None then Raised(SchemaMismatch)
        else if Unhashable(marker) then Raised(TypeError)
        else if !marker.JString? || NotesMarkerOf(marker.text) == None then Raised(SchemaMismatch)
        else if exists id :: id in cited.value && id !in context then Raised(FabricatedCitation)
        else if marker.text == "no_evidence" && !(cited.value == [] && notes.value == "") then Raised(SchemaMismatch)
        else if marker.text != "no_evidence" && (cited.value == [] || notes.value == "") then Raised(SchemaMismatch)
        else Ok(NotesPlusModelAnswer(notes.value, cited.value, model.value, NotesMarkerOf(marker.text).value))
  }

  /** Notes are empty, uncited and declared without evidence together, or none of the three. */
  predicate NotesConsistent(notesText: string, cited: seq<Id>, marker: NotesMarker) {
    && (marker == NotesNoEvidence <==> cited == [])
    && (marker == NotesNoEvidence <==> notesText == "")
  }

  function RenderNotesPlusModel(a: NotesPlusModelAnswer): map<string, Json> {
    map["notes_text" := JString(a.notesText), "cited_chunk_ids" := JArray(Texts(a.citedChunkIds)),
        "model_text" := JString(a.modelText), "notes_uncertainty" := JString(NotesMarkerText(a.notesMarker))]
  }

  /** The payload says at least what `rendered` says; other keys are ignored. */
  predicate Says(payload: Option<Json>, rendered: map<string, Json>) {
    payload.Some? && payload.value.JObject?
    && forall name :: name in rendered ==> name in payload.value.fields && payload.value.fields[name] == rendered[name]
  }

  lemma NotesPlusModelForward(payload: Option<Json>, context: set<Id>)
    requires ParseNotesPlusModel(payload, context).Ok?
    ensures var a := ParseNotesPlusModel(payload, context).value;
            && Says(payload, RenderNotesPlusModel(a)) && Grounded(a.citedChunkIds, context)
            && NotesConsistent(a.notesText, a.citedChunkIds, a.notesMarker)
  {
    var a, fields := ParseNotesPlusModel(payload, context).value, payload.value.fields;
    StringsRoundTrip(fields["cited_chunk_ids"].items);
    assert fields["notes_text"] == JString(a.notesText) && fields["model_text"] == JString(a.modelText);
    assert fields["cited_chunk_ids"] == JArray(Texts(a.citedChunkIds));
    assert fields["notes_uncertainty"] == JString(NotesMarkerText(a.notesMarker));
  }

  lemma NotesPlusModelBack(payload: Option<Json>, context: set<Id>, a: NotesPlusModelAnswer)
    requires Says(payload, RenderNotesPlusModel(a)) && Grounded(a.citedChunkIds, context)
    requires NotesConsistent(a.notesText, a.citedChunkIds, a.notesMarker)
    ensures ParseNotesPlusModel(payload, context) == Ok(a)
  {
    StringsOfTexts(a.citedChunkIds);
    var fields, rendered := payload.value.fields, RenderNotesPlusModel(a);
    assert rendered.Keys == MODEL_FIELDS;
    assert forall name :: name in MODEL_FIELDS ==> name in rendered && fields[name] == rendered[name];
  }

  lemma NotesPlusModelAccepts(payload: Option<Json>, context: set<Id>, a: NotesPlusModelAnswer)
    ensures ParseNotesPlusModel(payload, context) == Ok(a)
        <==> Says(payload, RenderNotesPlusModel(a)) && Grounded(a.citedChunkIds, context)
             && NotesConsistent(a.notesText, a.citedChunkIds, a.notesMarker)
  {
    if ParseNotesPlusModel(payload, context) == Ok(a) {
      NotesPlusModelForward(payload, context);
    }
    if Says(payload, RenderNotesPlusModel(a)) && Grounded(a.citedChunkIds, context)
       && NotesConsistent(a.notesText, a.citedChunkIds, a.notesMarker) {
      NotesPlusModelBack(payload, context, a);
    }
  }

  predicate NotesButMarker(fields: map<string, Json>) {
    && TextField(fields, "notes_text").Some? && TextsField(fields, "cited_chunk_ids").Some?
    && TextField(fields, "model_text").Some?
    && "notes_uncertainty" in fields && Unhashable(fields["notes_uncertainty"])
  }

  /** The same of a notes-plus-model payload, whatever other keys it has. */
  predicate ModelButMarker(payload: Option<Json>) {
    payload.Some? && payload.value.JObject? && NotesButMarker(payload.value.fields)
  }

  lemma NotesPlusModelTypeErrorWhen(payload: Option<Json>, context: set<Id>)
    ensures ParseNotesPlusModel(payload, context) == Raised(TypeError) <==> ModelButMarker(payload)
  {
    if ModelButMarker(payload) {
      assert MODEL_FIELDS <= payload.value.fields.Keys;
    }
  }

  lemma NotesPlusModelTypeErrorExists(a: NotesPlusModelAnswer, items: seq<Json>)
    ensures ModelButMarker(Some(JObject(RenderNotesPlusModel(a)["notes_uncertainty" := JArray(items)])))
  {
    StringsOfTexts(a.citedChunkIds);
    var fields := RenderNotesPlusModel(a)["notes_uncertainty" := JArray(items)];
    assert fields["cited_chunk_ids"] == JArray(Texts(a.citedChunkIds));
    assert fields["notes_text"] == JString(a.notesText) && fields["model_text"] == JString(a.modelText);
  }

  // ---- /chat: notes, knowledge and model ----

  datatype NotesPlusKnowledgeAnswer = NotesPlusKnowledgeAnswer(
    notesText: string, citedChunkIds: seq<Id>, knowledgeText: string, citedKnowledgeRefs: seq<string>,
    modelText: string, notesMarker: NotesMarker)

  const KNOWLEDGE_FIELDS := MODEL_FIELDS + {"knowledge_text", "cited_knowledge_refs"}

  /** `parse_notes_plus_knowledge_answer` */
  function ParseNotesPlusKnowledge(payload: Option<Json>, context: set<Id>, refs: set<string>)
    : Result<NotesPlusKnowledgeAnswer, AnswerError>
  {
    if payload == None then Raised(MalformedJson)
    else if !payload.value.JObject? then Raised(SchemaMismatch)
    else
      var fields := payload.value.fields;
      if !(KNOWLEDGE_FIELDS <= fields.Keys) then Raised(SchemaMismatch)
      else
        var notes, cited := TextField(fields, "notes_text"), TextsField(fields, "cited_chunk_ids");
        var knowledge, citedRefs := TextField(fields, "knowledge_text"), TextsField(fields, "cited_knowledge_refs");
        var model := TextField(fields, "model_text");
        assert "notes_uncertainty" in KNOWLEDGE_FIELDS;
        var marker := fields["notes_uncertainty"];
        if notes == None || cited == None || knowledge == None || citedRefs == None || model == None then
          Raised(SchemaMismatch)
        else if Unhashable(marker) then Raised(TypeError)
        else if !marker.JString? || NotesMarkerOf(marker.text) == None then Raised(SchemaMismatch)
        else if exists id :: id in cited.value && id !in context then Raised(FabricatedCitation)
        else if exists ref :: ref in citedRefs.value && ref !in refs then Raised(FabricatedCitation)
        else if marker.text == "no_evidence" && !(cited.value == [] && notes.value == "") then Raised(SchemaMismatch)
        else if marker.text != "no_evidence" && (cited.value == [] || notes.value == "") then Raised(SchemaMismatch)
        else if (knowledge.value != "") != (citedRefs.value != []) then Raised(SchemaMismatch)
        else Ok(NotesPlusKnowledgeAnswer(notes.value, cited.value, knowledge.value, citedRefs.value, model.value,
                                         NotesMarkerOf(marker.text).value))
  }

  function RenderNotesPlusKnowledge(a: NotesPlusKnowledgeAnswer): map<string, Json> {
    map["notes_text" := JString(a.notesText), "cited_chunk_ids" := JArray(Texts(a.citedChunkIds)),
        "model_text" := JString(a.modelText), "notes_uncertainty" := JString(NotesMarkerText(a.notesMarker)),
        "knowledge_text" := JString(a.knowledgeText), "cited_knowledge_refs" := JArray(Texts(a.citedKnowledgeRefs))]
  }

  /** Every plane carries text exactly when it carries citations, all of them offered. */
  predicate PlanesConsistent(a: NotesPlusKnowledgeAnswer, context: set<Id>, refs: set<string>) {
    && Grounded(a.citedChunkIds, context) && Grounded(a.citedKnowledgeRefs, refs)
    && NotesConsistent(a.notesText, a.citedChunkIds, a.notesMarker)
    && (a.knowledgeText == "" <==> a.citedKnowledgeRefs == [])
  }

  lemma NotesPlusKnowledgeForward(payload: Option<Json>, context: set<Id>, refs: set<string>)
    requires ParseNotesPlusKnowledge(payload, context, refs).Ok?
    ensures var a := ParseNotesPlusKnowledge(payload, context, refs).value;
            Says(payload, RenderNotesPlusKnowledge(a)) && PlanesConsistent(a, context, refs)
  {
    StringsRoundTrip(payload.value.fields["cited_chunk_ids"].items);
    StringsRoundTrip(payload.value.fields["cited_knowledge_refs"].items);
  }

  lemma NotesPlusKnowledgeBack(payload: Option<Json>, context: set<Id>, refs: set<string>, a: NotesPlusKnowledgeAnswer)
    requires Says(payload, RenderNotesPlusKnowledge(a)) && PlanesConsistent(a, context, refs)
    ensures ParseNotesPlusKnowledge(payload, context, refs) == Ok(a)
  {
    StringsOfTexts(a.citedChunkIds);
    StringsOfTexts(a.citedKnowledgeRefs);
    var fields, rendered := payload.value.fields, RenderNotesPlusKnowledge(a);
    assert rendered.Keys == KNOWLEDGE_FIELDS;
    assert forall name :: name in KNOWLEDGE_FIELDS ==> name in rendered && fields[name] == rendered[name];
  }

  lemma NotesPlusKnowledgeAccepts(payload: Option<Json>, context: set<Id>, refs: set<string>, a: NotesPlusKnowledgeAnswer)
    ensures ParseNotesPlusKnowledge(payload, context, refs) == Ok(a)
        <==> Says(payload, RenderNotesPlusKnowledge(a)) && PlanesConsistent(a, context, refs)
  {
    if ParseNotesPlusKnowledge(payload, context, refs) == Ok(a) {
      NotesPlusKnowledgeForward(payload, context, refs);
    }
    if Says(payload, RenderNotesPlusKnowledge(a)) && PlanesConsistent(a, context, refs) {
      NotesPlusKnowledgeBack(payload, context, refs, a);
    }
  }

  /** With nothing offered, as after a failed search, an accepted answer has an empty knowledge plane. */
  lemma NoRefsNoKnowledge(payload: Option<Json>, context: set<Id>)
    requires ParseNotesPlusKnowledge(payload, context, {}).Ok?
    ensures var a := ParseNotesPlusKnowledge(payload, context, {}).value;
            a.knowledgeText == "" && a.citedKnowledgeRefs == []
  {
    var a := ParseNotesPlusKnowledge(payload, context, {}).value;
    NotesPlusKnowledgeForward(payload, context, {});
    HasMember(a.citedKnowledgeRefs);
  }

  predicate KnowledgeButMarker(payload: Option<Json>) {
    && payload.Some? && payload.value.JObject? && NotesButMarker(payload.value.fields)
    && TextField(payload.value.fields, "knowledge_text").Some?
    && TextsField(payload.value.fields, "cited_knowledge_refs").Some?
  }

  lemma NotesPlusKnowledgeTypeErrorWhen(payload: Option<Json>, context: set<Id>, refs: set<string>)
    ensures ParseNotesPlusKnowledge(payload, context, refs) == Raised(TypeError) <==> KnowledgeButMarker(payload)
  {
    if KnowledgeButMarker(payload) {
      assert KNOWLEDGE_FIELDS <= payload.value.fields.Keys;
    }
  }

  lemma NotesPlusKnowledgeTypeErrorExists(a: NotesPlusKnowledgeAnswer, items: seq<Json>)
    ensures KnowledgeButMarker(Some(JObject(RenderNotesPlusKnowledge(a)["notes_uncertainty" := JArray(items)])))
  {
    StringsOfTexts(a.citedChunkIds);
    StringsOfTexts(a.citedKnowledgeRefs);
    var fields := RenderNotesPlusKnowledge(a)["notes_uncertainty" := JArray(items)];
    assert fields["cited_chunk_ids"] == JArray(Texts(a.citedChunkIds));
    assert fields["cited_knowledge_refs"] == JArray(Texts(a.citedKnowledgeRefs));
    assert fields["notes_text"] == JString(a.notesText) && fields["model_text"] == JString(a.modelText);
    assert fields["knowledge_text"] == JString(a.knowledgeText);
  }

  lemma HasMember<T>(s: seq<T>)
    ensures s != [] ==> exists x :: x in s
  {
    if s != [] {
      assert s[0] in s;
    }
  }

  // ---- /chat: model only ----

  /** `parse_model_only_answer` */
  function ParseModelOnly(payload: Option<Json>): Result<string, AnswerError> {
    if payload == None then Raised(MalformedJson)
    else if !payload.value.JObject? || TextField(payload.value.fields, "answer_text") == None then Raised(SchemaMismatch)
    else Ok(TextField(payload.value.fields, "answer_text").value)
  }
}
