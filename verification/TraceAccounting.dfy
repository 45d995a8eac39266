/** Over any run of questions, whatever fails inside them, the trace tables stay one consistent account. */
module TraceAccounting {
  import opened Answering
  import opened Candidates
  import opened ChatPlans
  import opened Fusion
  import opened FusionBounds
  import opened Legs
  import opened Models
  import opened Plans
  import opened Tables
  import opened Text
  import opened Traces
  import opened Wrappers

  // ---- The account ----

  /** Queries and answer traces pair up by query id, and agree on how the question ended. */
  ghost predicate Paired(queries: map<Id, Query>, answers: map<Id, AnswerTrace>) {
    && queries.Keys == answers.Keys
    && (forall q :: q in queries ==>
          queries[q].queryId == q && answers[q].queryId == q && queries[q].fallback == answers[q].fallback)
  }

  /** Every hit belongs to a traced query, and none repeats a chunk within a leg of it. */
  ghost predicate HitsOnce(hits: map<Id, RetrievalHit>, queries: map<Id, Query>) {
    HitsPlaced(hits, queries) && HitsDiffer(hits)
  }

  ghost predicate HitsPlaced(hits: map<Id, RetrievalHit>, queries: map<Id, Query>) {
    forall h :: h in hits ==> hits[h].hitId == h && hits[h].queryId in queries
  }

  ghost predicate HitsDiffer(hits: map<Id, RetrievalHit>) {
    forall a, b :: a in hits && b in hits && SameHit(hits[a], hits[b]) ==> a == b
  }

  predicate SameHit(a: RetrievalHit, b: RetrievalHit) {
    a.queryId == b.queryId && a.chunkId == b.chunkId && a.leg == b.leg
  }

  predicate Mixed(route: AnswerRoute) {
    route == NotesPlusModel || route == NotesPlusKnowledge
  }

  /** A decision names its own community's query if any, and no two decisions the same one. */
  ghost predicate DecisionsLinked(decisions: map<Id, ChatRouteDecision>, queries: map<Id, Query>) {
    && (forall d :: d in decisions ==> DecisionLinked(decisions[d], d, queries))
    && (forall a, b :: a in decisions && b in decisions && SameQuery(decisions[a], decisions[b]) ==> a == b)
  }

  predicate SameQuery(a: ChatRouteDecision, b: ChatRouteDecision) {
    a.queryId.Some? && a.queryId == b.queryId
  }

  predicate DecisionLinked(d: ChatRouteDecision, id: Id, queries: map<Id, Query>) {
    && d.decisionId == id
    && (d.effective == ModelOnly ==> d.queryId.Some?)
    && (d.queryId.Some? ==> d.queryId.value in queries && queries[d.queryId.value].communityId == d.communityId)
  }

  /** A rewrite row exists iff a mixed route ran its retrieval, a knowledge row iff the knowledge route did. */
  ghost predicate StepsTraced(t: Traces) {
    && (forall d :: d in t.rewrites <==> d in t.decisions && Mixed(t.decisions[d].effective) && t.decisions[d].queryId.Some?)
    && (forall d :: d in t.searches <==>
          d in t.decisions && t.decisions[d].effective == NotesPlusKnowledge && t.decisions[d].queryId.Some?)
    && (forall d :: d in t.rewrites ==> t.rewrites[d].decisionId == d)
    && (forall d :: d in t.searches ==> t.searches[d].decisionId == d)
  }

  ghost predicate Accounted(t: Traces) {
    Paired(t.queries, t.answers) && HitsOnce(t.hits, t.queries) && DecisionsLinked(t.decisions, t.queries) && StepsTraced(t)
  }

  // ---- The rows of one question ----

  /** One query, its trace with the same ending, and hits of its own without repeats. */
  ghost predicate GoodRows(rows: QueryRows, env: AskEnv, communityId: Id) {
    && rows.query.queryId == env.queryId && rows.answer.queryId == env.queryId
    && rows.query.fallback == rows.answer.fallback && rows.query.communityId == communityId
    && (forall i :: 0 <= i < |rows.hits| ==> rows.hits[i].hitId == env.hitIds(i) && rows.hits[i].queryId == env.queryId)
    && NoRowRepeat(rows.hits)
  }

  lemma FoundOnce(v: SearchView, c: AskConfig, scope: Scope, queryText: string, env: AskEnv)
    requires Consistent(v.diary) && c.topK > 0
    ensures var r := Retrieved(v, c, scope, queryText, env);
            r.Ok? ==> NoRepeat(r.value.dense) && NoRepeat(r.value.sparse) && NoMergedRepeat(r.value.merged)
  {
    RetrievedIsSound(v, c, scope, queryText, env);
    var r := Retrieved(v, c, scope, queryText, env);
    if r.Ok? {
      FusedNoRepeat([r.value.dense, r.value.sparse], DEFAULT_RRF_K, c.topK);
    }
  }

  lemma FinalizedGood(
    c: AskConfig, env: AskEnv, communityId: Id, queryText: string, subject: Option<Id>, found: RetrievedCandidates,
    promptVersion: string, tracedAt: Time, g: Grading)
    requires NoRepeat(found.dense) && NoRepeat(found.sparse) && NoMergedRepeat(found.merged)
    ensures GoodRows(Finalized(c, env, communityId, queryText, subject, found, promptVersion, tracedAt, g).rows, env, communityId)
  {
    HitRowIds(env.queryId, c.embedModel, env.now, found, env.hitIds);
    RowsOnce(env.queryId, c.embedModel, env.now, found, env.hitIds);
  }

  lemma AskGood(
    v: SearchView, c: AskConfig, decode: Decoder, m: InboundMessage, dates: Option<DateRange>, subject: Option<Id>, env: AskEnv)
    requires Consistent(v.diary) && c.topK > 0
    ensures var plan := AskPlan(v, c, decode, m, dates, subject, env);
            plan.Ok? ==> GoodRows(plan.value.rows, env, m.communityId)
  {
    var plan := AskPlan(v, c, decode, m, dates, subject, env);
    if plan.Ok? {
      var queryText := NormalizeQuery(m.payload);
      if queryText == "" {
        FinalizedGood(c, env, m.communityId, queryText, subject, NothingFound(c), PROMPT_VERSION, env.traceNow,
                      Unanswered(NoEvidence, c.chatModel));
      } else {
        FoundOnce(v, c, Scope(m.communityId, dates, subject), queryText, env);
        var found := Retrieved(v, c, Scope(m.communityId, dates, subject), queryText, env).value;
        var g := if found.merged == [] then Unanswered(NoEvidence, c.chatModel)
                 else GradeAsk(MergedChunks(found.merged), env.chat, c.chatModel, decode).value;
        FinalizedGood(c, env, m.communityId, queryText, subject, found, PROMPT_VERSION, env.traceNow, g);
      }
    }
  }

  /** What the rows of a chat's route look like. */
  ghost predicate GoodRoute(r: Routed, effective: AnswerRoute, env: ChatEnv, communityId: Id) {
    && (r.rows.Some? <==> r.answer.queryId.Some?)
    && (r.rows.Some? ==> r.answer.queryId == Some(env.ask.queryId) && GoodRows(r.rows.value, env.ask, communityId))
    && (r.answer.rewrite.Some? <==> Mixed(effective) && r.answer.queryId.Some?)
    && (r.answer.knowledge.Some? <==> effective == NotesPlusKnowledge && r.answer.queryId.Some?)
    && (effective == ModelOnly ==> r.answer.queryId.Some?)
  }

  lemma NotesPlusModelGood(
    v: SearchView, config: ChatConfig, decode: Decoder, m: InboundMessage, question: string, subject: Option<Id>, env: ChatEnv)
    requires Consistent(v.diary) && config.ask.topK > 0
    ensures var r := NotesPlusModelPlan(v, config, decode, m, question, subject, env);
            r.Ok? ==> GoodRoute(r.value, NotesPlusModel, env, m.communityId)
  {
    var capture := Captured(config.rewriterModel, env.rewrite);
    var scope := Scope(m.communityId, capture.dates, subject);
    FoundOnce(v, config.ask, scope, RetrievalQuery(capture, question), env.ask);
    if NotesPlusModelPlan(v, config, decode, m, question, subject, env).Ok? {
      var found := Retrieved(v, config.ask, scope, RetrievalQuery(capture, question), env.ask).value;
      var g := GradeNotesPlusModel(MergedChunks(found.merged), env.ask.chat, config.ask.chatModel, decode).value;
      FinalizedGood(config.ask, env.ask, m.communityId, question, subject, found, NOTES_PLUS_MODEL_PROMPT_VERSION, env.ask.now, g);
    }
  }

  lemma NotesPlusKnowledgeGood(
    v: SearchView, config: ChatConfig, decode: Decoder, m: InboundMessage, question: string, subject: Option<Id>, env: ChatEnv)
    requires Consistent(v.diary) && config.ask.topK > 0
    ensures var r := NotesPlusKnowledgePlan(v, config, decode, m, question, subject, env);
            r.Ok? ==> GoodRoute(r.value, NotesPlusKnowledge, env, m.communityId)
  {
    var capture := Captured(config.rewriterModel, env.rewrite);
    var scope := Scope(m.communityId, capture.dates, subject);
    FoundOnce(v, config.ask, scope, RetrievalQuery(capture, question), env.ask);
    if NotesPlusKnowledgePlan(v, config, decode, m, question, subject, env).Ok? {
      var found := Retrieved(v, config.ask, scope, RetrievalQuery(capture, question), env.ask).value;
      var g := GradeNotesPlusKnowledge(MergedChunks(found.merged), Refs(Excerpts(env.search)), env.ask.chat,
                                       config.ask.chatModel, decode).value;
      FinalizedGood(config.ask, env.ask, m.communityId, question, subject, found, NOTES_PLUS_KNOWLEDGE_PROMPT_VERSION,
                    env.ask.now, g);
    }
  }

  lemma RouteGood(
    v: SearchView, config: ChatConfig, decode: Decoder, m: InboundMessage, question: string, subject: Option<Id>,
    effective: AnswerRoute, env: ChatEnv)
    requires Consistent(v.diary) && config.ask.topK > 0
    ensures var r := RoutePlan(v, config, decode, m, question, subject, effective, env);
            r.Ok? ==> GoodRoute(r.value, effective, env, m.communityId)
  {
    match effective
    case ModelOnly =>
    case NotesPlusModel => NotesPlusModelGood(v, config, decode, m, question, subject, env);
    case NotesPlusKnowledge => NotesPlusKnowledgeGood(v, config, decode, m, question, subject, env);
    case NotesLookup => AskGood(v, config.ask, decode, m, None, subject, env.ask);
  }

  // ---- Saving keeps the account ----

  lemma PairedMore(queries: map<Id, Query>, answers: map<Id, AnswerTrace>, q: Query, a: AnswerTrace)
    requires Paired(queries, answers) && q.queryId == a.queryId && q.fallback == a.fallback
    ensures Paired(queries[q.queryId := q], answers[a.queryId := a])
  {
  }

  lemma HitsMore(hits: map<Id, RetrievalHit>, queries: map<Id, Query>, q: Query, rows: seq<RetrievalHit>)
    requires HitsOnce(hits, queries) && q.queryId !in queries && NoRowRepeat(rows)
    requires forall i :: 0 <= i < |rows| ==> rows[i].hitId !in hits && rows[i].queryId == q.queryId
    requires forall i, j :: 0 <= i < j < |rows| ==> rows[i].hitId != rows[j].hitId
    ensures HitsOnce(hits + HitMap(rows), queries[q.queryId := q])
  {
    MoreHitsPlaced(hits, queries, q, rows);
    var after := hits + HitMap(rows);
    forall a, b | a in after && b in after && SameHit(after[a], after[b]) ensures a == b {
      SameHitSame(hits, queries, q, rows, a, b);
    }
  }

  lemma MoreHitsPlaced(hits: map<Id, RetrievalHit>, queries: map<Id, Query>, q: Query, rows: seq<RetrievalHit>)
    requires HitsPlaced(hits, queries) && forall i :: 0 <= i < |rows| ==> rows[i].queryId == q.queryId
    ensures HitsPlaced(hits + HitMap(rows), queries[q.queryId := q])
  {
    HitMapKeys(rows);
    forall h | h in HitMap(rows) ensures HitMap(rows)[h].hitId == h && HitMap(rows)[h].queryId == q.queryId {
      var i :| 0 <= i < |rows| && rows[i].hitId == h && HitMap(rows)[h] == rows[i];
    }
  }

  lemma SameHitSame(hits: map<Id, RetrievalHit>, queries: map<Id, Query>, q: Query, rows: seq<RetrievalHit>, a: Id, b: Id)
    requires HitsOnce(hits, queries) && q.queryId !in queries && NoRowRepeat(rows)
    requires forall i :: 0 <= i < |rows| ==> rows[i].hitId !in hits && rows[i].queryId == q.queryId
    requires var after := hits + HitMap(rows); a in after && b in after && SameHit(after[a], after[b])
    ensures a == b
  {
    HitMapKeys(rows);
    if a in HitMap(rows) {
      var i :| 0 <= i < |rows| && rows[i].hitId == a && HitMap(rows)[a] == rows[i];
      assert b in HitMap(rows);
      var j :| 0 <= j < |rows| && rows[j].hitId == b && HitMap(rows)[b] == rows[j];
      assert i == j;
    } else {
      assert a in hits && hits[a].queryId in queries;
      assert b !in HitMap(rows);
    }
  }

  lemma DecisionsKept(decisions: map<Id, ChatRouteDecision>, queries: map<Id, Query>, q: Query)
    requires DecisionsLinked(decisions, queries) && q.queryId !in queries
    ensures DecisionsLinked(decisions, queries[q.queryId := q])
  {
  }

  lemma RowsAccounted(t: Traces, rows: QueryRows, env: AskEnv, communityId: Id)
    requires Accounted(t) && FreshAsk(t, env) && GoodRows(rows, env, communityId)
    ensures Persisted(t, rows).Some?
    ensures var u := Persisted(t, rows).value;
            && Accounted(u) && u.queries == t.queries[env.queryId := rows.query]
            && u.decisions == t.decisions && u.rewrites == t.rewrites && u.searches == t.searches
  {
    FreshPersists(t, env, rows);
    PairedMore(t.queries, t.answers, rows.query, rows.answer);
    HitsMore(t.hits, t.queries, rows.query, rows.hits);
    DecisionsKept(t.decisions, t.queries, rows.query);
  }

  /** A decision with the rows that must go with it. */
  ghost predicate GoodLinks(rows: ChatRows, env: ChatEnv, queries: map<Id, Query>) {
    var d := rows.decision;
    && DecisionLinked(d, env.decisionId, queries)
    && (rows.rewrite.Some? <==> Mixed(d.effective) && d.queryId.Some?)
    && (rows.search.Some? <==> d.effective == NotesPlusKnowledge && d.queryId.Some?)
    && (rows.rewrite.Some? ==> rows.rewrite.value.decisionId == env.decisionId)
    && (rows.search.Some? ==> rows.search.value.decisionId == env.decisionId)
  }

  lemma LinksAccounted(t: Traces, rows: ChatRows, env: ChatEnv)
    requires Accounted(t) && GoodLinks(rows, env, t.queries)
    requires env.decisionId !in t.decisions && env.decisionId !in t.rewrites && env.decisionId !in t.searches
    requires rows.decision.queryId.Some? ==>
               forall d :: d in t.decisions ==> t.decisions[d].queryId != rows.decision.queryId
    ensures var u := PersistedSearch(PersistedRewrite(WithDecision(t, rows.decision), rows.rewrite), rows.search);
            && u.Some? && Accounted(u.value) && u.value.queries == t.queries
            && u.value.decisions == t.decisions[env.decisionId := rows.decision]
  {
    FreshLinks(t, env, rows);
    DecisionMore(t.decisions, t.queries, rows.decision, env.decisionId);
    StepsMore(t, rows, env);
  }

  lemma DecisionMore(decisions: map<Id, ChatRouteDecision>, queries: map<Id, Query>, d: ChatRouteDecision, id: Id)
    requires DecisionsLinked(decisions, queries) && id !in decisions && DecisionLinked(d, id, queries)
    requires d.queryId.Some? ==> forall x :: x in decisions ==> decisions[x].queryId != d.queryId
    ensures DecisionsLinked(decisions[id := d], queries)
  {
  }

  lemma StepsMore(t: Traces, rows: ChatRows, env: ChatEnv)
    requires StepsTraced(t) && GoodLinks(rows, env, t.queries)
    requires env.decisionId !in t.decisions && env.decisionId !in t.rewrites && env.decisionId !in t.searches
    ensures StepsTraced(t.(decisions := t.decisions[env.decisionId := rows.decision],
                           rewrites := if rows.rewrite.Some? then t.rewrites[env.decisionId := rows.rewrite.value] else t.rewrites,
                           searches := if rows.search.Some? then t.searches[env.decisionId := rows.search.value] else t.searches))
  {
  }

  // ---- Runs ----

  datatype Call =
    | Ask(message: InboundMessage, dates: Option<DateRange>, subject: Option<Id>, env: AskEnv)
    | Chat(message: InboundMessage, subject: Option<Id>, chatEnv: ChatEnv)

  /** One call, against the store as it was then. */
  datatype Turn = Turn(view: SearchView, call: Call)

  /** The traces after one call; a call that raises leaves them alone. */
  ghost function AfterTurn(t: Traces, config: ChatConfig, decode: Decoder, turn: Turn): Traces
    requires config.ask.topK > 0
  {
    match turn.call
    case Ask(m, dates, subject, env) =>
      var plan := AskPlan(turn.view, config.ask, decode, m, dates, subject, env);
      if plan.Ok? && Persisted(t, plan.value.rows).Some? then Persisted(t, plan.value.rows).value else t
    case Chat(m, subject, env) =>
      var plan := ChatPlan(turn.view, config, decode, m, subject, env);
      if plan.Ok? && PersistedChat(t, plan.value.rows).Some? then PersistedChat(t, plan.value.rows).value else t
  }

  ghost function Tracing(config: ChatConfig, decode: Decoder, turns: seq<Turn>): Traces
    requires config.ask.topK > 0
  {
    if turns == [] then NO_TRACES
    else AfterTurn(Tracing(config, decode, turns[..|turns| - 1]), config, decode, turns[|turns| - 1])
  }

  ghost predicate FreshTurn(t: Traces, turn: Turn) {
    && Consistent(turn.view.diary)
    && match turn.call
       case Ask(_, _, _, env) => FreshAsk(t, env)
       case Chat(_, _, env) => FreshChat(t, env)
  }

  ghost predicate FreshTurns(config: ChatConfig, decode: Decoder, turns: seq<Turn>)
    requires config.ask.topK > 0
  {
    turns == []
    || (FreshTurns(config, decode, turns[..|turns| - 1])
        && FreshTurn(Tracing(config, decode, turns[..|turns| - 1]), turns[|turns| - 1]))
  }

  lemma ChatSaves(t: Traces, config: ChatConfig, decode: Decoder, v: SearchView, m: InboundMessage, subject: Option<Id>, env: ChatEnv)
    requires config.ask.topK > 0 && Accounted(t) && FreshChat(t, env) && Consistent(v.diary)
    requires ChatPlan(v, config, decode, m, subject, env).Ok?
    ensures var rows := ChatPlan(v, config, decode, m, subject, env).value.rows;
            var u := PersistedChat(t, rows);
            && u.Some? && Accounted(u.value)
            && u.value.decisions == t.decisions[env.decisionId := rows.decision]
            && u.value.queries == (if rows.rows.Some? then t.queries[env.ask.queryId := rows.rows.value.query] else t.queries)
            && (rows.rows.Some? <==> rows.decision.queryId.Some?)
  {
    var question := Strip(m.payload);
    var requested := RequestedRoute(question, env.classification);
    var effective := EffectiveRoute(requested, config);
    ChatPlanIs(v, config, decode, m, subject, env, requested, effective);
    RouteGood(v, config, decode, m, question, subject, effective, env);
    RoutedSaves(t, config, m, question, requested, effective, RoutePlan(v, config, decode, m, question, subject, effective, env).value, env);
  }

  lemma RoutedSaves(
    t: Traces, config: ChatConfig, m: InboundMessage, question: string, requested: Option<AnswerRoute>, effective: AnswerRoute,
    routed: Routed, env: ChatEnv)
    requires Accounted(t) && FreshChat(t, env) && GoodRoute(routed, effective, env, m.communityId)
    ensures var rows := Concluded(config, m, question, requested, effective, routed, env).rows;
            var u := PersistedChat(t, rows);
            && u.Some? && Accounted(u.value)
            && u.value.decisions == t.decisions[env.decisionId := rows.decision]
            && u.value.queries == (if rows.rows.Some? then t.queries[env.ask.queryId := rows.rows.value.query] else t.queries)
            && (rows.rows.Some? <==> rows.decision.queryId.Some?)
  {
    var rows := Concluded(config, m, question, requested, effective, routed, env).rows;
    RouteSaves(t, config, m, routed, effective, env);
    ChatAccounted(t, PersistedIf(t, routed.rows).value, rows, env);
  }

  lemma ChatAccounted(t: Traces, t1: Traces, rows: ChatRows, env: ChatEnv)
    requires PersistedIf(t, rows.rows) == Some(t1) && Accounted(t1) && GoodLinks(rows, env, t1.queries)
    requires env.decisionId !in t1.decisions && env.decisionId !in t1.rewrites && env.decisionId !in t1.searches
    requires rows.decision.queryId.Some? ==>
               forall d :: d in t1.decisions ==> t1.decisions[d].queryId != rows.decision.queryId
    ensures var u := PersistedChat(t, rows);
            && u.Some? && Accounted(u.value) && u.value.queries == t1.queries
            && u.value.decisions == t1.decisions[env.decisionId := rows.decision]
  {
    LinksAccounted(t1, rows, env);
  }

  /** After a route's own rows, the decision's links are as they must be. */
  lemma RouteSaves(t: Traces, config: ChatConfig, m: InboundMessage, routed: Routed, effective: AnswerRoute, env: ChatEnv)
    requires Accounted(t) && FreshChat(t, env) && GoodRoute(routed, effective, env, m.communityId)
    ensures var u := PersistedIf(t, routed.rows);
            && u.Some? && Accounted(u.value)
            && u.value.decisions == t.decisions && u.value.rewrites == t.rewrites && u.value.searches == t.searches
            && u.value.queries == (if routed.rows.Some? then t.queries[env.ask.queryId := routed.rows.value.query] else t.queries)
    ensures routed.answer.queryId.Some? ==>
              forall d :: d in t.decisions ==> t.decisions[d].queryId != routed.answer.queryId
    ensures forall question, requested ::
              GoodLinks(Concluded(config, m, question, requested, effective, routed, env).rows, env,
                        PersistedIf(t, routed.rows).value.queries)
  {
    if routed.rows.Some? {
      RowsAccounted(t, routed.rows.value, env.ask, m.communityId);
    }
  }

  lemma TurnAccounted(t: Traces, config: ChatConfig, decode: Decoder, turn: Turn)
    requires config.ask.topK > 0 && Accounted(t) && FreshTurn(t, turn)
    ensures Accounted(AfterTurn(t, config, decode, turn))
  {
    match turn.call
    case Ask(m, dates, subject, env) =>
      var plan := AskPlan(turn.view, config.ask, decode, m, dates, subject, env);
      AskGood(turn.view, config.ask, decode, m, dates, subject, env);
      if plan.Ok? {
        RowsAccounted(t, plan.value.rows, env, m.communityId);
      }
    case Chat(m, subject, env) =>
      if ChatPlan(turn.view, config, decode, m, subject, env).Ok? {
        ChatSaves(t, config, decode, turn.view, m, subject, env);
      }
  }

  /**
   * Over every run of `/ask` and `/chat`, against stores that change freely in between and with any
   * failures inside, the trace tables stay a consistent account.
   */
  lemma {:induction false} RunAccounted(config: ChatConfig, decode: Decoder, turns: seq<Turn>)
    requires config.ask.topK > 0 && FreshTurns(config, decode, turns)
    ensures Accounted(Tracing(config, decode, turns))
  {
    if turns != [] {
      var before := turns[..|turns| - 1];
      RunAccounted(config, decode, before);
      TurnAccounted(Tracing(config, decode, before), config, decode, turns[|turns| - 1]);
    }
  }

  // ---- Counting ----

  ghost predicate Returns(config: ChatConfig, decode: Decoder, turn: Turn)
    requires config.ask.topK > 0
  {
    match turn.call
    case Ask(m, dates, subject, env) => AskPlan(turn.view, config.ask, decode, m, dates, subject, env).Ok?
    case Chat(m, subject, env) => ChatPlan(turn.view, config, decode, m, subject, env).Ok?
  }

  /** The chats that returned. */
  ghost function Chats(config: ChatConfig, decode: Decoder, turns: seq<Turn>): nat
    requires config.ask.topK > 0
  {
    if turns == [] then 0
    else
      var last := turns[|turns| - 1];
      Chats(config, decode, turns[..|turns| - 1]) + if last.call.Chat? && Returns(config, decode, last) then 1 else 0
  }

  /** The calls that returned with a query traced. */
  ghost function Queried(config: ChatConfig, decode: Decoder, turns: seq<Turn>): nat
    requires config.ask.topK > 0
  {
    if turns == [] then 0
    else
      Queried(config, decode, turns[..|turns| - 1]) + if TracesQuery(config, decode, turns[|turns| - 1]) then 1 else 0
  }

  ghost predicate TracesQuery(config: ChatConfig, decode: Decoder, turn: Turn)
    requires config.ask.topK > 0
  {
    Returns(config, decode, turn)
    && (turn.call.Chat? ==>
          ChatPlan(turn.view, config, decode, turn.call.message, turn.call.subject, turn.call.chatEnv).value.rows.decision.queryId.Some?)
  }

  lemma TurnCounts(t: Traces, config: ChatConfig, decode: Decoder, turn: Turn)
    requires config.ask.topK > 0 && Accounted(t) && FreshTurn(t, turn)
    ensures var u := AfterTurn(t, config, decode, turn);
            && |u.decisions| == |t.decisions| + (if turn.call.Chat? && Returns(config, decode, turn) then 1 else 0)
            && |u.queries| == |t.queries| + (if TracesQuery(config, decode, turn) then 1 else 0)
  {
    match turn.call
    case Ask(m, dates, subject, env) =>
      var plan := AskPlan(turn.view, config.ask, decode, m, dates, subject, env);
      AskGood(turn.view, config.ask, decode, m, dates, subject, env);
      if plan.Ok? {
        RowsAccounted(t, plan.value.rows, env, m.communityId);
      }
    case Chat(m, subject, env) =>
      if ChatPlan(turn.view, config, decode, m, subject, env).Ok? {
        ChatSaves(t, config, decode, turn.view, m, subject, env);
      }
  }

  /** One decision a returned chat, one query and one answer trace a call that searched or needed no search. */
  lemma PairedCount(t: Traces)
    requires Accounted(t)
    ensures |t.queries| == |t.answers|
  {
    assert |t.queries| == |t.queries.Keys| && |t.answers| == |t.answers.Keys|;
  }

  lemma {:induction false} RunCounts(config: ChatConfig, decode: Decoder, turns: seq<Turn>)
    requires config.ask.topK > 0 && FreshTurns(config, decode, turns)
    ensures var t := Tracing(config, decode, turns);
            && |t.decisions| == Chats(config, decode, turns)
            && |t.queries| == |t.answers| == Queried(config, decode, turns)
  {
    RunAccounted(config, decode, turns);
    PairedCount(Tracing(config, decode, turns));
    if turns != [] {
      var before := turns[..|turns| - 1];
      RunCounts(config, decode, before);
      RunAccounted(config, decode, before);
      TurnCounts(Tracing(config, decode, before), config, decode, turns[|turns| - 1]);
    }
  }

  predicate SearchMissing(env: AskEnv) {
    !env.searchImplemented && env.embedding.Some?
  }

  lemma RetrievedUnsearchedWhen(v: SearchView, c: AskConfig, scope: Scope, queryText: string, env: AskEnv)
    requires c.topK > 0
    ensures Retrieved(v, c, scope, queryText, env) == Raised(SearchNotImplemented) <==> scope.communityId != "" && SearchMissing(env)
    ensures SearchMissing(env) ==> Retrieved(v, c, scope, queryText, env).Raised?
  {
  }

  /** Grading raises nothing the routes catch. */
  lemma GradingErrors(chunks: seq<EventChunk>, refs: set<string>, chat: ChatOutcome, chatModel: string, decode: Decoder)
    ensures GradeAsk(chunks, chat, chatModel, decode) != Raised(SearchNotImplemented)
    ensures GradeNotesPlusModel(chunks, chat, chatModel, decode) != Raised(SearchNotImplemented)
    ensures GradeNotesPlusKnowledge(chunks, refs, chat, chatModel, decode) != Raised(SearchNotImplemented)
  {
  }

  lemma AskUnsearchedWhen(
    v: SearchView, c: AskConfig, decode: Decoder, m: InboundMessage, dates: Option<DateRange>, subject: Option<Id>, env: AskEnv)
    requires c.topK > 0
    ensures AskPlan(v, c, decode, m, dates, subject, env) == Raised(SearchNotImplemented)
        <==> m.communityId != "" && NormalizeQuery(m.payload) != "" && SearchMissing(env)
  {
    var queryText := NormalizeQuery(m.payload);
    var r := Retrieved(v, c, Scope(m.communityId, dates, subject), queryText, env);
    RetrievedUnsearchedWhen(v, c, Scope(m.communityId, dates, subject), queryText, env);
    if r.Ok? {
      GradingErrors(MergedChunks(r.value.merged), {}, env.chat, c.chatModel, decode);
    }
  }

  lemma ModelUnsearchedWhen(
    v: SearchView, config: ChatConfig, decode: Decoder, m: InboundMessage, question: string, subject: Option<Id>, env: ChatEnv)
    requires config.ask.topK > 0
    ensures NotesPlusModelPlan(v, config, decode, m, question, subject, env) == Raised(SearchNotImplemented)
        <==> m.communityId != "" && SearchMissing(env.ask)
  {
    var capture := Captured(config.rewriterModel, env.rewrite);
    var scope, text := Scope(m.communityId, capture.dates, subject), RetrievalQuery(capture, question);
    var r := Retrieved(v, config.ask, scope, text, env.ask);
    RetrievedUnsearchedWhen(v, config.ask, scope, text, env.ask);
    if r.Ok? {
      GradingErrors(MergedChunks(r.value.merged), {}, env.ask.chat, config.ask.chatModel, decode);
    }
  }

  lemma KnowledgeUnsearchedWhen(
    v: SearchView, config: ChatConfig, decode: Decoder, m: InboundMessage, question: string, subject: Option<Id>, env: ChatEnv)
    requires config.ask.topK > 0
    ensures NotesPlusKnowledgePlan(v, config, decode, m, question, subject, env) == Raised(SearchNotImplemented)
        <==> m.communityId != "" && SearchMissing(env.ask)
  {
    var capture := Captured(config.rewriterModel, env.rewrite);
    var scope, text := Scope(m.communityId, capture.dates, subject), RetrievalQuery(capture, question);
    var r := Retrieved(v, config.ask, scope, text, env.ask);
    RetrievedUnsearchedWhen(v, config.ask, scope, text, env.ask);
    if r.Ok? {
      GradingErrors(MergedChunks(r.value.merged), Refs(Excerpts(env.search)), env.ask.chat, config.ask.chatModel, decode);
    }
  }

  lemma RouteUnsearchedWhen(
    v: SearchView, config: ChatConfig, decode: Decoder, m: InboundMessage, question: string, subject: Option<Id>,
    effective: AnswerRoute, env: ChatEnv)
    requires config.ask.topK > 0 && m.communityId != ""
    ensures var r := RoutePlan(v, config, decode, m, question, subject, effective, env);
            r.Ok? ==> (r.value.answer.queryId == None
                       <==> effective != ModelOnly && SearchMissing(env.ask)
                            && (effective == NotesLookup ==> NormalizeQuery(m.payload) != ""))
  {
    match effective
    case ModelOnly =>
    case NotesPlusModel =>
      ModelUnsearchedWhen(v, config, decode, m, question, subject, env);
      MixedHaveQuery(v, config, decode, m, question, subject, env);
      UnsearchedHasNoQuery(NotesPlusModelPlan(v, config, decode, m, question, subject, env), question);
    case NotesPlusKnowledge =>
      KnowledgeUnsearchedWhen(v, config, decode, m, question, subject, env);
      MixedHaveQuery(v, config, decode, m, question, subject, env);
      UnsearchedHasNoQuery(NotesPlusKnowledgePlan(v, config, decode, m, question, subject, env), question);
    case NotesLookup =>
      AskUnsearchedWhen(v, config.ask, decode, m, None, subject, env.ask);
      UnsearchedHasNoQuery(LookupPlan(v, config, decode, m, subject, env), question);
  }

  lemma MixedHaveQuery(
    v: SearchView, config: ChatConfig, decode: Decoder, m: InboundMessage, question: string, subject: Option<Id>, env: ChatEnv)
    requires config.ask.topK > 0
    ensures var r := NotesPlusModelPlan(v, config, decode, m, question, subject, env); r.Ok? ==> r.value.answer.queryId.Some?
    ensures var r := NotesPlusKnowledgePlan(v, config, decode, m, question, subject, env); r.Ok? ==> r.value.answer.queryId.Some?
  {
  }

  lemma UnsearchedHasNoQuery(r: Result<Routed, AskError>, question: string)
    requires r.Ok? ==> r.value.answer.queryId.Some?
    ensures OrUnsearched(r, question).Ok? ==> (OrUnsearched(r, question).value.answer.queryId == None <==> r == Raised(SearchNotImplemented))
  {
  }

  /** A returned chat has no query exactly when its route needed the search seam and that was not implemented. */
  lemma NullQueryWhen(v: SearchView, config: ChatConfig, decode: Decoder, m: InboundMessage, subject: Option<Id>, env: ChatEnv)
    requires config.ask.topK > 0 && ChatPlan(v, config, decode, m, subject, env).Ok?
    ensures var d := ChatPlan(v, config, decode, m, subject, env).value.rows.decision;
            d.queryId == None
            <==> d.effective != ModelOnly && SearchMissing(env.ask)
                 && (d.effective == NotesLookup ==> NormalizeQuery(m.payload) != "")
  {
    var question := Strip(m.payload);
    var requested := RequestedRoute(question, env.classification);
    var effective := EffectiveRoute(requested, config);
    ChatPlanIs(v, config, decode, m, subject, env, requested, effective);
    RouteUnsearchedWhen(v, config, decode, m, question, subject, effective, env);
  }
}
