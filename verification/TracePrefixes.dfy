/**
 * The rows of a question are saved one by one. Stopped after any of them, no row is left without the row
 * it points at, and a query is left without its answer trace exactly when the stop fell between the two.
 */
module TracePrefixes {
  import opened Answering
  import opened ChatPlans
  import opened Models
  import opened Plans
  import opened Sorting
  import opened Tables
  import opened Text
  import opened TraceAccounting
  import opened Traces
  import opened Wrappers

  // ---- Row by row ----

  datatype Row =
    | OfQuery(query: Query)
    | OfHit(hit: RetrievalHit)
    | OfAnswer(answer: AnswerTrace)
    | OfDecision(decision: ChatRouteDecision)
    | OfRewrite(rewrite: ChatQueryRewrite)
    | OfSearch(search: ChatKnowledgeSearch)

  /** One row saved; None when the store refuses it. */
  function Saved(t: Traces, r: Row): Option<Traces> {
    match r
    case OfQuery(q) => WithQuery(t, q)
    case OfHit(h) => WithHits(t, [h])
    case OfAnswer(a) => WithAnswer(t, a)
    case OfDecision(d) => WithDecision(t, d)
    case OfRewrite(rw) => WithRewrite(t, rw)
    case OfSearch(s) => WithSearch(t, s)
  }

  function SavedAll(t: Traces, rs: seq<Row>): Option<Traces>
    decreases |rs|
  {
    if rs == [] then Some(t)
    else
      match Saved(t, rs[0])
      case None => None
      case Some(u) => SavedAll(u, rs[1..])
  }

  function HitRows(hits: seq<RetrievalHit>): (rs: seq<Row>)
    ensures |rs| == |hits|
    ensures forall i :: 0 <= i < |rs| ==> rs[i] == OfHit(hits[i])
  {
    seq(|hits|, i requires 0 <= i < |hits| => OfHit(hits[i]))
  }

  /** The rows of one traced query, in the order they are saved. */
  function AskedRows(rows: QueryRows): seq<Row> {
    [OfQuery(rows.query)] + HitRows(rows.hits) + [OfAnswer(rows.answer)]
  }

  /** A decision and the rows that link to it, in the order they are saved. */
  function LinkRows(rows: ChatRows): seq<Row> {
    [OfDecision(rows.decision)]
    + (if rows.rewrite.Some? then [OfRewrite(rows.rewrite.value)] else [])
    + (if rows.search.Some? then [OfSearch(rows.search.value)] else [])
  }

  lemma {:induction false} SavedConcat(t: Traces, a: seq<Row>, b: seq<Row>)
    ensures SavedAll(t, a + b) == if SavedAll(t, a) == None then None else SavedAll(SavedAll(t, a).value, b)
    decreases |a|
  {
    if a == [] {
      assert a + b == b;
    } else {
      assert (a + b)[0] == a[0] && (a + b)[1..] == a[1..] + b;
      if Saved(t, a[0]).Some? {
        SavedConcat(Saved(t, a[0]).value, a[1..], b);
      }
    }
  }

  lemma SavedOne(t: Traces, r: Row)
    ensures SavedAll(t, [r]) == Saved(t, r)
  {
    assert [r][1..] == [];
  }

  lemma SavedOneHit(t: Traces, h: RetrievalHit)
    ensures WithHits(t, [h]) == if h.hitId in t.hits then None else Some(t.(hits := t.hits[h.hitId := h]))
  {
    assert [h][1..] == [];
  }

  lemma {:induction false} HitsRowByRow(t: Traces, hits: seq<RetrievalHit>)
    ensures SavedAll(t, HitRows(hits)) == WithHits(t, hits)
    decreases |hits|
  {
    if hits != [] {
      SavedOneHit(t, hits[0]);
      assert HitRows(hits)[0] == OfHit(hits[0]);
      assert HitRows(hits)[1..] == HitRows(hits[1..]);
      if hits[0].hitId !in t.hits {
        HitsRowByRow(t.(hits := t.hits[hits[0].hitId := hits[0]]), hits[1..]);
      }
    }
  }

  /** Saving a question's rows is saving them one by one. */
  lemma AskRowByRow(t: Traces, rows: QueryRows)
    ensures SavedAll(t, AskedRows(rows)) == Persisted(t, rows)
  {
    var query, hits, answer := OfQuery(rows.query), HitRows(rows.hits), OfAnswer(rows.answer);
    SavedConcat(t, [query] + hits, [answer]);
    SavedConcat(t, [query], hits);
    SavedOne(t, query);
    if WithQuery(t, rows.query).Some? {
      var t1 := WithQuery(t, rows.query).value;
      HitsRowByRow(t1, rows.hits);
      if WithHits(t1, rows.hits).Some? {
        SavedOne(WithHits(t1, rows.hits).value, answer);
      }
    }
  }

  lemma LinksRowByRow(t: Traces, rows: ChatRows)
    ensures SavedAll(t, LinkRows(rows)) == PersistedSearch(PersistedRewrite(WithDecision(t, rows.decision), rows.rewrite), rows.search)
  {
    var decision := [OfDecision(rows.decision)];
    var rewrite := if rows.rewrite.Some? then [OfRewrite(rows.rewrite.value)] else [];
    var search := if rows.search.Some? then [OfSearch(rows.search.value)] else [];
    SavedConcat(t, decision + rewrite, search);
    SavedConcat(t, decision, rewrite);
    SavedOne(t, OfDecision(rows.decision));
    var t1 := WithDecision(t, rows.decision);
    if t1.Some? && rows.rewrite.Some? {
      SavedOne(t1.value, OfRewrite(rows.rewrite.value));
    }
    var t2 := PersistedRewrite(t1, rows.rewrite);
    if t2.Some? && rows.search.Some? {
      SavedOne(t2.value, OfSearch(rows.search.value));
    }
  }

  function RowsOf(asked: Option<QueryRows>, links: seq<Row>): seq<Row> {
    (if asked.Some? then AskedRows(asked.value) else []) + links
  }

  /** And so is saving a chat's. */
  lemma ChatRowByRow(t: Traces, rows: ChatRows)
    ensures SavedAll(t, RowsOf(rows.rows, LinkRows(rows))) == PersistedChat(t, rows)
  {
    SavedConcat(t, if rows.rows.Some? then AskedRows(rows.rows.value) else [], LinkRows(rows));
    if rows.rows.Some? {
      AskRowByRow(t, rows.rows.value);
    }
    if PersistedIf(t, rows.rows).Some? {
      LinksRowByRow(PersistedIf(t, rows.rows).value, rows);
    }
  }

  /** A prefix of rows the store accepts is accepted. */
  lemma PrefixSaves(t: Traces, rs: seq<Row>, k: nat)
    requires SavedAll(t, rs).Some?
    ensures SavedAll(t, Take(rs, k)).Some?
  {
    if k < |rs| {
      assert rs == rs[..k] + rs[k..];
      SavedConcat(t, rs[..k], rs[k..]);
    }
  }

  // ---- Nothing points at a missing row ----

  /** Hits, answers and decisions have their query, rewrite and knowledge rows their decision. */
  ghost predicate Rooted(t: Traces) {
    && (forall h :: h in t.hits ==> t.hits[h].queryId in t.queries)
    && (forall q :: q in t.answers ==> q in t.queries)
    && (forall d :: d in t.decisions ==> t.decisions[d].queryId.Some? ==> t.decisions[d].queryId.value in t.queries)
    && (forall d :: d in t.rewrites ==> d in t.decisions)
    && (forall d :: d in t.searches ==> d in t.decisions)
  }

  /** A row that points at no query but the given one. */
  predicate PointsAt(r: Row, parent: Option<Id>) {
    match r
    case OfQuery(_) => false
    case OfHit(h) => parent == Some(h.queryId)
    case OfAnswer(a) => parent == Some(a.queryId)
    case OfDecision(d) => d.queryId == None || d.queryId == parent
    case _ => true
  }

  lemma RowRooted(t: Traces, r: Row, parent: Option<Id>)
    requires Rooted(t) && (parent.Some? ==> parent.value in t.queries) && PointsAt(r, parent) && Saved(t, r).Some?
    ensures Rooted(Saved(t, r).value) && Saved(t, r).value.queries == t.queries
  {
    if r.OfHit? {
      SavedOneHit(t, r.hit);
    }
  }

  lemma {:induction false} RowsRooted(t: Traces, rs: seq<Row>, parent: Option<Id>)
    requires Rooted(t) && (parent.Some? ==> parent.value in t.queries) && SavedAll(t, rs).Some?
    requires forall r :: r in rs ==> PointsAt(r, parent)
    ensures Rooted(SavedAll(t, rs).value)
    decreases |rs|
  {
    if rs != [] {
      assert rs[0] in rs;
      RowRooted(t, rs[0], parent);
      RowsRooted(Saved(t, rs[0]).value, rs[1..], parent);
    }
  }

  // ---- What one call saves ----

  ghost function Asked(config: ChatConfig, decode: Decoder, turn: Turn): Option<QueryRows>
    requires config.ask.topK > 0
  {
    match turn.call
    case Ask(m, dates, subject, env) =>
      var plan := AskPlan(turn.view, config.ask, decode, m, dates, subject, env);
      if plan.Ok? then Some(plan.value.rows) else None
    case Chat(m, subject, env) =>
      var plan := ChatPlan(turn.view, config, decode, m, subject, env);
      if plan.Ok? then plan.value.rows.rows else None
  }

  ghost function Links(config: ChatConfig, decode: Decoder, turn: Turn): seq<Row>
    requires config.ask.topK > 0
  {
    match turn.call
    case Ask(_, _, _, _) => []
    case Chat(m, subject, env) =>
      var plan := ChatPlan(turn.view, config, decode, m, subject, env);
      if plan.Ok? then LinkRows(plan.value.rows) else []
  }

  /** The rows a call saves, in their order. */
  ghost function TurnRows(config: ChatConfig, decode: Decoder, turn: Turn): seq<Row>
    requires config.ask.topK > 0
  {
    RowsOf(Asked(config, decode, turn), Links(config, decode, turn))
  }

  predicate Linking(r: Row, parent: Option<Id>) {
    PointsAt(r, parent) && (r.OfDecision? || r.OfRewrite? || r.OfSearch?)
  }

  /** One query's rows all point at it, and the rows after them at nothing else. */
  ghost predicate Fits(asked: Option<QueryRows>, links: seq<Row>) {
    && (asked.Some? ==>
          && asked.value.answer.queryId == asked.value.query.queryId
          && forall i :: 0 <= i < |asked.value.hits| ==> asked.value.hits[i].queryId == asked.value.query.queryId)
    && forall r :: r in links ==> Linking(r, if asked.Some? then Some(asked.value.query.queryId) else None)
  }

  lemma RoutedFits(
    config: ChatConfig, m: InboundMessage, requested: Option<AnswerRoute>, effective: AnswerRoute, routed: Routed, env: ChatEnv)
    requires GoodRoute(routed, effective, env, m.communityId)
    ensures var rows := Concluded(config, m, Strip(m.payload), requested, effective, routed, env).rows;
            Fits(rows.rows, LinkRows(rows))
  {
  }

  lemma TurnFits(config: ChatConfig, decode: Decoder, turn: Turn)
    requires config.ask.topK > 0 && Consistent(turn.view.diary)
    ensures Fits(Asked(config, decode, turn), Links(config, decode, turn))
  {
    match turn.call
    case Ask(m, dates, subject, env) => AskGood(turn.view, config.ask, decode, m, dates, subject, env);
    case Chat(m, subject, env) => ChatFits(turn.view, config, decode, m, subject, env);
  }

  lemma ChatFits(v: SearchView, config: ChatConfig, decode: Decoder, m: InboundMessage, subject: Option<Id>, env: ChatEnv)
    requires config.ask.topK > 0 && Consistent(v.diary)
    ensures var plan := ChatPlan(v, config, decode, m, subject, env);
            plan.Ok? ==> Fits(plan.value.rows.rows, LinkRows(plan.value.rows))
  {
    if ChatPlan(v, config, decode, m, subject, env).Ok? {
      var requested := RequestedRoute(Strip(m.payload), env.classification);
      var effective := EffectiveRoute(requested, config);
      ChatPlanIs(v, config, decode, m, subject, env, requested, effective);
      RouteGood(v, config, decode, m, Strip(m.payload), subject, effective, env);
      RoutedFits(config, m, requested, effective, RoutePlan(v, config, decode, m, Strip(m.payload), subject, effective, env).value, env);
    }
  }

  /** The store refuses none of them. */
  lemma TurnSaves(t: Traces, config: ChatConfig, decode: Decoder, turn: Turn)
    requires config.ask.topK > 0 && FreshTurn(t, turn)
    ensures SavedAll(t, TurnRows(config, decode, turn)).Some?
  {
    match turn.call
    case Ask(m, dates, subject, env) =>
      AskGood(turn.view, config.ask, decode, m, dates, subject, env);
      var plan := AskPlan(turn.view, config.ask, decode, m, dates, subject, env);
      if plan.Ok? {
        FreshPersists(t, env, plan.value.rows);
        AskRowByRow(t, plan.value.rows);
        assert AskedRows(plan.value.rows) + [] == AskedRows(plan.value.rows);
      }
    case Chat(m, subject, env) =>
      var plan := ChatPlan(turn.view, config, decode, m, subject, env);
      if plan.Ok? {
        ChatPersists(t, turn.view, config, decode, m, subject, env);
        ChatRowByRow(t, plan.value.rows);
      }
  }

  lemma ChatPersists(
    t: Traces, v: SearchView, config: ChatConfig, decode: Decoder, m: InboundMessage, subject: Option<Id>, env: ChatEnv)
    requires config.ask.topK > 0 && Consistent(v.diary) && FreshChat(t, env) && ChatPlan(v, config, decode, m, subject, env).Ok?
    ensures PersistedChat(t, ChatPlan(v, config, decode, m, subject, env).value.rows).Some?
  {
    var requested := RequestedRoute(Strip(m.payload), env.classification);
    var effective := EffectiveRoute(requested, config);
    ChatPlanIs(v, config, decode, m, subject, env, requested, effective);
    RouteGood(v, config, decode, m, Strip(m.payload), subject, effective, env);
    RoutedPersists(t, config, m, requested, effective,
                   RoutePlan(v, config, decode, m, Strip(m.payload), subject, effective, env).value, env);
  }

  lemma RoutedPersists(
    t: Traces, config: ChatConfig, m: InboundMessage, requested: Option<AnswerRoute>, effective: AnswerRoute, routed: Routed,
    env: ChatEnv)
    requires FreshChat(t, env) && GoodRoute(routed, effective, env, m.communityId)
    ensures PersistedChat(t, Concluded(config, m, Strip(m.payload), requested, effective, routed, env).rows).Some?
  {
    if routed.rows.Some? {
      FreshPersists(t, env.ask, routed.rows.value);
    }
    FreshLinks(PersistedIf(t, routed.rows).value, env, Concluded(config, m, Strip(m.payload), requested, effective, routed, env).rows);
  }

  // ---- After any prefix ----

  lemma FitPoints(rows: QueryRows, links: seq<Row>)
    requires Fits(Some(rows), links)
    ensures forall r :: r in RowsOf(Some(rows), links)[1..] ==> PointsAt(r, Some(rows.query.queryId))
    ensures RowsOf(Some(rows), links)[0] == OfQuery(rows.query)
  {
    var rest := HitRows(rows.hits) + [OfAnswer(rows.answer)] + links;
    assert RowsOf(Some(rows), links) == [OfQuery(rows.query)] + rest;
    forall r | r in rest ensures PointsAt(r, Some(rows.query.queryId)) {
      if r in HitRows(rows.hits) {
        var i :| 0 <= i < |rows.hits| && HitRows(rows.hits)[i] == r;
      }
    }
  }

  lemma LinksPoint(asked: Option<QueryRows>, links: seq<Row>, k: nat)
    requires Fits(asked, links)
    ensures forall r :: r in Take(links, k) ==> Linking(r, if asked.Some? then Some(asked.value.query.queryId) else None)
  {
    forall r | r in Take(links, k) ensures Linking(r, if asked.Some? then Some(asked.value.query.queryId) else None) {
      assert r in links;
    }
  }

  lemma PrefixPoints(rows: QueryRows, links: seq<Row>, k: nat)
    requires Fits(Some(rows), links) && k > 0
    ensures var rs := Take(RowsOf(Some(rows), links), k);
            rs[0] == OfQuery(rows.query) && forall r :: r in rs[1..] ==> PointsAt(r, Some(rows.query.queryId))
  {
    FitPoints(rows, links);
    var all, rs := RowsOf(Some(rows), links), Take(RowsOf(Some(rows), links), k);
    forall r | r in rs[1..] ensures PointsAt(r, Some(rows.query.queryId)) {
      var i :| 0 <= i < |rs[1..]| && rs[1..][i] == r;
      assert all[1..][i] == r;
    }
  }

  lemma FitRooted(t: Traces, asked: Option<QueryRows>, links: seq<Row>, k: nat)
    requires Rooted(t) && Fits(asked, links) && SavedAll(t, Take(RowsOf(asked, links), k)).Some?
    ensures Rooted(SavedAll(t, Take(RowsOf(asked, links), k)).value)
  {
    var rs := Take(RowsOf(asked, links), k);
    if asked == None {
      assert RowsOf(asked, links) == links;
      LinksPoint(None, links, k);
      RowsRooted(t, rs, None);
    } else if k > 0 {
      PrefixPoints(asked.value, links, k);
      RowsRooted(Saved(t, rs[0]).value, rs[1..], Some(asked.value.query.queryId));
    }
  }

  /** Stopped after any number of its rows, a question leaves nothing that points at a missing row. */
  lemma PrefixRooted(t: Traces, config: ChatConfig, decode: Decoder, turn: Turn, k: nat)
    requires config.ask.topK > 0 && FreshTurn(t, turn) && Rooted(t)
    ensures var u := SavedAll(t, Take(TurnRows(config, decode, turn), k)); u.Some? && Rooted(u.value)
  {
    TurnSaves(t, config, decode, turn);
    PrefixSaves(t, TurnRows(config, decode, turn), k);
    TurnFits(config, decode, turn);
    FitRooted(t, Asked(config, decode, turn), Links(config, decode, turn), k);
  }

  // ---- Queries and their answer traces ----

  ghost predicate AllAnswered(t: Traces) {
    t.queries.Keys == t.answers.Keys
  }

  /** The stop fell after the query row and before the answer trace. */
  predicate Splits(asked: Option<QueryRows>, k: nat) {
    asked.Some? && 0 < k < |asked.value.hits| + 2
  }

  lemma {:induction false} NeitherMoves(t: Traces, rs: seq<Row>)
    requires SavedAll(t, rs).Some? && forall r :: r in rs ==> !r.OfQuery? && !r.OfAnswer?
    ensures SavedAll(t, rs).value.queries == t.queries && SavedAll(t, rs).value.answers == t.answers
    decreases |rs|
  {
    if rs != [] {
      assert rs[0] in rs;
      if rs[0].OfHit? {
        SavedOneHit(t, rs[0].hit);
      }
      NeitherMoves(Saved(t, rs[0]).value, rs[1..]);
    }
  }

  lemma QueryFirst(t: Traces, rows: QueryRows, links: seq<Row>, k: nat)
    requires Fits(Some(rows), links) && 0 < k < |rows.hits| + 2 && SavedAll(t, Take(RowsOf(Some(rows), links), k)).Some?
    ensures var u := SavedAll(t, Take(RowsOf(Some(rows), links), k)).value;
            u.queries.Keys == t.queries.Keys + {rows.query.queryId} && u.answers == t.answers
  {
    var rest := HitRows(rows.hits)[..k - 1];
    assert Take(RowsOf(Some(rows), links), k) == [OfQuery(rows.query)] + rest;
    SavedConcat(t, [OfQuery(rows.query)], rest);
    SavedOne(t, OfQuery(rows.query));
    NeitherMoves(WithQuery(t, rows.query).value, rest);
  }

  lemma AnswerToo(t: Traces, rows: QueryRows, links: seq<Row>, k: nat)
    requires Fits(Some(rows), links) && k >= |rows.hits| + 2 && SavedAll(t, Take(RowsOf(Some(rows), links), k)).Some?
    ensures var u := SavedAll(t, Take(RowsOf(Some(rows), links), k)).value;
            && u.queries.Keys == t.queries.Keys + {rows.query.queryId}
            && u.answers.Keys == t.answers.Keys + {rows.query.queryId}
  {
    var first, rest := [OfQuery(rows.query)] + HitRows(rows.hits), Take(links, k - |rows.hits| - 2);
    var n := |rows.hits| + 1;
    LinksPoint(Some(rows), links, k - |rows.hits| - 2);
    assert RowsOf(Some(rows), links) == first + [OfAnswer(rows.answer)] + links;
    assert Take(RowsOf(Some(rows), links), n) == first;
    assert Take(RowsOf(Some(rows), links), k) == first + [OfAnswer(rows.answer)] + rest;
    SavedConcat(t, first + [OfAnswer(rows.answer)], rest);
    SavedConcat(t, first, [OfAnswer(rows.answer)]);
    QueryFirst(t, rows, links, n);
    SavedOne(SavedAll(t, first).value, OfAnswer(rows.answer));
    NeitherMoves(WithAnswer(SavedAll(t, first).value, rows.answer).value, rest);
  }

  /** What a stopped call adds to the two tables. */
  lemma PrefixKeys(t: Traces, asked: Option<QueryRows>, links: seq<Row>, k: nat)
    requires Fits(asked, links) && SavedAll(t, Take(RowsOf(asked, links), k)).Some?
    ensures var u, q := SavedAll(t, Take(RowsOf(asked, links), k)).value, if asked.Some? then {asked.value.query.queryId} else {};
            && u.queries.Keys == (if k > 0 then t.queries.Keys + q else t.queries.Keys)
            && u.answers.Keys == if k > 0 && !Splits(asked, k) then t.answers.Keys + q else t.answers.Keys
  {
    if asked == None {
      assert RowsOf(asked, links) == links;
      LinksPoint(None, links, k);
      NeitherMoves(t, Take(links, k));
    } else if k == 0 {
      assert Take(RowsOf(asked, links), k) == [];
    } else if Splits(asked, k) {
      QueryFirst(t, asked.value, links, k);
    } else {
      AnswerToo(t, asked.value, links, k);
    }
  }

  // ---- Runs with interruptions ----

  datatype Stopped = Stopped(turn: Turn, cut: Option<nat>)

  /** The rows a call saved before it was stopped, if it was. */
  ghost function RowsSaved(config: ChatConfig, decode: Decoder, s: Stopped): seq<Row>
    requires config.ask.topK > 0
  {
    var rs := TurnRows(config, decode, s.turn);
    Take(rs, if s.cut == None then |rs| else s.cut.value)
  }

  ghost function Traced(config: ChatConfig, decode: Decoder, ss: seq<Stopped>): Option<Traces>
    requires config.ask.topK > 0
  {
    if ss == [] then Some(NO_TRACES)
    else
      match Traced(config, decode, ss[..|ss| - 1])
      case None => None
      case Some(t) => SavedAll(t, RowsSaved(config, decode, ss[|ss| - 1]))
  }

  ghost predicate FreshStops(config: ChatConfig, decode: Decoder, ss: seq<Stopped>)
    requires config.ask.topK > 0
  {
    ss == [] ||
    (FreshStops(config, decode, ss[..|ss| - 1])
     && Traced(config, decode, ss[..|ss| - 1]).Some?
     && FreshTurn(Traced(config, decode, ss[..|ss| - 1]).value, ss[|ss| - 1].turn))
  }

  /** Over runs stopped anywhere: every row is accepted, and none ever points at a missing row. */
  lemma {:induction false} RunRooted(config: ChatConfig, decode: Decoder, ss: seq<Stopped>)
    requires config.ask.topK > 0 && FreshStops(config, decode, ss)
    ensures Traced(config, decode, ss).Some? && Rooted(Traced(config, decode, ss).value)
  {
    if ss != [] {
      var before, last := ss[..|ss| - 1], ss[|ss| - 1];
      RunRooted(config, decode, before);
      var rs := TurnRows(config, decode, last.turn);
      PrefixRooted(Traced(config, decode, before).value, config, decode, last.turn, if last.cut == None then |rs| else last.cut.value);
    }
  }

  /** The call was stopped between its query row and its answer trace. */
  ghost predicate LeavesUnanswered(config: ChatConfig, decode: Decoder, s: Stopped)
    requires config.ask.topK > 0
  {
    s.cut.Some? && Splits(Asked(config, decode, s.turn), s.cut.value)
  }

  /** A fresh query breaks the pairing exactly when its answer trace is missing, and mends none broken before. */
  lemma PrefixAnswered(t: Traces, asked: Option<QueryRows>, links: seq<Row>, k: nat)
    requires Fits(asked, links) && SavedAll(t, Take(RowsOf(asked, links), k)).Some?
    requires asked.Some? ==> asked.value.query.queryId !in t.queries && asked.value.query.queryId !in t.answers
    ensures AllAnswered(SavedAll(t, Take(RowsOf(asked, links), k)).value) <==> AllAnswered(t) && !Splits(asked, k)
  {
    PrefixKeys(t, asked, links, k);
    if asked.Some? && k > 0 {
      FreshInOne(t.queries.Keys, t.answers.Keys, asked.value.query.queryId);
    }
  }

  lemma FreshInOne(queries: set<Id>, answers: set<Id>, q: Id)
    requires q !in queries && q !in answers
    ensures queries + {q} != answers
    ensures queries + {q} == answers + {q} <==> queries == answers
  {
    assert queries == queries + {q} - {q} && answers == answers + {q} - {q};
  }

  lemma StopKeys(t: Traces, config: ChatConfig, decode: Decoder, s: Stopped)
    requires config.ask.topK > 0 && FreshTurn(t, s.turn)
    ensures var u := SavedAll(t, RowsSaved(config, decode, s));
            u.Some? && (AllAnswered(u.value) <==> AllAnswered(t) && !LeavesUnanswered(config, decode, s))
  {
    var rs, asked := TurnRows(config, decode, s.turn), Asked(config, decode, s.turn);
    var k := if s.cut == None then |rs| else s.cut.value;
    TurnSaves(t, config, decode, s.turn);
    PrefixSaves(t, rs, k);
    TurnFits(config, decode, s.turn);
    AskedIsFresh(t, config, decode, s.turn);
    PrefixAnswered(t, asked, Links(config, decode, s.turn), k);
    if s.cut == None && asked.Some? {
      assert |rs| >= |asked.value.hits| + 2;
    }
  }

  lemma AskedIsFresh(t: Traces, config: ChatConfig, decode: Decoder, turn: Turn)
    requires config.ask.topK > 0 && FreshTurn(t, turn)
    ensures var asked := Asked(config, decode, turn);
            asked.Some? ==> asked.value.query.queryId !in t.queries && asked.value.query.queryId !in t.answers
  {
    match turn.call
    case Ask(m, dates, subject, env) => AskGood(turn.view, config.ask, decode, m, dates, subject, env);
    case Chat(m, subject, env) =>
      if ChatPlan(turn.view, config, decode, m, subject, env).Ok? {
        var requested := RequestedRoute(Strip(m.payload), env.classification);
        var effective := EffectiveRoute(requested, config);
        ChatPlanIs(turn.view, config, decode, m, subject, env, requested, effective);
        RouteGood(turn.view, config, decode, m, Strip(m.payload), subject, effective, env);
      }
  }

  ghost predicate SomeUnanswered(config: ChatConfig, decode: Decoder, ss: seq<Stopped>)
    requires config.ask.topK > 0
  {
    exists s :: s in ss && LeavesUnanswered(config, decode, s)
  }

  lemma UnansweredSnoc(config: ChatConfig, decode: Decoder, ss: seq<Stopped>)
    requires config.ask.topK > 0 && ss != []
    ensures SomeUnanswered(config, decode, ss)
        <==> SomeUnanswered(config, decode, ss[..|ss| - 1]) || LeavesUnanswered(config, decode, ss[|ss| - 1])
  {
    var before := ss[..|ss| - 1];
    assert ss == before + [ss[|ss| - 1]];
    assert forall s :: s in ss <==> s in before || s == ss[|ss| - 1];
  }

  /** Every query has its answer trace at the end exactly when no call was stopped between the two. */
  lemma {:induction false} RunAnswered(config: ChatConfig, decode: Decoder, ss: seq<Stopped>)
    requires config.ask.topK > 0 && FreshStops(config, decode, ss)
    ensures Traced(config, decode, ss).Some?
    ensures AllAnswered(Traced(config, decode, ss).value) <==> !SomeUnanswered(config, decode, ss)
  {
    RunRooted(config, decode, ss);
    if ss != [] {
      var before := ss[..|ss| - 1];
      RunRooted(config, decode, before);
      RunAnswered(config, decode, before);
      StopKeys(Traced(config, decode, before).value, config, decode, ss[|ss| - 1]);
      UnansweredSnoc(config, decode, ss);
    }
  }
}
