/**
 * What the two legs return, in terms of the stored vectors and texts alone: who is eligible, who comes
 * first, and who is left out.
 */
module LegOrder {
  import opened Calendar
  import opened Candidates
  import opened Diary
  import opened Models
  import opened Plans
  import opened Sorting
  import opened Tables
  import opened Wrappers

  predicate NotAfter(a: Date, b: Date) {
    a == b || Earlier(a, b)
  }

  /** One community, live, from the first day to the last, and of the subject when one is asked for. */
  predicate Eligible(c: EventChunk, scope: Scope) {
    && c.communityId == scope.communityId && c.state == Active
    && (scope.dates.Some? && scope.dates.value.start.Some? ==> NotAfter(scope.dates.value.start.value, c.noteDate))
    && (scope.dates.Some? && scope.dates.value.end.Some? ==> NotAfter(c.noteDate, scope.dates.value.end.value))
    && (scope.subject.Some? ==> c.subjectId == scope.subject)
  }

  lemma ScopeIs(c: EventChunk, scope: Scope)
    ensures InScope(c, scope) <==> Eligible(c, scope)
  {
  }

  /** The chunk was stored first. */
  predicate StoredBefore(d: Diary, a: EventChunk, b: EventChunk) {
    a.chunkId in d.chunks.keys && b.chunkId in d.chunks.keys && Place(d.chunks.keys, a.chunkId) < Place(d.chunks.keys, b.chunkId)
  }

  /** The best eligible stored chunks up to the limit, each ahead of those after it and of every one left out. */
  ghost predicate BestFirst(
    d: Diary, leg: seq<EventChunk>, limit: int, eligible: EventChunk -> bool, ahead: (EventChunk, EventChunk) -> bool)
  {
    && |leg| <= (if limit < 0 then 0 else limit)
    && (forall c :: c in leg ==> c in Values(d.chunks) && eligible(c))
    && (forall p, q :: 0 <= p < q < |leg| ==> ahead(leg[p], leg[q]))
    && (forall c :: c in Values(d.chunks) && eligible(c) && c !in leg ==>
          |leg| >= limit && forall p :: 0 <= p < |leg| ==> ahead(leg[p], c))
  }

  lemma PlaceIs(keys: seq<Id>, i: nat)
    requires Distinct(keys) && i < |keys|
    ensures Place(keys, keys[i]) == i
  {
  }

  lemma StoredInOrder(d: Diary, i: nat, j: nat)
    requires Consistent(d) && i < |d.chunks.keys| && j < |d.chunks.keys|
    ensures StoredBefore(d, Values(d.chunks)[i], Values(d.chunks)[j]) <==> i < j
  {
    PlaceIs(d.chunks.keys, i);
    PlaceIs(d.chunks.keys, j);
  }

  /** A score speaks for an order when it scores the eligible and puts them in that order. */
  ghost predicate SpeaksFor(d: Diary, score: Score, eligible: EventChunk -> bool, ahead: (EventChunk, EventChunk) -> bool) {
    var rows := Values(d.chunks);
    && (forall c :: c in rows ==> (score(c).Some? <==> eligible(c)))
    && (forall i: nat, j: nat ::
          (i < |rows| && j < |rows| && score(rows[i]).Some? && score(rows[j]).Some? && Ahead(rows, score, i, j))
          ==> ahead(rows[i], rows[j]))
  }

  lemma LegIsBestFirst(
    d: Diary, score: Score, limit: int, eligible: EventChunk -> bool, ahead: (EventChunk, EventChunk) -> bool)
    requires SpeaksFor(d, score, eligible, ahead)
    ensures BestFirst(d, Leg(Values(d.chunks), score, limit), limit, eligible, ahead)
  {
    if limit > 0 {
      var rows, leg := Values(d.chunks), Leg(Values(d.chunks), score, limit);
      var places := LegIsBest(rows, score, limit);
      PlacesBestFirst(d, rows, leg, score, limit, places, eligible, ahead);
    }
  }

  lemma PlacesBestFirst(
    d: Diary, rows: seq<EventChunk>, leg: seq<EventChunk>, score: Score, limit: nat, places: seq<nat>,
    eligible: EventChunk -> bool, ahead: (EventChunk, EventChunk) -> bool)
    requires rows == Values(d.chunks) && SpeaksFor(d, score, eligible, ahead)
    requires BestPlaces(rows, score, limit, places) && |leg| == |places|
    requires forall p :: 0 <= p < |places| ==> leg[p] == rows[places[p]]
    ensures BestFirst(d, leg, limit, eligible, ahead)
  {
    forall p, q | 0 <= p < q < |leg| ensures ahead(leg[p], leg[q]) {
      assert Ahead(rows, score, places[p], places[q]);
    }
    forall c | c in rows && eligible(c) && c !in leg
      ensures |leg| >= limit && forall p :: 0 <= p < |leg| ==> ahead(leg[p], c)
    {
      OutranksRest(d, rows, leg, score, limit, places, eligible, ahead, c);
    }
  }

  lemma OutranksRest(
    d: Diary, rows: seq<EventChunk>, leg: seq<EventChunk>, score: Score, limit: nat, places: seq<nat>,
    eligible: EventChunk -> bool, ahead: (EventChunk, EventChunk) -> bool, c: EventChunk)
    requires rows == Values(d.chunks) && SpeaksFor(d, score, eligible, ahead)
    requires BestPlaces(rows, score, limit, places) && |leg| == |places|
    requires forall p :: 0 <= p < |places| ==> leg[p] == rows[places[p]]
    requires c in rows && eligible(c) && c !in leg
    ensures |leg| >= limit && forall p :: 0 <= p < |leg| ==> ahead(leg[p], c)
  {
    var j: nat :| j < |rows| && rows[j] == c;
    LeftOut(rows, leg, places, j);
    forall p | 0 <= p < |leg| ensures ahead(leg[p], c) {
      assert Ahead(rows, score, places[p], j);
    }
  }

  lemma LeftOut(rows: seq<EventChunk>, leg: seq<EventChunk>, places: seq<nat>, j: nat)
    requires j < |rows| && rows[j] !in leg && |leg| == |places|
    requires forall p :: 0 <= p < |places| ==> places[p] < |rows| && leg[p] == rows[places[p]]
    ensures j !in places
  {
    forall p | 0 <= p < |places| ensures places[p] != j {
      assert leg[p] in leg;
    }
  }

  // ---- The dense leg ----

  /** How far the chunk's stored vector is from the query. */
  function Gap(d: Diary, query: Vector, modelName: string, distance: (Vector, Vector) -> real, c: EventChunk): real {
    var k := EmbeddingKey(c.chunkId, modelName);
    if k in d.embeddings then distance(query, d.embeddings[k].vector) else 0.0
  }

  /** Ready, recorded under the model, and nearer than one half. */
  function Near(d: Diary, scope: Scope, query: Vector, modelName: string, distance: (Vector, Vector) -> real): EventChunk -> bool {
    (c: EventChunk) =>
      Eligible(c, scope) && c.status == Ready && EmbeddingKey(c.chunkId, modelName) in d.embeddings
      && Gap(d, query, modelName, distance, c) < 0.5
  }

  /** Nearer, or as near and stored first. */
  function Nearer(d: Diary, query: Vector, modelName: string, distance: (Vector, Vector) -> real): (EventChunk, EventChunk) -> bool {
    (a: EventChunk, b: EventChunk) =>
      var x, y := Gap(d, query, modelName, distance, a), Gap(d, query, modelName, distance, b);
      x < y || (x == y && StoredBefore(d, a, b))
  }

  lemma DenseSpeaks(d: Diary, scope: Scope, query: Vector, modelName: string, distance: (Vector, Vector) -> real)
    requires Consistent(d)
    ensures SpeaksFor(d, DenseScore(d.embeddings, scope, query, modelName, distance),
                      Near(d, scope, query, modelName, distance), Nearer(d, query, modelName, distance))
  {
    var rows, score := Values(d.chunks), DenseScore(d.embeddings, scope, query, modelName, distance);
    forall c | c in rows ensures score(c).Some? <==> Near(d, scope, query, modelName, distance)(c) {
      DenseKeyIs(d, c, scope, query, modelName, distance);
    }
    forall i: nat, j: nat | i < |rows| && j < |rows| && score(rows[i]).Some? && score(rows[j]).Some? && Ahead(rows, score, i, j)
      ensures Nearer(d, query, modelName, distance)(rows[i], rows[j])
    {
      StoredInOrder(d, i, j);
      DenseKeyIs(d, rows[i], scope, query, modelName, distance);
      DenseKeyIs(d, rows[j], scope, query, modelName, distance);
    }
  }

  lemma DenseKeyIs(d: Diary, c: EventChunk, scope: Scope, query: Vector, modelName: string, distance: (Vector, Vector) -> real)
    ensures DenseKey(c, d.embeddings, scope, query, modelName, distance)
         == if Near(d, scope, query, modelName, distance)(c) then Some(Gap(d, query, modelName, distance, c)) else None
  {
    ScopeIs(c, scope);
  }

  /**
   * The dense leg is the nearest eligible chunks: distances never fall along it, equal ones keep the
   * order in which the chunks were stored, and one is left out only for nearer ones and a reached limit.
   */
  lemma DenseLegIs(d: Diary, scope: Scope, query: Vector, modelName: string, limit: int, distance: (Vector, Vector) -> real)
    requires Consistent(d)
    ensures BestFirst(d, DenseCandidates(d, scope, query, modelName, limit, distance), limit,
                      Near(d, scope, query, modelName, distance), Nearer(d, query, modelName, distance))
  {
    DenseSpeaks(d, scope, query, modelName, distance);
    LegIsBestFirst(d, DenseScore(d.embeddings, scope, query, modelName, distance), limit,
                   Near(d, scope, query, modelName, distance), Nearer(d, query, modelName, distance));
  }

  // ---- The sparse leg ----

  /** How many of the query's tokens the chunk's text has. */
  function Shared(text: string, tokenize: string -> set<string>, c: EventChunk): nat {
    |tokenize(text) * tokenize(c.chunkText)|
  }

  function Matches(scope: Scope, text: string, tokenize: string -> set<string>): EventChunk -> bool {
    (c: EventChunk) => Eligible(c, scope) && Shared(text, tokenize, c) >= 1
  }

  /** More tokens in common, or as many and stored first. */
  function Closer(d: Diary, text: string, tokenize: string -> set<string>): (EventChunk, EventChunk) -> bool {
    (a: EventChunk, b: EventChunk) =>
      var x, y := Shared(text, tokenize, a), Shared(text, tokenize, b);
      x > y || (x == y && StoredBefore(d, a, b))
  }

  lemma SparseSpeaks(d: Diary, scope: Scope, text: string, tokenize: string -> set<string>)
    requires Consistent(d)
    ensures SpeaksFor(d, SparseScore(scope, tokenize(text), tokenize), Matches(scope, text, tokenize), Closer(d, text, tokenize))
  {
    var rows, score := Values(d.chunks), SparseScore(scope, tokenize(text), tokenize);
    forall c | c in rows ensures score(c).Some? <==> Matches(scope, text, tokenize)(c) {
      SparseKeyIs(c, scope, text, tokenize);
    }
    forall i: nat, j: nat | i < |rows| && j < |rows| && score(rows[i]).Some? && score(rows[j]).Some? && Ahead(rows, score, i, j)
      ensures Closer(d, text, tokenize)(rows[i], rows[j])
    {
      StoredInOrder(d, i, j);
      SparseKeyIs(rows[i], scope, text, tokenize);
      SparseKeyIs(rows[j], scope, text, tokenize);
    }
  }

  lemma SparseKeyIs(c: EventChunk, scope: Scope, text: string, tokenize: string -> set<string>)
    ensures SparseKey(c, scope, tokenize(text), tokenize)
         == if Eligible(c, scope) && Shared(text, tokenize, c) >= 1 then Some(-(Shared(text, tokenize, c) as real)) else None
  {
    ScopeIs(c, scope);
  }

  /** The sparse leg is the eligible chunks that share most tokens with the query, at least one each. */
  lemma SparseLegIs(d: Diary, scope: Scope, text: string, limit: int, tokenize: string -> set<string>)
    requires Consistent(d)
    ensures BestFirst(d, SparseCandidates(d, scope, text, limit, tokenize), limit,
                      Matches(scope, text, tokenize), Closer(d, text, tokenize))
  {
    SparseSpeaks(d, scope, text, tokenize);
    LegIsBestFirst(d, SparseScore(scope, tokenize(text), tokenize), limit, Matches(scope, text, tokenize), Closer(d, text, tokenize));
    if tokenize(text) == {} {
      assert forall c :: Shared(text, tokenize, c) == 0;
    }
  }
}
