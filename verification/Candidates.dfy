/**
 * The two candidate legs of hybrid retrieval (`storage/mock/store.py`): which chunks each leg
 * may return, in which order, and how many.
 */
module Candidates {
  import opened Calendar
  import opened Diary
  import opened Models
  import opened Sorting
  import opened Tables
  import opened Wrappers

  const MOCK_DENSE_THRESHOLD: real := 0.5

  datatype DateRange = DateRange(start: Option<Date>, end: Option<Date>)

  /** The scope of one retrieval: one community, and optionally a date range and a subject. */
  datatype Scope = Scope(communityId: Id, dates: Option<DateRange>, subject: Option<Id>)

  predicate InDateRange(c: EventChunk, dates: Option<DateRange>) {
    dates.Some? ==>
      && (dates.value.start.Some? ==> !Earlier(c.noteDate, dates.value.start.value))
      && (dates.value.end.Some? ==> !Earlier(dates.value.end.value, c.noteDate))
  }

  predicate InSubjectScope(c: EventChunk, subject: Option<Id>) {
    subject.Some? ==> c.subjectId == subject
  }

  /** What every retrieved chunk must be, whichever leg finds it. */
  predicate InScope(c: EventChunk, scope: Scope) {
    && c.communityId == scope.communityId
    && c.state == Active
    && InDateRange(c, scope.dates)
    && InSubjectScope(c, scope.subject)
  }

  /** A leg's verdict on a chunk: None when the leg skips it, otherwise its sort key, best first. */
  type Score = EventChunk -> Option<real>

  function DenseKey(
    c: EventChunk, embeddings: map<EmbeddingKey, EmbeddingRecord>, scope: Scope, query: Vector, modelName: string,
    distance: (Vector, Vector) -> real): Option<real>
  {
    if !InScope(c, scope) || c.status != Ready || EmbeddingKey(c.chunkId, modelName) !in embeddings then None
    else
      var d := distance(query, embeddings[EmbeddingKey(c.chunkId, modelName)].vector);
      if d >= MOCK_DENSE_THRESHOLD then None else Some(d)
  }

  /** The dense scan measures this chunk, and its vector has another length than the query's. */
  predicate Mismatched(
    c: EventChunk, embeddings: map<EmbeddingKey, EmbeddingRecord>, scope: Scope, query: Vector, modelName: string)
  {
    && InScope(c, scope) && c.status == Ready && EmbeddingKey(c.chunkId, modelName) in embeddings
    && |query| != |embeddings[EmbeddingKey(c.chunkId, modelName)].vector|
  }

  /** The scan meets such a chunk, and raises. */
  predicate DenseFails(d: Diary, scope: Scope, query: Vector, modelName: string) {
    exists c :: c in Values(d.chunks) && Mismatched(c, d.embeddings, scope, query, modelName)
  }

  function DenseScore(
    embeddings: map<EmbeddingKey, EmbeddingRecord>, scope: Scope, query: Vector, modelName: string,
    distance: (Vector, Vector) -> real): Score
  {
    (c: EventChunk) => DenseKey(c, embeddings, scope, query, modelName, distance)
  }

  function SparseKey(c: EventChunk, scope: Scope, tokens: set<string>, tokenize: string -> set<string>): Option<real> {
    if !InScope(c, scope) then None
    else
      var overlap := |tokens * tokenize(c.chunkText)|;
      if overlap == 0 then None else Some(-(overlap as real))
  }

  function SparseScore(scope: Scope, tokens: set<string>, tokenize: string -> set<string>): Score {
    (c: EventChunk) => SparseKey(c, scope, tokens, tokenize)
  }

  datatype Ranked = Ranked(key: real, index: nat, chunk: EventChunk)

  predicate RankLeq(a: Ranked, b: Ranked) {
    a.key < b.key || (a.key == b.key && a.index <= b.index)
  }

  /** The `ranked` list after the first `n` rows of the scan. */
  function RankUpTo(rows: seq<EventChunk>, n: nat, score: Score): seq<Ranked>
    requires n <= |rows|
  {
    if n == 0 then []
    else
      RankUpTo(rows, n - 1, score)
      + match score(rows[n - 1])
        case None => []
        case Some(key) => [Ranked(key, n - 1, rows[n - 1])]
  }

  function ChunksOf(ranked: seq<Ranked>): (cs: seq<EventChunk>)
    ensures |cs| == |ranked|
    ensures forall i :: 0 <= i < |cs| ==> cs[i] == ranked[i].chunk
  {
    seq(|ranked|, i requires 0 <= i < |ranked| => ranked[i].chunk)
  }

  function Leg(rows: seq<EventChunk>, score: Score, limit: int): seq<EventChunk> {
    if limit <= 0 then [] else ChunksOf(Take(Sort(RankUpTo(rows, |rows|, score), RankLeq), limit))
  }

  /** `dense_candidates` */
  function DenseCandidates(
    d: Diary, scope: Scope, query: Vector, modelName: string, limit: int, distance: (Vector, Vector) -> real)
    : seq<EventChunk>
  {
    Leg(Values(d.chunks), DenseScore(d.embeddings, scope, query, modelName, distance), limit)
  }

  /** `sparse_candidates` */
  function SparseCandidates(
    d: Diary, scope: Scope, queryText: string, limit: int, tokenize: string -> set<string>): seq<EventChunk>
  {
    if tokenize(queryText) == {} then []
    else Leg(Values(d.chunks), SparseScore(scope, tokenize(queryText), tokenize), limit)
  }

  // ---- The ranking, declaratively ----

  /** Row `i` of the scan is ranked ahead of row `j`: better key, or the same key and inserted earlier. */
  predicate Ahead(rows: seq<EventChunk>, score: Score, i: nat, j: nat)
    requires i < |rows| && j < |rows| && score(rows[i]).Some? && score(rows[j]).Some?
  {
    score(rows[i]).value < score(rows[j]).value || (score(rows[i]).value == score(rows[j]).value && i < j)
  }

  /** `places` are the scan positions of the best `limit` eligible rows, best first. */
  ghost predicate BestPlaces(rows: seq<EventChunk>, score: Score, limit: nat, places: seq<nat>) {
    && |places| <= limit
    && (forall p :: 0 <= p < |places| ==> places[p] < |rows| && score(rows[places[p]]).Some?)
    && (forall p, q :: 0 <= p < q < |places| ==> Ahead(rows, score, places[p], places[q]))
    && (forall j :: 0 <= j < |rows| && score(rows[j]).Some? && j !in places ==>
          |places| == limit && forall p :: 0 <= p < |places| ==> Ahead(rows, score, places[p], j))
  }

  lemma RankLeqOrder()
    ensures TotalPreorder(RankLeq)
  {
  }

  lemma {:induction false} RankUpToHolds(rows: seq<EventChunk>, n: nat, score: Score)
    requires n <= |rows|
    ensures var ranked := RankUpTo(rows, n, score);
            && Distinct(ranked)
            && (forall r :: r in ranked ==>
                  r.index < n && r.chunk == rows[r.index] && score(r.chunk) == Some(r.key))
            && (forall i :: 0 <= i < n && score(rows[i]).Some? ==> Ranked(score(rows[i]).value, i, rows[i]) in ranked)
  {
    if n > 0 {
      RankUpToHolds(rows, n - 1, score);
    }
  }

  function Places(ranked: seq<Ranked>): (ps: seq<nat>)
    ensures |ps| == |ranked|
    ensures forall i :: 0 <= i < |ps| ==> ps[i] == ranked[i].index
  {
    seq(|ranked|, i requires 0 <= i < |ranked| => ranked[i].index)
  }

  /** The whole ranking: every eligible row once, each ahead of those after it. */
  ghost predicate RanksAll(rows: seq<EventChunk>, score: Score, sorted: seq<Ranked>) {
    && (forall p :: 0 <= p < |sorted| ==>
          sorted[p].index < |rows| && sorted[p].chunk == rows[sorted[p].index] && score(sorted[p].chunk).Some?)
    && (forall p, q :: 0 <= p < q < |sorted| ==> Ahead(rows, score, sorted[p].index, sorted[q].index))
    && (forall j :: 0 <= j < |rows| && score(rows[j]).Some? ==> exists p :: 0 <= p < |sorted| && sorted[p].index == j)
  }

  lemma SortRanksAll(rows: seq<EventChunk>, score: Score)
    ensures RanksAll(rows, score, Sort(RankUpTo(rows, |rows|, score), RankLeq))
  {
    var ranked := RankUpTo(rows, |rows|, score);
    var sorted := Sort(ranked, RankLeq);
    RankUpToHolds(rows, |rows|, score);
    RankLeqOrder();
    SortSorts(ranked, RankLeq);
    SortDistinct(ranked, RankLeq);
    forall r: Ranked ensures r in sorted <==> r in ranked {
      SortIn(ranked, RankLeq, r);
    }
    forall p, q | 0 <= p < q < |sorted| ensures Ahead(rows, score, sorted[p].index, sorted[q].index) {
      assert sorted[p] in sorted && sorted[q] in sorted;
      assert RankLeq(sorted[p], sorted[q]) && sorted[p] != sorted[q];
    }
    forall j | 0 <= j < |rows| && score(rows[j]).Some? ensures exists p :: 0 <= p < |sorted| && sorted[p].index == j {
      assert Ranked(score(rows[j]).value, j, rows[j]) in sorted;
    }
  }

  /** A leg is exactly the best `limit` eligible rows, in rank order. */
  lemma LegIsBest(rows: seq<EventChunk>, score: Score, limit: nat) returns (places: seq<nat>)
    ensures BestPlaces(rows, score, limit, places)
    ensures |Leg(rows, score, limit)| == |places|
    ensures forall p :: 0 <= p < |places| ==> Leg(rows, score, limit)[p] == rows[places[p]]
  {
    SortRanksAll(rows, score);
    var sorted := Sort(RankUpTo(rows, |rows|, score), RankLeq);
    places := Places(Take(sorted, limit));
    BestOfRanking(rows, score, limit, sorted, places);
  }

  lemma BestOfRanking(rows: seq<EventChunk>, score: Score, limit: nat, sorted: seq<Ranked>, places: seq<nat>)
    requires RanksAll(rows, score, sorted) && places == Places(Take(sorted, limit))
    ensures BestPlaces(rows, score, limit, places)
  {
    assert forall p :: 0 <= p < |places| ==> places[p] == sorted[p].index;
    forall j | 0 <= j < |rows| && score(rows[j]).Some? && j !in places
      ensures |places| == limit && forall p :: 0 <= p < |places| ==> Ahead(rows, score, places[p], j)
    {
      var q :| 0 <= q < |sorted| && sorted[q].index == j;
    }
  }

  /** There is only one such list of places, so `BestPlaces` defines the leg. */
  lemma BestPlacesUnique(rows: seq<EventChunk>, score: Score, limit: nat, a: seq<nat>, b: seq<nat>)
    requires BestPlaces(rows, score, limit, a) && BestPlaces(rows, score, limit, b)
    ensures a == b
  {
    BestPlacesLength(rows, score, limit, a, b);
    BestPlacesLength(rows, score, limit, b, a);
    BestPlacesAgree(rows, score, limit, a, b, |a|);
  }

  lemma BestPlacesLength(rows: seq<EventChunk>, score: Score, limit: nat, a: seq<nat>, b: seq<nat>)
    requires BestPlaces(rows, score, limit, a) && BestPlaces(rows, score, limit, b)
    ensures |b| <= |a|
  {
    if |a| < limit {
      assert forall p, q :: 0 <= p < q < |b| ==> Ahead(rows, score, b[p], b[q]);
      DistinctFits(b, a);
    }
  }

  lemma {:induction false} BestPlacesAgree(
    rows: seq<EventChunk>, score: Score, limit: nat, a: seq<nat>, b: seq<nat>, n: nat)
    requires BestPlaces(rows, score, limit, a) && BestPlaces(rows, score, limit, b)
    requires n <= |a| && n <= |b|
    ensures a[..n] == b[..n]
  {
    if n > 0 {
      BestPlacesAgree(rows, score, limit, a, b, n - 1);
      NoWorse(rows, score, limit, a, b, n - 1);
      NoWorse(rows, score, limit, b, a, n - 1);
      assert a[..n] == a[..n - 1] + [a[n - 1]] && b[..n] == b[..n - 1] + [b[n - 1]];
    }
  }

  lemma NoWorse(rows: seq<EventChunk>, score: Score, limit: nat, a: seq<nat>, b: seq<nat>, n: nat)
    requires BestPlaces(rows, score, limit, a) && BestPlaces(rows, score, limit, b)
    requires n < |a| && n < |b| && a[..n] == b[..n]
    ensures a[n] == b[n] || Ahead(rows, score, b[n], a[n])
  {
    SamePrefix(a, b, n);
    if a[n] in b {
      var q :| 0 <= q < |b| && b[q] == a[n];
    }
  }

  lemma SamePrefix<T>(a: seq<T>, b: seq<T>, n: nat)
    requires n <= |a| && n <= |b| && a[..n] == b[..n]
    ensures forall p :: 0 <= p < n ==> a[p] == b[p]
  {
    assert forall p :: 0 <= p < n ==> a[p] == a[..n][p] && b[p] == b[..n][p];
  }

  /** Nothing a leg returns is out of scope, and with one row per chunk it returns no chunk twice. */
  lemma LegMembers(rows: seq<EventChunk>, score: Score, limit: nat)
    ensures |Leg(rows, score, limit)| <= limit
    ensures forall c :: c in Leg(rows, score, limit) ==> c in rows && score(c).Some?
    ensures Distinct(rows) ==> Distinct(Leg(rows, score, limit))
  {
    var places := LegIsBest(rows, score, limit);
  }

  // ---- The ranking without scan positions: a stable sort by key ----

  datatype Keyed = Keyed(key: real, chunk: EventChunk)

  predicate KeyLeq(a: Keyed, b: Keyed) {
    a.key <= b.key
  }

  function KeyedRow(score: Score, c: EventChunk): seq<Keyed> {
    match score(c)
    case None => []
    case Some(key) => [Keyed(key, c)]
  }

  function KeyedRows(rows: seq<EventChunk>, score: Score): seq<Keyed> {
    if rows == [] then [] else KeyedRow(score, rows[0]) + KeyedRows(rows[1..], score)
  }

  function Erase(ranked: seq<Ranked>): (ks: seq<Keyed>)
    ensures |ks| == |ranked|
    ensures forall i :: 0 <= i < |ks| ==> ks[i] == Keyed(ranked[i].key, ranked[i].chunk)
  {
    seq(|ranked|, i requires 0 <= i < |ranked| => Keyed(ranked[i].key, ranked[i].chunk))
  }

  lemma {:induction false} KeyedRowsConcat(a: seq<EventChunk>, b: seq<EventChunk>, score: Score)
    ensures KeyedRows(a + b, score) == KeyedRows(a, score) + KeyedRows(b, score)
  {
    if a == [] {
      assert a + b == b;
    } else {
      KeyedRowsConcat(a[1..], b, score);
      assert (a + b)[1..] == a[1..] + b;
      Associate(KeyedRow(score, a[0]), KeyedRows(a[1..], score), KeyedRows(b, score));
    }
  }

  lemma {:induction false} EraseRanked(rows: seq<EventChunk>, n: nat, score: Score)
    requires n <= |rows|
    ensures Erase(RankUpTo(rows, n, score)) == KeyedRows(rows[..n], score)
  {
    if n > 0 {
      EraseRanked(rows, n - 1, score);
      assert rows[..n] == rows[..n - 1] + [rows[n - 1]];
      KeyedRowsConcat(rows[..n - 1], [rows[n - 1]], score);
      assert KeyedRows([rows[n - 1]], score) == KeyedRow(score, rows[n - 1]) + [];
    }
  }

  lemma {:induction false} RankedAscend(rows: seq<EventChunk>, n: nat, score: Score)
    requires n <= |rows|
    ensures var ranked := RankUpTo(rows, n, score);
            && (forall r :: r in ranked ==> r.index < n)
            && forall i, j :: 0 <= i < j < |ranked| ==> ranked[i].index < ranked[j].index
  {
    if n > 0 {
      RankedAscend(rows, n - 1, score);
    }
  }

  lemma {:induction false} EraseInsert(x: Ranked, s: seq<Ranked>)
    requires forall r :: r in s ==> x.index < r.index
    ensures Erase(Insert(x, s, RankLeq)) == Insert(Keyed(x.key, x.chunk), Erase(s), KeyLeq)
  {
    if s != [] {
      assert RankLeq(x, s[0]) <==> KeyLeq(Keyed(x.key, x.chunk), Erase(s)[0]);
      assert Erase(s)[1..] == Erase(s[1..]);
      EraseInsert(x, s[1..]);
      var rest := Insert(x, s[1..], RankLeq);
      assert Erase([s[0]] + rest) == [Erase(s)[0]] + Erase(rest);
    }
  }

  lemma {:induction false} EraseSort(s: seq<Ranked>)
    requires forall i, j :: 0 <= i < j < |s| ==> s[i].index < s[j].index
    ensures Erase(Sort(s, RankLeq)) == Sort(Erase(s), KeyLeq)
  {
    if s != [] {
      EraseSort(s[1..]);
      var sorted := Sort(s[1..], RankLeq);
      forall r | r in sorted ensures s[0].index < r.index {
        SortIn(s[1..], RankLeq, r);
      }
      EraseInsert(s[0], sorted);
      assert Erase(s)[1..] == Erase(s[1..]);
    }
  }

  /** A leg depends on the scored rows in their order, not on where the scan met them. */
  lemma LegByKeys(rows: seq<EventChunk>, score: Score, rows': seq<EventChunk>, score': Score, limit: int)
    requires KeyedRows(rows, score) == KeyedRows(rows', score')
    ensures Leg(rows, score, limit) == Leg(rows', score', limit)
  {
    RankedByKeys(rows, score);
    RankedByKeys(rows', score');
    SameErasure(Sort(RankUpTo(rows, |rows|, score), RankLeq), Sort(RankUpTo(rows', |rows'|, score'), RankLeq), limit);
  }

  lemma RankedByKeys(rows: seq<EventChunk>, score: Score)
    ensures Erase(Sort(RankUpTo(rows, |rows|, score), RankLeq)) == Sort(KeyedRows(rows, score), KeyLeq)
  {
    assert rows[..|rows|] == rows;
    EraseRanked(rows, |rows|, score);
    RankedAscend(rows, |rows|, score);
    EraseSort(RankUpTo(rows, |rows|, score));
  }

  lemma SameErasure(a: seq<Ranked>, b: seq<Ranked>, limit: int)
    requires Erase(a) == Erase(b)
    ensures limit > 0 ==> ChunksOf(Take(a, limit)) == ChunksOf(Take(b, limit))
  {
    assert |a| == |b|;
    assert forall i :: 0 <= i < |a| ==> a[i].chunk == Erase(a)[i].chunk == Erase(b)[i].chunk == b[i].chunk;
  }
}
