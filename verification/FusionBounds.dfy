/** What a chunk's ranks in duplicate-free legs guarantee about its place in the fused list. */
module FusionBounds {
  import opened Fusion
  import opened Models
  import opened Sorting
  import opened Tables
  import opened Traces

  ghost predicate NoRepeats(legs: Rankings) {
    forall l :: 0 <= l < |legs| ==> NoRepeat(legs[l])
  }

  predicate In(leg: seq<EventChunk>, id: Id) {
    FirstPlace(leg, id) < |leg|
  }

  /** A smaller cut is a prefix of a larger one. */
  lemma SmallerCutIsPrefix(legs: Rankings, small: int, large: int, k: int)
    requires small <= large && k > 0
    ensures Fuse(legs, small, k).Ok? && Fuse(legs, large, k).Ok?
    ensures var a, b := Fuse(legs, small, k).value, Fuse(legs, large, k).value;
            |a| <= |b| && a == b[..|a|] && |a| <= (if small > 0 then small else 0)
  {
  }

  /** In a leg without repeats a chunk scores by its one rank. */
  lemma {:induction false} LegScoreIs(leg: seq<EventChunk>, k: int, id: Id)
    requires k > 0 && NoRepeat(leg)
    ensures LegScore(leg, k, id) == if In(leg, id) then LegShare(FirstPlace(leg, id) + 1, k) else 0.0
  {
    if leg != [] {
      var n := |leg| - 1;
      var before := leg[..n];
      LegScoreIs(before, k, id);
      PlaceStays(before, leg[n], id);
      assert leg == before + [leg[n]];
      FirstPlaceIs(before, id);
      FirstPlaceIs(leg, id);
      if In(before, id) {
        assert before[FirstPlace(before, id)] == leg[FirstPlace(before, id)];
      }
    }
  }

  // ---- The position bound ----

  /** Ranked at worst `r` where the other is not ranked better than `r`, a chunk scores strictly more. */
  lemma LegBeats(leg: seq<EventChunk>, k: int, c: Id, d: Id, r: nat)
    requires k > 0 && NoRepeat(leg) && c != d && r > 0
    requires In(leg, c) && FirstPlace(leg, c) < r && (FirstPlace(leg, d) >= r - 1 || !In(leg, d))
    ensures LegScore(leg, k, c) > LegScore(leg, k, d)
  {
    LegScoreIs(leg, k, c);
    LegScoreIs(leg, k, d);
    FirstPlaceIs(leg, c);
    FirstPlaceIs(leg, d);
    var p, q := FirstPlace(leg, c), FirstPlace(leg, d);
    assert p != q;
    ShareFalls(p + 1, p + 2, k);
    if In(leg, d) {
      ShareFalls(p + 1, q + 1, k);
    }
  }

  /** Found by every leg, at rank `r` or better. */
  ghost predicate RankedWithin(legs: Rankings, id: Id, r: nat) {
    forall l :: 0 <= l < |legs| ==> In(legs[l], id) && FirstPlace(legs[l], id) < r
  }

  /** The first `n` of every leg. */
  function Tops(legs: Rankings, n: nat): Rankings {
    if legs == [] then [] else Tops(legs[..|legs| - 1], n) + [Take(legs[|legs| - 1], n)]
  }

  lemma {:induction false} TopsSize(legs: Rankings, n: nat)
    ensures |Concat(Tops(legs, n))| <= |legs| * n
  {
    if legs != [] {
      var before := legs[..|legs| - 1];
      TopsSize(before, n);
      var tops := Tops(before, n);
      assert (tops + [Take(legs[|before|], n)])[..|tops|] == tops;
      OneLegMore(|before|, n);
    }
  }

  lemma OneLegMore(m: nat, n: nat)
    ensures (m + 1) * n == m * n + n
  {
  }

  lemma {:induction false} InTops(legs: Rankings, n: nat, l: nat, d: Id) returns (c: EventChunk)
    requires l < |legs| && FirstPlace(legs[l], d) < n && In(legs[l], d)
    ensures c in Concat(Tops(legs, n)) && c.chunkId == d
  {
    var m := |legs| - 1;
    assert Tops(legs, n)[..|Tops(legs, n)| - 1] == Tops(legs[..m], n);
    if l == m {
      var p := FirstPlace(legs[l], d);
      FirstPlaceIs(legs[l], d);
      c := Take(legs[l], n)[p];
    } else {
      c := InTops(legs[..m], n, l, d);
    }
  }

  function HitIds(hits: seq<FusedHit>): (ids: seq<Id>)
    ensures |ids| == |hits|
    ensures forall i :: 0 <= i < |ids| ==> ids[i] == hits[i].chunk.chunkId
  {
    seq(|hits|, i requires 0 <= i < |hits| => hits[i].chunk.chunkId)
  }

  /** Whatever is fused ahead of a chunk ranked at worst `r` everywhere is among some leg's first `r - 1`. */
  lemma EarlierIsBetter(legs: Rankings, k: int, hits: seq<FusedHit>, j: nat, i: nat)
    requires k > 0 && IsFusion(legs, k, hits) && j < i < |hits|
    ensures var d, x := hits[j].chunk.chunkId, hits[i].chunk.chunkId; d != x && Score(legs, k, d) >= Score(legs, k, x)
  {
    assert Better(legs, k, hits[j].chunk.chunkId, hits[i].chunk.chunkId);
  }

  lemma AheadIsTop(legs: Rankings, k: int, hits: seq<FusedHit>, i: nat, j: nat, r: nat) returns (c: EventChunk)
    requires k > 0 && NoRepeats(legs) && IsFusion(legs, k, hits) && j < i < |hits| && r > 0 && legs != []
    requires RankedWithin(legs, hits[i].chunk.chunkId, r)
    ensures c in Concat(Tops(legs, r - 1)) && c.chunkId == hits[j].chunk.chunkId
  {
    var x, d := hits[i].chunk.chunkId, hits[j].chunk.chunkId;
    EarlierIsBetter(legs, k, hits, j, i);
    c := BetterIsTop(legs, k, x, d, r);
  }

  lemma BetterIsTop(legs: Rankings, k: int, x: Id, d: Id, r: nat) returns (c: EventChunk)
    requires k > 0 && NoRepeats(legs) && x != d && r > 0 && legs != [] && Score(legs, k, d) >= Score(legs, k, x)
    requires RankedWithin(legs, x, r)
    ensures c in Concat(Tops(legs, r - 1)) && c.chunkId == d
  {
    var l := SomeTop(legs, k, x, d, r);
    c := InTops(legs, r - 1, l, d);
  }

  lemma SomeTop(legs: Rankings, k: int, x: Id, d: Id, r: nat) returns (l: nat)
    requires k > 0 && NoRepeats(legs) && x != d && r > 0 && legs != [] && Score(legs, k, d) >= Score(legs, k, x)
    requires RankedWithin(legs, x, r)
    ensures l < |legs| && In(legs[l], d) && FirstPlace(legs[l], d) < r - 1
  {
    if forall l :: 0 <= l < |legs| ==> FirstPlace(legs[l], d) >= r - 1 || !In(legs[l], d) {
      NeverBehind(legs, k, x, d, r);
    }
    l :| 0 <= l < |legs| && In(legs[l], d) && FirstPlace(legs[l], d) < r - 1;
  }

  lemma {:induction false} NeverBehind(legs: Rankings, k: int, c: Id, d: Id, r: nat)
    requires k > 0 && NoRepeats(legs) && c != d && r > 0 && legs != []
    requires RankedWithin(legs, c, r)
    requires forall l :: 0 <= l < |legs| ==> FirstPlace(legs[l], d) >= r - 1 || !In(legs[l], d)
    ensures Score(legs, k, c) > Score(legs, k, d)
  {
    var n := |legs| - 1;
    LegBeats(legs[n], k, c, d, r);
    if n > 0 {
      NeverBehind(legs[..n], k, c, d, r);
    } else {
      assert legs[..n] == [];
    }
  }

  /**
   * Ranked at worst `r` in each of `L` duplicate-free legs, a chunk is fused at worst at position
   * `L * (r - 1) + 1`, counting from one.
   */
  lemma PositionBound(legs: Rankings, k: int, hits: seq<FusedHit>, i: nat, r: nat)
    requires k > 0 && NoRepeats(legs) && IsFusion(legs, k, hits) && i < |hits| && r > 0
    requires RankedWithin(legs, hits[i].chunk.chunkId, r)
    ensures i + 1 <= |legs| * (r - 1) + 1
  {
    assert IsHit(legs, k, hits[i]);
    if legs != [] {
      var ahead, tops := HitIds(hits[..i]), ChunkIds(Concat(Tops(legs, r - 1)));
      forall a, b | 0 <= a < b < |ahead| ensures ahead[a] != ahead[b] {
        assert Better(legs, k, hits[a].chunk.chunkId, hits[b].chunk.chunkId);
      }
      forall id | id in ahead ensures id in tops {
        var j :| 0 <= j < |ahead| && ahead[j] == id;
        var c := AheadIsTop(legs, k, hits, i, j, r);
        var p :| 0 <= p < |tops| && Concat(Tops(legs, r - 1))[p] == c;
        assert tops[p] == id;
      }
      DistinctFits(ahead, tops);
      TopsSize(legs, r - 1);
    }
  }

  // ---- The consensus bound ----

  lemma TwoScores(a: seq<EventChunk>, b: seq<EventChunk>, k: int, id: Id)
    requires k > 0 && NoRepeat(a) && NoRepeat(b)
    ensures Score([a, b], k, id) == (if In(a, id) then LegShare(FirstPlace(a, id) + 1, k) else 0.0)
                                  + (if In(b, id) then LegShare(FirstPlace(b, id) + 1, k) else 0.0)
  {
    LegScoreIs(a, k, id);
    LegScoreIs(b, k, id);
    assert [a, b][..1] == [a] && [a][..0] == [];
    assert Score([a], k, id) == 0.0 + LegScore(a, k, id);
  }

  lemma ShareAtMost(m: nat, n: nat, k: int)
    requires k > 0 && m <= n
    ensures LegShare(n, k) <= LegShare(m, k)
  {
    if m < n {
      ShareFalls(m, n, k);
    }
  }

  /** Two shares at rank k+2 make one at rank 1. */
  lemma HalfShares(k: int)
    requires k > 0
    ensures LegShare(k + 2, k) + LegShare(k + 2, k) == LegShare(1, k)
  {
    var x := (k + 1) as real;
    assert (k + (k + 2)) as real == 2.0 * x;
    assert (1.0 / (2.0 * x)) * 2.0 == 1.0 / x;
  }

  predicate InBoth(a: seq<EventChunk>, b: seq<EventChunk>, id: Id) {
    In(a, id) && In(b, id)
  }

  /** With legs no longer than k+1, being found twice outscores being found once, at any ranks. */
  lemma ConsensusOutscores(a: seq<EventChunk>, b: seq<EventChunk>, k: int, c: Id, d: Id)
    requires k > 0 && NoRepeat(a) && NoRepeat(b) && |a| <= k + 1 && |b| <= k + 1
    requires InBoth(a, b, c) && !InBoth(a, b, d)
    ensures Score([a, b], k, c) > Score([a, b], k, d)
  {
    TwoScores(a, b, k, c);
    TwoScores(a, b, k, d);
    ShareAtMost(FirstPlace(a, c) + 1, k + 1, k);
    ShareAtMost(FirstPlace(b, c) + 1, k + 1, k);
    ShareFalls(k + 1, k + 2, k);
    HalfShares(k);
    ShareFalls(1, 2, k);
    ShareAtMost(1, FirstPlace(a, d) + 1, k);
    ShareAtMost(1, FirstPlace(b, d) + 1, k);
  }

  /** Every chunk both legs found comes before every chunk only one found. */
  lemma ConsensusFirst(a: seq<EventChunk>, b: seq<EventChunk>, k: int, hits: seq<FusedHit>, i: nat, j: nat)
    requires k > 0 && NoRepeat(a) && NoRepeat(b) && |a| <= k + 1 && |b| <= k + 1
    requires IsFusion([a, b], k, hits) && i < j < |hits| && InBoth(a, b, hits[j].chunk.chunkId)
    ensures InBoth(a, b, hits[i].chunk.chunkId)
  {
    assert Better([a, b], k, hits[i].chunk.chunkId, hits[j].chunk.chunkId);
    if !InBoth(a, b, hits[i].chunk.chunkId) {
      ConsensusOutscores(a, b, k, hits[j].chunk.chunkId, hits[i].chunk.chunkId);
    }
  }

  /** One chunk longer, and the bound fails: last in both legs only ties with first in one, which comes first. */
  lemma ConsensusBoundTight(a: seq<EventChunk>, b: seq<EventChunk>, k: int)
    requires k > 0 && NoRepeat(a) && NoRepeat(b) && |a| == |b| == k + 2
    requires a[k + 1].chunkId == b[k + 1].chunkId && !In(b, a[0].chunkId)
    ensures InBoth(a, b, a[k + 1].chunkId) && !InBoth(a, b, a[0].chunkId)
    ensures Better([a, b], k, a[0].chunkId, a[k + 1].chunkId)
  {
    var c, d := a[k + 1].chunkId, a[0].chunkId;
    FirstPlaceFound(a, c, k + 1);
    FirstPlaceFound(b, c, k + 1);
    FirstPlaceFound(a, d, 0);
    TwoScores(a, b, k, c);
    TwoScores(a, b, k, d);
    HalfShares(k);
    var all := Concat([a, b]);
    assert [a, b][..1] == [a] && [a][..0] == [];
    assert Concat([a]) == [] + a;
    assert all == a + b;
    FirstPlaceFound(all, d, 0);
    FirstPlaceIs(all, c);
    assert all[0] == a[0];
  }

  // ---- The retrieval-hit rows ----

  const SPARSE_MODEL_NAME := "simple"

  datatype RetrievedCandidates = RetrievedCandidates(
    dense: seq<EventChunk>, sparse: seq<EventChunk>, merged: seq<FusedHit>, modelName: string)

  /** Fresh ids for the rows of one query, in the order they are drawn. */
  type IdSource = nat -> Id

  function LegRows(
    leg: seq<EventChunk>, n: nat, kind: RetrievalLeg, queryId: Id, modelName: string, at: Time, ids: IdSource, offset: nat)
    : (rows: seq<RetrievalHit>)
    requires n <= |leg|
    ensures |rows| == n
    ensures forall i :: 0 <= i < n ==>
              rows[i] == RetrievalHit(ids(offset + i), queryId, leg[i].chunkId, kind, i + 1,
                                      LegShare(i + 1, DEFAULT_RRF_K), modelName, at)
  {
    seq(n, i requires 0 <= i < n =>
      RetrievalHit(ids(offset + i), queryId, leg[i].chunkId, kind, i + 1, LegShare(i + 1, DEFAULT_RRF_K), modelName, at))
  }

  function MergedRows(
    merged: seq<FusedHit>, n: nat, queryId: Id, modelName: string, at: Time, ids: IdSource, offset: nat)
    : (rows: seq<RetrievalHit>)
    requires n <= |merged|
    ensures |rows| == n
    ensures forall i :: 0 <= i < n ==>
              rows[i] == RetrievalHit(ids(offset + i), queryId, merged[i].chunk.chunkId, MergedLeg, i + 1, merged[i].score,
                                      modelName, at)
  {
    seq(n, i requires 0 <= i < n =>
      RetrievalHit(ids(offset + i), queryId, merged[i].chunk.chunkId, MergedLeg, i + 1, merged[i].score, modelName, at))
  }

  function HitRows(queryId: Id, modelName: string, at: Time, c: RetrievedCandidates, ids: IdSource): seq<RetrievalHit> {
    LegRows(c.dense, |c.dense|, DenseLeg, queryId, modelName, at, ids, 0)
    + LegRows(c.sparse, |c.sparse|, SparseLeg, queryId, SPARSE_MODEL_NAME, at, ids, |c.dense|)
    + MergedRows(c.merged, |c.merged|, queryId, modelName, at, ids, |c.dense| + |c.sparse|)
  }

  /** A row's place in its leg, and what that place is worth. */
  predicate RowOf(row: RetrievalHit, leg: RetrievalLeg, rank: nat, chunkId: Id, score: real, modelName: string, queryId: Id, at: Time) {
    && row.leg == leg && row.rank == rank && row.chunkId == chunkId && row.score == score && row.modelName == modelName
    && row.queryId == queryId && row.createdAt == at
  }

  lemma ShareIs(i: nat)
    ensures LegShare(i + 1, DEFAULT_RRF_K) == 1.0 / ((61 + i) as real)
  {
  }

  lemma LegTold(
    leg: seq<EventChunk>, kind: RetrievalLeg, queryId: Id, modelName: string, at: Time, ids: IdSource, offset: nat)
    ensures var rows := LegRows(leg, |leg|, kind, queryId, modelName, at, ids, offset);
            forall i :: 0 <= i < |leg| ==>
              rows[i].hitId == ids(offset + i)
              && RowOf(rows[i], kind, i + 1, leg[i].chunkId, 1.0 / ((61 + i) as real), modelName, queryId, at)
  {
    var rows := LegRows(leg, |leg|, kind, queryId, modelName, at, ids, offset);
    forall i | 0 <= i < |leg|
      ensures rows[i].hitId == ids(offset + i)
              && RowOf(rows[i], kind, i + 1, leg[i].chunkId, 1.0 / ((61 + i) as real), modelName, queryId, at)
    {
      ShareIs(i);
    }
  }

  /** The rows of one leg, ranked from one and worth its share each. */
  ghost predicate LegRowsOf(rows: seq<RetrievalHit>, leg: seq<EventChunk>, kind: RetrievalLeg, modelName: string, queryId: Id, at: Time) {
    && |rows| == |leg|
    && forall i :: 0 <= i < |leg| ==>
         RowOf(rows[i], kind, i + 1, leg[i].chunkId, 1.0 / ((61 + i) as real), modelName, queryId, at)
  }

  /**
   * The rows of a query: its dense leg, its sparse leg and their fusion, one after the other and each in
   * its own order, ranked from one, with a leg's share or the fused score.
   */
  lemma RowsTold(queryId: Id, modelName: string, at: Time, c: RetrievedCandidates, ids: IdSource)
    ensures var rows, n, m := HitRows(queryId, modelName, at, c, ids), |c.dense|, |c.dense| + |c.sparse|;
            && |rows| == m + |c.merged|
            && LegRowsOf(rows[..n], c.dense, DenseLeg, modelName, queryId, at)
            && LegRowsOf(rows[n..m], c.sparse, SparseLeg, "simple", queryId, at)
            && (forall i :: 0 <= i < |c.merged| ==>
                  RowOf(rows[m + i], MergedLeg, i + 1, c.merged[i].chunk.chunkId, c.merged[i].score, modelName, queryId, at))
  {
    var rows, n, m := HitRows(queryId, modelName, at, c, ids), |c.dense|, |c.dense| + |c.sparse|;
    LegTold(c.dense, DenseLeg, queryId, modelName, at, ids, 0);
    LegTold(c.sparse, SparseLeg, queryId, SPARSE_MODEL_NAME, at, ids, n);
    assert rows[..n] == LegRows(c.dense, n, DenseLeg, queryId, modelName, at, ids, 0);
    assert rows[n..m] == LegRows(c.sparse, |c.sparse|, SparseLeg, queryId, SPARSE_MODEL_NAME, at, ids, n);
    assert rows[m..] == MergedRows(c.merged, |c.merged|, queryId, modelName, at, ids, m);
    forall i | 0 <= i < |c.merged| ensures rows[m + i] == rows[m..][i] {
    }
  }

  method BuildRetrievalHits(queryId: Id, modelName: string, at: Time, c: RetrievedCandidates, ids: IdSource)
    returns (hits: seq<RetrievalHit>)
    ensures hits == HitRows(queryId, modelName, at, c, ids)
  {
    hits := [];
    for i := 0 to |c.dense|
      invariant hits == LegRows(c.dense, i, DenseLeg, queryId, modelName, at, ids, 0)
    {
      hits := hits + [RetrievalHit(ids(|hits|), queryId, c.dense[i].chunkId, DenseLeg, i + 1,
                                   LegShare(i + 1, DEFAULT_RRF_K), modelName, at)];
    }
    ghost var dense := hits;
    for i := 0 to |c.sparse|
      invariant hits == dense + LegRows(c.sparse, i, SparseLeg, queryId, SPARSE_MODEL_NAME, at, ids, |c.dense|)
    {
      hits := hits + [RetrievalHit(ids(|hits|), queryId, c.sparse[i].chunkId, SparseLeg, i + 1,
                                   LegShare(i + 1, DEFAULT_RRF_K), SPARSE_MODEL_NAME, at)];
    }
    ghost var both := hits;
    for i := 0 to |c.merged|
      invariant hits == both + MergedRows(c.merged, i, queryId, modelName, at, ids, |c.dense| + |c.sparse|)
    {
      hits := hits + [RetrievalHit(ids(|hits|), queryId, c.merged[i].chunk.chunkId, MergedLeg, i + 1,
                                   c.merged[i].score, modelName, at)];
    }
  }

  ghost predicate NoMergedRepeat(merged: seq<FusedHit>) {
    forall i, j :: 0 <= i < j < |merged| ==> merged[i].chunk.chunkId != merged[j].chunk.chunkId
  }

  /** A fused list, cut anywhere, repeats no chunk. */
  lemma FusedNoRepeat(legs: Rankings, k: int, n: nat)
    requires k > 0
    ensures NoMergedRepeat(Take(Fused(legs, k), n))
  {
    var hits := Fused(legs, k);
    forall i, j | 0 <= i < j < |hits| ensures hits[i].chunk.chunkId != hits[j].chunk.chunkId {
      assert Better(legs, k, hits[i].chunk.chunkId, hits[j].chunk.chunkId);
    }
  }

  ghost predicate NoRowRepeat(rows: seq<RetrievalHit>) {
    forall i, j :: 0 <= i < j < |rows| ==> rows[i].leg != rows[j].leg || rows[i].chunkId != rows[j].chunkId
  }

  /** The rows of one query never repeat a chunk within a leg, and all belong to that query. */
  lemma RowsOnce(queryId: Id, modelName: string, at: Time, c: RetrievedCandidates, ids: IdSource)
    requires NoRepeat(c.dense) && NoRepeat(c.sparse) && NoMergedRepeat(c.merged)
    ensures NoRowRepeat(HitRows(queryId, modelName, at, c, ids))
    ensures forall h :: h in HitRows(queryId, modelName, at, c, ids) ==> h.queryId == queryId
  {
    var rows, m, n := HitRows(queryId, modelName, at, c, ids), |c.dense|, |c.dense| + |c.sparse|;
    assert forall i :: 0 <= i < |rows| ==>
        rows[i].leg == (if i < m then DenseLeg else if i < n then SparseLeg else MergedLeg)
        && rows[i].chunkId == if i < m then c.dense[i].chunkId else if i < n then c.sparse[i - m].chunkId
                              else c.merged[i - n].chunk.chunkId;
  }
}
