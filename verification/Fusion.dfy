/**
 * Reciprocal rank fusion (`services/retrieval.py`): the accumulator loop, the list it stands for,
 * and what a chunk's ranks in the legs say about its place in that list.
 */
module Fusion {
  import opened Models
  import opened Sorting
  import opened Tables
  import opened Wrappers

  const DEFAULT_RRF_K: int := 60

  datatype FusedHit = FusedHit(chunk: EventChunk, score: real)

  type Rankings = seq<seq<EventChunk>>

  // ---- Scores ----

  /** `rrf_leg_score`, at a 1-based rank. */
  function LegShare(rank: nat, k: int): real
    requires k > 0
  {
    1.0 / ((k + rank) as real)
  }

  lemma ShareFalls(a: nat, b: nat, k: int)
    requires k > 0 && a < b
    ensures 0.0 < LegShare(b, k) < LegShare(a, k)
  {
    Reciprocals((k + a) as real, (k + b) as real);
  }

  lemma Reciprocals(x: real, y: real)
    requires 0.0 < x < y
    ensures 0.0 < 1.0 / y < 1.0 / x
  {
    var u, v := 1.0 / x, 1.0 / y;
    assert x * u == 1.0 && y * v == 1.0;
    assert u > 0.0 && v > 0.0;
    assert (y - x) * u > 0.0;
    assert y * (v - u) < 0.0;
  }

  /** What one leg adds to a chunk's score. */
  function LegScore(leg: seq<EventChunk>, k: int, id: Id): real
    requires k > 0
  {
    if leg == [] then 0.0
    else
      var n := |leg| - 1;
      LegScore(leg[..n], k, id) + if leg[n].chunkId == id then LegShare(n + 1, k) else 0.0
  }

  function Score(legs: Rankings, k: int, id: Id): real
    requires k > 0
  {
    if legs == [] then 0.0 else Score(legs[..|legs| - 1], k, id) + LegScore(legs[|legs| - 1], k, id)
  }

  // ---- First appearances ----

  function Concat(legs: Rankings): seq<EventChunk> {
    if legs == [] then [] else Concat(legs[..|legs| - 1]) + legs[|legs| - 1]
  }

  /** Where an id first appears; the length of the list if it does not. */
  function FirstPlace(all: seq<EventChunk>, id: Id): (n: nat)
    ensures n <= |all|
  {
    if all == [] || all[0].chunkId == id then 0 else 1 + FirstPlace(all[1..], id)
  }

  /** `chunks_by_id`: the first chunk seen under each id, in order of appearance. */
  function FirstSeen(all: seq<EventChunk>): Table<EventChunk> {
    if all == [] then Empty()
    else
      var before, c := FirstSeen(all[..|all| - 1]), all[|all| - 1];
      if c.chunkId in before.rows then before else Put(before, c.chunkId, c)
  }

  lemma {:induction false} FirstPlaceIs(all: seq<EventChunk>, id: Id)
    ensures FirstPlace(all, id) < |all| ==> all[FirstPlace(all, id)].chunkId == id
    ensures forall i :: 0 <= i < FirstPlace(all, id) ==> all[i].chunkId != id
  {
    if all != [] && all[0].chunkId != id {
      FirstPlaceIs(all[1..], id);
      forall i | 0 <= i < FirstPlace(all, id) ensures all[i].chunkId != id {
        assert i > 0 ==> all[i] == all[1..][i - 1];
      }
    }
  }

  lemma FirstPlaceFound(all: seq<EventChunk>, id: Id, i: nat)
    requires i < |all| && all[i].chunkId == id && forall j :: 0 <= j < i ==> all[j].chunkId != id
    ensures FirstPlace(all, id) == i
  {
    FirstPlaceIs(all, id);
  }

  function PlaceIn(all: seq<EventChunk>): Id -> nat {
    id => FirstPlace(all, id)
  }

  ghost predicate Ascending(keys: seq<Id>, place: Id -> nat) {
    forall i, j :: 0 <= i < j < |keys| ==> place(keys[i]) < place(keys[j])
  }

  ghost predicate HoldsFirst(all: seq<EventChunk>, t: Table<EventChunk>) {
    && (forall c :: c in all ==> c.chunkId in t.rows)
    && (forall id :: id in t.rows ==> FirstPlace(all, id) < |all| && t.rows[id] == all[FirstPlace(all, id)])
  }

  /** The table holds each id's first chunk, and its keys come in order of first appearance. */
  ghost predicate ByAppearance(all: seq<EventChunk>, t: Table<EventChunk>) {
    HoldsFirst(all, t) && Ascending(t.keys, PlaceIn(all))
  }

  lemma PlaceStays(all: seq<EventChunk>, c: EventChunk, id: Id)
    ensures FirstPlace(all, id) < |all| ==> FirstPlace(all + [c], id) == FirstPlace(all, id)
    ensures FirstPlace(all, id) == |all| && c.chunkId == id ==> FirstPlace(all + [c], id) == |all|
  {
    FirstPlaceIs(all, id);
    var n := FirstPlace(all, id);
    if n < |all| {
      assert (all + [c])[n] == all[n];
      FirstPlaceFound(all + [c], id, n);
    } else if c.chunkId == id {
      FirstPlaceFound(all + [c], id, n);
    }
  }

  lemma {:induction false} FirstSeenIs(all: seq<EventChunk>)
    ensures ByAppearance(all, FirstSeen(all))
  {
    if all != [] {
      var before, c := all[..|all| - 1], all[|all| - 1];
      FirstSeenIs(before);
      assert all == before + [c];
      NextSeen(before, FirstSeen(before), c);
    }
  }

  lemma NextSeen(before: seq<EventChunk>, t: Table<EventChunk>, c: EventChunk)
    requires ByAppearance(before, t)
    ensures ByAppearance(before + [c], if c.chunkId in t.rows then t else Put(t, c.chunkId, c))
  {
    forall id | id in t.rows ensures FirstPlace(before + [c], id) == FirstPlace(before, id) {
      PlaceStays(before, c, id);
    }
    if c.chunkId !in t.rows {
      AppearsLast(before, c, t);
      AppendByAppearance(before, c, t);
    }
  }

  lemma AppearsLast(before: seq<EventChunk>, c: EventChunk, t: Table<EventChunk>)
    requires (forall e :: e in before ==> e.chunkId in t.rows) && c.chunkId !in t.rows
    ensures FirstPlace(before + [c], c.chunkId) == |before|
  {
    forall j | 0 <= j < |before| ensures before[j].chunkId != c.chunkId {
      assert before[j] in before;
    }
    FirstPlaceFound(before + [c], c.chunkId, |before|);
  }

  lemma AppendByAppearance(before: seq<EventChunk>, c: EventChunk, t: Table<EventChunk>)
    requires ByAppearance(before, t) && c.chunkId !in t.rows
    requires forall id :: id in t.rows ==> FirstPlace(before + [c], id) == FirstPlace(before, id)
    requires FirstPlace(before + [c], c.chunkId) == |before|
    ensures ByAppearance(before + [c], Put(t, c.chunkId, c))
  {
    HoldsOneMore(before, c, t);
    AscendsFurther(t.keys, c.chunkId, PlaceIn(before), PlaceIn(before + [c]), |before|);
  }

  lemma HoldsOneMore(before: seq<EventChunk>, c: EventChunk, t: Table<EventChunk>)
    requires HoldsFirst(before, t) && c.chunkId !in t.rows
    requires forall id :: id in t.rows ==> FirstPlace(before + [c], id) == FirstPlace(before, id)
    requires FirstPlace(before + [c], c.chunkId) == |before|
    ensures HoldsFirst(before + [c], Put(t, c.chunkId, c))
  {
  }

  lemma AscendsFurther(keys: seq<Id>, k: Id, was: Id -> nat, now: Id -> nat, n: nat)
    requires Ascending(keys, was) && now(k) == n
    requires forall x :: x in keys ==> now(x) == was(x) < n
    ensures Ascending(keys + [k], now)
  {
  }

  // ---- The fused list, declaratively ----

  /** Higher score first; among equals, whichever appeared first. */
  predicate Better(legs: Rankings, k: int, a: Id, b: Id)
    requires k > 0
  {
    Score(legs, k, a) > Score(legs, k, b)
    || (Score(legs, k, a) == Score(legs, k, b) && FirstPlace(Concat(legs), a) < FirstPlace(Concat(legs), b))
  }

  /** Every chunk of every leg once, as first seen, with its total score, best first. */
  ghost predicate IsFusion(legs: Rankings, k: int, hits: seq<FusedHit>)
    requires k > 0
  {
    && (forall i :: 0 <= i < |hits| ==> IsHit(legs, k, hits[i]))
    && (forall i, j :: 0 <= i < j < |hits| ==> Better(legs, k, hits[i].chunk.chunkId, hits[j].chunk.chunkId))
    && (forall c :: c in Concat(legs) ==> Hit(hits, c.chunkId))
  }

  predicate IsHit(legs: Rankings, k: int, h: FusedHit)
    requires k > 0
  {
    var all, id := Concat(legs), h.chunk.chunkId;
    FirstPlace(all, id) < |all| && h.chunk == all[FirstPlace(all, id)] && h.score == Score(legs, k, id)
  }

  ghost predicate Hit(hits: seq<FusedHit>, id: Id) {
    exists i :: 0 <= i < |hits| && hits[i].chunk.chunkId == id
  }

  /** There is one such list. */
  lemma FusionUnique(legs: Rankings, k: int, a: seq<FusedHit>, b: seq<FusedHit>)
    requires k > 0 && IsFusion(legs, k, a) && IsFusion(legs, k, b)
    ensures a == b
  {
    FusionLength(legs, k, a, b);
    FusionLength(legs, k, b, a);
    FusionAgree(legs, k, a, b, |a|);
  }

  lemma HitIn(legs: Rankings, k: int, a: seq<FusedHit>, h: FusedHit) returns (i: nat)
    requires k > 0 && IsFusion(legs, k, a) && IsHit(legs, k, h)
    ensures i < |a| && a[i] == h
  {
    var id := h.chunk.chunkId;
    assert h.chunk in Concat(legs);
    i :| 0 <= i < |a| && a[i].chunk.chunkId == id;
    assert IsHit(legs, k, a[i]);
  }

  lemma FusionLength(legs: Rankings, k: int, a: seq<FusedHit>, b: seq<FusedHit>)
    requires k > 0 && IsFusion(legs, k, a) && IsFusion(legs, k, b)
    ensures |a| <= |b|
  {
    forall h | h in a ensures h in b {
      var i :| 0 <= i < |a| && a[i] == h;
      var j := HitIn(legs, k, b, a[i]);
    }
    DistinctFits(a, b);
  }

  lemma {:induction false} FusionAgree(legs: Rankings, k: int, a: seq<FusedHit>, b: seq<FusedHit>, n: nat)
    requires k > 0 && IsFusion(legs, k, a) && IsFusion(legs, k, b) && |a| == |b| && n <= |a|
    ensures a[..n] == b[..n]
  {
    if n > 0 {
      FusionAgree(legs, k, a, b, n - 1);
      SameAt(legs, k, a, b, n - 1);
      assert a[..n] == a[..n - 1] + [a[n - 1]] && b[..n] == b[..n - 1] + [b[n - 1]];
    }
  }

  lemma SameAt(legs: Rankings, k: int, a: seq<FusedHit>, b: seq<FusedHit>, n: nat)
    requires k > 0 && IsFusion(legs, k, a) && IsFusion(legs, k, b)
    requires n < |a| && n < |b| && a[..n] == b[..n]
    ensures a[n] == b[n]
  {
    var i := NotEarlier(legs, k, a, b, n);
    assert b[..n] == a[..n];
    var j := NotEarlier(legs, k, b, a, n);
    var x, y := a[n].chunk.chunkId, b[n].chunk.chunkId;
    assert i > n ==> Better(legs, k, x, y);
    assert j > n ==> Better(legs, k, y, x);
  }

  lemma NotEarlier(legs: Rankings, k: int, a: seq<FusedHit>, b: seq<FusedHit>, n: nat) returns (i: nat)
    requires k > 0 && IsFusion(legs, k, a) && IsFusion(legs, k, b)
    requires n < |a| && n < |b| && a[..n] == b[..n]
    ensures n <= i < |a| && a[i] == b[n]
  {
    i := HitIn(legs, k, a, b[n]);
    assert i < n ==> a[i] == a[..n][i] == b[i] && Better(legs, k, b[i].chunk.chunkId, b[n].chunk.chunkId);
  }

  // ---- The accumulator loop ----

  /** What the three dictionaries hold once `legs` have been read. */
  ghost predicate Accumulated(legs: Rankings, k: int, score: map<Id, real>, t: Table<EventChunk>, seen: map<Id, nat>)
    requires k > 0
  {
    t == FirstSeen(Concat(legs)) && Scored(legs, k, score, t.rows.Keys) && Numbered(t, seen)
  }

  ghost predicate Scored(legs: Rankings, k: int, score: map<Id, real>, ids: set<Id>)
    requires k > 0
  {
    score.Keys == ids && forall id :: id in score ==> score[id] == Score(legs, k, id)
  }

  ghost predicate Numbered(t: Table<EventChunk>, seen: map<Id, nat>) {
    seen.Keys == t.rows.Keys && forall i :: 0 <= i < |t.keys| ==> t.keys[i] in seen && seen[t.keys[i]] == i
  }

  lemma ConcatNext(legs: Rankings, leg: seq<EventChunk>, n: nat)
    requires n < |leg|
    ensures Concat(legs + [leg[..n + 1]]) == Concat(legs + [leg[..n]]) + [leg[n]]
  {
    assert (legs + [leg[..n]])[..|legs|] == legs && (legs + [leg[..n + 1]])[..|legs|] == legs;
    assert leg[..n + 1] == leg[..n] + [leg[n]];
    Associate(Concat(legs), leg[..n], [leg[n]]);
  }

  lemma ScoreNext(legs: Rankings, leg: seq<EventChunk>, n: nat, k: int, id: Id)
    requires n < |leg| && k > 0
    ensures Score(legs + [leg[..n + 1]], k, id)
         == Score(legs + [leg[..n]], k, id) + if leg[n].chunkId == id then LegShare(n + 1, k) else 0.0
  {
    assert (legs + [leg[..n]])[..|legs|] == legs && (legs + [leg[..n + 1]])[..|legs|] == legs;
    assert leg[..n + 1][..n] == leg[..n];
  }

  lemma {:induction false} LegScoreAbsent(leg: seq<EventChunk>, k: int, id: Id)
    requires k > 0 && forall c :: c in leg ==> c.chunkId != id
    ensures LegScore(leg, k, id) == 0.0
  {
    if leg != [] {
      LegScoreAbsent(leg[..|leg| - 1], k, id);
    }
  }

  lemma {:induction false} ScoreAbsent(legs: Rankings, k: int, id: Id)
    requires k > 0 && forall c :: c in Concat(legs) ==> c.chunkId != id
    ensures Score(legs, k, id) == 0.0
  {
    if legs != [] {
      ScoreAbsent(legs[..|legs| - 1], k, id);
      LegScoreAbsent(legs[|legs| - 1], k, id);
    }
  }

  lemma FirstSeenNext(all: seq<EventChunk>, c: EventChunk)
    ensures var t := FirstSeen(all); FirstSeen(all + [c]) == if c.chunkId in t.rows then t else Put(t, c.chunkId, c)
  {
    assert (all + [c])[..|all|] == all;
  }

  lemma AllScoresNext(legs: Rankings, leg: seq<EventChunk>, n: nat, k: int)
    requires n < |leg| && k > 0
    ensures forall id :: Score(legs + [leg[..n + 1]], k, id)
                      == Score(legs + [leg[..n]], k, id) + if leg[n].chunkId == id then LegShare(n + 1, k) else 0.0
  {
    forall id ensures Score(legs + [leg[..n + 1]], k, id)
                   == Score(legs + [leg[..n]], k, id) + if leg[n].chunkId == id then LegShare(n + 1, k) else 0.0
    {
      ScoreNext(legs, leg, n, k, id);
    }
  }

  /** A turn of the inner loop on an id already seen. */
  lemma RankAgain(
    legs: Rankings, leg: seq<EventChunk>, n: nat, k: int, score: map<Id, real>, t: Table<EventChunk>, seen: map<Id, nat>)
    requires k > 0 && n < |leg| && Accumulated(legs + [leg[..n]], k, score, t, seen)
    requires leg[n].chunkId in t.rows
    ensures var id := leg[n].chunkId;
            Accumulated(legs + [leg[..n + 1]], k, score[id := score[id] + LegShare(n + 1, k)], t, seen)
  {
    ConcatNext(legs, leg, n);
    FirstSeenNext(Concat(legs + [leg[..n]]), leg[n]);
    ScoresAgain(legs, leg, n, k, score, t.rows.Keys);
  }

  lemma ScoresAgain(legs: Rankings, leg: seq<EventChunk>, n: nat, k: int, score: map<Id, real>, ids: set<Id>)
    requires k > 0 && n < |leg| && leg[n].chunkId in ids && Scored(legs + [leg[..n]], k, score, ids)
    ensures Scored(legs + [leg[..n + 1]], k, score[leg[n].chunkId := score[leg[n].chunkId] + LegShare(n + 1, k)], ids)
  {
    AllScoresNext(legs, leg, n, k);
  }

  /** Nothing read so far carries a new id. */
  lemma NewId(legs: Rankings, k: int, id: Id)
    requires k > 0 && id !in FirstSeen(Concat(legs)).rows
    ensures Score(legs, k, id) == 0.0
  {
    FirstSeenIs(Concat(legs));
    ScoreAbsent(legs, k, id);
  }

  /** A turn of the inner loop on a new id. */
  lemma RankFirst(
    legs: Rankings, leg: seq<EventChunk>, n: nat, k: int, score: map<Id, real>, t: Table<EventChunk>, seen: map<Id, nat>)
    requires k > 0 && n < |leg| && Accumulated(legs + [leg[..n]], k, score, t, seen)
    requires leg[n].chunkId !in t.rows
    ensures var id := leg[n].chunkId;
            Accumulated(legs + [leg[..n + 1]], k, score[id := 0.0 + LegShare(n + 1, k)], Put(t, id, leg[n]), seen[id := |seen|])
  {
    var id := leg[n].chunkId;
    ConcatNext(legs, leg, n);
    FirstSeenNext(Concat(legs + [leg[..n]]), leg[n]);
    ScoresFirst(legs, leg, n, k, score, t.rows.Keys);
    SeenNext(t, id, leg[n], seen);
  }

  /** A chunk met for the first time starts its score. */
  lemma ScoresFirst(legs: Rankings, leg: seq<EventChunk>, n: nat, k: int, score: map<Id, real>, ids: set<Id>)
    requires k > 0 && n < |leg| && leg[n].chunkId !in ids && Scored(legs + [leg[..n]], k, score, ids)
    requires ids == FirstSeen(Concat(legs + [leg[..n]])).rows.Keys
    ensures Scored(legs + [leg[..n + 1]], k, score[leg[n].chunkId := 0.0 + LegShare(n + 1, k)], ids + {leg[n].chunkId})
  {
    AllScoresNext(legs, leg, n, k);
    NewId(legs + [leg[..n]], k, leg[n].chunkId);
  }

  /** A turn of the inner loop. */
  lemma RankNext(
    legs: Rankings, leg: seq<EventChunk>, n: nat, k: int, score: map<Id, real>, t: Table<EventChunk>, seen: map<Id, nat>,
    score': map<Id, real>, t': Table<EventChunk>, seen': map<Id, nat>)
    requires k > 0 && n < |leg| && Accumulated(legs + [leg[..n]], k, score, t, seen)
    requires var id := leg[n].chunkId;
             && score' == score[id := (if id in score then score[id] else 0.0) + LegShare(n + 1, k)]
             && t' == (if id in t.rows then t else Put(t, id, leg[n]))
             && seen' == if id in t.rows then seen else seen[id := |seen|]
    ensures Accumulated(legs + [leg[..n + 1]], k, score', t', seen')
  {
    if leg[n].chunkId in t.rows {
      RankAgain(legs, leg, n, k, score, t, seen);
    } else {
      RankFirst(legs, leg, n, k, score, t, seen);
    }
  }

  lemma SeenNext(t: Table<EventChunk>, id: Id, c: EventChunk, seen: map<Id, nat>)
    requires id !in t.rows && Numbered(t, seen)
    ensures Numbered(Put(t, id, c), seen[id := |seen|])
  {
    KeyCount(t);
    SameSize(seen, t.rows);
    forall i | 0 <= i < |t.keys| ensures t.keys[i] != id {
      assert t.keys[i] in t.keys;
    }
  }

  lemma SameSize<K, V, W>(a: map<K, V>, b: map<K, W>)
    requires a.Keys == b.Keys
    ensures |a| == |b|
  {
    assert |a| == |a.Keys| && |b| == |b.Keys|;
  }

  datatype Entry = Entry(score: real, seen: nat, id: Id)

  /** `key=lambda cid: (-fused_score[cid], first_seen[cid])` */
  predicate EntryLeq(a: Entry, b: Entry) {
    a.score > b.score || (a.score == b.score && a.seen <= b.seen)
  }

  lemma EntryLeqOrder()
    ensures TotalPreorder(EntryLeq)
  {
  }

  function Entries(keys: seq<Id>, score: map<Id, real>, seen: map<Id, nat>): (es: seq<Entry>)
    requires forall id :: id in keys ==> id in score && id in seen
    ensures |es| == |keys|
    ensures forall i :: 0 <= i < |es| ==> es[i] == Entry(score[keys[i]], seen[keys[i]], keys[i])
  {
    seq(|keys|, i requires 0 <= i < |keys| => Entry(score[keys[i]], seen[keys[i]], keys[i]))
  }

  function HitsOf(es: seq<Entry>, rows: map<Id, EventChunk>): (hits: seq<FusedHit>)
    requires forall e :: e in es ==> e.id in rows
    ensures |hits| == |es|
    ensures forall i :: 0 <= i < |hits| ==> hits[i] == FusedHit(rows[es[i].id], es[i].score)
  {
    seq(|es|, i requires 0 <= i < |es| => FusedHit(rows[es[i].id], es[i].score))
  }

  lemma SortedEntries(keys: seq<Id>, score: map<Id, real>, seen: map<Id, nat>)
    requires Distinct(keys) && forall i :: 0 <= i < |keys| ==> keys[i] in score && keys[i] in seen && seen[keys[i]] == i
    ensures var es := Sort(Entries(keys, score, seen), EntryLeq);
            && Sorted(es, EntryLeq) && Distinct(es)
            && (forall e :: e in es ==> e.seen < |keys| && e.id == keys[e.seen] && e.score == score[e.id])
            && (forall id :: id in keys ==> EntryFor(es, id))
  {
    var all := Entries(keys, score, seen);
    EntryLeqOrder();
    SortSorts(all, EntryLeq);
    SortDistinct(all, EntryLeq);
    var es := Sort(all, EntryLeq);
    forall e: Entry ensures e in es <==> e in all {
      SortIn(all, EntryLeq, e);
    }
    forall id | id in keys ensures EntryFor(es, id) {
      var i :| 0 <= i < |keys| && keys[i] == id;
      assert all[i] in es;
    }
  }

  ghost predicate EntryFor(es: seq<Entry>, id: Id) {
    exists e :: e in es && e.id == id
  }

  predicate GoodEntry(legs: Rankings, k: int, t: Table<EventChunk>, e: Entry)
    requires k > 0
  {
    e.seen < |t.keys| && e.id == t.keys[e.seen] && e.id in t.rows && e.score == Score(legs, k, e.id)
  }

  /** The entries of all keys, best first. */
  ghost predicate Ranking(legs: Rankings, k: int, t: Table<EventChunk>, es: seq<Entry>)
    requires k > 0
  {
    && Sorted(es, EntryLeq) && Distinct(es)
    && (forall e :: e in es ==> GoodEntry(legs, k, t, e))
    && (forall id :: id in t.keys ==> EntryFor(es, id))
  }

  lemma RankingHits(legs: Rankings, k: int, t: Table<EventChunk>, es: seq<Entry>)
    requires k > 0 && ByAppearance(Concat(legs), t) && Ranking(legs, k, t, es)
    ensures forall i :: 0 <= i < |es| ==> es[i].id in t.rows
    ensures forall i :: 0 <= i < |es| ==> t.rows[es[i].id].chunkId == es[i].id
    ensures forall i :: 0 <= i < |es| ==> IsHit(legs, k, FusedHit(t.rows[es[i].id], es[i].score))
  {
    assert forall i :: 0 <= i < |es| ==> es[i] in es && GoodEntry(legs, k, t, es[i]);
    forall i | 0 <= i < |es|
      ensures t.rows[es[i].id].chunkId == es[i].id && IsHit(legs, k, FusedHit(t.rows[es[i].id], es[i].score))
    {
      assert es[i] in es;
      EntryIsHit(legs, k, t, es[i]);
    }
  }

  lemma RankingBetter(legs: Rankings, k: int, t: Table<EventChunk>, es: seq<Entry>)
    requires k > 0 && ByAppearance(Concat(legs), t) && Ranking(legs, k, t, es)
    ensures forall i, j :: 0 <= i < j < |es| ==> Better(legs, k, es[i].id, es[j].id)
  {
    forall i, j | 0 <= i < j < |es| ensures Better(legs, k, es[i].id, es[j].id) {
      assert es[i] in es && es[j] in es;
      EntryBetter(legs, k, t, es[i], es[j]);
    }
  }

  lemma RankingIsFusion(legs: Rankings, k: int, t: Table<EventChunk>, es: seq<Entry>)
    requires k > 0 && ByAppearance(Concat(legs), t) && Ranking(legs, k, t, es)
    ensures IsFusion(legs, k, HitsOf(es, t.rows))
  {
    RankingHits(legs, k, t, es);
    RankingBetter(legs, k, t, es);
    RankingCovers(legs, k, t, es);
  }

  lemma RankingCovers(legs: Rankings, k: int, t: Table<EventChunk>, es: seq<Entry>)
    requires k > 0 && HoldsFirst(Concat(legs), t) && Ranking(legs, k, t, es)
    requires forall e :: e in es ==> e.id in t.rows && t.rows[e.id].chunkId == e.id
    ensures forall c :: c in Concat(legs) ==> Hit(HitsOf(es, t.rows), c.chunkId)
  {
    var hits := HitsOf(es, t.rows);
    forall c | c in Concat(legs) ensures Hit(hits, c.chunkId) {
      EntryHits(es, t.rows, c.chunkId);
    }
  }

  lemma EntryHits(es: seq<Entry>, rows: map<Id, EventChunk>, id: Id)
    requires EntryFor(es, id) && forall e :: e in es ==> e.id in rows && rows[e.id].chunkId == e.id
    ensures Hit(HitsOf(es, rows), id)
  {
    var e :| e in es && e.id == id;
    var i :| 0 <= i < |es| && es[i] == e;
    assert HitsOf(es, rows)[i].chunk.chunkId == id;
  }

  /** Sorting what the loop accumulated gives the fused list. */
  lemma SortedIsFusion(legs: Rankings, k: int, score: map<Id, real>, t: Table<EventChunk>, seen: map<Id, nat>)
    requires k > 0 && Accumulated(legs, k, score, t, seen)
    ensures forall id :: id in t.keys ==> id in score && id in seen
    ensures var es := Sort(Entries(t.keys, score, seen), EntryLeq);
            (forall e :: e in es ==> e.id in t.rows) && IsFusion(legs, k, HitsOf(es, t.rows))
  {
    AccumulatedRanks(legs, k, score, t, seen);
    RankingIsFusion(legs, k, t, Sort(Entries(t.keys, score, seen), EntryLeq));
  }

  lemma AccumulatedRanks(legs: Rankings, k: int, score: map<Id, real>, t: Table<EventChunk>, seen: map<Id, nat>)
    requires k > 0 && Accumulated(legs, k, score, t, seen)
    ensures forall id :: id in t.keys ==> id in score && id in seen
    ensures var es := Sort(Entries(t.keys, score, seen), EntryLeq);
            (forall e :: e in es ==> e.id in t.rows) && Ranking(legs, k, t, es) && ByAppearance(Concat(legs), t)
  {
    FirstSeenIs(Concat(legs));
    SortedEntries(t.keys, score, seen);
  }

  lemma EntryIsHit(legs: Rankings, k: int, t: Table<EventChunk>, e: Entry)
    requires k > 0 && ByAppearance(Concat(legs), t) && GoodEntry(legs, k, t, e)
    ensures t.rows[e.id].chunkId == e.id && IsHit(legs, k, FusedHit(t.rows[e.id], e.score))
  {
    FirstPlaceIs(Concat(legs), e.id);
  }

  lemma EntryBetter(legs: Rankings, k: int, t: Table<EventChunk>, a: Entry, b: Entry)
    requires k > 0 && ByAppearance(Concat(legs), t) && EntryLeq(a, b) && a != b
    requires GoodEntry(legs, k, t, a) && GoodEntry(legs, k, t, b)
    ensures Better(legs, k, a.id, b.id)
  {
    if a.score == b.score {
      assert a.seen < b.seen;
      assert PlaceIn(Concat(legs))(a.id) < PlaceIn(Concat(legs))(b.id);
    }
  }

  function ScoresFor(keys: seq<Id>, legs: Rankings, k: int): map<Id, real>
    requires k > 0
  {
    map id | id in keys :: Score(legs, k, id)
  }

  lemma FusionExists(legs: Rankings, k: int)
    requires k > 0
    ensures exists hits :: IsFusion(legs, k, hits)
  {
    var t := FirstSeen(Concat(legs));
    var seen := map id | id in t.keys :: Place(t.keys, id);
    SortedIsFusion(legs, k, ScoresFor(t.keys, legs, k), t, seen);
  }

  /** The fused list. */
  ghost function Fused(legs: Rankings, k: int): seq<FusedHit>
    requires k > 0
  {
    FusionExists(legs, k);
    var hits :| IsFusion(legs, k, hits);
    hits
  }

  ghost function Fuse(legs: Rankings, topK: int, k: int): Result<seq<FusedHit>, StoreError> {
    if topK <= 0 then Ok([]) else if k <= 0 then Raised(ValueError) else Ok(Take(Fused(legs, k), topK))
  }

  method ReciprocalRankFusion(legs: Rankings, topK: int, k: int) returns (r: Result<seq<FusedHit>, StoreError>)
    ensures r == Fuse(legs, topK, k)
  {
    if topK <= 0 {
      return Ok([]);
    }
    if k <= 0 {
      return Raised(ValueError);
    }
    var fusedScore: map<Id, real> := map[];
    var chunksById: Table<EventChunk> := Empty();
    var firstSeen: map<Id, nat> := map[];
    for m := 0 to |legs|
      invariant Accumulated(legs[..m], k, fusedScore, chunksById, firstSeen)
    {
      fusedScore, chunksById, firstSeen := ReadLeg(legs[..m], legs[m], k, fusedScore, chunksById, firstSeen);
      assert legs[..m] + [legs[m]] == legs[..m + 1];
    }
    assert legs[..|legs|] == legs;
    SortedIsFusion(legs, k, fusedScore, chunksById, firstSeen);
    var ordered := Sort(Entries(chunksById.keys, fusedScore, firstSeen), EntryLeq);
    CutIsCut(legs, k, ordered, chunksById.rows, topK);
    return Ok(HitsOf(Take(ordered, topK), chunksById.rows));
  }

  /** The inner loop: one ranking read into the three dictionaries. */
  method ReadLeg(
    ghost legs: Rankings, leg: seq<EventChunk>, k: int, score: map<Id, real>, chunks: Table<EventChunk>, seen: map<Id, nat>)
    returns (fusedScore: map<Id, real>, chunksById: Table<EventChunk>, firstSeen: map<Id, nat>)
    requires k > 0 && Accumulated(legs, k, score, chunks, seen)
    ensures Accumulated(legs + [leg], k, fusedScore, chunksById, firstSeen)
  {
    fusedScore, chunksById, firstSeen := score, chunks, seen;
    NoRankYet(legs, leg, k, fusedScore, chunksById, firstSeen);
    for n := 0 to |leg|
      invariant Accumulated(legs + [leg[..n]], k, fusedScore, chunksById, firstSeen)
    {
      fusedScore, chunksById, firstSeen := ReadChunk(legs, leg, n, k, fusedScore, chunksById, firstSeen);
    }
    LegRead(legs, leg, k, fusedScore, chunksById, firstSeen);
  }

  /** One turn of it. */
  method ReadChunk(
    ghost legs: Rankings, leg: seq<EventChunk>, n: nat, k: int, score: map<Id, real>, chunks: Table<EventChunk>, seen: map<Id, nat>)
    returns (fusedScore: map<Id, real>, chunksById: Table<EventChunk>, firstSeen: map<Id, nat>)
    requires k > 0 && n < |leg| && Accumulated(legs + [leg[..n]], k, score, chunks, seen)
    ensures Accumulated(legs + [leg[..n + 1]], k, fusedScore, chunksById, firstSeen)
  {
    var id := leg[n].chunkId;
    fusedScore := score[id := (if id in score then score[id] else 0.0) + LegShare(n + 1, k)];
    chunksById, firstSeen := chunks, seen;
    if id !in chunks.rows {
      chunksById := Put(chunks, id, leg[n]);
      firstSeen := seen[id := |seen|];
    }
    RankNext(legs, leg, n, k, score, chunks, seen, fusedScore, chunksById, firstSeen);
  }

  lemma LegRead(legs: Rankings, leg: seq<EventChunk>, k: int, score: map<Id, real>, t: Table<EventChunk>, seen: map<Id, nat>)
    requires k > 0 && Accumulated(legs + [leg[..|leg|]], k, score, t, seen)
    ensures Accumulated(legs + [leg], k, score, t, seen)
  {
    assert leg[..|leg|] == leg;
  }

  lemma CutIsCut(legs: Rankings, k: int, ordered: seq<Entry>, rows: map<Id, EventChunk>, topK: nat)
    requires k > 0 && (forall e :: e in ordered ==> e.id in rows) && IsFusion(legs, k, HitsOf(ordered, rows))
    ensures forall e :: e in Take(ordered, topK) ==> e.id in rows
    ensures HitsOf(Take(ordered, topK), rows) == Take(Fused(legs, k), topK)
  {
    FusionUnique(legs, k, Fused(legs, k), HitsOf(ordered, rows));
  }

  lemma NoRankYet(legs: Rankings, leg: seq<EventChunk>, k: int, score: map<Id, real>, t: Table<EventChunk>, seen: map<Id, nat>)
    requires k > 0 && Accumulated(legs, k, score, t, seen)
    ensures Accumulated(legs + [leg[..0]], k, score, t, seen)
  {
    assert (legs + [leg[..0]])[..|legs|] == legs;
    assert Concat(legs + [leg[..0]]) == Concat(legs);
    forall id ensures Score(legs + [leg[..0]], k, id) == Score(legs, k, id) {
    }
  }
}
