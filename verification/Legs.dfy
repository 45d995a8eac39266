/** What every leg and every retrieval returns: stored chunks of the scope, none twice, within the limit. */
module Legs {
  import opened Answering
  import opened Candidates
  import opened Diary
  import opened Fusion
  import opened FusionBounds
  import opened Models
  import opened Plans
  import opened Sorting
  import opened Tables

  /** A stored chunk, live and in scope when it was retrieved. */
  predicate FromScope(c: EventChunk, d: Diary, scope: Scope) {
    c.chunkId in d.chunks.rows && d.chunks.rows[c.chunkId] == c && InScope(c, scope)
  }

  ghost predicate ContextFrom(chunks: seq<EventChunk>, d: Diary, scope: Scope) {
    forall c :: c in chunks ==> FromScope(c, d, scope)
  }

  ghost predicate SoundLeg(leg: seq<EventChunk>, d: Diary, scope: Scope, limit: int) {
    NoRepeat(leg) && ContextFrom(leg, d, scope) && (|leg| <= limit || leg == [])
  }

  /** Any leg that scores nothing out of scope. */
  lemma LegIsSound(d: Diary, scope: Scope, score: Score, limit: int)
    requires Consistent(d) && forall c :: score(c).Some? ==> InScope(c, scope)
    ensures SoundLeg(Leg(Values(d.chunks), score, limit), d, scope, limit)
  {
    if limit > 0 {
      StoredOnce(d);
      LegMembers(Values(d.chunks), score, limit);
      StoredApart(d, Leg(Values(d.chunks), score, limit));
    }
  }

  lemma DenseIsSound(d: Diary, scope: Scope, query: Vector, modelName: string, limit: int, distance: (Vector, Vector) -> real)
    requires Consistent(d)
    ensures SoundLeg(DenseCandidates(d, scope, query, modelName, limit, distance), d, scope, limit)
  {
    LegIsSound(d, scope, DenseScore(d.embeddings, scope, query, modelName, distance), limit);
  }

  lemma SparseIsSound(d: Diary, scope: Scope, queryText: string, limit: int, tokenize: string -> set<string>)
    requires Consistent(d)
    ensures SoundLeg(SparseCandidates(d, scope, queryText, limit, tokenize), d, scope, limit)
  {
    LegIsSound(d, scope, SparseScore(scope, tokenize(queryText), tokenize), limit);
  }

  /** What a retrieval found: two sound legs and the cut of their fusion. */
  ghost predicate SoundFind(found: RetrievedCandidates, d: Diary, scope: Scope, c: AskConfig)
    requires c.topK > 0
  {
    && SoundLeg(found.dense, d, scope, c.candidateK) && SoundLeg(found.sparse, d, scope, c.candidateK)
    && found.merged == Take(Fused([found.dense, found.sparse], DEFAULT_RRF_K), c.topK)
  }

  lemma RetrievedIsSound(v: SearchView, c: AskConfig, scope: Scope, queryText: string, env: AskEnv)
    requires Consistent(v.diary) && c.topK > 0
    ensures var r := Retrieved(v, c, scope, queryText, env); r.Ok? ==> SoundFind(r.value, v.diary, scope, c)
  {
    if Retrieved(v, c, scope, queryText, env).Ok? {
      DenseIsSound(v.diary, scope, env.embedding.value, c.embedModel, c.candidateK, v.distance);
      SparseIsSound(v.diary, scope, queryText, c.candidateK, v.tokenize);
    }
  }
}
