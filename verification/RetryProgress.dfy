/** Retry runs make progress: what leaves the failed set, what stays, and when it is empty. */
module RetryProgress {
  import opened Chains
  import opened CompletedRuns
  import opened Diary
  import opened GuardedPlans
  import opened Lifecycle
  import opened Models
  import opened Ordering
  import opened Plans
  import opened Reconciliation
  import opened RetryEffects
  import opened Settling
  import opened Sorting
  import opened Tables
  import opened Wrappers

  function FailedIn(chunks: Chunks, communityId: Id): set<Id> {
    set id | id in chunks && chunks[id].communityId == communityId && chunks[id].status == Failed
  }

  function FailedIds(d: Diary, communityId: Id): set<Id> {
    FailedIn(d.chunks.rows, communityId)
  }

  lemma FailedReadied(chunks: Chunks, ids: set<Id>, communityId: Id)
    ensures FailedIn(Readied(chunks, ids), communityId) == FailedIn(chunks, communityId) - ids
  {
  }

  lemma OthersApart(chunks: Chunks, a: Id, b: Id)
    requires a != b
    ensures FailedIn(chunks, a) !! FailedIn(chunks, b)
  {
  }

  /**
   * Whatever the provider answers, exactly the chunks of the groups that succeeded leave the failed set,
   * the other communities' failed sets stay, and no note or lifecycle state moves.
   */
  lemma RetryConserves(d: Diary, communityId: Id, limit: Option<nat>, env: RetryEnv)
    requires Consistent(d) && communityId != ""
    ensures var plan, e := RetryPlan(d, communityId, limit, env), Step(d, Retry(communityId, limit, env));
            && plan.result.Ok? && SucceededIds(plan.result.value) <= FailedIds(d, communityId)
            && FailedIds(e, communityId) == FailedIds(d, communityId) - SucceededIds(plan.result.value)
            && (forall other :: other != communityId ==> FailedIds(e, other) == FailedIds(d, other))
            && e.notes == d.notes && e.sources == d.sources && e.chunks.rows.Keys == d.chunks.rows.Keys
            && (forall id :: id in d.chunks.rows ==> e.chunks.rows[id].state == d.chunks.rows[id].state)
  {
    SucceededWereFailed(d, communityId, limit, env);
    RetryReadiesOnly(d, communityId, limit, env);
    var ids := SucceededIds(RetryPlan(d, communityId, limit, env).result.value);
    FailedReadied(d.chunks.rows, ids, communityId);
    forall other | other != communityId ensures FailedIn(Readied(d.chunks.rows, ids), other) == FailedIds(d, other) {
      FailedReadied(d.chunks.rows, ids, other);
      OthersApart(d.chunks.rows, communityId, other);
    }
  }

  lemma RetryReadiesOnly(d: Diary, communityId: Id, limit: Option<nat>, env: RetryEnv)
    requires Consistent(d) && communityId != ""
    ensures var plan, e := RetryPlan(d, communityId, limit, env), Step(d, Retry(communityId, limit, env));
            && plan.result.Ok? && e.notes == d.notes && e.sources == d.sources
            && e.chunks.rows == Readied(d.chunks.rows, SucceededIds(plan.result.value))
  {
    RetryOutcome(d, communityId, limit, env);
  }

  lemma SucceededWereFailed(d: Diary, communityId: Id, limit: Option<nat>, env: RetryEnv)
    requires Consistent(d) && communityId != ""
    ensures var r := RetryPlan(d, communityId, limit, env).result;
            r.Ok? && SucceededIds(r.value) <= FailedIds(d, communityId)
  {
    RetryOutcome(d, communityId, limit, env);
    var listed := FailedChunks(d, communityId, limit);
    FailedAreStored(d, communityId, limit);
    SucceededListed(Groups(listed), RetryPlan(d, communityId, limit, env).result.value);
    GroupIdsListed(listed);
  }

  /** The ids of all the groups' chunks. */
  function GroupIds(groups: seq<Group>): set<Id> {
    set g, c | g in groups && c in g.chunks :: c.chunkId
  }

  lemma GroupIdsListed(listed: seq<EventChunk>)
    ensures GroupIds(Groups(listed)) == IdSet(listed)
  {
    GroupsHold(listed);
    forall id | id in IdSet(listed) ensures id in GroupIds(Groups(listed)) {
      var c :| c in listed && c.chunkId == id;
      assert Held(Groups(listed), c);
    }
    forall id | id in GroupIds(Groups(listed)) ensures id in IdSet(listed) {
      var g, c :| g in Groups(listed) && c in g.chunks && c.chunkId == id;
      assert Held(Groups(listed), c);
    }
  }

  ghost predicate Names(groups: seq<Group>, outcomes: seq<GroupOutcome>) {
    |outcomes| == |groups| && forall i :: 0 <= i < |groups| ==> outcomes[i].chunkIds == ChunkIds(groups[i].chunks)
  }

  lemma SucceededListed(groups: seq<Group>, outcomes: seq<GroupOutcome>)
    requires Names(groups, outcomes)
    ensures SucceededIds(outcomes) <= GroupIds(groups)
  {
    forall id | id in SucceededIds(outcomes) ensures id in GroupIds(groups) {
      var o :| o in outcomes && o.succeeded && id in o.chunkIds;
      var i :| 0 <= i < |outcomes| && outcomes[i] == o;
      var j :| 0 <= j < |o.chunkIds| && o.chunkIds[j] == id;
      assert groups[i].chunks[j] in groups[i].chunks && groups[i] in groups;
    }
  }

  lemma AllSucceeded(groups: seq<Group>, outcomes: seq<GroupOutcome>)
    requires Names(groups, outcomes) && forall i :: 0 <= i < |outcomes| ==> outcomes[i].succeeded
    ensures SucceededIds(outcomes) == GroupIds(groups)
  {
    SucceededListed(groups, outcomes);
    forall id | id in GroupIds(groups) ensures id in SucceededIds(outcomes) {
      var g, c :| g in groups && c in g.chunks && c.chunkId == id;
      var i :| 0 <= i < |groups| && groups[i] == g;
      var j :| 0 <= j < |g.chunks| && g.chunks[j] == c;
      assert outcomes[i].chunkIds[j] == id && id in outcomes[i].chunkIds && outcomes[i] in outcomes;
    }
  }

  /** A run takes the oldest failed chunks, in order, and its groups split exactly those by source. */
  lemma RunTakesOldest(d: Diary, communityId: Id, limit: nat)
    ensures var listed, all := FailedChunks(d, communityId, Some(limit)), FailedChunks(d, communityId, None);
            && Sorted(listed, ChunkOldest) && |listed| <= limit
            && (forall c, e :: c in listed && e in all[|listed|..] ==> ChunkOldest(c, e))
            && (|listed| < limit ==> listed == all)
            && GroupsAreFilters(listed, Groups(listed))
  {
    var found := Filter(Values(d.chunks), FailedTest(communityId));
    ChunkOldestOrder();
    SortSorts(found, ChunkOldest);
    GroupsBySource(FailedChunks(d, communityId, Some(limit)));
    TakeLeads(Sort(found, ChunkOldest), ChunkOldest, limit);
  }

  lemma TakeLeads<T>(s: seq<T>, leq: (T, T) -> bool, n: nat)
    requires Sorted(s, leq)
    ensures var t := Take(s, n);
            && Sorted(t, leq) && |t| <= n && (|t| < n ==> t == s)
            && (forall x, y :: x in t && y in s[|t|..] ==> leq(x, y))
  {
    var t := Take(s, n);
    forall x, y | x in t && y in s[|t|..] ensures leq(x, y) {
      var i :| 0 <= i < |t| && t[i] == x;
      var j :| 0 <= j < |s[|t|..]| && s[|t|..][j] == y;
      assert s[i] == x && s[|t| + j] == y;
    }
  }

  /** The listing depends on the stored rows alone, not on the order they were inserted in. */
  lemma ListingIsDetermined(d: Diary, e: Diary, communityId: Id, limit: Option<nat>)
    requires Consistent(d) && Consistent(e) && d.chunks.rows == e.chunks.rows
    ensures FailedChunks(d, communityId, limit) == FailedChunks(e, communityId, limit)
  {
    var a, b := Filter(Values(d.chunks), FailedTest(communityId)), Filter(Values(e.chunks), FailedTest(communityId));
    FailedFound(d, communityId);
    FailedFound(e, communityId);
    SameMembers(a, b);
    ChunkOldestOrder();
    SortSorts(a, ChunkOldest);
    SortSorts(b, ChunkOldest);
    SortPermutes(a, ChunkOldest);
    SortPermutes(b, ChunkOldest);
    forall x, y | x in Sort(a, ChunkOldest) && y in Sort(a, ChunkOldest) && ChunkOldest(x, y) && ChunkOldest(y, x)
      ensures x == y
    {
      SortIn(a, ChunkOldest, x);
      SortIn(a, ChunkOldest, y);
      StringLeqAntisymmetric(x.chunkId, y.chunkId);
    }
    SortedUnique(Sort(a, ChunkOldest), Sort(b, ChunkOldest), ChunkOldest);
  }

  lemma FailedFound(d: Diary, communityId: Id)
    requires Consistent(d)
    ensures var found := Filter(Values(d.chunks), FailedTest(communityId));
            && Distinct(found)
            && (forall c :: c in found <==> c.chunkId in d.chunks.rows && d.chunks.rows[c.chunkId] == c && FailedTest(communityId)(c))
  {
    StoredOnce(d);
    FilterDistinct(Values(d.chunks), FailedTest(communityId));
    forall c: EventChunk
      ensures c in Filter(Values(d.chunks), FailedTest(communityId)) <==> c in Values(d.chunks) && FailedTest(communityId)(c)
    {
      FilterIn(Values(d.chunks), FailedTest(communityId), c);
    }
  }

  lemma SameMembers<T>(a: seq<T>, b: seq<T>)
    requires Distinct(a) && Distinct(b) && forall x :: x in a <==> x in b
    ensures multiset(a) == multiset(b)
  {
    DistinctMultiset(a);
    DistinctMultiset(b);
    forall x ensures multiset(a)[x] == multiset(b)[x] {
      assert x in multiset(a) <==> x in a;
      assert x in multiset(b) <==> x in b;
    }
  }

  // ---- How far a run gets ----

  lemma {:induction false} IdSetSize(chunks: seq<EventChunk>)
    requires NoRepeat(chunks)
    ensures |IdSet(chunks)| == |chunks|
  {
    if chunks != [] {
      IdSetCons(chunks);
      IdSetSize(chunks[1..]);
      assert chunks[0].chunkId !in IdSet(chunks[1..]);
    }
  }

  lemma FailedListedAll(d: Diary, communityId: Id)
    requires Consistent(d)
    ensures IdSet(FailedChunks(d, communityId, None)) == FailedIds(d, communityId)
  {
    FailedAreStored(d, communityId, None);
    forall id | id in FailedIds(d, communityId) ensures id in IdSet(FailedChunks(d, communityId, None)) {
      FailedListed(d, communityId, id);
    }
  }

  lemma ListedCount(d: Diary, communityId: Id, limit: nat)
    requires Consistent(d)
    ensures var n, ids := |FailedIds(d, communityId)|, IdSet(FailedChunks(d, communityId, Some(limit)));
            |ids| == (if limit < n then limit else n) && ids <= FailedIds(d, communityId)
  {
    FailedListedAll(d, communityId);
    ListedOnce(d, communityId, None);
    ListedOnce(d, communityId, Some(limit));
    IdSetSize(FailedChunks(d, communityId, None));
    IdSetSize(FailedChunks(d, communityId, Some(limit)));
    FailedAreStored(d, communityId, Some(limit));
  }

  /** The provider answered every group with one vector a chunk. */
  ghost predicate Answered(d: Diary, communityId: Id, limit: nat, env: RetryEnv) {
    var groups := Groups(FailedChunks(d, communityId, Some(limit)));
    forall i :: 0 <= i < |groups| ==>
      env.groups(i).embed.Vectors? && |env.groups(i).embed.vectors| == |groups[i].chunks|
  }

  lemma SizeOfDifference<T>(a: set<T>, b: set<T>)
    requires b <= a
    ensures |a - b| == |a| - |b|
  {
  }

  /** In an answered run every listed chunk is embedded. */
  lemma AnsweredSucceeds(d: Diary, communityId: Id, limit: nat, env: RetryEnv)
    requires Consistent(d) && RecordsAgree(d.chunks.rows, d.embeddings) && communityId != ""
    requires Answered(d, communityId, limit, env)
    ensures var r := RetryPlan(d, communityId, Some(limit), env).result;
            r.Ok? && SucceededIds(r.value) == IdSet(FailedChunks(d, communityId, Some(limit)))
  {
    var listed := FailedChunks(d, communityId, Some(limit));
    FailedRetriable(d, communityId, Some(limit), env);
    RetryOutcome(d, communityId, Some(limit), env);
    AllSucceeded(Groups(listed), RetryPlan(d, communityId, Some(limit), env).result.value);
    GroupIdsListed(listed);
  }

  function Left(n: nat, taken: int): int {
    if taken < n then n - taken else 0
  }

  /** An answered run embeds `limit` chunks, or all that are left. */
  lemma AnsweredRun(d: Diary, communityId: Id, limit: nat, env: RetryEnv)
    requires Consistent(d) && RecordsAgree(d.chunks.rows, d.embeddings) && communityId != ""
    requires Answered(d, communityId, limit, env)
    ensures var n := |FailedIds(d, communityId)|;
            |FailedIds(Step(d, Retry(communityId, Some(limit), env)), communityId)| == Left(n, limit)
  {
    AnsweredSucceeds(d, communityId, limit, env);
    RetryConserves(d, communityId, Some(limit), env);
    ListedCount(d, communityId, limit);
    SizeOfDifference(FailedIds(d, communityId), IdSet(FailedChunks(d, communityId, Some(limit))));
  }

  function RetryRuns(d: Diary, communityId: Id, limit: nat, envs: seq<RetryEnv>): Diary {
    if envs == [] then d
    else Step(RetryRuns(d, communityId, limit, envs[..|envs| - 1]), Retry(communityId, Some(limit), envs[|envs| - 1]))
  }

  /** Every run draws fresh ids and every provider call in it is answered. */
  ghost predicate AllAnswered(d: Diary, communityId: Id, limit: nat, envs: seq<RetryEnv>) {
    envs == [] ||
    (AllAnswered(d, communityId, limit, envs[..|envs| - 1])
     && AnsweredNext(RetryRuns(d, communityId, limit, envs[..|envs| - 1]), communityId, limit, envs[|envs| - 1]))
  }

  ghost predicate AnsweredNext(d: Diary, communityId: Id, limit: nat, env: RetryEnv) {
    FreshLetters(d, env) && Answered(d, communityId, limit, env)
  }

  lemma LeftTwice(n: nat, k: nat, limit: nat)
    ensures Left(Left(n, k * limit), limit) == Left(n, (k + 1) * limit)
  {
    var taken := k * limit;
    assert (k + 1) * limit == taken + limit && taken >= 0;
  }

  /** Sound, settled and with this many failed chunks. */
  ghost predicate Down(d: Diary, communityId: Id, failed: int) {
    Sound(d) && Settled(d) && |FailedIds(d, communityId)| == failed
  }

  lemma {:induction false} RunsLeave(d: Diary, communityId: Id, limit: nat, envs: seq<RetryEnv>)
    requires Sound(d) && Settled(d) && communityId != "" && AllAnswered(d, communityId, limit, envs)
    ensures Down(RetryRuns(d, communityId, limit, envs), communityId, Left(|FailedIds(d, communityId)|, |envs| * limit))
  {
    if envs != [] {
      var before := envs[..|envs| - 1];
      RunsLeave(d, communityId, limit, before);
      NextDown(RetryRuns(d, communityId, limit, before), communityId, limit, envs[|envs| - 1],
               |FailedIds(d, communityId)|, |before|);
    }
  }

  lemma NextDown(d: Diary, communityId: Id, limit: nat, env: RetryEnv, n: nat, k: nat)
    requires Down(d, communityId, Left(n, k * limit)) && communityId != "" && AnsweredNext(d, communityId, limit, env)
    ensures Down(Step(d, Retry(communityId, Some(limit), env)), communityId, Left(n, (k + 1) * limit))
  {
    OneRetry(d, communityId, limit, env);
    LeftTwice(n, k, limit);
  }

  /** After `k` answered runs, `k * limit` chunks fewer are failed, down to none: ceil(failed / limit) runs empty the set. */
  lemma RetriesEmptyTheSet(d: Diary, communityId: Id, limit: nat, envs: seq<RetryEnv>)
    requires Sound(d) && Settled(d) && communityId != "" && AllAnswered(d, communityId, limit, envs)
    ensures var n, e := |FailedIds(d, communityId)|, RetryRuns(d, communityId, limit, envs);
            |FailedIds(e, communityId)| == Left(n, |envs| * limit)
  {
    RunsLeave(d, communityId, limit, envs);
  }

  lemma OneRetry(d: Diary, communityId: Id, limit: nat, env: RetryEnv)
    requires Sound(d) && Settled(d) && communityId != "" && FreshLetters(d, env) && Answered(d, communityId, limit, env)
    ensures var e := Step(d, Retry(communityId, Some(limit), env));
            && Sound(e) && Settled(e)
            && |FailedIds(e, communityId)| == Left(|FailedIds(d, communityId)|, limit)
  {
    OpGuarded(d, Retry(communityId, Some(limit), env));
    GuardedAll(d, Writes(d, Retry(communityId, Some(limit), env)));
    RetrySettled(d, communityId, Some(limit), env);
    AnsweredRun(d, communityId, limit, env);
  }

  // ---- What a crash inside a retry strands ----

  /**
   * A failed chunk that already has a record under the client's model, as a retry cut between the two
   * writes leaves it, fails its group in every later run with that model.
   */
  lemma RecordedNeverSucceeds(d: Diary, communityId: Id, limit: Option<nat>, env: RetryEnv, i: nat, c: EventChunk)
    requires Consistent(d) && communityId != ""
    requires var groups := Groups(FailedChunks(d, communityId, limit)); i < |groups| && c in groups[i].chunks
    requires EmbeddingKey(c.chunkId, env.client.modelName) in d.embeddings
    ensures var r := RetryPlan(d, communityId, limit, env).result;
            r.Ok? && i < |r.value| && !r.value[i].succeeded
  {
    RetryOutcome(d, communityId, limit, env);
  }

  /** Stopping an answered retry after its first write leaves just such a chunk. */
  lemma CutRetryStrands(d: Diary, communityId: Id, limit: Option<nat>, env: RetryEnv) returns (id: Id)
    requires Sound(d) && Settled(d) && FreshLetters(d, env) && communityId != ""
    requires var groups := Groups(FailedChunks(d, communityId, limit));
             && groups != [] && groups[0].chunks != []
             && env.groups(0).embed.Vectors? && |env.groups(0).embed.vectors| == |groups[0].chunks|
    ensures var e := CutStep(d, Retry(communityId, limit, env), 1);
            id in FailedIds(e, communityId) && EmbeddingKey(id, env.client.modelName) in e.embeddings
  {
    id := FirstUnrecorded(d, communityId, limit, env.client.modelName);
    CutLeaves(d, communityId, limit, env, id);
  }

  lemma CutLeaves(d: Diary, communityId: Id, limit: Option<nat>, env: RetryEnv, id: Id)
    requires var groups := Groups(FailedChunks(d, communityId, limit));
             && groups != [] && groups[0].chunks != [] && id == groups[0].chunks[0].chunkId
             && env.groups(0).embed.Vectors? && |env.groups(0).embed.vectors| == |groups[0].chunks|
    requires communityId != "" && id in FailedIds(d, communityId) && EmbeddingKey(id, env.client.modelName) !in d.embeddings
    ensures var e := CutStep(d, Retry(communityId, limit, env), 1);
            id in FailedIds(e, communityId) && EmbeddingKey(id, env.client.modelName) in e.embeddings
  {
    var groups := Groups(FailedChunks(d, communityId, limit));
    FirstRetryWrite(d, communityId, groups, env, |groups|);
    var ws := RetryUpTo(d, communityId, groups, env, |groups|).writes;
    RetryCutAtOne(d, communityId, limit, env);
    RecordOnly(d, ws[0], communityId);
  }

  lemma RetryCutAtOne(d: Diary, communityId: Id, limit: Option<nat>, env: RetryEnv)
    requires communityId != ""
    ensures var groups := Groups(FailedChunks(d, communityId, limit));
            var ws := RetryUpTo(d, communityId, groups, env, |groups|).writes;
            ws != [] ==> CutStep(d, Retry(communityId, limit, env), 1) == Apply(d, ws[0])
  {
    var groups := Groups(FailedChunks(d, communityId, limit));
    var ws := RetryUpTo(d, communityId, groups, env, |groups|).writes;
    assert Writes(d, Retry(communityId, limit, env)) == ws;
    if ws != [] {
      CutAtOne(d, ws);
    }
  }

  lemma RecordOnly(d: Diary, w: Write, communityId: Id)
    requires w.SaveRecord?
    ensures FailedIds(Apply(d, w), communityId) == FailedIds(d, communityId) && w.record.Key() in Apply(d, w).embeddings
  {
  }

  lemma FirstUnrecorded(d: Diary, communityId: Id, limit: Option<nat>, modelName: string) returns (id: Id)
    requires Sound(d) && Settled(d)
    requires var groups := Groups(FailedChunks(d, communityId, limit)); groups != [] && groups[0].chunks != []
    ensures id == Groups(FailedChunks(d, communityId, limit))[0].chunks[0].chunkId
    ensures id in FailedIds(d, communityId) && EmbeddingKey(id, modelName) !in d.embeddings
  {
    var groups := Groups(FailedChunks(d, communityId, limit));
    var c := groups[0].chunks[0];
    id := c.chunkId;
    assert c in groups[0].chunks && groups[0] in groups;
    ListedFailed(d, communityId, limit, c);
    FailedUnrecorded(d, communityId, limit);
    NoKeys(d.embeddings, groups, 0, modelName);
  }

  lemma CutAtOne(d: Diary, ws: seq<Write>)
    requires ws != []
    ensures ApplyAll(d, Take(ws, 1)) == Apply(d, ws[0])
  {
    ApplyOne(d, ws[0]);
    assert Take(ws, 1) == [ws[0]];
  }

  lemma ListedFailed(d: Diary, communityId: Id, limit: Option<nat>, c: EventChunk)
    requires Consistent(d) && Held(Groups(FailedChunks(d, communityId, limit)), c)
    ensures c.chunkId in FailedIds(d, communityId)
  {
    GroupsHold(FailedChunks(d, communityId, limit));
    FailedAreStored(d, communityId, limit);
  }

  lemma {:induction false} FirstRetryWrite(d: Diary, communityId: Id, groups: seq<Group>, env: RetryEnv, n: nat)
    requires 0 < n <= |groups| && groups[0].chunks != []
    requires env.groups(0).embed.Vectors? && |env.groups(0).embed.vectors| == |groups[0].chunks|
    requires EmbeddingKey(groups[0].chunks[0].chunkId, env.client.modelName) !in d.embeddings
    ensures var ws := RetryUpTo(d, communityId, groups, env, n).writes;
            ws != [] && ws[0].SaveRecord?
            && ws[0].record.Key() == EmbeddingKey(groups[0].chunks[0].chunkId, env.client.modelName)
  {
    if n > 1 {
      FirstRetryWrite(d, communityId, groups, env, n - 1);
    } else {
      var ge := env.groups(0);
      var records := GroupRecords(groups[0], communityId, env.now, env.client, ge.embed.vectors, ge.recordIds);
      assert RetryUpTo(d, communityId, groups, env, 0).writes == [];
      assert SaveRecords(records[..SavableRecords(d, records)])[0] == SaveRecord(records[0]);
    }
  }
}
