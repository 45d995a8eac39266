/** What a retry run does to the store: which chunks it takes, in which groups, and what becomes of them. */
module RetryEffects {
  import opened Diary
  import opened Lifecycle
  import opened Models
  import opened Plans
  import opened Reconciliation
  import opened Sorting
  import opened Tables
  import opened Wrappers

  // ---- The groups ----

  /** The sources of a list of chunks, each once, in order of first appearance. */
  function SourceOrder(chunks: seq<EventChunk>): seq<Id> {
    if chunks == [] then []
    else
      var before := SourceOrder(chunks[..|chunks| - 1]);
      var id := chunks[|chunks| - 1].sourceId;
      if id in before then before else before + [id]
  }

  function SourcesOf(groups: seq<Group>): (ids: seq<Id>)
    ensures |ids| == |groups|
    ensures forall i :: 0 <= i < |ids| ==> ids[i] == groups[i].sourceId
  {
    seq(|groups|, i requires 0 <= i < |groups| => groups[i].sourceId)
  }

  /** Each group is the listed chunks of its source, in listed order. */
  ghost predicate GroupsAreFilters(chunks: seq<EventChunk>, groups: seq<Group>) {
    && SourcesOf(groups) == SourceOrder(chunks)
    && (forall i :: 0 <= i < |groups| ==> groups[i].chunks == Filter(chunks, ChunkFromTest(groups[i].sourceId)))
  }

  /** The grouping loop splits the list by source and keeps both orders: nothing lost, doubled or moved. */
  lemma {:induction false} GroupsBySource(chunks: seq<EventChunk>)
    ensures GroupsAreFilters(chunks, Groups(chunks))
  {
    if chunks != [] {
      var n := |chunks| - 1;
      var before, c := chunks[..n], chunks[n];
      GroupsBySource(before);
      GroupsHold(before);
      var groups := Groups(before);
      assert chunks == before + [c];
      if c.sourceId in SourceOrder(before) {
        var i :| 0 <= i < |groups| && groups[i].sourceId == c.sourceId;
        GroupGrows(before, groups, c, i);
      } else {
        GroupStarts(before, groups, c);
      }
    }
  }

  lemma OrderNext(before: seq<EventChunk>, c: EventChunk)
    ensures SourceOrder(before + [c]) == if c.sourceId in SourceOrder(before) then SourceOrder(before) else SourceOrder(before) + [c.sourceId]
  {
    assert (before + [c])[..|before|] == before;
  }

  lemma GroupGrows(before: seq<EventChunk>, groups: seq<Group>, c: EventChunk, i: nat)
    requires GroupsAreFilters(before, groups) && i < |groups| && groups[i].sourceId == c.sourceId
    requires forall a, b :: 0 <= a < b < |groups| ==> groups[a].sourceId != groups[b].sourceId
    ensures GroupsAreFilters(before + [c], AddToGroup(groups, c))
  {
    OneMoreListed(before, c);
    OrderNext(before, c);
    AddOld(groups, c, i);
    assert SourcesOf(groups)[i] == c.sourceId;
    assert SourcesOf(AddToGroup(groups, c)) == SourcesOf(groups);
  }

  lemma GroupStarts(before: seq<EventChunk>, groups: seq<Group>, c: EventChunk)
    requires GroupsAreFilters(before, groups) && c.sourceId !in SourceOrder(before)
    ensures GroupsAreFilters(before + [c], AddToGroup(groups, c))
  {
    OneMoreListed(before, c);
    OrderNext(before, c);
    assert forall a :: 0 <= a < |groups| ==> SourcesOf(groups)[a] == groups[a].sourceId;
    AddNew(groups, c);
    SourceOrderHolds(before);
    FilterNone(before, ChunkFromTest(c.sourceId));
    assert SourcesOf(AddToGroup(groups, c)) == SourcesOf(groups) + [c.sourceId];
  }

  lemma OneMoreListed(before: seq<EventChunk>, c: EventChunk)
    ensures forall id :: Filter(before + [c], ChunkFromTest(id)) == Filter(before, ChunkFromTest(id)) + if c.sourceId == id then [c] else []
  {
    forall id ensures Filter(before + [c], ChunkFromTest(id)) == Filter(before, ChunkFromTest(id)) + if c.sourceId == id then [c] else [] {
      FilterConcat(before, [c], ChunkFromTest(id));
      assert Filter([c], ChunkFromTest(id)) == if c.sourceId == id then [c] else [];
    }
  }

  lemma {:induction false} SourceOrderHolds(chunks: seq<EventChunk>)
    ensures forall c :: c in chunks ==> c.sourceId in SourceOrder(chunks)
  {
    if chunks != [] {
      SourceOrderHolds(chunks[..|chunks| - 1]);
      assert chunks == chunks[..|chunks| - 1] + [chunks[|chunks| - 1]];
    }
  }

  lemma {:induction false} AddOld(groups: seq<Group>, c: EventChunk, i: nat)
    requires i < |groups| && groups[i].sourceId == c.sourceId
    requires forall a, b :: 0 <= a < b < |groups| ==> groups[a].sourceId != groups[b].sourceId
    ensures AddToGroup(groups, c) == groups[i := groups[i].(chunks := groups[i].chunks + [c])]
  {
    if i > 0 {
      AddOld(groups[1..], c, i - 1);
    }
  }

  lemma {:induction false} AddNew(groups: seq<Group>, c: EventChunk)
    requires forall a :: 0 <= a < |groups| ==> groups[a].sourceId != c.sourceId
    ensures AddToGroup(groups, c) == groups + [Group(c.sourceId, [c])]
  {
    if groups != [] {
      AddNew(groups[1..], c);
    }
  }

  // ---- One group ----

  function IdsOf(g: Group): set<Id> {
    IdSet(g.chunks)
  }

  /** The chunks in `ids` turned Ready, every other row and field as it was. */
  function Readied(chunks: Chunks, ids: set<Id>): Chunks {
    map id | id in chunks :: if id in ids then chunks[id].(status := Ready) else chunks[id]
  }

  /** Whether a group's retry will succeed: the provider answered for every chunk and no record stands in the way. */
  ghost predicate GroupSucceeds(d: Diary, g: Group, env: RetryEnv, ge: GroupEnv) {
    && ge.embed.Vectors? && |ge.embed.vectors| == |g.chunks|
    && (forall c :: c in g.chunks ==> EmbeddingKey(c.chunkId, env.client.modelName) !in d.embeddings)
  }

  lemma {:induction false} SavableAll(d: Diary, records: seq<EmbeddingRecord>)
    requires forall i, j :: 0 <= i < j < |records| ==> records[i].Key() != records[j].Key()
    ensures SavableRecords(d, records) == |records| <==> forall i :: 0 <= i < |records| ==> records[i].Key() !in d.embeddings
    decreases |records|
  {
    if records != [] {
      var e := Apply(d, SaveRecord(records[0]));
      SavableAll(e, records[1..]);
      assert forall i :: 0 < i < |records| ==> records[i] == records[1..][i - 1];
      assert forall i :: 0 < i < |records| ==> (records[i].Key() in e.embeddings <==> records[i].Key() in d.embeddings);
    }
  }

  lemma {:induction false} SaveRecordsEffect(d: Diary, records: seq<EmbeddingRecord>)
    ensures var e := ApplyAll(d, SaveRecords(records));
            && e == d.(embeddings := e.embeddings)
            && (forall k :: k in e.embeddings <==> k in d.embeddings || exists r :: r in records && r.Key() == k)
    decreases |records|
  {
    if records != [] {
      var e := Apply(d, SaveRecord(records[0]));
      SaveRecordsEffect(e, records[1..]);
      var f := ApplyAll(d, SaveRecords(records));
      assert SaveRecords(records)[1..] == SaveRecords(records[1..]);
      assert f == ApplyAll(e, SaveRecords(records[1..]));
      assert forall r :: r in records <==> r == records[0] || r in records[1..];
    }
  }

  lemma IdSetCons(chunks: seq<EventChunk>)
    requires chunks != []
    ensures IdSet(chunks) == {chunks[0].chunkId} + IdSet(chunks[1..])
  {
    assert chunks == [chunks[0]] + chunks[1..];
  }

  lemma ReadiedTwice(chunks: Chunks, a: set<Id>, b: set<Id>)
    ensures Readied(Readied(chunks, a), b) == Readied(chunks, a + b)
  {
  }

  lemma ReadiedOne(d: Diary, id: Id)
    requires id in d.chunks.rows
    ensures var e := Apply(d, SetChunkStatus(id, Ready));
            e == d.(chunks := e.chunks) && e.chunks.keys == d.chunks.keys && e.chunks.rows == Readied(d.chunks.rows, {id})
  {
  }

  lemma {:induction false} SetStatusesEffect(d: Diary, chunks: seq<EventChunk>)
    requires forall c :: c in chunks ==> c.chunkId in d.chunks.rows
    ensures var e := ApplyAll(d, SetStatuses(chunks, Ready));
            && e == d.(chunks := e.chunks) && e.chunks.keys == d.chunks.keys
            && e.chunks.rows == Readied(d.chunks.rows, IdSet(chunks))
    decreases |chunks|
  {
    if chunks != [] {
      var id := chunks[0].chunkId;
      assert chunks[0] in chunks;
      ReadiedOne(d, id);
      SetStatusesEffect(Apply(d, SetChunkStatus(id, Ready)), chunks[1..]);
      assert SetStatuses(chunks, Ready)[1..] == SetStatuses(chunks[1..], Ready);
      IdSetCons(chunks);
      ReadiedTwice(d.chunks.rows, {id}, IdSet(chunks[1..]));
    }
  }

  lemma RecordKeys(g: Group, communityId: Id, env: RetryEnv, ge: GroupEnv)
    requires ge.embed.Vectors? && |ge.embed.vectors| == |g.chunks| && NoRepeat(g.chunks)
    ensures var records := GroupRecords(g, communityId, env.now, env.client, ge.embed.vectors, ge.recordIds);
            && (forall i :: 0 <= i < |records| ==> records[i].Key() == EmbeddingKey(g.chunks[i].chunkId, env.client.modelName))
            && (forall i, j :: 0 <= i < j < |records| ==> records[i].Key() != records[j].Key())
  {
  }

  /** A group fares as the provider and its own chunks decide, and touches nothing but them. */
  lemma RetryGroupEffect(d: Diary, communityId: Id, g: Group, env: RetryEnv, ge: GroupEnv)
    requires NoRepeat(g.chunks) && forall c :: c in g.chunks ==> c.chunkId in d.chunks.rows
    ensures var plan := RetryGroup(d, communityId, g, env, ge);
            var e := ApplyAll(d, plan.writes);
            && plan.outcome.succeeded == GroupSucceeds(d, g, env, ge)
            && plan.outcome.sourceId == g.sourceId && plan.outcome.chunkIds == ChunkIds(g.chunks)
            && e.sources == d.sources && e.idempotency == d.idempotency && e.notes == d.notes
            && e.chunks.keys == d.chunks.keys
            && e.chunks.rows == (if plan.outcome.succeeded then Readied(d.chunks.rows, IdsOf(g)) else d.chunks.rows)
            && (forall k :: k in d.embeddings ==> k in e.embeddings)
            && (forall k :: k in e.embeddings ==> k in d.embeddings || (k.chunkId in IdsOf(g) && k.modelName == env.client.modelName))
            && (plan.outcome.succeeded ==> forall id :: id in IdsOf(g) ==> HasRecord(e.embeddings, id))
  {
    if ge.embed.Vectors? && |ge.embed.vectors| == |g.chunks| {
      RetryRecordsEffect(d, communityId, g, env, ge);
    } else {
      LetterEffect(d, LetterWrites(g, communityId, env, ge, if ge.embed.EmbedFailed? then ge.embed.errorClass else "ValueError"));
    }
  }

  lemma LetterEffect(d: Diary, ws: seq<Write>)
    requires |ws| <= 1 && forall w :: w in ws ==> w.SaveDeadLetter?
    ensures var e := ApplyAll(d, ws); e == d.(deadLetters := e.deadLetters)
  {
    if ws != [] {
      assert ws[0] in ws && ws == [ws[0]];
      ApplyOne(d, ws[0]);
    }
  }

  lemma RetryRecordsEffect(d: Diary, communityId: Id, g: Group, env: RetryEnv, ge: GroupEnv)
    requires NoRepeat(g.chunks) && forall c :: c in g.chunks ==> c.chunkId in d.chunks.rows
    requires ge.embed.Vectors? && |ge.embed.vectors| == |g.chunks|
    ensures var plan := RetryGroup(d, communityId, g, env, ge);
            var e := ApplyAll(d, plan.writes);
            && plan.outcome.succeeded == GroupSucceeds(d, g, env, ge)
            && plan.outcome.sourceId == g.sourceId && plan.outcome.chunkIds == ChunkIds(g.chunks)
            && e.sources == d.sources && e.idempotency == d.idempotency && e.notes == d.notes
            && e.chunks.keys == d.chunks.keys
            && e.chunks.rows == (if plan.outcome.succeeded then Readied(d.chunks.rows, IdsOf(g)) else d.chunks.rows)
            && (forall k :: k in d.embeddings ==> k in e.embeddings)
            && (forall k :: k in e.embeddings ==> k in d.embeddings || (k.chunkId in IdsOf(g) && k.modelName == env.client.modelName))
            && (plan.outcome.succeeded ==> forall id :: id in IdsOf(g) ==> HasRecord(e.embeddings, id))
  {
    var records := GroupRecords(g, communityId, env.now, env.client, ge.embed.vectors, ge.recordIds);
    var n := SavableRecords(d, records);
    RecordKeys(g, communityId, env, ge);
    SavableAll(d, records);
    SucceedsIff(d, g, env, ge, records);
    if n < |records| {
      var letters := LetterWrites(g, communityId, env, ge, "ValueError");
      SaveRecordsEffect(d, records[..n]);
      ApplyConcat(d, SaveRecords(records[..n]), letters);
      LetterEffect(ApplyAll(d, SaveRecords(records[..n])), letters);
      KeysFromGroup(g, env, records, records[..n]);
    } else {
      SaveRecordsEffect(d, records);
      var e := ApplyAll(d, SaveRecords(records));
      ApplyConcat(d, SaveRecords(records), SetStatuses(g.chunks, Ready));
      SetStatusesEffect(e, g.chunks);
      KeysFromGroup(g, env, records, records);
      RecordsForAll(g, env, records, e.embeddings);
    }
  }

  lemma SucceedsIff(d: Diary, g: Group, env: RetryEnv, ge: GroupEnv, records: seq<EmbeddingRecord>)
    requires ge.embed.Vectors? && |ge.embed.vectors| == |g.chunks| == |records|
    requires forall i :: 0 <= i < |records| ==> records[i].Key() == EmbeddingKey(g.chunks[i].chunkId, env.client.modelName)
    ensures GroupSucceeds(d, g, env, ge) <==> forall i :: 0 <= i < |records| ==> records[i].Key() !in d.embeddings
  {
    if forall i :: 0 <= i < |records| ==> records[i].Key() !in d.embeddings {
      forall c | c in g.chunks ensures EmbeddingKey(c.chunkId, env.client.modelName) !in d.embeddings {
        var i :| 0 <= i < |g.chunks| && g.chunks[i] == c;
        assert records[i].Key() !in d.embeddings;
      }
    }
    if GroupSucceeds(d, g, env, ge) {
      forall i | 0 <= i < |records| ensures records[i].Key() !in d.embeddings {
        assert g.chunks[i] in g.chunks;
      }
    }
  }

  lemma KeysFromGroup(g: Group, env: RetryEnv, records: seq<EmbeddingRecord>, some: seq<EmbeddingRecord>)
    requires |records| == |g.chunks|
    requires forall i :: 0 <= i < |records| ==> records[i].Key() == EmbeddingKey(g.chunks[i].chunkId, env.client.modelName)
    requires forall r :: r in some ==> r in records
    ensures forall r :: r in some ==> r.chunkId in IdsOf(g) && r.modelName == env.client.modelName
  {
    forall r | r in some ensures r.chunkId in IdsOf(g) && r.modelName == env.client.modelName {
      var i :| 0 <= i < |records| && records[i] == r;
      assert g.chunks[i] in g.chunks && records[i].Key() == EmbeddingKey(r.chunkId, r.modelName);
    }
  }

  lemma RecordsForAll(g: Group, env: RetryEnv, records: seq<EmbeddingRecord>, after: Records)
    requires |records| == |g.chunks|
    requires forall i :: 0 <= i < |records| ==> records[i].Key() == EmbeddingKey(g.chunks[i].chunkId, env.client.modelName)
    requires forall r :: r in records ==> r.Key() in after
    ensures forall id :: id in IdsOf(g) ==> HasRecord(after, id)
  {
    forall id | id in IdsOf(g) ensures HasRecord(after, id) {
      var c :| c in g.chunks && c.chunkId == id;
      var i :| 0 <= i < |g.chunks| && g.chunks[i] == c;
      assert records[i].Key() in after;
    }
  }

  // ---- The whole run ----

  function SucceededIds(outcomes: seq<GroupOutcome>): set<Id> {
    set o, id | o in outcomes && o.succeeded && id in o.chunkIds :: id
  }

  /** Stored chunks, no chunk in two places. */
  ghost predicate Disjoint(groups: seq<Group>) {
    && (forall i :: 0 <= i < |groups| ==> NoRepeat(groups[i].chunks))
    && (forall i, j :: 0 <= i < j < |groups| ==> IdsOf(groups[i]) !! IdsOf(groups[j]))
  }

  ghost predicate AllStored(chunks: Chunks, groups: seq<Group>) {
    forall i, c :: 0 <= i < |groups| && c in groups[i].chunks ==> c.chunkId in chunks
  }

  /** Records appear only for chunks of the groups handled so far. */
  ghost predicate RecordsGrow(before: Records, after: Records, groups: seq<Group>, n: nat)
    requires n <= |groups|
  {
    && (forall k :: k in before ==> k in after)
    && (forall k :: k in after ==> k in before || exists i :: 0 <= i < n && k.chunkId in IdsOf(groups[i]))
  }

  ghost predicate Judged(d: Diary, groups: seq<Group>, env: RetryEnv, outcomes: seq<GroupOutcome>)
    requires |outcomes| <= |groups|
  {
    forall i :: 0 <= i < |outcomes| ==>
      && outcomes[i].sourceId == groups[i].sourceId && outcomes[i].chunkIds == ChunkIds(groups[i].chunks)
      && (outcomes[i].succeeded <==> GroupSucceeds(d, groups[i], env, env.groups(i)))
  }

  /** The state after `n` groups. */
  ghost predicate Retried(d: Diary, groups: seq<Group>, env: RetryEnv, n: nat, outcomes: seq<GroupOutcome>, e: Diary)
    requires n == |outcomes| <= |groups|
  {
    && e.sources == d.sources && e.idempotency == d.idempotency && e.notes == d.notes && e.chunks.keys == d.chunks.keys
    && e.chunks.rows == Readied(d.chunks.rows, SucceededIds(outcomes))
    && RecordsGrow(d.embeddings, e.embeddings, groups, n)
    && (forall id :: id in SucceededIds(outcomes) ==> HasRecord(e.embeddings, id))
    && Judged(d, groups, env, outcomes)
  }

  lemma SucceededMore(outcomes: seq<GroupOutcome>, o: GroupOutcome)
    ensures SucceededIds(outcomes + [o]) == SucceededIds(outcomes) + if o.succeeded then set id | id in o.chunkIds else {}
  {
    assert forall x :: x in outcomes + [o] <==> x in outcomes || x == o;
  }

  lemma IdsOfOutcome(g: Group)
    ensures (set id | id in ChunkIds(g.chunks)) == IdsOf(g)
  {
    forall id | id in IdsOf(g) ensures id in ChunkIds(g.chunks) {
      var c :| c in g.chunks && c.chunkId == id;
      var i :| 0 <= i < |g.chunks| && g.chunks[i] == c;
      assert ChunkIds(g.chunks)[i] == id;
    }
    forall id | id in ChunkIds(g.chunks) ensures id in IdsOf(g) {
      var i :| 0 <= i < |g.chunks| && ChunkIds(g.chunks)[i] == id;
      assert g.chunks[i] in g.chunks;
    }
  }

  /** Earlier groups leave a later group's chances as they were. */
  lemma StillSucceeds(d: Diary, e: Diary, groups: seq<Group>, env: RetryEnv, n: nat)
    requires n < |groups| && Disjoint(groups) && RecordsGrow(d.embeddings, e.embeddings, groups, n)
    ensures GroupSucceeds(e, groups[n], env, env.groups(n)) <==> GroupSucceeds(d, groups[n], env, env.groups(n))
  {
    forall c | c in groups[n].chunks
      ensures EmbeddingKey(c.chunkId, env.client.modelName) in e.embeddings <==> EmbeddingKey(c.chunkId, env.client.modelName) in d.embeddings
    {
      assert c.chunkId in IdsOf(groups[n]);
    }
  }

  lemma GrowFurther(d: Diary, e: Diary, f: Diary, groups: seq<Group>, n: nat)
    requires n < |groups| && RecordsGrow(d.embeddings, e.embeddings, groups, n)
    requires forall k :: k in e.embeddings ==> k in f.embeddings
    requires forall k :: k in f.embeddings ==> k in e.embeddings || k.chunkId in IdsOf(groups[n])
    ensures RecordsGrow(d.embeddings, f.embeddings, groups, n + 1)
  {
  }

  lemma StillRecorded(before: Records, after: Records)
    requires forall k :: k in before ==> k in after
    ensures forall id :: HasRecord(before, id) ==> HasRecord(after, id)
  {
    forall id | HasRecord(before, id) ensures HasRecord(after, id) {
      var k :| k in before && k.chunkId == id;
      assert k in after;
    }
  }

  lemma RetriedNext(
    d: Diary, groups: seq<Group>, env: RetryEnv, n: nat, outcomes: seq<GroupOutcome>, e: Diary, o: GroupOutcome, f: Diary)
    requires n == |outcomes| < |groups| && Disjoint(groups) && Retried(d, groups, env, n, outcomes, e)
    requires o.sourceId == groups[n].sourceId && o.chunkIds == ChunkIds(groups[n].chunks)
    requires o.succeeded <==> GroupSucceeds(e, groups[n], env, env.groups(n))
    requires f.sources == e.sources && f.idempotency == e.idempotency && f.notes == e.notes && f.chunks.keys == e.chunks.keys
    requires f.chunks.rows == if o.succeeded then Readied(e.chunks.rows, IdsOf(groups[n])) else e.chunks.rows
    requires forall k :: k in e.embeddings ==> k in f.embeddings
    requires forall k :: k in f.embeddings ==> k in e.embeddings || k.chunkId in IdsOf(groups[n])
    requires o.succeeded ==> forall id :: id in IdsOf(groups[n]) ==> HasRecord(f.embeddings, id)
    ensures Retried(d, groups, env, n + 1, outcomes + [o], f)
  {
    SucceededMore(outcomes, o);
    IdsOfOutcome(groups[n]);
    StillSucceeds(d, e, groups, env, n);
    GrowFurther(d, e, f, groups, n);
    StillRecorded(e.embeddings, f.embeddings);
    ReadiedTwice(d.chunks.rows, SucceededIds(outcomes), IdsOf(groups[n]));
  }

  lemma {:induction false} RetryUpToEffect(d: Diary, communityId: Id, groups: seq<Group>, env: RetryEnv, n: nat)
    requires n <= |groups| && Disjoint(groups) && AllStored(d.chunks.rows, groups)
    ensures var r := RetryUpTo(d, communityId, groups, env, n);
            Retried(d, groups, env, n, r.outcomes, ApplyAll(d, r.writes))
  {
    if n == 0 {
      assert SucceededIds([]) == {};
    } else {
      RetryUpToEffect(d, communityId, groups, env, n - 1);
      var r := RetryUpTo(d, communityId, groups, env, n - 1);
      var e := ApplyAll(d, r.writes);
      var g := groups[n - 1];
      assert forall c :: c in g.chunks ==> c.chunkId in e.chunks.rows;
      RetryGroupEffect(e, communityId, g, env, env.groups(n - 1));
      var p := RetryGroup(e, communityId, g, env, env.groups(n - 1));
      ApplyConcat(d, r.writes, p.writes);
      RetriedNext(d, groups, env, n - 1, r.outcomes, e, p.outcome, ApplyAll(e, p.writes));
    }
  }

  // ---- The listed chunks ----

  lemma FailedListed(d: Diary, communityId: Id, id: Id)
    requires Consistent(d) && id in d.chunks.rows
    ensures d.chunks.rows[id] in FailedChunks(d, communityId, None)
        <==> d.chunks.rows[id].communityId == communityId && d.chunks.rows[id].status == Failed
  {
    var c := d.chunks.rows[id];
    SortIn(Filter(Values(d.chunks), FailedTest(communityId)), ChunkOldest, c);
    FilterIn(Values(d.chunks), FailedTest(communityId), c);
  }

  /** The listing holds stored chunks, each once. */
  lemma LimitedDistinct(chunks: seq<EventChunk>, limit: Option<nat>)
    requires Distinct(chunks)
    ensures Distinct(Limited(chunks, limit))
  {
  }

  lemma ListedOnce(d: Diary, communityId: Id, limit: Option<nat>)
    requires Consistent(d)
    ensures NoRepeat(FailedChunks(d, communityId, limit))
    ensures forall c :: c in FailedChunks(d, communityId, limit) ==> c.chunkId in d.chunks.rows && d.chunks.rows[c.chunkId] == c
  {
    var found := Filter(Values(d.chunks), FailedTest(communityId));
    StoredOnce(d);
    FilterDistinct(Values(d.chunks), FailedTest(communityId));
    SortDistinct(found, ChunkOldest);
    FailedAreStored(d, communityId, limit);
    LimitedDistinct(Sort(found, ChunkOldest), limit);
    StoredApart(d, FailedChunks(d, communityId, limit));
  }

  lemma GroupsDisjoint(chunks: seq<EventChunk>)
    requires NoRepeat(chunks)
    ensures Disjoint(Groups(chunks))
  {
    var groups := Groups(chunks);
    GroupsBySource(chunks);
    GroupsHold(chunks);
    forall i | 0 <= i < |groups| ensures NoRepeat(groups[i].chunks) {
      FilterDistinctIds(chunks, ChunkFromTest(groups[i].sourceId));
    }
    forall i, j | 0 <= i < j < |groups| ensures IdsOf(groups[i]) !! IdsOf(groups[j]) {
      ApartBySource(chunks, groups[i], groups[j]);
    }
  }

  lemma {:induction false} FilterDistinctIds(chunks: seq<EventChunk>, p: EventChunk -> bool)
    requires NoRepeat(chunks)
    ensures NoRepeat(Filter(chunks, p))
  {
    if chunks != [] {
      FilterDistinctIds(chunks[1..], p);
      forall c | c in Filter(chunks[1..], p) ensures c.chunkId != chunks[0].chunkId {
        FilterIn(chunks[1..], p, c);
      }
    }
  }

  lemma ApartBySource(chunks: seq<EventChunk>, g: Group, h: Group)
    requires NoRepeat(chunks) && g.sourceId != h.sourceId
    requires g.chunks == Filter(chunks, ChunkFromTest(g.sourceId)) && h.chunks == Filter(chunks, ChunkFromTest(h.sourceId))
    ensures IdsOf(g) !! IdsOf(h)
  {
    forall c, e | c in g.chunks && e in h.chunks ensures c.chunkId != e.chunkId {
      FilterIn(chunks, ChunkFromTest(g.sourceId), c);
      FilterIn(chunks, ChunkFromTest(h.sourceId), e);
    }
  }

  lemma ListedGroups(d: Diary, communityId: Id, limit: Option<nat>)
    requires Consistent(d)
    ensures var groups := Groups(FailedChunks(d, communityId, limit));
            Disjoint(groups) && AllStored(d.chunks.rows, groups)
  {
    var listed := FailedChunks(d, communityId, limit);
    ListedOnce(d, communityId, limit);
    GroupsDisjoint(listed);
    GroupsHold(listed);
    forall i, c | 0 <= i < |Groups(listed)| && c in Groups(listed)[i].chunks ensures c in listed {
      assert Held(Groups(listed), c);
    }
  }

  /**
   * A retry run: each group succeeds exactly when its own provider call and its own chunks allow it,
   * whatever the others did; the chunks of the groups that succeeded turn Ready with a record, and no
   * other row, state or status moves.
   */
  lemma RetryOutcome(d: Diary, communityId: Id, limit: Option<nat>, env: RetryEnv)
    requires Consistent(d) && communityId != ""
    ensures var groups := Groups(FailedChunks(d, communityId, limit));
            var plan := RetryPlan(d, communityId, limit, env);
            && plan.result.Ok? && |plan.result.value| == |groups|
            && Retried(d, groups, env, |groups|, plan.result.value, ApplyAll(d, plan.writes))
  {
    ListedGroups(d, communityId, limit);
    var groups := Groups(FailedChunks(d, communityId, limit));
    RetryUpToEffect(d, communityId, groups, env, |groups|);
  }
}
