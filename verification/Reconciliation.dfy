/** Re-embedding of failed chunks (`services/reconciliation.py`). */
module Reconciliation {
  import opened Diary
  import opened MockDomainStore
  import opened Models
  import opened Plans
  import opened Sorting
  import opened Tables
  import opened Wrappers

  lemma {:induction false} SaveRecordsSnoc(records: seq<EmbeddingRecord>, k: nat)
    requires k < |records|
    ensures SaveRecords(records[..k + 1]) == SaveRecords(records[..k]) + [SaveRecord(records[k])]
  {
    if k == 0 {
      assert records[..1] == [records[0]];
    } else {
      SaveRecordsSnoc(records[1..], k - 1);
      assert records[..k + 1][1..] == records[1..][..k] && records[..k][1..] == records[1..][..k - 1];
    }
  }

  lemma {:induction false} SetStatusesSnoc(chunks: seq<EventChunk>, k: nat, status: EmbeddingStatus)
    requires k < |chunks|
    ensures SetStatuses(chunks[..k + 1], status) == SetStatuses(chunks[..k], status) + [SetChunkStatus(chunks[k].chunkId, status)]
  {
    if k == 0 {
      assert chunks[..1] == [chunks[0]];
    } else {
      SetStatusesSnoc(chunks[1..], k - 1, status);
      assert chunks[..k + 1][1..] == chunks[1..][..k] && chunks[..k][1..] == chunks[1..][..k - 1];
    }
  }

  /** Refused by the service itself, or by the store. */
  datatype RetryError = MissingClient | Refused(error: StoreError)

  class Service {
    const store: Store
    const client: Option<EmbeddingClient>

    constructor (store: Store, client: Option<EmbeddingClient>)
      ensures this.store == store && this.client == client
    {
      this.store, this.client := store, client;
    }

    /** `save_embedding_records`: stops at the first record the store already has. */
    method SaveEmbeddingRecords(records: seq<EmbeddingRecord>) returns (ok: bool)
      modifies store
      ensures var n := SavableRecords(old(store.State()), records);
              ok == (n == |records|) && store.Wrote(SaveRecords(records[..n]))
      ensures store.chunks == old(store.chunks) && store.deadLetters == old(store.deadLetters)
    {
      ghost var d0, j0 := store.State(), store.journal;
      for k := 0 to |records|
        invariant store.State() == ApplyAll(d0, SaveRecords(records[..k]))
        invariant store.journal == j0 + SaveRecords(records[..k])
        invariant store.Trace() == old(store.Trace())
        invariant store.chunks == old(store.chunks) && store.deadLetters == old(store.deadLetters)
        invariant SavableRecords(d0, records) == k + SavableRecords(store.State(), records[k..])
      {
        ghost var d1 := store.State();
        assert records[k..][0] == records[k] && records[k..][1..] == records[k + 1..];
        var saved := store.SaveEmbeddingRecord(records[k]);
        if saved.Raised? {
          return false;
        }
        ApplyOne(d1, SaveRecord(records[k]));
        SaveRecordsSnoc(records, k);
        ApplyConcat(d0, SaveRecords(records[..k]), [SaveRecord(records[k])]);
        Associate(j0, SaveRecords(records[..k]), [SaveRecord(records[k])]);
      }
      return true;
    }

    method MarkReady(chunks: seq<EventChunk>)
      requires forall c :: c in chunks ==> c.chunkId in store.chunks.rows
      modifies store
      ensures store.Wrote(SetStatuses(chunks, Ready))
    {
      ghost var d0, j0 := store.State(), store.journal;
      for k := 0 to |chunks|
        invariant store.State() == ApplyAll(d0, SetStatuses(chunks[..k], Ready))
        invariant store.journal == j0 + SetStatuses(chunks[..k], Ready)
        invariant store.Trace() == old(store.Trace())
        invariant forall c :: c in chunks ==> c.chunkId in store.chunks.rows
      {
        ghost var d1 := store.State();
        var marked := store.SetChunkEmbeddingStatus(chunks[k].chunkId, Ready);
        ApplyOne(d1, SetChunkStatus(chunks[k].chunkId, Ready));
        SetStatusesSnoc(chunks, k, Ready);
        ApplyConcat(d0, SetStatuses(chunks[..k], Ready), [SetChunkStatus(chunks[k].chunkId, Ready)]);
        Associate(j0, SetStatuses(chunks[..k], Ready), [SetChunkStatus(chunks[k].chunkId, Ready)]);
      }
      assert chunks[..|chunks|] == chunks;
    }

    /** A group whose retry failed is reported, and recorded when that write itself succeeds. */
    method ReportFailure(communityId: Id, g: Group, env: RetryEnv, ge: GroupEnv, errorClass: string)
      returns (outcome: GroupOutcome)
      requires ge.letterId !in store.deadLetters
      modifies store
      ensures outcome == FailedOutcome(g, ge, errorClass)
      ensures store.Wrote(LetterWrites(g, communityId, env, ge, errorClass))
    {
      var letterId: Option<Id> := None;
      if ge.letterSaved {
        var letter := IndexingDeadLetter(
          ge.letterId, g.sourceId, communityId, ChunkIds(g.chunks), env.client.modelName, errorClass, env.now);
        var saved := store.SaveIndexingDeadLetter(letter);
        letterId := Some(ge.letterId);
      }
      outcome := GroupOutcome(g.sourceId, ChunkIds(g.chunks), false, Some(errorClass), letterId);
    }

    method RetryOneGroup(communityId: Id, g: Group, env: RetryEnv, ge: GroupEnv) returns (outcome: GroupOutcome)
      requires forall c :: c in g.chunks ==> c.chunkId in store.chunks.rows
      requires ge.letterId !in store.deadLetters
      modifies store
      ensures outcome == RetryGroup(old(store.State()), communityId, g, env, ge).outcome
      ensures store.Wrote(RetryGroup(old(store.State()), communityId, g, env, ge).writes)
    {
      if ge.embed.EmbedFailed? {
        outcome := ReportFailure(communityId, g, env, ge, ge.embed.errorClass);
        return;
      }
      var vectors := ge.embed.vectors;
      if |vectors| != |g.chunks| {
        outcome := ReportFailure(communityId, g, env, ge, "ValueError");
        return;
      }
      var records := GroupRecords(g, communityId, env.now, env.client, vectors, ge.recordIds);
      ghost var d0, n := store.State(), SavableRecords(store.State(), records);
      var saved := SaveEmbeddingRecords(records);
      if !saved {
        ghost var letters := LetterWrites(g, communityId, env, ge, "ValueError");
        ApplyConcat(d0, SaveRecords(records[..n]), letters);
        Associate(old(store.journal), SaveRecords(records[..n]), letters);
        outcome := ReportFailure(communityId, g, env, ge, "ValueError");
        return;
      }
      assert records[..n] == records;
      ApplyConcat(d0, SaveRecords(records), SetStatuses(g.chunks, Ready));
      Associate(old(store.journal), SaveRecords(records), SetStatuses(g.chunks, Ready));
      MarkReady(g.chunks);
      outcome := GroupOutcome(g.sourceId, ChunkIds(g.chunks), true, None, None);
    }

    /** The service's own client embeds, whichever the run's environment was drawn for. */
    method RetryFailedChunks(communityId: Id, limit: Option<int>, env: RetryEnv)
      returns (r: Result<seq<GroupOutcome>, RetryError>)
      requires Consistent(store.State()) && FreshLetters(store.State(), env)
      modifies store
      ensures client == None ==> r == Raised(MissingClient) && store.Wrote([])
      ensures client.Some? && (communityId == "" || Negative(limit)) ==> r == Raised(Refused(ValueError)) && store.Wrote([])
      ensures client.Some? && communityId != "" && !Negative(limit) ==>
                var plan := RetryPlan(old(store.State()), communityId, Cap(limit), env.(client := client.value));
                plan.result.Ok? && r == Ok(plan.result.value) && store.Wrote(plan.writes)
    {
      if client == None {
        return Raised(MissingClient);
      }
      ghost var d0 := store.State();
      var listed := store.ListFailedEventChunks(communityId, limit);
      if listed.Raised? {
        return Raised(Refused(listed.error));
      }
      var groups := GroupBySource(listed.value);
      ListedStored(d0, communityId, Cap(limit), groups);
      var outcomes := RetryGroups(communityId, groups, env.(client := client.value));
      return Ok(outcomes);
    }

    method GroupBySource(chunks: seq<EventChunk>) returns (groups: seq<Group>)
      ensures groups == Groups(chunks)
    {
      groups := [];
      for i := 0 to |chunks|
        invariant groups == Groups(chunks[..i])
      {
        groups := AddToGroup(groups, chunks[i]);
        assert chunks[..i + 1][..i] == chunks[..i];
      }
      assert chunks[..|chunks|] == chunks;
    }

    method RetryGroups(communityId: Id, groups: seq<Group>, env: RetryEnv) returns (outcomes: seq<GroupOutcome>)
      requires FreshLetters(store.State(), env)
      requires forall g, c :: g in groups && c in g.chunks ==> c.chunkId in store.chunks.rows
      modifies store
      ensures outcomes == RetryUpTo(old(store.State()), communityId, groups, env, |groups|).outcomes
      ensures store.Wrote(RetryUpTo(old(store.State()), communityId, groups, env, |groups|).writes)
    {
      ghost var d0, j0 := store.State(), store.journal;
      outcomes := [];
      for n := 0 to |groups|
        invariant outcomes == RetryUpTo(d0, communityId, groups, env, n).outcomes
        invariant store.State() == ApplyAll(d0, RetryUpTo(d0, communityId, groups, env, n).writes)
        invariant store.journal == j0 + RetryUpTo(d0, communityId, groups, env, n).writes
        invariant store.Trace() == old(store.Trace())
      {
        RetryUpToKeeps(d0, communityId, groups, env, n);
        RetryUpToNext(d0, j0, communityId, groups, env, n);
        var outcome := RetryOneGroup(communityId, groups[n], env, env.groups(n));
        outcomes := outcomes + [outcome];
      }
    }
  }

  lemma RetryUpToNext(d: Diary, journal: seq<Write>, communityId: Id, groups: seq<Group>, env: RetryEnv, n: nat)
    requires n < |groups|
    ensures var before, after := RetryUpTo(d, communityId, groups, env, n), RetryUpTo(d, communityId, groups, env, n + 1);
            var pass := RetryGroup(ApplyAll(d, before.writes), communityId, groups[n], env, env.groups(n));
            && after.outcomes == before.outcomes + [pass.outcome]
            && ApplyAll(d, after.writes) == ApplyAll(ApplyAll(d, before.writes), pass.writes)
            && journal + after.writes == journal + before.writes + pass.writes
  {
    var before := RetryUpTo(d, communityId, groups, env, n).writes;
    var writes := RetryGroup(ApplyAll(d, before), communityId, groups[n], env, env.groups(n)).writes;
    ApplyConcat(d, before, writes);
    Associate(journal, before, writes);
  }

  predicate Negative(limit: Option<int>) {
    limit.Some? && limit.value < 0
  }

  /** A limit the store accepts, as it uses it. */
  function Cap(limit: Option<int>): Option<nat>
    requires !Negative(limit)
  {
    if limit.Some? then Some(limit.value) else None
  }

  lemma ListedStored(d: Diary, communityId: Id, limit: Option<nat>, groups: seq<Group>)
    requires Consistent(d) && groups == Groups(FailedChunks(d, communityId, limit))
    ensures forall g, c :: g in groups && c in g.chunks ==> c.chunkId in d.chunks.rows
  {
    FailedAreStored(d, communityId, limit);
    GroupsHold(FailedChunks(d, communityId, limit));
    assert forall g, c :: g in groups && c in g.chunks ==> Held(groups, c);
  }

  lemma FailedAreStored(d: Diary, communityId: Id, limit: Option<nat>)
    requires Consistent(d)
    ensures forall c :: c in FailedChunks(d, communityId, limit) ==>
              c.chunkId in d.chunks.rows && d.chunks.rows[c.chunkId] == c && c.communityId == communityId && c.status == Failed
  {
    var found := Filter(Values(d.chunks), FailedTest(communityId));
    forall c | c in FailedChunks(d, communityId, limit)
      ensures c in Values(d.chunks) && FailedTest(communityId)(c)
    {
      SortIn(found, ChunkOldest, c);
      FilterIn(Values(d.chunks), FailedTest(communityId), c);
    }
  }

  ghost predicate Held(groups: seq<Group>, c: EventChunk) {
    exists g :: g in groups && c in g.chunks
  }

  ghost predicate Owned(groups: seq<Group>) {
    && (forall g, c :: g in groups && c in g.chunks ==> c.sourceId == g.sourceId)
    && (forall i, j :: 0 <= i < j < |groups| ==> groups[i].sourceId != groups[j].sourceId)
  }

  /** The groups hold exactly the listed chunks, each under its own source. */
  lemma {:induction false} GroupsHold(chunks: seq<EventChunk>)
    ensures forall c :: c in chunks <==> Held(Groups(chunks), c)
    ensures Owned(Groups(chunks))
  {
    if chunks != [] {
      var n := |chunks| - 1;
      GroupsHold(chunks[..n]);
      AddHeld(Groups(chunks[..n]), chunks[n]);
      AddOwned(Groups(chunks[..n]), chunks[n]);
      assert chunks == chunks[..n] + [chunks[n]];
    }
  }

  lemma HeldCons(g: Group, rest: seq<Group>)
    ensures forall c :: Held([g] + rest, c) <==> c in g.chunks || Held(rest, c)
  {
    forall c ensures Held([g] + rest, c) <==> c in g.chunks || Held(rest, c) {
      if c in g.chunks {
        assert ([g] + rest)[0] == g;
      }
      if Held(rest, c) {
        var h :| h in rest && c in h.chunks;
        assert h in [g] + rest;
      }
    }
  }

  lemma {:induction false} AddHeld(groups: seq<Group>, chunk: EventChunk)
    ensures forall c :: Held(AddToGroup(groups, chunk), c) <==> c == chunk || Held(groups, c)
  {
    if groups == [] {
      HeldCons(Group(chunk.sourceId, [chunk]), []);
    } else {
      HeldCons(groups[0], groups[1..]);
      assert groups == [groups[0]] + groups[1..];
      if groups[0].sourceId == chunk.sourceId {
        HeldCons(groups[0].(chunks := groups[0].chunks + [chunk]), groups[1..]);
      } else {
        AddHeld(groups[1..], chunk);
        HeldCons(groups[0], AddToGroup(groups[1..], chunk));
      }
    }
  }

  lemma {:induction false} AddSources(groups: seq<Group>, chunk: EventChunk)
    ensures var after := AddToGroup(groups, chunk);
            forall g :: g in after ==> g.sourceId == chunk.sourceId || exists h :: h in groups && h.sourceId == g.sourceId
  {
    if groups != [] {
      assert groups[0] in groups;
      assert forall h :: h in groups[1..] ==> h in groups;
      if groups[0].sourceId != chunk.sourceId {
        AddSources(groups[1..], chunk);
      }
    }
  }

  /** A group of one source, and that source in no later group. */
  ghost predicate Heads(g: Group, rest: seq<Group>) {
    && (forall c :: c in g.chunks ==> c.sourceId == g.sourceId)
    && (forall h :: h in rest ==> h.sourceId != g.sourceId)
  }

  lemma OwnedCons(g: Group, rest: seq<Group>)
    requires Owned(rest) && Heads(g, rest)
    ensures Owned([g] + rest)
  {
    var all := [g] + rest;
    forall i, j | 0 <= i < j < |all| ensures all[i].sourceId != all[j].sourceId {
      assert all[j] == rest[j - 1];
      if i > 0 {
        assert all[i] == rest[i - 1];
      }
    }
  }

  lemma OwnedHead(groups: seq<Group>)
    requires groups != [] && Owned(groups)
    ensures Heads(groups[0], groups[1..]) && Owned(groups[1..])
  {
    assert groups[0] in groups;
    assert forall h :: h in groups[1..] ==> h in groups;
  }

  lemma {:induction false} AddOwned(groups: seq<Group>, chunk: EventChunk)
    requires Owned(groups)
    ensures Owned(AddToGroup(groups, chunk))
  {
    if groups == [] {
      OwnedCons(Group(chunk.sourceId, [chunk]), []);
    } else {
      OwnedHead(groups);
      if groups[0].sourceId == chunk.sourceId {
        OwnedCons(groups[0].(chunks := groups[0].chunks + [chunk]), groups[1..]);
      } else {
        AddOwned(groups[1..], chunk);
        AddSources(groups[1..], chunk);
        OwnedCons(groups[0], AddToGroup(groups[1..], chunk));
      }
    }
  }

  /** The passes so far added no chunk rows, removed none, and wrote only their own dead letters. */
  lemma {:induction false} RetryUpToKeeps(d: Diary, communityId: Id, groups: seq<Group>, env: RetryEnv, n: nat)
    requires n <= |groups|
    ensures var after := ApplyAll(d, RetryUpTo(d, communityId, groups, env, n).writes);
            && after.chunks.rows.Keys == d.chunks.rows.Keys
            && (forall id :: id in after.deadLetters ==> id in d.deadLetters || exists i: nat :: i < n && id == env.groups(i).letterId)
  {
    if n > 0 {
      RetryUpToKeeps(d, communityId, groups, env, n - 1);
      var before := RetryUpTo(d, communityId, groups, env, n - 1).writes;
      var d1 := ApplyAll(d, before);
      var writes := RetryGroup(d1, communityId, groups[n - 1], env, env.groups(n - 1)).writes;
      ApplyConcat(d, before, writes);
      RetryGroupKeeps(d1, communityId, groups[n - 1], env, env.groups(n - 1));
    }
  }

  lemma RetryGroupKeeps(d: Diary, communityId: Id, g: Group, env: RetryEnv, ge: GroupEnv)
    ensures var after := ApplyAll(d, RetryGroup(d, communityId, g, env, ge).writes);
            && after.chunks.rows.Keys == d.chunks.rows.Keys
            && (forall id :: id in after.deadLetters ==> id in d.deadLetters || id == ge.letterId)
  {
    var writes := RetryGroup(d, communityId, g, env, ge).writes;
    RetryGroupWrites(d, communityId, g, env, ge);
    MildWrites(d, writes, ge.letterId);
  }

  /** Writes that touch no row but an embedding record, a chunk's status, or one dead letter. */
  predicate Mild(w: Write, letterId: Id) {
    w.SaveRecord? || w.SetChunkStatus? || (w.SaveDeadLetter? && w.letter.letterId == letterId)
  }

  lemma MildWrite(d: Diary, w: Write, letterId: Id)
    requires Mild(w, letterId)
    ensures Apply(d, w).chunks.rows.Keys == d.chunks.rows.Keys
    ensures forall id :: id in Apply(d, w).deadLetters ==> id in d.deadLetters || id == letterId
  {
  }

  lemma {:induction false} MildWrites(d: Diary, ws: seq<Write>, letterId: Id)
    requires forall w :: w in ws ==> Mild(w, letterId)
    ensures var after := ApplyAll(d, ws);
            && after.chunks.rows.Keys == d.chunks.rows.Keys
            && (forall id :: id in after.deadLetters ==> id in d.deadLetters || id == letterId)
    decreases |ws|
  {
    if ws != [] {
      MildWrite(d, ws[0], letterId);
      MildWrites(Apply(d, ws[0]), ws[1..], letterId);
    }
  }

  lemma {:induction false} RecordWrites(records: seq<EmbeddingRecord>)
    ensures forall w :: w in SaveRecords(records) ==> w.SaveRecord? && w.record in records
  {
    if records != [] {
      RecordWrites(records[1..]);
    }
  }

  lemma {:induction false} StatusWrites(chunks: seq<EventChunk>, status: EmbeddingStatus)
    ensures forall w :: w in SetStatuses(chunks, status) ==>
              w.SetChunkStatus? && w.status == status && exists c :: c in chunks && c.chunkId == w.chunkId
  {
    if chunks != [] {
      StatusWrites(chunks[1..], status);
      assert chunks[0] in chunks;
      assert forall c :: c in chunks[1..] ==> c in chunks;
    }
  }

  lemma RetryGroupWrites(d: Diary, communityId: Id, g: Group, env: RetryEnv, ge: GroupEnv)
    ensures forall w :: w in RetryGroup(d, communityId, g, env, ge).writes ==> Mild(w, ge.letterId)
  {
    if ge.embed.Vectors? && |ge.embed.vectors| == |g.chunks| {
      var records := GroupRecords(g, communityId, env.now, env.client, ge.embed.vectors, ge.recordIds);
      RecordWrites(records);
      RecordWrites(records[..SavableRecords(d, records)]);
      StatusWrites(g.chunks, Ready);
    }
  }
}
