/** What completed runs guarantee a reader: linear chains of revisions and truthful embedding statuses. */
module CompletedRuns {
  import opened Chains
  import opened CrashSafety
  import opened Diary
  import opened Lifecycle
  import opened Models
  import opened Plans
  import opened RetryEffects
  import opened Settling
  import opened Sorting
  import opened Tables
  import opened Wrappers

  // ---- Chains of revisions ----

  ghost predicate Linked(notes: Notes, keys: seq<Id>, sources: Sources) {
    && Distinct(keys) && (forall id :: id in keys <==> id in notes)
    && LinksHold(notes, keys, sources) && LinksUnique(notes) && SupersededReplaced(notes)
    && (forall id :: id in notes ==> notes[id].sourceId in sources)
  }

  lemma LinkDescends(notes: Notes, keys: seq<Id>, sources: Sources, a: Id, p: Id)
    requires Linked(notes, keys, sources) && Replaces(notes, a, p)
    ensures p in notes && Place(keys, p) < Place(keys, a)
  {
    var i, j :| 0 <= i < j < |keys| && keys[i] == p && keys[j] == a;
    assert i == Place(keys, p) && j == Place(keys, a);
  }

  /** A note and everything it was edited from, newest first. */
  ghost function Lineage(notes: Notes, keys: seq<Id>, sources: Sources, id: Id): seq<Id>
    requires Linked(notes, keys, sources) && id in notes
    decreases Place(keys, id)
  {
    match notes[id].supersedes
    case None => [id]
    case Some(p) => LinkDescends(notes, keys, sources, id, p); [id] + Lineage(notes, keys, sources, p)
  }

  /** Nothing replaced this note: it heads a chain. */
  predicate Head(notes: Notes, id: Id) {
    id in notes && notes[id].state != Superseded
  }

  /** A lineage has no cycle, stays within one message, and is superseded below its head. */
  lemma {:induction false} LineageHolds(notes: Notes, keys: seq<Id>, sources: Sources, h: Id)
    requires Linked(notes, keys, sources) && h in notes
    ensures var l := Lineage(notes, keys, sources, h);
            && l != [] && l[0] == h && (forall id :: id in l ==> id in notes && Place(keys, id) <= Place(keys, h))
            && Distinct(l)
            && (forall id :: id in l ==> SameMessage(sources, notes[h], notes[id]))
            && (forall id :: id in l && id != h ==> notes[id].state == Superseded)
    decreases Place(keys, h)
  {
    if notes[h].supersedes.Some? {
      var p := notes[h].supersedes.value;
      LinkDescends(notes, keys, sources, h, p);
      assert Replaces(notes, h, p);
      LineageHolds(notes, keys, sources, p);
    }
  }

  /** Below the head, each member's one successor is a member too. */
  lemma {:induction false} SuccessorIn(notes: Notes, keys: seq<Id>, sources: Sources, h: Id, id: Id, a: Id)
    requires Linked(notes, keys, sources) && h in notes && Replaces(notes, a, id)
    requires id in Lineage(notes, keys, sources, h) && id != h
    ensures a in Lineage(notes, keys, sources, h)
    decreases Place(keys, h)
  {
    var p := notes[h].supersedes.value;
    LinkDescends(notes, keys, sources, h, p);
    if id == p {
      assert Replaces(notes, h, p);
    } else {
      SuccessorIn(notes, keys, sources, p, id, a);
    }
  }

  /** Following replacements from any note ends at a head whose lineage holds the note. */
  lemma {:induction false} HeadOf(notes: Notes, keys: seq<Id>, sources: Sources, id: Id) returns (h: Id)
    requires Linked(notes, keys, sources) && id in notes
    ensures Head(notes, h) && id in Lineage(notes, keys, sources, h)
    decreases |keys| - Place(keys, id)
  {
    if notes[id].state != Superseded {
      h := id;
      LineageHolds(notes, keys, sources, id);
    } else {
      var a :| Replaces(notes, a, id);
      LinkDescends(notes, keys, sources, a, id);
      h := HeadOf(notes, keys, sources, a);
      LineageMore(notes, keys, sources, h, a, id);
    }
  }

  lemma {:induction false} LineageMore(notes: Notes, keys: seq<Id>, sources: Sources, h: Id, a: Id, id: Id)
    requires Linked(notes, keys, sources) && h in notes && Replaces(notes, a, id)
    requires a in Lineage(notes, keys, sources, h)
    ensures id in Lineage(notes, keys, sources, h)
    decreases Place(keys, h)
  {
    if a == h {
      LinkDescends(notes, keys, sources, h, id);
      LineageHolds(notes, keys, sources, id);
    } else {
      var p := notes[h].supersedes.value;
      LinkDescends(notes, keys, sources, h, p);
      LineageMore(notes, keys, sources, p, a, id);
    }
  }

  /** Two heads never share a note. */
  lemma {:induction false} OneHead(notes: Notes, keys: seq<Id>, sources: Sources, h: Id, g: Id, id: Id)
    requires Linked(notes, keys, sources) && Head(notes, h) && Head(notes, g)
    requires id in Lineage(notes, keys, sources, h) && id in Lineage(notes, keys, sources, g)
    ensures h == g
    decreases |keys| - (if id in keys then Place(keys, id) else 0)
  {
    LineageHolds(notes, keys, sources, h);
    LineageHolds(notes, keys, sources, g);
    if notes[id].state == Superseded {
      var a :| Replaces(notes, a, id);
      LinkDescends(notes, keys, sources, a, id);
      SuccessorIn(notes, keys, sources, h, id, a);
      SuccessorIn(notes, keys, sources, g, id, a);
      OneHead(notes, keys, sources, h, g, a);
    }
  }

  /** `id` is on the chain headed by `h`. */
  ghost predicate OnChain(notes: Notes, keys: seq<Id>, sources: Sources, h: Id, id: Id)
    requires Linked(notes, keys, sources)
  {
    Head(notes, h) && id in Lineage(notes, keys, sources, h)
  }

  ghost predicate OnSomeChain(notes: Notes, keys: seq<Id>, sources: Sources, id: Id)
    requires Linked(notes, keys, sources)
  {
    exists h :: OnChain(notes, keys, sources, h, id)
  }

  /** No repeats, one message, and only the head is not superseded. */
  ghost predicate LinearChain(notes: Notes, sources: Sources, l: seq<Id>) {
    && l != [] && Distinct(l)
    && (forall i :: 0 <= i < |l| ==> l[i] in notes && (notes[l[i]].state == Superseded <==> i > 0))
    && (forall i :: 0 <= i < |l| ==> SameMessage(sources, notes[l[0]], notes[l[i]]))
    && (forall i :: 0 < i < |l| ==> Replaces(notes, l[i - 1], l[i]))
  }

  /** The notes split into linear chains, one a head, and of a message's heads at most one is not Tombstoned. */
  ghost predicate DisjointChains(notes: Notes, keys: seq<Id>, sources: Sources) {
    && Linked(notes, keys, sources)
    && Covering(notes, keys, sources) && Apart(notes, keys, sources) && Linear(notes, keys, sources)
    && LoneActiveHead(notes, sources)
  }

  ghost predicate Covering(notes: Notes, keys: seq<Id>, sources: Sources)
    requires Linked(notes, keys, sources)
  {
    forall id :: id in notes ==> OnSomeChain(notes, keys, sources, id)
  }

  ghost predicate Apart(notes: Notes, keys: seq<Id>, sources: Sources)
    requires Linked(notes, keys, sources)
  {
    forall h, g, id :: OnChain(notes, keys, sources, h, id) && OnChain(notes, keys, sources, g, id) ==> h == g
  }

  ghost predicate Linear(notes: Notes, keys: seq<Id>, sources: Sources)
    requires Linked(notes, keys, sources)
  {
    forall h :: Head(notes, h) ==> LinearChain(notes, sources, Lineage(notes, keys, sources, h))
  }

  ghost predicate LoneActiveHead(notes: Notes, sources: Sources) {
    forall h, g :: Head(notes, h) && Head(notes, g) && SameMessage(sources, notes[h], notes[g]) && h != g ==>
      notes[h].state == Tombstoned || notes[g].state == Tombstoned
  }

  lemma {:induction false} LineageLinear(notes: Notes, keys: seq<Id>, sources: Sources, h: Id)
    requires Linked(notes, keys, sources) && Head(notes, h)
    ensures LinearChain(notes, sources, Lineage(notes, keys, sources, h))
  {
    LineageHolds(notes, keys, sources, h);
    LineageSteps(notes, keys, sources, h);
    var l := Lineage(notes, keys, sources, h);
    forall i | 0 <= i < |l| ensures l[i] in notes && (notes[l[i]].state == Superseded <==> i > 0) {
      assert l[i] in l;
    }
  }

  lemma {:induction false} LineageSteps(notes: Notes, keys: seq<Id>, sources: Sources, h: Id)
    requires Linked(notes, keys, sources) && h in notes
    ensures var l := Lineage(notes, keys, sources, h);
            l != [] && l[0] == h && forall i :: 0 < i < |l| ==> Replaces(notes, l[i - 1], l[i])
    decreases Place(keys, h)
  {
    if notes[h].supersedes.Some? {
      var p := notes[h].supersedes.value;
      LinkDescends(notes, keys, sources, h, p);
      LineageSteps(notes, keys, sources, p);
    }
  }

  lemma ChainsCover(notes: Notes, keys: seq<Id>, sources: Sources)
    requires Linked(notes, keys, sources)
    ensures Covering(notes, keys, sources)
  {
    forall id | id in notes ensures OnSomeChain(notes, keys, sources, id) {
      var h := HeadOf(notes, keys, sources, id);
      assert OnChain(notes, keys, sources, h, id);
    }
  }

  lemma ChainsApart(notes: Notes, keys: seq<Id>, sources: Sources)
    requires Linked(notes, keys, sources)
    ensures Apart(notes, keys, sources)
  {
    forall h, g, id | OnChain(notes, keys, sources, h, id) && OnChain(notes, keys, sources, g, id) ensures h == g {
      OneHead(notes, keys, sources, h, g, id);
    }
  }

  lemma ChainsLinear(notes: Notes, keys: seq<Id>, sources: Sources)
    requires Linked(notes, keys, sources)
    ensures Linear(notes, keys, sources)
  {
    forall h | Head(notes, h) ensures LinearChain(notes, sources, Lineage(notes, keys, sources, h)) {
      LineageLinear(notes, keys, sources, h);
    }
  }

  lemma LinkedChains(notes: Notes, keys: seq<Id>, sources: Sources)
    requires Linked(notes, keys, sources) && OneActive(notes, sources)
    ensures DisjointChains(notes, keys, sources)
  {
    ChainsCover(notes, keys, sources);
    ChainsApart(notes, keys, sources);
    ChainsLinear(notes, keys, sources);
    HeadsRetired(notes, sources);
  }

  lemma HeadsRetired(notes: Notes, sources: Sources)
    requires OneActive(notes, sources)
    ensures LoneActiveHead(notes, sources)
  {
  }

  /**
   * In every completed run the notes of each message form disjoint linear chains with at most one
   * Active head, and every chunk's state is its note's state.
   */
  lemma RunChains(evs: seq<Event>)
    requires FreshRun(evs) && Completed(evs)
    ensures var d := Run(evs);
            && DisjointChains(d.notes.rows, d.notes.keys, d.sources.rows)
            && StatesAgree(d.chunks.rows, d.notes.rows) && ChunkLinks(d.chunks.rows, d.notes.rows)
  {
    RunSettled(evs);
    var d := Run(evs);
    LinkedChains(d.notes.rows, d.notes.keys, d.sources.rows);
  }

  // ---- Embedding statuses ----

  /** Ready means embedded, and embedded means under the chunk's own source and community. */
  ghost predicate StatusesTrue(chunks: Chunks, records: Records) {
    && (forall id :: id in chunks ==> (chunks[id].status == Ready <==> HasRecord(records, id)))
    && (forall k :: k in records ==> k.chunkId in chunks && records[k].Key() == k && ForChunk(records[k], chunks[k.chunkId]))
  }

  lemma RunStatuses(evs: seq<Event>)
    requires FreshRun(evs) && Completed(evs)
    ensures StatusesTrue(Run(evs).chunks.rows, Run(evs).embeddings)
  {
    RunSettled(evs);
  }

  /**
   * After a completed run a retry group fails only when its own provider call did: an error, or the
   * wrong number of vectors. The store never refuses a record as a duplicate.
   */
  lemma RetryNeverRefused(evs: seq<Event>, communityId: Id, limit: Option<nat>, env: RetryEnv)
    requires FreshRun(evs) && Completed(evs) && communityId != ""
    ensures AnsweredOnly(Run(evs), communityId, limit, env)
  {
    RunSettled(evs);
    FailedRetriable(Run(evs), communityId, limit, env);
  }

  /** Each group fares as the provider's answer to it alone decides. */
  ghost predicate AnsweredOnly(d: Diary, communityId: Id, limit: Option<nat>, env: RetryEnv) {
    var groups, r := Groups(FailedChunks(d, communityId, limit)), RetryPlan(d, communityId, limit, env).result;
    && r.Ok? && |r.value| == |groups|
    && forall i :: 0 <= i < |groups| ==>
         (r.value[i].succeeded <==> env.groups(i).embed.Vectors? && |env.groups(i).embed.vectors| == |groups[i].chunks|)
  }

  lemma FailedRetriable(d: Diary, communityId: Id, limit: Option<nat>, env: RetryEnv)
    requires Consistent(d) && RecordsAgree(d.chunks.rows, d.embeddings) && communityId != ""
    ensures AnsweredOnly(d, communityId, limit, env)
  {
    var groups := Groups(FailedChunks(d, communityId, limit));
    RetryOutcome(d, communityId, limit, env);
    FailedUnrecorded(d, communityId, limit);
    forall i | 0 <= i < |groups|
      ensures forall c :: c in groups[i].chunks ==> EmbeddingKey(c.chunkId, env.client.modelName) !in d.embeddings
    {
      NoKeys(d.embeddings, groups, i, env.client.modelName);
    }
  }

  lemma NoKeys(records: Records, groups: seq<Group>, i: nat, modelName: string)
    requires i < |groups| && Unrecorded(records, groups)
    ensures forall c :: c in groups[i].chunks ==> EmbeddingKey(c.chunkId, modelName) !in records
  {
    forall c | c in groups[i].chunks ensures EmbeddingKey(c.chunkId, modelName) !in records {
      var k := EmbeddingKey(c.chunkId, modelName);
      assert k in records ==> HasRecord(records, k.chunkId);
      assert c.chunkId in IdsOf(groups[i]);
    }
  }
}
