/**
 * Exactly which interruptions leave a chunk with a record but not Ready, and what becomes of such a chunk.
 */
module Stranding {
  import opened Chains
  import opened CrashSafety
  import opened Diary
  import opened GuardedPlans
  import opened IngestEffects
  import opened Lifecycle
  import opened Models
  import opened Plans
  import opened Reconciliation
  import opened Replay
  import opened RetryEffects
  import opened Settling
  import opened Sorting
  import opened Tables
  import opened Wrappers

  // ---- Sequences of writes that break agreement only between a record and its status ----

  /** A write that leaves every recorded chunk Ready if it found them so. */
  ghost predicate Harmless(d: Diary, w: Write) {
    match w
    case SaveRecord(_) => false
    case SaveChunk(c) => !HasRecord(d.embeddings, c.chunkId)
    case SetChunkStatus(id, status) => status == Ready || !HasRecord(d.embeddings, id)
    case _ => true
  }

  /** A record for a chunk that is not Ready, and the status that must follow it. */
  ghost predicate RecordThenReady(d: Diary, w: Write, x: Write) {
    && w.SaveRecord? && w.record.chunkId in d.chunks.rows && d.chunks.rows[w.record.chunkId].status != Ready
    && x == SetChunkStatus(w.record.chunkId, Ready)
  }

  ghost predicate Orderly(d: Diary, ws: seq<Write>)
    decreases |ws|
  {
    || ws == []
    || (Harmless(d, ws[0]) && Orderly(Apply(d, ws[0]), ws[1..]))
    || (|ws| >= 2 && RecordThenReady(d, ws[0], ws[1]) && Orderly(Apply(Apply(d, ws[0]), ws[1]), ws[2..]))
  }

  lemma HarmlessKeeps(d: Diary, w: Write)
    requires RecordsAgree(d.chunks.rows, d.embeddings) && Harmless(d, w)
    ensures RecordsAgree(Apply(d, w).chunks.rows, Apply(d, w).embeddings)
  {
  }

  lemma PairBreaksAndMends(d: Diary, w: Write, x: Write)
    requires RecordsAgree(d.chunks.rows, d.embeddings) && RecordThenReady(d, w, x)
    ensures !RecordsAgree(Apply(d, w).chunks.rows, Apply(d, w).embeddings)
    ensures var e := Apply(Apply(d, w), x); RecordsAgree(e.chunks.rows, e.embeddings)
  {
    var id, e := w.record.chunkId, Apply(d, w);
    assert w.record.Key() in e.embeddings;
    assert HasRecord(e.embeddings, id);
    forall c | c in e.chunks.rows && c != id && HasRecord(e.embeddings, c) ensures HasRecord(d.embeddings, c) {
      var k :| k in e.embeddings && k.chunkId == c;
      assert k in d.embeddings;
    }
  }

  lemma TwoSteps(d: Diary, ws: seq<Write>, k: nat)
    requires |ws| >= 2 && k >= 2
    ensures ApplyAll(d, Take(ws, k)) == ApplyAll(Apply(Apply(d, ws[0]), ws[1]), Take(ws[2..], k - 2))
  {
    TakeStep(d, ws, k);
    TakeStep(Apply(d, ws[0]), ws[1..], k - 1);
    assert ws[1..][1..] == ws[2..];
  }

  lemma OneWrite(d: Diary, ws: seq<Write>)
    requires ws != []
    ensures ApplyAll(d, Take(ws, 1)) == Apply(d, ws[0])
  {
    TakeStep(d, ws, 1);
    TakeNone(Apply(d, ws[0]), ws[1..]);
  }

  /** The cut fell right after a record. */
  predicate AfterRecord(ws: seq<Write>, k: nat) {
    0 < k <= |ws| && ws[k - 1].SaveRecord?
  }

  lemma {:induction false} OrderlyCut(d: Diary, ws: seq<Write>, k: nat)
    requires RecordsAgree(d.chunks.rows, d.embeddings) && Orderly(d, ws)
    ensures var e := ApplyAll(d, Take(ws, k)); RecordsAgree(e.chunks.rows, e.embeddings) <==> !AfterRecord(ws, k)
    decreases |ws|
  {
    if ws == [] || k == 0 {
      assert Take(ws, k) == Take(ws, 0);
      TakeNone(d, ws);
    } else if Harmless(d, ws[0]) {
      HarmlessKeeps(d, ws[0]);
      TakeStep(d, ws, k);
      OrderlyCut(Apply(d, ws[0]), ws[1..], k - 1);
    } else {
      PairBreaksAndMends(d, ws[0], ws[1]);
      if k == 1 {
        OneWrite(d, ws);
      } else {
        TwoSteps(d, ws, k);
        OrderlyCut(Apply(Apply(d, ws[0]), ws[1]), ws[2..], k - 2);
      }
    }
  }

  lemma {:induction false} OrderlyEnds(d: Diary, ws: seq<Write>)
    requires Orderly(d, ws) && ws != []
    ensures !ws[|ws| - 1].SaveRecord?
    decreases |ws|
  {
    if Harmless(d, ws[0]) {
      if |ws| > 1 {
        OrderlyEnds(Apply(d, ws[0]), ws[1..]);
      }
    } else if |ws| > 2 {
      OrderlyEnds(Apply(Apply(d, ws[0]), ws[1]), ws[2..]);
    }
  }

  lemma {:induction false} OrderlyConcat(d: Diary, a: seq<Write>, b: seq<Write>)
    requires Orderly(d, a) && Orderly(ApplyAll(d, a), b)
    ensures Orderly(d, a + b)
    decreases |a|
  {
    if a == [] {
      assert a + b == b;
    } else if Harmless(d, a[0]) {
      assert (a + b)[1..] == a[1..] + b;
      OrderlyConcat(Apply(d, a[0]), a[1..], b);
    } else {
      ApplyPastTwo(d, a);
      OrderlyConcat(Apply(Apply(d, a[0]), a[1]), a[2..], b);
      PairInFront(d, a, b);
    }
  }

  lemma PairInFront(d: Diary, a: seq<Write>, b: seq<Write>)
    requires |a| >= 2 && RecordThenReady(d, a[0], a[1]) && Orderly(Apply(Apply(d, a[0]), a[1]), a[2..] + b)
    ensures Orderly(d, a + b)
  {
    assert (a + b)[2..] == a[2..] + b;
  }

  lemma ApplyPastTwo(d: Diary, ws: seq<Write>)
    requires |ws| >= 2
    ensures ApplyAll(d, ws) == ApplyAll(Apply(Apply(d, ws[0]), ws[1]), ws[2..])
  {
    assert ws[1..][0] == ws[1] && ws[1..][1..] == ws[2..];
  }

  /** Writes that touch neither chunks' statuses nor records. */
  predicate Aside(w: Write) {
    !w.SaveRecord? && !w.SaveChunk? && !w.SetChunkStatus?
  }

  lemma {:induction false} AsideIsOrderly(d: Diary, ws: seq<Write>)
    requires forall w :: w in ws ==> Aside(w)
    ensures Orderly(d, ws)
    decreases |ws|
  {
    if ws != [] {
      assert Aside(ws[0]);
      AsideIsOrderly(Apply(d, ws[0]), ws[1..]);
    }
  }

  lemma OrderlyOne(d: Diary, w: Write)
    requires Harmless(d, w)
    ensures Orderly(d, [w])
  {
    assert [w][1..] == [];
  }

  lemma OrderlyTwo(d: Diary, w: Write, x: Write)
    requires Harmless(d, w) && Harmless(Apply(d, w), x)
    ensures Orderly(d, [w, x])
  {
    assert [w, x][1..] == [x];
    OrderlyOne(Apply(d, w), x);
  }

  lemma OrderlyPair(d: Diary, w: Write, x: Write)
    requires RecordThenReady(d, w, x)
    ensures Orderly(d, [w, x])
  {
    assert [w, x][2..] == [];
  }

  // ---- Ingest and delete ----

  lemma RetiresAside(prior: Prior, state: LifecycleState)
    ensures forall w :: w in RetireWrites(prior, state) ==> Aside(w)
  {
    RetireMembers(prior, state);
  }

  lemma SavesOrderly(d: Diary, dl: Delivery, parsed: ParsedNote, prior: Prior)
    requires !HasRecord(d.embeddings, dl.env.chunkId)
    ensures Orderly(d, SaveWrites(dl, parsed, prior))
  {
    var n, c := NewNote(dl, parsed, prior.note), NewChunk(dl, parsed, prior.chunk);
    if parsed.body == "" {
      OrderlyOne(d, SaveNote(n));
    } else {
      OrderlyTwo(d, SaveNote(n), SaveChunk(c));
    }
  }

  lemma EmbedOrderly(d: Diary, env: IngestEnv, communityId: Id)
    requires env.chunkId in d.chunks.rows && d.chunks.rows[env.chunkId].status == Pending && !HasRecord(d.embeddings, env.chunkId)
    ensures Orderly(d, EmbedPlan(env, communityId).writes)
  {
    if env.client == None {
    } else if env.embed.EmbedFailed? {
      var mark := SetChunkStatus(env.chunkId, Failed);
      if env.letterSaved {
        OrderlyTwo(d, mark, SaveDeadLetter(IngestLetter(env, communityId, env.embed.errorClass)));
      } else {
        OrderlyOne(d, mark);
      }
    } else if |env.embed.vectors| == 1 {
      var r := NewRecord(env.recordId, env.chunkId, env.sourceId, communityId, env.client.value, env.embed.vectors[0], env.now);
      OrderlyPair(d, SaveRecord(r), SetChunkStatus(env.chunkId, Ready));
    }
  }

  /** Before the embedding step: the new chunk is in place, Pending, and nothing was recorded. */
  lemma BeforeEmbedding(d: Diary, dl: Delivery)
    requires Captured(d, dl) && dl.parsed.Some? && dl.parsed.value.body != ""
    ensures var parsed := dl.parsed.value;
            var prior := PriorFor(d, dl.message.chatId, dl.message.messageId, dl.message.communityId);
            var e := ApplyAll(ApplyAll(d, SaveWrites(dl, parsed, prior)), RetireWrites(prior, Superseded));
            && dl.env.chunkId in e.chunks.rows && e.chunks.rows[dl.env.chunkId].status == Pending && e.embeddings == d.embeddings
  {
    var parsed := dl.parsed.value;
    var prior := PriorFor(d, dl.message.chatId, dl.message.messageId, dl.message.communityId);
    PriorRetirable(d, dl.message.chatId, dl.message.messageId, dl.message.communityId);
    ChunkInPlace(d, dl, parsed, prior);
    SaveEffect(d, dl, parsed, prior);
    RetireEffect(ApplyAll(d, SaveWrites(dl, parsed, prior)), prior, Superseded);
  }

  lemma CaptureOrderly(d: Diary, dl: Delivery)
    requires Captured(d, dl) && dl.message.route != DraftRoute && dl.parsed.Some? && dl.message.communityId != ""
    ensures Orderly(d, CapturePlan(d, dl).writes)
  {
    var parsed := dl.parsed.value;
    var prior := PriorFor(d, dl.message.chatId, dl.message.messageId, dl.message.communityId);
    var saves, retires := SaveWrites(dl, parsed, prior), RetireWrites(prior, Superseded);
    var embeds := if parsed.body == "" then [] else EmbedPlan(dl.env, dl.message.communityId).writes;
    SavesOrderly(d, dl, parsed, prior);
    RetiresAside(prior, Superseded);
    AsideIsOrderly(ApplyAll(d, saves), retires);
    OrderlyConcat(d, saves, retires);
    ApplyConcat(d, saves, retires);
    if parsed.body != "" {
      BeforeEmbedding(d, dl);
      EmbedOrderly(ApplyAll(ApplyAll(d, saves), retires), dl.env, dl.message.communityId);
    }
    OrderlyConcat(d, saves + retires, embeds);
  }

  lemma NoRevisionAside(d: Diary, dl: Delivery)
    requires dl.message.Key() !in d.idempotency && !NewRevision(d, dl)
    ensures forall w :: w in CapturePlan(WithSource(d, dl), dl).writes ==> Aside(w)
  {
    RetiresAside(Replaced(d, dl), Tombstoned);
  }

  lemma IngestOrderly(d: Diary, dl: Delivery)
    requires Sound(d) && FreshIds(d, dl.env)
    ensures Orderly(d, IngestPlan(d, dl).writes)
  {
    if dl.message.Key() !in d.idempotency {
      var save, e := SaveSource(NewSource(dl)), WithSource(d, dl);
      SourceGuarded(d, dl);
      OrderlyOne(d, save);
      ApplyOne(d, save);
      if NewRevision(d, dl) {
        CaptureOrderly(e, dl);
      } else {
        NoRevisionAside(d, dl);
        AsideIsOrderly(e, CapturePlan(e, dl).writes);
      }
      OrderlyConcat(d, [save], CapturePlan(e, dl).writes);
    }
  }

  // ---- Retry ----

  /** A source has one chunk, so a group has no more. */
  lemma GroupsAreSingle(d: Diary, communityId: Id, limit: Option<nat>)
    requires Sound(d)
    ensures forall g :: g in Groups(FailedChunks(d, communityId, limit)) ==> |g.chunks| <= 1
  {
    var groups := Groups(FailedChunks(d, communityId, limit));
    ListedGroups(d, communityId, limit);
    ListedEmbeddable(d, communityId, limit);
    forall g | g in groups ensures |g.chunks| <= 1 {
      var i :| 0 <= i < |groups| && groups[i] == g;
      SingleGroup(d, communityId, g);
    }
  }

  lemma SingleGroup(d: Diary, communityId: Id, g: Group)
    requires NotesLinked(d.notes.rows, d.sources.rows) && ChunksLinked(d.chunks.rows, d.notes.rows)
    requires NoRepeat(g.chunks) && Embeddable(d.chunks.rows, communityId, g)
    ensures |g.chunks| <= 1
  {
    if g.chunks != [] {
      assert g.chunks[0] in g.chunks;
      forall id | id in ChunkIds(g.chunks) ensures id in [g.chunks[0].chunkId] {
        var i :| 0 <= i < |g.chunks| && g.chunks[i].chunkId == id;
        assert g.chunks[i] in g.chunks;
        OneChunk(d, id, g.chunks[0].chunkId);
      }
      DistinctFits(ChunkIds(g.chunks), [g.chunks[0].chunkId]);
    }
  }

  lemma GroupOrderly(d: Diary, communityId: Id, g: Group, env: RetryEnv, ge: GroupEnv)
    requires |g.chunks| <= 1
    requires forall c :: c in g.chunks ==>
               c.chunkId in d.chunks.rows && d.chunks.rows[c.chunkId].status != Ready && !HasRecord(d.embeddings, c.chunkId)
    ensures Orderly(d, RetryGroup(d, communityId, g, env, ge).writes)
  {
    if ge.embed.Vectors? && |ge.embed.vectors| == |g.chunks| {
      if g.chunks != [] {
        OneChunkGroup(d, communityId, g, env, ge);
      }
    } else {
      AsideIsOrderly(d, LetterWrites(g, communityId, env, ge, if ge.embed.EmbedFailed? then ge.embed.errorClass else "ValueError"));
    }
  }

  lemma OneChunkGroup(d: Diary, communityId: Id, g: Group, env: RetryEnv, ge: GroupEnv)
    requires |g.chunks| == 1 && ge.embed.Vectors? && |ge.embed.vectors| == 1
    requires var id := g.chunks[0].chunkId;
             id in d.chunks.rows && d.chunks.rows[id].status != Ready && !HasRecord(d.embeddings, id)
    ensures Orderly(d, RetryGroup(d, communityId, g, env, ge).writes)
  {
    var records := GroupRecords(g, communityId, env.now, env.client, ge.embed.vectors, ge.recordIds);
    var r := records[0];
    assert r.Key() in d.embeddings ==> HasRecord(d.embeddings, r.Key().chunkId);
    assert records == [r] && g.chunks == [g.chunks[0]];
    assert records[1..] == [] && g.chunks[1..] == [];
    assert SavableRecords(d, records) == 1;
    assert SaveRecords(records) == [SaveRecord(r)];
    assert SetStatuses(g.chunks, Ready) == [SetChunkStatus(g.chunks[0].chunkId, Ready)];
    OrderlyPair(d, SaveRecord(r), SetChunkStatus(g.chunks[0].chunkId, Ready));
    assert RetryGroup(d, communityId, g, env, ge).writes == [SaveRecord(r), SetChunkStatus(g.chunks[0].chunkId, Ready)];
  }

  // ---- The whole retry ----

  /** A chunk of a group not yet handled has the status it started with. */
  lemma NotYetReadied(d: Diary, groups: seq<Group>, env: RetryEnv, n: nat, outcomes: seq<GroupOutcome>, e: Diary, id: Id)
    requires n == |outcomes| < |groups| && Disjoint(groups) && Retried(d, groups, env, n, outcomes, e)
    requires id in IdsOf(groups[n]) && id in d.chunks.rows
    ensures id in e.chunks.rows && e.chunks.rows[id] == d.chunks.rows[id]
  {
    if id in SucceededIds(outcomes) {
      var o :| o in outcomes && o.succeeded && id in o.chunkIds;
      var i :| 0 <= i < |outcomes| && outcomes[i] == o;
      IdsOfOutcome(groups[i]);
    }
  }

  lemma PassOrderly(d: Diary, communityId: Id, groups: seq<Group>, env: RetryEnv, n: nat)
    requires n < |groups| && Disjoint(groups) && AllStored(d.chunks.rows, groups) && Unrecorded(d.embeddings, groups)
    requires |groups[n].chunks| <= 1
    requires forall c :: c in groups[n].chunks ==> d.chunks.rows[c.chunkId].status == Failed
    ensures Orderly(ApplyAll(d, RetryUpTo(d, communityId, groups, env, n).writes),
                    RetryGroup(ApplyAll(d, RetryUpTo(d, communityId, groups, env, n).writes), communityId, groups[n], env, env.groups(n)).writes)
  {
    RetryUpToEffect(d, communityId, groups, env, n);
    var r := RetryUpTo(d, communityId, groups, env, n);
    var e := ApplyAll(d, r.writes);
    StillUnrecorded(d.embeddings, e.embeddings, groups, n);
    forall c | c in groups[n].chunks
      ensures c.chunkId in e.chunks.rows && e.chunks.rows[c.chunkId].status != Ready && !HasRecord(e.embeddings, c.chunkId)
    {
      assert c.chunkId in IdsOf(groups[n]);
      NotYetReadied(d, groups, env, n, r.outcomes, e, c.chunkId);
    }
    GroupOrderly(e, communityId, groups[n], env, env.groups(n));
  }

  lemma {:induction false} RetryUpToOrderly(d: Diary, communityId: Id, groups: seq<Group>, env: RetryEnv, n: nat)
    requires n <= |groups| && Disjoint(groups) && AllStored(d.chunks.rows, groups) && Unrecorded(d.embeddings, groups)
    requires forall g :: g in groups ==> |g.chunks| <= 1
    requires forall g, c :: g in groups && c in g.chunks ==> c.chunkId in d.chunks.rows && d.chunks.rows[c.chunkId].status == Failed
    ensures Orderly(d, RetryUpTo(d, communityId, groups, env, n).writes)
  {
    if n > 0 {
      RetryUpToOrderly(d, communityId, groups, env, n - 1);
      assert groups[n - 1] in groups;
      PassOrderly(d, communityId, groups, env, n - 1);
      var before := RetryUpTo(d, communityId, groups, env, n - 1).writes;
      OrderlyConcat(d, before, RetryGroup(ApplyAll(d, before), communityId, groups[n - 1], env, env.groups(n - 1)).writes);
    }
  }

  lemma ListedAreFailed(d: Diary, communityId: Id, limit: Option<nat>)
    requires Consistent(d)
    ensures forall g, c :: g in Groups(FailedChunks(d, communityId, limit)) && c in g.chunks ==>
              c.chunkId in d.chunks.rows && d.chunks.rows[c.chunkId].status == Failed
  {
    FailedAreStored(d, communityId, limit);
    GroupsHold(FailedChunks(d, communityId, limit));
    forall g, c | g in Groups(FailedChunks(d, communityId, limit)) && c in g.chunks
      ensures c.chunkId in d.chunks.rows && d.chunks.rows[c.chunkId].status == Failed
    {
      assert Held(Groups(FailedChunks(d, communityId, limit)), c);
    }
  }

  lemma RetryOrderly(d: Diary, communityId: Id, limit: Option<nat>, env: RetryEnv)
    requires Sound(d) && RecordsAgree(d.chunks.rows, d.embeddings) && communityId != ""
    ensures Orderly(d, RetryPlan(d, communityId, limit, env).writes)
  {
    var groups := Groups(FailedChunks(d, communityId, limit));
    ListedGroups(d, communityId, limit);
    GroupsAreSingle(d, communityId, limit);
    ListedAreFailed(d, communityId, limit);
    FailedUnrecorded(d, communityId, limit);
    RetryUpToOrderly(d, communityId, groups, env, |groups|);
  }

  lemma OpOrderly(d: Diary, op: Op)
    requires Sound(d) && RecordsAgree(d.chunks.rows, d.embeddings) && Fresh(d, op)
    ensures Orderly(d, Writes(d, op))
  {
    match op
    case Ingest(dl) => IngestOrderly(d, dl);
    case Delete(chatId, messageId, communityId) =>
      RetiresAside(PriorFor(d, chatId, messageId, communityId), Tombstoned);
      AsideIsOrderly(d, Writes(d, op));
    case Retry(communityId, limit, env) =>
      if communityId != "" {
        RetryOrderly(d, communityId, limit, env);
      }
  }

  /** The event stopped its operation right after the write of a record. */
  predicate Strands(d: Diary, ev: Event) {
    ev.cut.Some? && AfterRecord(Writes(d, ev.op), ev.cut.value)
  }

  /** An interruption breaks the agreement of records and statuses exactly when it falls right after a record. */
  lemma AgreesUnlessStranded(d: Diary, ev: Event)
    requires Sound(d) && RecordsAgree(d.chunks.rows, d.embeddings) && Fresh(d, ev.op)
    ensures RecordsAgree(After(d, ev).chunks.rows, After(d, ev).embeddings) <==> !Strands(d, ev)
  {
    var ws := Writes(d, ev.op);
    OpOrderly(d, ev.op);
    if ev.cut.Some? {
      OrderlyCut(d, ws, ev.cut.value);
    } else {
      OrderlyCut(d, ws, |ws|);
      assert Take(ws, |ws|) == ws;
      if ws != [] {
        OrderlyEnds(d, ws);
      }
    }
  }

  // ---- What becomes of a stranded chunk ----

  /** A write that changes neither the chunk's status nor the chunk it stands for. */
  predicate Spares(w: Write, id: Id) {
    (w.SetChunkStatus? ==> w.chunkId != id) && (w.SaveChunk? ==> w.chunk.chunkId != id)
  }

  lemma SparedOnce(d: Diary, w: Write, id: Id)
    requires id in d.chunks.rows && Spares(w, id)
    ensures var e := Apply(d, w);
            && id in e.chunks.rows && e.chunks.rows[id].status == d.chunks.rows[id].status
            && (forall k :: k in d.embeddings ==> k in e.embeddings)
  {
  }

  lemma {:induction false} SparedStays(d: Diary, ws: seq<Write>, id: Id)
    requires id in d.chunks.rows && forall w :: w in ws ==> Spares(w, id)
    ensures var e := ApplyAll(d, ws);
            && id in e.chunks.rows && e.chunks.rows[id].status == d.chunks.rows[id].status
            && (forall k :: k in d.embeddings ==> k in e.embeddings)
    decreases |ws|
  {
    if ws != [] {
      SparedOnce(d, ws[0], id);
      SparedStays(Apply(d, ws[0]), ws[1..], id);
    }
  }

  /** Records saved before the first one already there are all new. */
  lemma {:induction false} SavedAreNew(d: Diary, records: seq<EmbeddingRecord>)
    requires SavableRecords(d, records) == |records|
    ensures forall r :: r in records ==> r.Key() !in d.embeddings
    decreases |records|
  {
    if records != [] {
      var e := Apply(d, SaveRecord(records[0]));
      SavedAreNew(e, records[1..]);
      assert forall r :: r in records ==> r == records[0] || r in records[1..];
    }
  }

  lemma GroupSpares(d: Diary, communityId: Id, g: Group, env: RetryEnv, ge: GroupEnv, id: Id)
    requires (forall c :: c in g.chunks ==> c.chunkId != id) || EmbeddingKey(id, env.client.modelName) in d.embeddings
    ensures forall w :: w in RetryGroup(d, communityId, g, env, ge).writes ==> Spares(w, id)
  {
    if ge.embed.Vectors? && |ge.embed.vectors| == |g.chunks| {
      var records := GroupRecords(g, communityId, env.now, env.client, ge.embed.vectors, ge.recordIds);
      var n := SavableRecords(d, records);
      RecordWrites(records);
      RecordWrites(records[..n]);
      StatusWrites(g.chunks, Ready);
      if n == |records| {
        SavedAreNew(d, records);
        forall c | c in g.chunks ensures c.chunkId != id {
          var i :| 0 <= i < |g.chunks| && g.chunks[i] == c;
          assert records[i] in records;
        }
      }
    }
  }

  ghost predicate Unlisted(groups: seq<Group>, id: Id) {
    forall g, c :: g in groups && c in g.chunks ==> c.chunkId != id
  }

  lemma {:induction false} RetrySpares(d: Diary, communityId: Id, groups: seq<Group>, env: RetryEnv, n: nat, id: Id)
    requires n <= |groups| && id in d.chunks.rows
    requires Unlisted(groups, id) || EmbeddingKey(id, env.client.modelName) in d.embeddings
    ensures forall w :: w in RetryUpTo(d, communityId, groups, env, n).writes ==> Spares(w, id)
  {
    if n > 0 {
      RetrySpares(d, communityId, groups, env, n - 1, id);
      var before := RetryUpTo(d, communityId, groups, env, n - 1).writes;
      SparedStays(d, before, id);
      assert groups[n - 1] in groups;
      GroupSpares(ApplyAll(d, before), communityId, groups[n - 1], env, env.groups(n - 1), id);
    }
  }

  /** The operations that cannot change a chunk's status: a retry needs to list it and to be the first with its model. */
  ghost predicate OutOfReach(d: Diary, op: Op, id: Id) {
    && id in d.chunks.rows
    && (op.Retry? ==> d.chunks.rows[id].status != Failed || EmbeddingKey(id, op.env.client.modelName) in d.embeddings)
  }

  lemma OpSpares(d: Diary, op: Op, id: Id)
    requires Sound(d) && Fresh(d, op) && OutOfReach(d, op, id)
    ensures forall w :: w in Writes(d, op) ==> Spares(w, id)
  {
    match op
    case Ingest(dl) => IngestSpares(d, dl, id);
    case Delete(chatId, messageId, communityId) => DeleteSpares(d, chatId, messageId, communityId, id);
    case Retry(communityId, limit, env) => RetryPlanSpares(d, communityId, limit, env, id);
  }

  lemma DeleteSpares(d: Diary, chatId: Id, messageId: Id, communityId: Id, id: Id)
    ensures forall w :: w in DeletePlan(d, chatId, messageId, communityId).writes ==> Spares(w, id)
  {
    RetiresAside(PriorFor(d, chatId, messageId, communityId), Tombstoned);
  }

  lemma IngestSpares(d: Diary, dl: Delivery, id: Id)
    requires FreshIds(d, dl.env) && id in d.chunks.rows
    ensures forall w :: w in Writes(d, Ingest(dl)) ==> Spares(w, id)
  {
    IngestShape(d, dl);
    forall w | w in IngestPlan(d, dl).writes ensures Spares(w, id) {
      assert IngestWrite(w, d, dl);
    }
  }

  lemma UnlistedUnlessFailed(d: Diary, communityId: Id, limit: Option<nat>, id: Id)
    requires Consistent(d) && id in d.chunks.rows && d.chunks.rows[id].status != Failed
    ensures Unlisted(Groups(FailedChunks(d, communityId, limit)), id)
  {
    ListedAreFailed(d, communityId, limit);
  }

  lemma ListedSpares(d: Diary, communityId: Id, limit: Option<nat>, env: RetryEnv, id: Id)
    requires id in d.chunks.rows && communityId != ""
    requires Unlisted(Groups(FailedChunks(d, communityId, limit)), id) || EmbeddingKey(id, env.client.modelName) in d.embeddings
    ensures forall w :: w in RetryPlan(d, communityId, limit, env).writes ==> Spares(w, id)
  {
    var groups := Groups(FailedChunks(d, communityId, limit));
    RetrySpares(d, communityId, groups, env, |groups|, id);
  }

  lemma RetryPlanSpares(d: Diary, communityId: Id, limit: Option<nat>, env: RetryEnv, id: Id)
    requires Consistent(d) && OutOfReach(d, Retry(communityId, limit, env), id)
    ensures forall w :: w in Writes(d, Retry(communityId, limit, env)) ==> Spares(w, id)
  {
    if communityId != "" {
      if d.chunks.rows[id].status != Failed {
        UnlistedUnlessFailed(d, communityId, limit, id);
      }
      ListedSpares(d, communityId, limit, env, id);
    }
  }

  lemma OutOfReachStays(d: Diary, ev: Event, id: Id)
    requires Sound(d) && Fresh(d, ev.op) && OutOfReach(d, ev.op, id)
    ensures var e := After(d, ev);
            && id in e.chunks.rows && e.chunks.rows[id].status == d.chunks.rows[id].status
            && (forall k :: k in d.embeddings ==> k in e.embeddings)
  {
    OpSpares(d, ev.op, id);
    WritesOf(d, ev);
    var ws: seq<Write> :| After(d, ev) == ApplyAll(d, ws) && forall w :: w in ws ==> w in Writes(d, ev.op);
    SparedStays(d, ws, id);
  }

  lemma PendingAfter(evs: seq<Event>, id: Id)
    requires evs != [] && FreshRun(evs)
    requires var d := Run(evs[..|evs| - 1]); id in d.chunks.rows && d.chunks.rows[id].status == Pending
    ensures id in Run(evs).chunks.rows && Run(evs).chunks.rows[id].status == Pending
  {
    RunSound(evs[..|evs| - 1]);
    OutOfReachStays(Run(evs[..|evs| - 1]), evs[|evs| - 1], id);
  }

  /** A Pending chunk is Pending for ever: no run of any operations, retries included, ever embeds it. */
  lemma {:induction false} PendingForEver(evs: seq<Event>, n: nat, id: Id)
    requires FreshRun(evs) && n <= |evs|
    requires id in Run(evs[..n]).chunks.rows && Run(evs[..n]).chunks.rows[id].status == Pending
    ensures id in Run(evs).chunks.rows && Run(evs).chunks.rows[id].status == Pending
  {
    if n == |evs| {
      assert evs[..n] == evs;
    } else {
      assert evs[..|evs| - 1][..n] == evs[..n];
      PendingForEver(evs[..|evs| - 1], n, id);
      PendingAfter(evs, id);
    }
  }

  /** An ingest stopped between its record and its status leaves a Pending chunk with a record: out of retrieval, and out of every retry. */
  lemma IngestStrands(d: Diary, dl: Delivery)
    requires Sound(d) && FreshIds(d, dl.env) && NewRevision(d, dl) && dl.parsed.value.body != "" && FinalStatus(dl.env) == Ready
    ensures var ev := Event(Ingest(dl), Some(|Writes(d, Ingest(dl))| - 1));
            var e := After(d, ev);
            && Strands(d, ev) && dl.env.chunkId in e.chunks.rows && e.chunks.rows[dl.env.chunkId].status == Pending
            && HasRecord(e.embeddings, dl.env.chunkId)
  {
    SourceGuarded(d, dl);
    BeforeEmbedding(WithSource(d, dl), dl);
    StoppedBeforeReady(d, dl);
  }

  lemma StoppedBeforeReady(d: Diary, dl: Delivery)
    requires NewRevision(d, dl) && dl.parsed.value.body != "" && FinalStatus(dl.env) == Ready
    requires var e := ApplyAll(ApplyAll(WithSource(d, dl), SaveWrites(dl, dl.parsed.value, Replaced(d, dl))),
                               RetireWrites(Replaced(d, dl), Superseded));
             dl.env.chunkId in e.chunks.rows && e.chunks.rows[dl.env.chunkId].status == Pending
    ensures var ev := Event(Ingest(dl), Some(|Writes(d, Ingest(dl))| - 1));
            var e := After(d, ev);
            && Strands(d, ev) && dl.env.chunkId in e.chunks.rows && e.chunks.rows[dl.env.chunkId].status == Pending
            && HasRecord(e.embeddings, dl.env.chunkId)
  {
    var e, parsed, prior := WithSource(d, dl), dl.parsed.value, Replaced(d, dl);
    var saves, retires := SaveWrites(dl, parsed, prior), RetireWrites(prior, Superseded);
    var embeds := EmbedPlan(dl.env, dl.message.communityId).writes;
    StepPieces(d, dl, saves, retires, embeds);
    RecordLands(ApplyAll(ApplyAll(e, saves), retires), dl.env, dl.message.communityId);
    LastDropped(d, SaveSource(NewSource(dl)), saves, retires, embeds);
  }

  lemma RecordLands(d: Diary, env: IngestEnv, communityId: Id)
    requires FinalStatus(env) == Ready && env.chunkId in d.chunks.rows && d.chunks.rows[env.chunkId].status == Pending
    ensures var embeds := EmbedPlan(env, communityId).writes;
            && |embeds| == 2 && embeds[0].SaveRecord?
            && var e := ApplyAll(d, [embeds[0]]);
               env.chunkId in e.chunks.rows && e.chunks.rows[env.chunkId].status == Pending && HasRecord(e.embeddings, env.chunkId)
  {
    var w := EmbedPlan(env, communityId).writes[0];
    ApplyOne(d, w);
    assert w.record.Key() in Apply(d, w).embeddings;
  }

  lemma LastDropped(d: Diary, w: Write, a: seq<Write>, b: seq<Write>, c: seq<Write>)
    requires |c| == 2
    ensures var ws := [w] + (a + b + c);
            && Take(ws, |ws| - 1) == [w] + (a + b + [c[0]]) && ws[|ws| - 2] == c[0]
            && ApplyAll(d, Take(ws, |ws| - 1)) == ApplyAll(ApplyAll(ApplyAll(Apply(d, w), a), b), [c[0]])
  {
    ApplyOne(d, w);
    ApplyConcat(d, [w], a + b + [c[0]]);
    ApplyConcat(Apply(d, w), a, b);
    ApplyConcat(Apply(d, w), a + b, [c[0]]);
  }

  lemma RaisedIsPending(d: Diary, dl: Delivery)
    requires Sound(d) && FreshIds(d, dl.env) && dl.message.Key() !in d.idempotency
    requires IngestPlan(d, dl).result.Raised? && dl.message.communityId != ""
    ensures var e := Step(d, Ingest(dl)); dl.env.chunkId in e.chunks.rows && e.chunks.rows[dl.env.chunkId].status == Pending
  {
    RaisesWhen(d, dl);
    NoteIngestEffect(d, dl);
  }

  /**
   * A first delivery that raised over the provider's vectors leaves its chunk Pending and unrecorded:
   * its redeliveries report success, and no later run embeds it.
   */
  lemma RaisedLeavesPending(evs: seq<Event>, n: nat)
    requires FreshRun(evs) && n < |evs| && evs[n].op.Ingest? && evs[n].cut == None
    requires evs[n].op.delivery.message.Key() !in Run(evs[..n]).idempotency
    requires IngestPlan(Run(evs[..n]), evs[n].op.delivery).result.Raised? && evs[n].op.delivery.message.communityId != ""
    ensures var id := evs[n].op.delivery.env.chunkId;
            id in Run(evs).chunks.rows && Run(evs).chunks.rows[id].status == Pending
  {
    var d, dl := Run(evs[..n]), evs[n].op.delivery;
    FreshPrefix(evs, n);
    FreshPrefix(evs, n + 1);
    assert evs[..n + 1][..n] == evs[..n];
    RunSound(evs[..n]);
    RaisedIsPending(d, dl);
    PendingForEver(evs, n + 1, dl.env.chunkId);
  }

  /** Such a run exists: the first delivery of all, stopped after its fourth write. */
  lemma StrandedRun(dl: Delivery)
    requires dl.message.route != DraftRoute && dl.parsed.Some? && dl.parsed.value.body != "" && dl.message.communityId != ""
    requires FinalStatus(dl.env) == Ready
    ensures var evs := [Event(Ingest(dl), Some(|Writes(EMPTY, Ingest(dl))| - 1))];
            FreshRun(evs) && !RecordsAgree(Run(evs).chunks.rows, Run(evs).embeddings)
  {
    var ev := Event(Ingest(dl), Some(|Writes(EMPTY, Ingest(dl))| - 1));
    EmptyIsSound();
    IngestStrands(EMPTY, dl);
    RunOfOne(ev);
  }

  lemma EmptyIsSound()
    ensures Sound(EMPTY)
  {
  }

  lemma RunOfOne(ev: Event)
    ensures Run([ev]) == After(EMPTY, ev)
    ensures FreshRun([ev]) <==> Fresh(EMPTY, ev.op)
  {
    assert [ev][..0] == [];
    assert Run([]) == EMPTY && FreshRun([]);
  }

  // ---- Whole runs under one model ----

  predicate OneModel(op: Op, modelName: string) {
    match op
    case Ingest(dl) => dl.env.client.Some? ==> dl.env.client.value.modelName == modelName
    case Delete(_, _, _) => true
    case Retry(_, _, env) => env.client.modelName == modelName
  }

  ghost predicate ModelRun(evs: seq<Event>, modelName: string) {
    forall i :: 0 <= i < |evs| ==> OneModel(evs[i].op, modelName)
  }

  ghost predicate AllUnder(records: Records, modelName: string) {
    forall k :: k in records ==> k.modelName == modelName
  }

  predicate UnderModel(w: Write, modelName: string) {
    w.SaveRecord? ==> w.record.modelName == modelName
  }

  lemma {:induction false} StillUnder(d: Diary, ws: seq<Write>, modelName: string)
    requires AllUnder(d.embeddings, modelName) && forall w :: w in ws ==> UnderModel(w, modelName)
    ensures AllUnder(ApplyAll(d, ws).embeddings, modelName)
    decreases |ws|
  {
    if ws != [] {
      assert UnderModel(ws[0], modelName);
      StillUnder(Apply(d, ws[0]), ws[1..], modelName);
    }
  }

  lemma PiecesUnder(dl: Delivery, parsed: ParsedNote, prior: Prior, modelName: string)
    requires OneModel(Ingest(dl), modelName)
    ensures forall w :: w in SaveWrites(dl, parsed, prior) ==> UnderModel(w, modelName)
    ensures forall w :: w in RetireWrites(prior, Superseded) ==> UnderModel(w, modelName)
    ensures forall w :: w in EmbedPlan(dl.env, dl.message.communityId).writes ==> UnderModel(w, modelName)
  {
    RetireMembers(prior, Superseded);
    PiecesNoFlip(dl, parsed, prior);
  }

  lemma RevisionUnder(d: Diary, dl: Delivery, modelName: string)
    requires OneModel(Ingest(dl), modelName) && NewRevision(d, dl)
    ensures forall w :: w in Writes(d, Ingest(dl)) ==> UnderModel(w, modelName)
  {
    var prior := Replaced(d, dl);
    var saves, retires := SaveWrites(dl, dl.parsed.value, prior), RetireWrites(prior, Superseded);
    var embeds := if dl.parsed.value.body == "" then [] else EmbedPlan(dl.env, dl.message.communityId).writes;
    StepPieces(d, dl, saves, retires, embeds);
    PiecesUnder(dl, dl.parsed.value, prior, modelName);
    forall w | w in [SaveSource(NewSource(dl))] + (saves + retires + embeds) ensures UnderModel(w, modelName) {
      InPieces(w, SaveSource(NewSource(dl)), saves, retires, embeds);
    }
  }

  lemma AsideUnder(w: Write, ws: seq<Write>, modelName: string)
    requires !w.SaveRecord? && forall x :: x in ws ==> Aside(x)
    ensures forall x :: x in [w] + ws ==> UnderModel(x, modelName)
  {
  }

  lemma WritesWithSource(d: Diary, dl: Delivery)
    ensures Writes(d, Ingest(dl)) == if dl.message.Key() in d.idempotency then [] else [SaveSource(NewSource(dl))] + CapturePlan(WithSource(d, dl), dl).writes
  {
  }

  lemma NoRevisionUnder(d: Diary, dl: Delivery, modelName: string)
    requires !NewRevision(d, dl)
    ensures forall w :: w in Writes(d, Ingest(dl)) ==> UnderModel(w, modelName)
  {
    WritesWithSource(d, dl);
    if dl.message.Key() !in d.idempotency {
      NoRevisionAside(d, dl);
      AsideUnder(SaveSource(NewSource(dl)), CapturePlan(WithSource(d, dl), dl).writes, modelName);
    }
  }

  lemma IngestUnder(d: Diary, dl: Delivery, modelName: string)
    requires OneModel(Ingest(dl), modelName)
    ensures forall w :: w in Writes(d, Ingest(dl)) ==> UnderModel(w, modelName)
  {
    if NewRevision(d, dl) {
      RevisionUnder(d, dl, modelName);
    } else {
      NoRevisionUnder(d, dl, modelName);
    }
  }

  lemma GroupUnder(d: Diary, communityId: Id, g: Group, env: RetryEnv, ge: GroupEnv)
    ensures forall w :: w in RetryGroup(d, communityId, g, env, ge).writes ==> UnderModel(w, env.client.modelName)
  {
    if ge.embed.Vectors? && |ge.embed.vectors| == |g.chunks| {
      var records := GroupRecords(g, communityId, env.now, env.client, ge.embed.vectors, ge.recordIds);
      RecordWrites(records);
      RecordWrites(records[..SavableRecords(d, records)]);
      StatusWrites(g.chunks, Ready);
      forall r | r in records ensures r.modelName == env.client.modelName {
        var i :| 0 <= i < |records| && records[i] == r;
      }
    }
  }

  lemma {:induction false} RetryUnder(d: Diary, communityId: Id, groups: seq<Group>, env: RetryEnv, n: nat)
    requires n <= |groups|
    ensures forall w :: w in RetryUpTo(d, communityId, groups, env, n).writes ==> UnderModel(w, env.client.modelName)
  {
    if n > 0 {
      RetryUnder(d, communityId, groups, env, n - 1);
      GroupUnder(ApplyAll(d, RetryUpTo(d, communityId, groups, env, n - 1).writes), communityId, groups[n - 1], env, env.groups(n - 1));
    }
  }

  lemma AfterUnder(d: Diary, ev: Event, modelName: string)
    requires AllUnder(d.embeddings, modelName) && OneModel(ev.op, modelName)
    ensures AllUnder(After(d, ev).embeddings, modelName)
  {
    WritesOf(d, ev);
    var ws: seq<Write> :| After(d, ev) == ApplyAll(d, ws) && forall w :: w in ws ==> w in Writes(d, ev.op);
    match ev.op {
      case Ingest(dl) => IngestUnder(d, dl, modelName);
      case Delete(chatId, messageId, communityId) => RetireMembers(PriorFor(d, chatId, messageId, communityId), Tombstoned);
      case Retry(communityId, limit, env) =>
        if communityId != "" {
          var groups := Groups(FailedChunks(d, communityId, limit));
          RetryUnder(d, communityId, groups, env, |groups|);
        }
    }
    StillUnder(d, ws, modelName);
  }

  /** Under one model a disagreement is never repaired. */
  lemma NeverMended(d: Diary, ev: Event, modelName: string)
    requires Sound(d) && Fresh(d, ev.op) && OneModel(ev.op, modelName) && AllUnder(d.embeddings, modelName)
    requires !RecordsAgree(d.chunks.rows, d.embeddings)
    ensures !RecordsAgree(After(d, ev).chunks.rows, After(d, ev).embeddings)
  {
    var id :| id in d.chunks.rows && HasRecord(d.embeddings, id) && d.chunks.rows[id].status != Ready;
    var k :| k in d.embeddings && k.chunkId == id;
    assert k == EmbeddingKey(id, modelName);
    OutOfReachStays(d, ev, id);
    assert k in After(d, ev).embeddings;
    assert HasRecord(After(d, ev).embeddings, id);
  }

  /** The i-th event stopped right after a record. */
  ghost predicate StrandedAt(evs: seq<Event>, i: nat) {
    i < |evs| && Strands(Run(evs[..i]), evs[i])
  }

  /** Some event so far stopped right after a record. */
  ghost predicate SomeStranded(evs: seq<Event>) {
    exists i: nat :: StrandedAt(evs, i)
  }

  lemma StrandedEarlier(evs: seq<Event>, i: nat)
    requires i < |evs| - 1
    ensures StrandedAt(evs[..|evs| - 1], i) <==> StrandedAt(evs, i)
  {
    var before := evs[..|evs| - 1];
    assert before[..i] == evs[..i] && before[i] == evs[i];
  }

  lemma StrandedSnoc(evs: seq<Event>)
    requires evs != []
    ensures SomeStranded(evs) <==> SomeStranded(evs[..|evs| - 1]) || StrandedAt(evs, |evs| - 1)
  {
    var before := evs[..|evs| - 1];
    if SomeStranded(before) {
      var i: nat :| StrandedAt(before, i);
      StrandedEarlier(evs, i);
    }
    if SomeStranded(evs) {
      var i: nat :| StrandedAt(evs, i);
      if i < |evs| - 1 {
        StrandedEarlier(evs, i);
      }
    }
  }

  /**
   * Over runs with interruptions anywhere, under one embedding model: records and statuses agree at the
   * end exactly when no operation was stopped right after the write of a record.
   */
  lemma {:induction false} RunAgreesExactly(evs: seq<Event>, modelName: string)
    requires FreshRun(evs) && ModelRun(evs, modelName)
    ensures RecordsAgree(Run(evs).chunks.rows, Run(evs).embeddings) <==> !SomeStranded(evs)
    ensures AllUnder(Run(evs).embeddings, modelName)
  {
    if evs != [] {
      var before, last := evs[..|evs| - 1], evs[|evs| - 1];
      RunAgreesExactly(before, modelName);
      RunSound(before);
      AfterUnder(Run(before), last, modelName);
      StrandedSnoc(evs);
      if RecordsAgree(Run(before).chunks.rows, Run(before).embeddings) {
        AgreesUnlessStranded(Run(before), last);
      } else {
        NeverMended(Run(before), last, modelName);
      }
    }
  }
}
