/**
 * The listings of the store row by row and in order, what the commands that show them make of their
 * arguments, and what a question is searched for.
 */
module Listings {
  import opened Answering
  import opened Candidates
  import opened Diary
  import opened Dispatcher
  import opened Fusion
  import opened FusionBounds
  import opened LegOrder
  import opened Models
  import opened Ordering
  import opened Outcomes
  import opened Plans
  import opened Sorting
  import opened Tables
  import opened Text
  import opened Wrappers

  // ---- Source messages ----

  /** Written later, or at the same moment under a greater id. */
  predicate Later(s: SourceMessage, t: SourceMessage) {
    s.createdAt > t.createdAt || (s.createdAt == t.createdAt && s.sourceId != t.sourceId && StringLeq(t.sourceId, s.sourceId))
  }

  lemma SourcesOnce(d: Diary)
    requires Consistent(d)
    ensures Distinct(Values(d.sources))
    ensures forall s, t :: s in Values(d.sources) && t in Values(d.sources) && s.sourceId == t.sourceId ==> s == t
  {
    var rows := Values(d.sources);
    forall i, j | 0 <= i < j < |rows| ensures rows[i] != rows[j] {
      assert rows[i].sourceId == d.sources.keys[i] && rows[j].sourceId == d.sources.keys[j];
    }
    forall s | s in rows ensures s.sourceId in d.sources.rows && d.sources.rows[s.sourceId] == s {
      var k :| k in d.sources.rows && d.sources.rows[k] == s;
    }
  }

  /** Every stored row that passes the test once, and nothing else. */
  ghost predicate Lists(d: Diary, listed: seq<SourceMessage>, test: SourceMessage -> bool) {
    Distinct(listed) && forall s :: s in listed <==> s in Values(d.sources) && test(s)
  }

  lemma SourcesListed(d: Diary, test: SourceMessage -> bool, leq: (SourceMessage, SourceMessage) -> bool)
    requires Consistent(d)
    ensures Lists(d, Sort(Filter(Values(d.sources), test), leq), test)
  {
    SourcesOnce(d);
    var found := Filter(Values(d.sources), test);
    FilterDistinct(Values(d.sources), test);
    SortDistinct(found, leq);
    forall s: SourceMessage ensures s in Sort(found, leq) <==> s in Values(d.sources) && test(s) {
      SortIn(found, leq, s);
      FilterIn(Values(d.sources), test, s);
    }
  }

  lemma SourceOldestOrder()
    ensures TotalPreorder(SourceOldest)
  {
    forall a: SourceMessage, b: SourceMessage ensures SourceOldest(a, b) || SourceOldest(b, a) {
      StringLeqTotal(a.sourceId, b.sourceId);
    }
    forall a: SourceMessage, b: SourceMessage, c: SourceMessage | SourceOldest(a, b) && SourceOldest(b, c)
      ensures SourceOldest(a, c)
    {
      if a.createdAt == b.createdAt == c.createdAt {
        StringLeqTransitive(a.sourceId, b.sourceId, c.sourceId);
      }
    }
  }

  /** Two listed rows are two stored ones, so their ids tell them apart. */
  lemma ApartById(d: Diary, listed: seq<SourceMessage>, test: SourceMessage -> bool)
    requires Consistent(d) && Lists(d, listed, test)
    ensures forall i, j :: 0 <= i < j < |listed| ==> listed[i].sourceId != listed[j].sourceId
  {
    SourcesOnce(d);
    forall i, j | 0 <= i < j < |listed| ensures listed[i].sourceId != listed[j].sourceId {
      assert listed[i] in listed && listed[j] in listed;
    }
  }

  /** An export holds all of the community's messages, each once, the oldest first. */
  lemma ExportListed(d: Diary, communityId: Id)
    requires Consistent(d)
    ensures var all := CommunitySources(d, communityId);
            && Lists(d, all, (s: SourceMessage) => s.communityId == communityId)
            && (forall i, j :: 0 <= i < j < |all| ==> Later(all[j], all[i]))
  {
    var found := Filter(Values(d.sources), SourceTest(communityId));
    SourceOldestOrder();
    SortSorts(found, SourceOldest);
    SourcesListed(d, SourceTest(communityId), SourceOldest);
    ApartById(d, CommunitySources(d, communityId), SourceTest(communityId));
  }

  /** All drafts of the community, each once, the newest first. */
  lemma DraftsListed(d: Diary, communityId: Id)
    requires Consistent(d)
    ensures var all := AllDrafts(d, communityId);
            && Lists(d, all, (s: SourceMessage) => s.communityId == communityId && s.route == DraftRoute)
            && (forall i, j :: 0 <= i < j < |all| ==> Later(all[i], all[j]))
  {
    var found := Filter(Values(d.sources), DraftTest(communityId));
    SourceNewestOrder();
    SortSorts(found, SourceNewest);
    SourcesListed(d, DraftTest(communityId), SourceNewest);
    ApartById(d, AllDrafts(d, communityId), DraftTest(communityId));
  }

  // ---- Failed chunks ----

  predicate ChunkLater(c: EventChunk, e: EventChunk) {
    c.createdAt > e.createdAt || (c.createdAt == e.createdAt && c.chunkId != e.chunkId && StringLeq(e.chunkId, c.chunkId))
  }

  /** Every failed chunk of the community once, the oldest first; a limit keeps the first ones. */
  lemma FailedListed(d: Diary, communityId: Id)
    requires Consistent(d)
    ensures var all := FailedChunks(d, communityId, None);
            && Distinct(all) && (forall c :: c in all <==> c in Values(d.chunks) && c.communityId == communityId && c.status == Failed)
            && (forall i, j :: 0 <= i < j < |all| ==> ChunkLater(all[j], all[i]))
    ensures forall n: nat :: FailedChunks(d, communityId, Some(n)) == Take(FailedChunks(d, communityId, None), n)
  {
    var found, all := Filter(Values(d.chunks), FailedTest(communityId)), FailedChunks(d, communityId, None);
    StoredOnce(d);
    FilterDistinct(Values(d.chunks), FailedTest(communityId));
    SortDistinct(found, ChunkOldest);
    ChunkOldestOrder();
    SortSorts(found, ChunkOldest);
    forall c: EventChunk ensures c in all <==> c in Values(d.chunks) && c.communityId == communityId && c.status == Failed {
      SortIn(found, ChunkOldest, c);
      FilterIn(Values(d.chunks), FailedTest(communityId), c);
    }
    StoredApart(d, all);
  }

  // ---- /export and /drafts ----

  /** The argument is the word, in any mixture of cases. */
  predicate Spells(arg: string, lower: string, upper: string)
    requires |lower| == |upper|
  {
    |arg| == |lower| && forall i :: 0 <= i < |arg| ==> arg[i] == lower[i] || arg[i] == upper[i]
  }

  lemma LoweredIs(stripped: string, lower: string, upper: string)
    requires |lower| == |upper| && forall i :: 0 <= i < |lower| ==> 'a' <= lower[i] <= 'z' && upper[i] == lower[i] - 'a' + 'A'
    ensures seq(|stripped|, i requires 0 <= i < |stripped| => LowerAscii(stripped[i])) == lower <==> Spells(stripped, lower, upper)
  {
    var arg := seq(|stripped|, i requires 0 <= i < |stripped| => LowerAscii(stripped[i]));
    if arg == lower {
      forall i | 0 <= i < |stripped| ensures stripped[i] == lower[i] || stripped[i] == upper[i] {
        assert arg[i] == LowerAscii(stripped[i]);
      }
    }
    if Spells(stripped, lower, upper) {
      forall i | 0 <= i < |stripped| ensures arg[i] == lower[i] {
        assert arg[i] == LowerAscii(stripped[i]);
      }
    }
  }

  /** Each format for its own name, and a usage reply for anything else. */
  lemma ExportRepliesWhen(d: Diary, m: InboundMessage)
    requires m.communityId != ""
    ensures var arg, reply := Strip(m.payload), ExportReply(d, m);
            && (Spells(arg, "json", "JSON") <==> reply == Ok(Exported(Json, CommunitySources(d, m.communityId))))
            && (Spells(arg, "txt", "TXT") <==> reply == Ok(Exported(Txt, CommunitySources(d, m.communityId))))
            && (!Spells(arg, "json", "JSON") && !Spells(arg, "txt", "TXT") <==> reply == Ok(ExportUsage))
  {
    LoweredIs(Strip(m.payload), "json", "JSON");
    LoweredIs(Strip(m.payload), "txt", "TXT");
  }

  /**
   * The number asked for is the default without an argument and otherwise what the argument reads as; an
   * argument that reads as no number, or as one below one, gets the usage reply.
   */
  lemma DraftsAskedFor(d: Diary, communityId: Id, payload: string, settings: DraftsSettings, parseInt: string -> Option<int>)
    ensures var arg, reply := Strip(payload), DraftsFor(d, communityId, payload, settings, parseInt);
            var read := if arg == "" then Some(settings.defaultLimit) else parseInt(arg);
            && (reply == Ok(DraftsUsage) <==> arg != "" && (read == None || read.value < 1))
            && (reply.Raised? <==> reply != Ok(DraftsUsage)
                                   && (communityId == "" || read.value < 1 || settings.maxLimit < 1))
            && (reply.Raised? ==> reply.error == ValueError)
            && (reply.Ok? && reply.value.NoDrafts? ==> read == Some(reply.value.requested) && AllDrafts(d, communityId) == [])
            && (reply.Ok? && reply.value.DraftsList? ==>
                  && read == Some(reply.value.requested)
                  && (reply.value.header.MostRecent? ==> arg == "" || |reply.value.drafts| == reply.value.requested))
  {
  }

  // ---- What a question is searched for ----

  predicate Punctuation(c: char) {
    c in {'?', '.', '!', ',', ';', ':'}
  }

  predicate AllPunctuation(s: string) {
    forall i :: 0 <= i < |s| ==> Punctuation(s[i])
  }

  predicate EndsInPunctuation(s: string) {
    s != "" && Punctuation(s[|s| - 1])
  }

  lemma {:induction false} MarksOff(s: string)
    ensures var t := StripPunctuation(s);
            |t| <= |s| && s[..|t|] == t && AllPunctuation(s[|t|..]) && !EndsInPunctuation(t)
  {
    if EndsInPunctuation(s) {
      var before := s[..|s| - 1];
      MarksOff(before);
      var t := StripPunctuation(before);
      assert t == StripPunctuation(s);
      assert s[|t|..] == before[|t|..] + [s[|s| - 1]];
    }
  }

  /**
   * A question loses the blanks around it, then the punctuation it ends in, then the blanks before that,
   * and nothing else.
   */
  lemma NormalizedIs(payload: string) returns (lead: string, gap: string, marks: string, tail: string)
    ensures payload == lead + (NormalizeQuery(payload) + gap + marks) + tail
    ensures AllSpace(lead) && AllSpace(gap) && AllSpace(tail) && AllPunctuation(marks)
    ensures Stripped(NormalizeQuery(payload) + gap + marks) && Stripped(NormalizeQuery(payload))
    ensures !EndsInPunctuation(NormalizeQuery(payload) + gap)
  {
    var s := Strip(payload);
    var t := StripPunctuation(s);
    StripEnds(payload);
    MarksOff(s);
    marks := s[|t|..];
    lead, tail := Around(payload);
    gap := After(s, t);
    StripEnds(t);
    assert s == t + marks;
  }

  /** The blanks a strip drops on either side. */
  lemma Around(payload: string) returns (lead: string, tail: string)
    ensures payload == lead + Strip(payload) + tail && AllSpace(lead) && AllSpace(tail)
  {
    StripEnds(payload);
    if Strip(payload) == [] {
      lead, tail := payload, [];
      assert payload == payload + [] + [];
    } else {
      StripParts(payload);
      var n := LeadLength(payload);
      lead, tail := payload[..n], payload[n + |Strip(payload)|..];
    }
  }

  /** A start of stripped text has blanks only at its end. */
  lemma After(s: string, t: string) returns (gap: string)
    requires Stripped(s) && |t| <= |s| && s[..|t|] == t
    ensures t == Strip(t) + gap && AllSpace(gap)
  {
    StripEnds(t);
    if Strip(t) == [] {
      gap := t;
    } else {
      assert t[0] == s[0];
      LeadIs(t, 0);
      StripParts(t);
      gap := t[|Strip(t)|..];
      assert t[..0] + Strip(t) + gap == Strip(t) + gap;
    }
  }

  /** What a search found: its two legs under its scope and text, and their fusion cut at the top. */
  ghost predicate SearchedFor(v: SearchView, c: AskConfig, scope: Scope, text: string, query: Vector, found: RetrievedCandidates)
    requires c.topK > 0
  {
    && BestFirst(v.diary, found.dense, c.candidateK, Near(v.diary, scope, query, c.embedModel, v.distance),
                 Nearer(v.diary, query, c.embedModel, v.distance))
    && BestFirst(v.diary, found.sparse, c.candidateK, Matches(scope, text, v.tokenize), Closer(v.diary, text, v.tokenize))
    && exists all :: IsFusion([found.dense, found.sparse], 60, all) && found.merged == Take(all, c.topK)
  }

  lemma FindIs(v: SearchView, c: AskConfig, scope: Scope, text: string, env: AskEnv)
    requires Consistent(v.diary) && c.topK > 0
    ensures var r := Retrieved(v, c, scope, text, env);
            r.Ok? ==> env.embedding.Some? && SearchedFor(v, c, scope, text, env.embedding.value, r.value)
  {
    var r := Retrieved(v, c, scope, text, env);
    if r.Ok? {
      DenseLegIs(v.diary, scope, env.embedding.value, c.embedModel, c.candidateK, v.distance);
      SparseLegIs(v.diary, scope, text, c.candidateK, v.tokenize);
      FusionExists([r.value.dense, r.value.sparse], 60);
      assert IsFusion([r.value.dense, r.value.sparse], 60, Fused([r.value.dense, r.value.sparse], 60));
    }
  }

  /** An `/ask` that found something was answered from the search for its normalised question, in its scope. */
  lemma AskSearches(
    v: SearchView, c: AskConfig, decode: Decoder, m: InboundMessage, dates: Option<DateRange>, subject: Option<Id>, env: AskEnv)
    returns (found: RetrievedCandidates)
    requires Consistent(v.diary) && c.topK > 0 && AskPlan(v, c, decode, m, dates, subject, env).Ok?
    requires var a := AskPlan(v, c, decode, m, dates, subject, env).value.result;
             a.context.Some? && a.context.value.orderedChunks != []
    ensures env.embedding.Some?
    ensures SearchedFor(v, c, Scope(m.communityId, dates, subject), NormalizeQuery(m.payload), env.embedding.value, found)
    ensures AskPlan(v, c, decode, m, dates, subject, env).value.result.context.value.orderedChunks == MergedChunks(found.merged)
  {
    AskEnds(v, c, decode, m, dates, subject, env);
    FindIs(v, c, Scope(m.communityId, dates, subject), NormalizeQuery(m.payload), env);
    found := Retrieved(v, c, Scope(m.communityId, dates, subject), NormalizeQuery(m.payload), env).value;
  }
}
