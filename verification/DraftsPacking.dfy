/**
 * The drafts packer (`adapters/telegram/drafts_packing.py`): whole blocks packed greedily into capped
 * messages, and the splitting of a block that fits no message.
 */
module DraftsPacking {
  import opened Models
  import opened Ordering
  import opened Wrappers

  // ---- Decimal numbers ----

  function Digit(d: nat): char
    requires d < 10
  {
    "0123456789"[d]
  }

  /** `str(n)` */
  function Decimal(n: nat): string {
    if n < 10 then [Digit(n)] else Decimal(n / 10) + [Digit(n % 10)]
  }

  /** What a reader makes of a number. */
  function ReadDecimal(s: string): int {
    if s == "" then 0 else 10 * ReadDecimal(s[..|s| - 1]) + (s[|s| - 1] as int - '0' as int)
  }

  lemma {:induction false} DecimalReads(n: nat)
    ensures ReadDecimal(Decimal(n)) == n && Decimal(n) != ""
    ensures forall i :: 0 <= i < |Decimal(n)| ==> '0' <= Decimal(n)[i] <= '9'
  {
    if n >= 10 {
      DecimalReads(n / 10);
      assert Decimal(n)[..|Decimal(n)| - 1] == Decimal(n / 10);
    } else {
      assert Decimal(n)[..0] == "";
    }
  }

  lemma {:induction false} LongerDecimal(a: nat, b: nat)
    requires a <= b
    ensures 1 <= |Decimal(a)| <= |Decimal(b)|
    decreases b
  {
    if a >= 10 {
      LongerDecimal(a / 10, b / 10);
    } else if b >= 10 {
      LongerDecimal(0, b / 10);
    }
  }

  // ---- Splitting an oversized block ----

  function Footer(k: nat, n: nat, separator: string): string {
    separator + "(part " + Decimal(k) + "/" + Decimal(n) + ")"
  }

  /** What a part may carry besides the widest footer of `n` parts. */
  function BodyCap(n: nat, cap: int, separator: string): int {
    cap - (|separator| + |"(part " + Decimal(n) + "/" + Decimal(n) + ")"|)
  }

  /** `n` parts are enough. */
  predicate Feasible(n: nat, block: string, cap: int, separator: string) {
    n >= 1 && BodyCap(n, cap, separator) >= 1 && BodyCap(n, cap, separator) * n >= |block|
  }

  lemma EnoughParts(bodyCap: int, n: nat, size: nat)
    requires bodyCap >= 1 && n >= size
    ensures bodyCap * n >= size
  {
  }

  /** The search from `n` up: the first count that is enough, None once a part would carry nothing. */
  function LeastParts(n: nat, block: string, cap: int, separator: string): Option<nat>
    decreases |block| - n
  {
    var bodyCap := BodyCap(n, cap, separator);
    if bodyCap < 1 then None
    else if bodyCap * n >= |block| then Some(n)
    else
      assert n < |block| by {
        if n >= |block| {
          EnoughParts(bodyCap, n, |block|);
        }
      }
      LeastParts(n + 1, block, cap, separator)
  }

  /** `block[start:end]` */
  function Slice(block: string, start: nat, end: nat): string {
    if start >= |block| || end <= start then "" else block[start..Min(end, |block|)]
  }

  function Body(block: string, k: nat, bodyCap: nat): string {
    Slice(block, k * bodyCap, k * bodyCap + bodyCap)
  }

  function Parts(block: string, n: nat, cap: int, separator: string): (parts: seq<string>)
    requires BodyCap(n, cap, separator) >= 1
    ensures |parts| == n
    ensures forall k :: 0 <= k < n ==> parts[k] == Body(block, k, BodyCap(n, cap, separator)) + Footer(k + 1, n, separator)
  {
    seq(n, k requires 0 <= k < n => Body(block, k, BodyCap(n, cap, separator)) + Footer(k + 1, n, separator))
  }

  lemma LeastHasRoom(n: nat, block: string, cap: int, separator: string)
    ensures var found := LeastParts(n, block, cap, separator);
            found.Some? ==> BodyCap(found.value, cap, separator) >= 1
    decreases |block| - n
  {
    var bodyCap := BodyCap(n, cap, separator);
    if bodyCap >= 1 && bodyCap * n < |block| {
      if n >= |block| {
        EnoughParts(bodyCap, n, |block|);
      }
      LeastHasRoom(n + 1, block, cap, separator);
    }
  }

  /** `_split_oversized` */
  function Split(block: string, cap: int, separator: string): Result<seq<string>, StoreError> {
    LeastHasRoom(1, block, cap, separator);
    match LeastParts(1, block, cap, separator)
    case None => Raised(ValueError)
    case Some(n) => Ok(Parts(block, n, cap, separator))
  }

  method SplitOversized(block: string, cap: int, separator: string) returns (r: Result<seq<string>, StoreError>)
    requires |block| > cap
    ensures r == Split(block, cap, separator)
  {
    var n := 1;
    while true
      invariant n >= 1
      invariant LeastParts(1, block, cap, separator) == LeastParts(n, block, cap, separator)
      decreases |block| - n
    {
      var overhead := |separator| + |"(part " + Decimal(n) + "/" + Decimal(n) + ")"|;
      var room := cap - overhead;
      if room < 1 {
        return Raised(ValueError);
      }
      if room * n >= |block| {
        break;
      }
      if n >= |block| {
        EnoughParts(room, n, |block|);
      }
      n := n + 1;
    }
    var bodyCap := cap - (|separator| + |"(part " + Decimal(n) + "/" + Decimal(n) + ")"|);
    var parts: seq<string> := [];
    for k := 0 to n
      invariant |parts| == k && forall j :: 0 <= j < k ==> parts[j] == Parts(block, n, cap, separator)[j]
    {
      parts := parts + [Body(block, k, bodyCap) + Footer(k + 1, n, separator)];
    }
    assert parts == Parts(block, n, cap, separator);
    return Ok(parts);
  }

  // ---- What the split guarantees ----

  lemma RoomShrinks(m: nat, n: nat, cap: int, separator: string)
    requires m <= n
    ensures BodyCap(n, cap, separator) <= BodyCap(m, cap, separator) < cap
  {
    LongerDecimal(m, n);
  }

  /** The search finds the least feasible count, and fails only when there is none. */
  lemma {:induction false} SearchIsLeast(n: nat, block: string, cap: int, separator: string)
    requires n >= 1 && forall m: nat :: 1 <= m < n ==> !Feasible(m, block, cap, separator)
    ensures var found := LeastParts(n, block, cap, separator);
            && (found == None ==> forall m: nat :: !Feasible(m, block, cap, separator))
            && (found.Some? ==>
                  && Feasible(found.value, block, cap, separator)
                  && (forall m: nat :: m < found.value ==> !Feasible(m, block, cap, separator)))
    decreases |block| - n
  {
    var bodyCap := BodyCap(n, cap, separator);
    if bodyCap < 1 {
      forall m: nat ensures !Feasible(m, block, cap, separator) {
        if m >= n {
          RoomShrinks(n, m, cap, separator);
        }
      }
    } else if bodyCap * n < |block| {
      if n >= |block| {
        EnoughParts(bodyCap, n, |block|);
      }
      SearchIsLeast(n + 1, block, cap, separator);
    }
  }

  /** The footer-free bodies of the first `k` parts, one after the other. */
  function Bodies(block: string, k: nat, bodyCap: nat): string {
    if k == 0 then "" else Bodies(block, k - 1, bodyCap) + Body(block, k - 1, bodyCap)
  }

  lemma {:induction false} BodiesArePrefix(block: string, k: nat, bodyCap: nat)
    requires bodyCap >= 1
    ensures Bodies(block, k, bodyCap) == block[..Min(k * bodyCap, |block|)]
  {
    if k > 0 {
      BodiesArePrefix(block, k - 1, bodyCap);
      var start := (k - 1) * bodyCap;
      assert k * bodyCap == start + bodyCap;
      if start < |block| {
        assert block[..start] + block[start..Min(start + bodyCap, |block|)] == block[..Min(start + bodyCap, |block|)];
      }
    }
  }

  lemma PartFits(block: string, k: nat, n: nat, cap: int, separator: string)
    requires k < n && BodyCap(n, cap, separator) >= 1
    ensures |Parts(block, n, cap, separator)[k]| <= cap
  {
    LongerDecimal(k + 1, n);
    var b := Body(block, k, BodyCap(n, cap, separator));
    assert |b| <= BodyCap(n, cap, separator);
    assert |Footer(k + 1, n, separator)| == |separator| + 6 + |Decimal(k + 1)| + 1 + |Decimal(n)| + 1;
  }

  /** With the least count, not even the last body is empty. */
  lemma LastBodyStarts(block: string, n: nat, cap: int, separator: string)
    requires |block| > cap && Feasible(n, block, cap, separator)
    requires forall m: nat :: m < n ==> !Feasible(m, block, cap, separator)
    ensures n >= 2 && (n - 1) * BodyCap(n, cap, separator) < |block|
  {
    RoomShrinks(1, 1, cap, separator);
    assert n != 1;
    var now, before := BodyCap(n, cap, separator), BodyCap(n - 1, cap, separator);
    RoomShrinks(n - 1, n, cap, separator);
    assert !Feasible(n - 1, block, cap, separator);
    assert before * (n - 1) < |block|;
    Scale(now, before, n - 1);
  }

  lemma Scale(a: int, b: int, c: nat)
    requires a <= b
    ensures c * a <= b * c
  {
  }

  lemma BodyNotEmpty(block: string, k: nat, n: nat, bodyCap: nat)
    requires k < n && bodyCap >= 1 && (n - 1) * bodyCap < |block|
    ensures Body(block, k, bodyCap) != ""
  {
    Scale(k, n - 1, bodyCap);
    StartsInside(block, k * bodyCap, bodyCap);
  }

  lemma StartsInside(block: string, start: nat, bodyCap: nat)
    requires start < |block| && bodyCap >= 1
    ensures Slice(block, start, start + bodyCap) != ""
  {
  }

  lemma AtMostLength(n: nat, block: string, cap: int, separator: string)
    requires Feasible(n, block, cap, separator) && forall m: nat :: m < n ==> !Feasible(m, block, cap, separator)
    ensures n <= |block| || n == 1
  {
    if n > |block| && n > 1 {
      RoomShrinks(n - 1, n, cap, separator);
      EnoughParts(BodyCap(n - 1, cap, separator), n - 1, |block|);
      assert Feasible(n - 1, block, cap, separator);
    }
  }

  /**
   * Splitting fails exactly when no number of parts is feasible; otherwise it uses the least feasible
   * number, at least two and at most one a character, of non-empty bodies that make up the block in
   * order, each within the cap with its footer.
   */
  lemma SplitIsExact(block: string, cap: int, separator: string)
    requires |block| > cap >= 1
    ensures Split(block, cap, separator).Raised? <==> forall n: nat :: !Feasible(n, block, cap, separator)
    ensures Split(block, cap, separator).Ok? ==>
              var parts := Split(block, cap, separator).value;
              var n := |parts|;
              && 2 <= n <= |block| && Feasible(n, block, cap, separator)
              && (forall m: nat :: m < n ==> !Feasible(m, block, cap, separator))
              && Bodies(block, n, BodyCap(n, cap, separator)) == block
              && (forall k :: 0 <= k < n ==>
                    && Body(block, k, BodyCap(n, cap, separator)) != ""
                    && parts[k] == Body(block, k, BodyCap(n, cap, separator)) + Footer(k + 1, n, separator)
                    && |parts[k]| <= cap)
  {
    SearchIsLeast(1, block, cap, separator);
    LeastHasRoom(1, block, cap, separator);
    if Split(block, cap, separator).Ok? {
      var n := |Split(block, cap, separator).value|;
      var bodyCap := BodyCap(n, cap, separator);
      LastBodyStarts(block, n, cap, separator);
      AtMostLength(n, block, cap, separator);
      BodiesArePrefix(block, n, bodyCap);
      forall k | 0 <= k < n ensures Body(block, k, bodyCap) != "" && |Parts(block, n, cap, separator)[k]| <= cap {
        BodyNotEmpty(block, k, n, bodyCap);
        PartFits(block, k, n, cap, separator);
      }
    }
  }

  /** A part ends in its own number and the number of parts, written in decimal. */
  ghost predicate Numbered(part: string, body: string, separator: string, k: nat, n: nat) {
    exists own, all ::
      part == body + separator + "(part " + own + "/" + all + ")" && Reads(own, k) && Reads(all, n)
  }

  ghost predicate Reads(s: string, n: nat) {
    s != "" && (forall i :: 0 <= i < |s| ==> '0' <= s[i] <= '9') && ReadDecimal(s) == n
  }

  lemma PartsNumbered(block: string, cap: int, separator: string)
    requires |block| > cap >= 1 && Split(block, cap, separator).Ok?
    ensures var parts := Split(block, cap, separator).value;
            && Feasible(|parts|, block, cap, separator)
            && forall k :: 0 <= k < |parts| ==>
                 Numbered(parts[k], Body(block, k, BodyCap(|parts|, cap, separator)), separator, k + 1, |parts|)
  {
    SplitIsExact(block, cap, separator);
    var parts := Split(block, cap, separator).value;
    var n := |parts|;
    forall k | 0 <= k < n ensures Numbered(parts[k], Body(block, k, BodyCap(n, cap, separator)), separator, k + 1, n) {
      NumberedPart(Body(block, k, BodyCap(n, cap, separator)), separator, k + 1, n);
    }
  }

  lemma NumberedPart(body: string, separator: string, k: nat, n: nat)
    ensures Numbered(body + Footer(k, n, separator), body, separator, k, n)
  {
    DecimalReads(k);
    DecimalReads(n);
    assert body + Footer(k, n, separator) == body + separator + "(part " + Decimal(k) + "/" + Decimal(n) + ")";
    assert Reads(Decimal(k), k) && Reads(Decimal(n), n);
  }

  // ---- The packing loop ----

  datatype Packing = Packing(messages: seq<string>, current: string)

  /** The loop after its first `n` blocks; None when a split raised. */
  function Packed(header: string, blocks: seq<string>, cap: int, separator: string, n: nat): Option<Packing>
    requires n <= |blocks|
  {
    if n == 0 then Some(Packing([], header))
    else
      match Packed(header, blocks, cap, separator, n - 1)
      case None => None
      case Some(p) =>
        var block := blocks[n - 1];
        if |block| > cap then
          match Split(block, cap, separator)
          case Raised(_) => None
          case Ok(parts) => Some(Packing(p.messages + (if p.current == "" then [] else [p.current]) + parts, ""))
        else if p.current == "" then Some(p.(current := block))
        else if |p.current| + |separator| + |block| <= cap then Some(p.(current := p.current + separator + block))
        else Some(Packing(p.messages + [p.current], block))
  }

  /** The loop gives up on the rest once a split raised. */
  lemma {:induction false} StaysRaised(header: string, blocks: seq<string>, cap: int, separator: string, m: nat, n: nat)
    requires m <= n <= |blocks| && Packed(header, blocks, cap, separator, m) == None
    ensures Packed(header, blocks, cap, separator, n) == None
  {
    if m < n {
      StaysRaised(header, blocks, cap, separator, m, n - 1);
    }
  }

  lemma EarlierFine(header: string, blocks: seq<string>, cap: int, separator: string, m: nat, n: nat)
    requires m <= n <= |blocks| && Packed(header, blocks, cap, separator, n).Some?
    ensures Packed(header, blocks, cap, separator, m).Some?
  {
    if Packed(header, blocks, cap, separator, m) == None {
      StaysRaised(header, blocks, cap, separator, m, n);
    }
  }

  function Finished(p: Packing, header: string): seq<string> {
    var messages := if p.current == "" then p.messages else p.messages + [p.current];
    if messages == [] then [header] else messages
  }

  /** `pack_drafts_into_messages` */
  function Pack(header: string, blocks: seq<string>, cap: int, separator: string): Result<seq<string>, StoreError> {
    if cap < 1 || separator == "" then Raised(ValueError)
    else
      match Packed(header, blocks, cap, separator, |blocks|)
      case None => Raised(ValueError)
      case Some(p) => Ok(Finished(p, header))
  }

  method PackDraftsIntoMessages(header: string, blocks: seq<string>, cap: int, separator: string)
    returns (r: Result<seq<string>, StoreError>)
    ensures r == Pack(header, blocks, cap, separator)
  {
    if cap < 1 {
      return Raised(ValueError);
    }
    if separator == "" {
      return Raised(ValueError);
    }
    var messages: seq<string> := [];
    var current := header;
    for i := 0 to |blocks|
      invariant Packed(header, blocks, cap, separator, i) == Some(Packing(messages, current))
    {
      var block := blocks[i];
      assert messages + [] == messages;
      if |block| > cap {
        if current != "" {
          messages := messages + [current];
          current := "";
        }
        var parts := SplitOversized(block, cap, separator);
        if parts.Raised? {
          StaysRaised(header, blocks, cap, separator, i + 1, |blocks|);
          return Raised(ValueError);
        }
        messages := messages + parts.value;
        continue;
      }
      if current == "" {
        current := block;
        continue;
      }
      if |current| + |separator| + |block| <= cap {
        current := current + separator + block;
      } else {
        messages := messages + [current];
        current := block;
      }
    }
    if current != "" {
      messages := messages + [current];
    }
    return Ok(if messages == [] then [header] else messages);
  }

  // ---- Every way to cut the same sequence into messages ----

  /** An order-preserving cut, as far as it got: what is sent, and the message being filled, if one is. */
  datatype Filling = Filling(sent: seq<string>, open: Option<string>)

  function Flushed(f: Filling): seq<string> {
    if f.open.Some? then f.sent + [f.open.value] else f.sent
  }

  function Opened(text: string): Option<string> {
    if text == "" then None else Some(text)
  }

  /**
   * The cut that starts a new message before block `i` exactly when `cut[i]`. A header leads the first
   * message; an empty one is no part of the sequence. An oversized block always goes out in its parts,
   * sharing a message with no neighbour.
   */
  function CutAt(header: string, blocks: seq<string>, cap: int, separator: string, cut: seq<bool>, n: nat): Filling
    requires n <= |blocks| == |cut|
  {
    if n == 0 then Filling([], Opened(header))
    else
      var f, block := CutAt(header, blocks, cap, separator, cut, n - 1), blocks[n - 1];
      if |block| > cap then
        Filling(Flushed(f) + (var parts := Split(block, cap, separator); if parts.Ok? then parts.value else []), None)
      else if f.open.Some? && !cut[n - 1] then f.(open := Some(f.open.value + separator + block))
      else Filling(Flushed(f), Some(block))
  }

  /** Wherever the cut joins a block to a message, the message stays within the cap. */
  ghost predicate Fits(header: string, blocks: seq<string>, cap: int, separator: string, cut: seq<bool>, n: nat)
    requires n <= |blocks| == |cut|
  {
    forall i :: 0 <= i < n && |blocks[i]| <= cap && !cut[i] ==>
      JoinFits(CutAt(header, blocks, cap, separator, cut, i), blocks[i], cap, separator)
  }

  predicate JoinFits(f: Filling, block: string, cap: int, separator: string) {
    f.open.Some? ==> |f.open.value| + |separator| + |block| <= cap
  }

  /** What the cut sends; something is always sent, if only the header. */
  function Sent(header: string, blocks: seq<string>, cap: int, separator: string, cut: seq<bool>): (sent: seq<string>)
    requires |blocks| == |cut|
    ensures sent != []
  {
    var all := Flushed(CutAt(header, blocks, cap, separator, cut, |blocks|));
    if all == [] then [header] else all
  }

  // ---- Greedy is optimal ----

  /** Greedy is never behind: fewer closed messages, or as many and no more in the open one. */
  predicate NotBehind(p: Packing, f: Filling) {
    match f.open
    case None => p.current == "" && |p.messages| <= |f.sent|
    case Some(open) => |p.messages| <= |f.sent| && (|p.messages| == |f.sent| ==> |p.current| <= |open|)
  }

  lemma {:induction false} GreedyNotBehind(
    header: string, blocks: seq<string>, cap: int, separator: string, cut: seq<bool>, n: nat)
    requires cap >= 1 && n <= |blocks| == |cut| && Fits(header, blocks, cap, separator, cut, n)
    requires Packed(header, blocks, cap, separator, n).Some?
    ensures NotBehind(Packed(header, blocks, cap, separator, n).value, CutAt(header, blocks, cap, separator, cut, n))
  {
    if n > 0 {
      GreedyNotBehind(header, blocks, cap, separator, cut, n - 1);
      var block := blocks[n - 1];
      if |block| <= cap && !cut[n - 1] {
        assert JoinFits(CutAt(header, blocks, cap, separator, cut, n - 1), block, cap, separator);
      }
    }
  }

  /**
   * No cut that fits sends fewer messages, whatever the header and the blocks are: with a header, of
   * header and blocks; with an empty header, of the blocks alone.
   */
  lemma GreedyIsLeast(header: string, blocks: seq<string>, cap: int, separator: string, cut: seq<bool>)
    requires |blocks| == |cut| && Fits(header, blocks, cap, separator, cut, |blocks|)
    requires Pack(header, blocks, cap, separator).Ok?
    ensures |Pack(header, blocks, cap, separator).value| <= |Sent(header, blocks, cap, separator, cut)|
  {
    GreedyNotBehind(header, blocks, cap, separator, cut, |blocks|);
  }

  /** The greedy cut: start a new message exactly when the block does not fit. */
  function GreedyCut(header: string, blocks: seq<string>, cap: int, separator: string): (cut: seq<bool>)
    ensures |cut| == |blocks|
  {
    seq(|blocks|, i requires 0 <= i < |blocks| =>
      match Packed(header, blocks, cap, separator, i)
      case None => true
      case Some(p) => |p.current| + |separator| + |blocks[i]| > cap)
  }

  /** A packing read as a cut in progress. */
  function AsFilling(p: Packing): Filling {
    Filling(p.messages, Opened(p.current))
  }

  /** An empty block that joins no message, which the loop forgets. */
  predicate Forgotten(header: string, blocks: seq<string>, cap: int, separator: string, i: nat)
    requires i < |blocks|
  {
    var p := Packed(header, blocks, cap, separator, i);
    p.Some? && blocks[i] == "" && (p.value.current == "" || |p.value.current| + |separator| > cap)
  }

  ghost predicate NoneForgotten(header: string, blocks: seq<string>, cap: int, separator: string) {
    forall i: nat :: i < |blocks| ==> !Forgotten(header, blocks, cap, separator, i)
  }

  lemma GreedyStep(header: string, blocks: seq<string>, cap: int, separator: string, cut: seq<bool>, n: nat)
    requires cap >= 1 && 0 < n <= |blocks| == |cut| && !Forgotten(header, blocks, cap, separator, n - 1)
    requires Packed(header, blocks, cap, separator, n - 1).Some? && Packed(header, blocks, cap, separator, n).Some?
    requires var p := Packed(header, blocks, cap, separator, n - 1).value;
             && CutAt(header, blocks, cap, separator, cut, n - 1) == AsFilling(p)
             && cut[n - 1] == (|p.current| + |separator| + |blocks[n - 1]| > cap)
    ensures CutAt(header, blocks, cap, separator, cut, n) == AsFilling(Packed(header, blocks, cap, separator, n).value)
  {
    var p := Packed(header, blocks, cap, separator, n - 1).value;
    assert p.messages + [] == p.messages;
  }

  lemma {:induction false} GreedyIsACut(header: string, blocks: seq<string>, cap: int, separator: string, n: nat)
    requires cap >= 1 && n <= |blocks| && NoneForgotten(header, blocks, cap, separator)
    requires Packed(header, blocks, cap, separator, n).Some?
    ensures CutAt(header, blocks, cap, separator, GreedyCut(header, blocks, cap, separator), n)
         == AsFilling(Packed(header, blocks, cap, separator, n).value)
  {
    if n > 0 {
      EarlierFine(header, blocks, cap, separator, n - 1, n);
      GreedyIsACut(header, blocks, cap, separator, n - 1);
      GreedyStep(header, blocks, cap, separator, GreedyCut(header, blocks, cap, separator), n);
    }
  }

  lemma {:induction false} GreedyFits(header: string, blocks: seq<string>, cap: int, separator: string, n: nat)
    requires cap >= 1 && n <= |blocks| && NoneForgotten(header, blocks, cap, separator)
    requires Packed(header, blocks, cap, separator, |blocks|).Some?
    ensures Fits(header, blocks, cap, separator, GreedyCut(header, blocks, cap, separator), n)
  {
    var cut := GreedyCut(header, blocks, cap, separator);
    forall i | 0 <= i < n && |blocks[i]| <= cap && !cut[i]
      ensures JoinFits(CutAt(header, blocks, cap, separator, cut, i), blocks[i], cap, separator)
    {
      EarlierFine(header, blocks, cap, separator, i, |blocks|);
      GreedyIsACut(header, blocks, cap, separator, i);
    }
  }

  /** What is sent is the greedy cut, when the loop forgets no block. */
  lemma PackIsACut(header: string, blocks: seq<string>, cap: int, separator: string)
    requires NoneForgotten(header, blocks, cap, separator) && Pack(header, blocks, cap, separator).Ok?
    ensures var cut := GreedyCut(header, blocks, cap, separator);
            && Fits(header, blocks, cap, separator, cut, |blocks|)
            && Pack(header, blocks, cap, separator).value == Sent(header, blocks, cap, separator, cut)
  {
    GreedyFits(header, blocks, cap, separator, |blocks|);
    GreedyIsACut(header, blocks, cap, separator, |blocks|);
  }

  // ---- The blocks that count ----

  /** The first `n` blocks without the forgotten ones. */
  function Kept(header: string, blocks: seq<string>, cap: int, separator: string, n: nat): seq<string>
    requires n <= |blocks|
  {
    if n == 0 then []
    else
      var before := Kept(header, blocks, cap, separator, n - 1);
      if Forgotten(header, blocks, cap, separator, n - 1) then before else before + [blocks[n - 1]]
  }

  lemma {:induction false} PackedPrefix(header: string, a: seq<string>, b: seq<string>, cap: int, separator: string, n: nat)
    requires n <= |a| && n <= |b| && a[..n] == b[..n]
    ensures Packed(header, a, cap, separator, n) == Packed(header, b, cap, separator, n)
  {
    if n > 0 {
      assert a[..n - 1] == a[..n][..n - 1] == b[..n][..n - 1] == b[..n - 1];
      PackedPrefix(header, a, b, cap, separator, n - 1);
      assert a[n - 1] == a[..n][n - 1] == b[..n][n - 1] == b[n - 1];
    }
  }

  /** The same messages so far, but that `p` has already closed one `q` has no room left in. */
  predicate Alike(p: Option<Packing>, q: Option<Packing>, cap: int, separator: string) {
    p == q
    || (p.Some? && q.Some? && p.value.current == "" && q.value.current != "" && |q.value.current| + |separator| > cap
        && p.value.messages == q.value.messages + [q.value.current])
  }

  lemma {:induction false} KeptPacksAlike(header: string, blocks: seq<string>, cap: int, separator: string, n: nat)
    requires cap >= 1 && n <= |blocks|
    ensures var kept := Kept(header, blocks, cap, separator, n);
            Alike(Packed(header, blocks, cap, separator, n), Packed(header, kept, cap, separator, |kept|), cap, separator)
  {
    if n > 0 {
      KeptPacksAlike(header, blocks, cap, separator, n - 1);
      var before := Kept(header, blocks, cap, separator, n - 1);
      if !Forgotten(header, blocks, cap, separator, n - 1) {
        var kept := before + [blocks[n - 1]];
        assert kept[..|before|] == before[..|before|];
        PackedPrefix(header, kept, before, cap, separator, |before|);
        AlikeNext(header, blocks, kept, cap, separator, n);
      }
    }
  }

  lemma AlikeNext(header: string, blocks: seq<string>, kept: seq<string>, cap: int, separator: string, n: nat)
    requires cap >= 1 && 0 < n <= |blocks| && kept != [] && kept[|kept| - 1] == blocks[n - 1]
    requires !Forgotten(header, blocks, cap, separator, n - 1)
    requires Alike(Packed(header, blocks, cap, separator, n - 1), Packed(header, kept, cap, separator, |kept| - 1), cap, separator)
    ensures Packed(header, blocks, cap, separator, n) == Packed(header, kept, cap, separator, |kept|)
  {
    var p := Packed(header, blocks, cap, separator, n - 1);
    assert p.Some? ==> p.value.messages + [] == p.value.messages;
  }

  lemma AlikeFinish(p: Packing, q: Packing, header: string, cap: int, separator: string)
    requires Alike(Some(p), Some(q), cap, separator)
    ensures Finished(p, header) == Finished(q, header)
  {
  }

  lemma {:induction false} KeptForgetsNone(header: string, blocks: seq<string>, cap: int, separator: string, n: nat)
    requires cap >= 1 && n <= |blocks|
    ensures NoneForgotten(header, Kept(header, blocks, cap, separator, n), cap, separator)
  {
    if n > 0 {
      KeptForgetsNone(header, blocks, cap, separator, n - 1);
      KeptPacksAlike(header, blocks, cap, separator, n - 1);
      var before, kept := Kept(header, blocks, cap, separator, n - 1), Kept(header, blocks, cap, separator, n);
      forall i: nat | i < |kept| ensures !Forgotten(header, kept, cap, separator, i) {
        assert kept[..i] == before[..i];
        PackedPrefix(header, kept, before, cap, separator, i);
        if i < |before| {
          assert !Forgotten(header, before, cap, separator, i);
        } else {
          assert kept == before + [blocks[n - 1]];
        }
      }
    }
  }

  lemma {:induction false} KeptAll(header: string, blocks: seq<string>, cap: int, separator: string, n: nat)
    requires n <= |blocks| && forall b :: b in blocks ==> b != ""
    ensures Kept(header, blocks, cap, separator, n) == blocks[..n]
  {
    if n > 0 {
      KeptAll(header, blocks, cap, separator, n - 1);
      assert blocks[n - 1] in blocks;
      assert blocks[..n] == blocks[..n - 1] + [blocks[n - 1]];
    }
  }

  /**
   * For every header and every list of blocks: what is sent is a cut, that fits, of the header and the
   * blocks that count, with whole blocks in order joined by the separator and oversized ones alone in
   * their parts, and no cut of them that fits sends fewer messages. All non-empty blocks count.
   */
  lemma PackIsOptimal(header: string, blocks: seq<string>, cap: int, separator: string)
    requires Pack(header, blocks, cap, separator).Ok?
    ensures var kept := Kept(header, blocks, cap, separator, |blocks|);
            var sent, cut := Pack(header, blocks, cap, separator).value, GreedyCut(header, kept, cap, separator);
            && Fits(header, kept, cap, separator, cut, |kept|) && sent == Sent(header, kept, cap, separator, cut)
            && (forall other: seq<bool> :: |other| == |kept| && Fits(header, kept, cap, separator, other, |kept|) ==>
                  |sent| <= |Sent(header, kept, cap, separator, other)|)
            && ((forall b :: b in blocks ==> b != "") ==> kept == blocks)
  {
    var kept := Kept(header, blocks, cap, separator, |blocks|);
    KeptPacksAlike(header, blocks, cap, separator, |blocks|);
    KeptForgetsNone(header, blocks, cap, separator, |blocks|);
    AlikeFinish(Packed(header, blocks, cap, separator, |blocks|).value, Packed(header, kept, cap, separator, |kept|).value,
                header, cap, separator);
    PackIsACut(header, kept, cap, separator);
    forall other: seq<bool> | |other| == |kept| && Fits(header, kept, cap, separator, other, |kept|)
      ensures |Pack(header, kept, cap, separator).value| <= |Sent(header, kept, cap, separator, other)|
    {
      GreedyIsLeast(header, kept, cap, separator, other);
    }
    if forall b :: b in blocks ==> b != "" {
      KeptAll(header, blocks, cap, separator, |blocks|);
      assert blocks[..|blocks|] == blocks;
    }
  }

  /** Packing fails exactly on a bad cap or separator, or when some oversized block cannot be split. */
  lemma PackFailsWhen(header: string, blocks: seq<string>, cap: int, separator: string)
    ensures Pack(header, blocks, cap, separator).Raised?
        <==> cap < 1 || separator == ""
             || exists i :: 0 <= i < |blocks| && |blocks[i]| > cap && Split(blocks[i], cap, separator).Raised?
  {
    if cap >= 1 && separator != "" {
      PackedFailsWhen(header, blocks, cap, separator, |blocks|);
    }
  }

  lemma {:induction false} PackedFailsWhen(header: string, blocks: seq<string>, cap: int, separator: string, n: nat)
    requires n <= |blocks|
    ensures Packed(header, blocks, cap, separator, n) == None
        <==> exists i :: 0 <= i < n && |blocks[i]| > cap && Split(blocks[i], cap, separator).Raised?
  {
    if n > 0 {
      PackedFailsWhen(header, blocks, cap, separator, n - 1);
    }
  }

  // ---- The cap ----

  /** Every message is within the cap exactly when the header is; a longer header goes out as it is, alone. */
  lemma MessagesFit(header: string, blocks: seq<string>, cap: int, separator: string)
    requires Pack(header, blocks, cap, separator).Ok?
    ensures var sent := Pack(header, blocks, cap, separator).value;
            && (forall m :: m in sent ==> |m| <= cap || m == header)
            && (|header| > cap ==> header in sent)
            && ((forall m :: m in sent ==> |m| <= cap) <==> |header| <= cap)
  {
    OnlyHeaderOverflows(header, blocks, cap, separator, |blocks|);
    if |header| > cap {
      HeaderGoesOut(header, blocks, cap, separator, |blocks|);
    }
  }

  lemma {:induction false} OnlyHeaderOverflows(header: string, blocks: seq<string>, cap: int, separator: string, n: nat)
    requires cap >= 1 && n <= |blocks| && Packed(header, blocks, cap, separator, n).Some?
    ensures var p := Packed(header, blocks, cap, separator, n).value;
            && (|p.current| <= cap || p.current == header)
            && (forall m :: m in p.messages ==> |m| <= cap || m == header)
  {
    if n > 0 {
      OnlyHeaderOverflows(header, blocks, cap, separator, n - 1);
      var block := blocks[n - 1];
      if |block| > cap {
        SplitIsExact(block, cap, separator);
      }
    }
  }

  lemma {:induction false} HeaderGoesOut(header: string, blocks: seq<string>, cap: int, separator: string, n: nat)
    requires |header| > cap >= 1 && n <= |blocks| && Packed(header, blocks, cap, separator, n).Some?
    ensures var p := Packed(header, blocks, cap, separator, n).value; p.current == header || header in p.messages
  {
    if n > 0 {
      HeaderGoesOut(header, blocks, cap, separator, n - 1);
    }
  }

  /** The combined payload: header and blocks joined by the separator, once there is something to join to. */
  function Joined(header: string, blocks: seq<string>, separator: string): string {
    if blocks == [] then header
    else
      var before, last := Joined(header, blocks[..|blocks| - 1], separator), blocks[|blocks| - 1];
      if before == "" then last else before + separator + last
  }

  lemma {:induction false} OneMessage(header: string, blocks: seq<string>, cap: int, separator: string, n: nat)
    requires n <= |blocks| && |Joined(header, blocks[..n], separator)| <= cap
    ensures Packed(header, blocks, cap, separator, n) == Some(Packing([], Joined(header, blocks[..n], separator)))
  {
    if n > 0 {
      assert blocks[..n][..n - 1] == blocks[..n - 1];
      OneMessage(header, blocks, cap, separator, n - 1);
    } else {
      assert blocks[..n] == [];
    }
  }

  lemma {:induction false} JoinedGrows(header: string, blocks: seq<string>, separator: string)
    requires header != "" && separator != ""
    ensures |Joined(header, blocks, separator)| >= |header| && (blocks != [] ==> |Joined(header, blocks, separator)| > |header|)
  {
    if blocks != [] {
      JoinedGrows(header, blocks[..|blocks| - 1], separator);
    }
  }

  /** The whole payload goes out as one message exactly when it fits in one, or there is only a header. */
  lemma OneMessageWhenItFits(header: string, blocks: seq<string>, cap: int, separator: string)
    requires cap >= 1 && separator != ""
    ensures Pack(header, blocks, cap, separator) == Ok([Joined(header, blocks, separator)])
        <==> |Joined(header, blocks, separator)| <= cap || blocks == []
  {
    var all := Joined(header, blocks, separator);
    assert blocks[..|blocks|] == blocks;
    if |all| <= cap {
      OneMessage(header, blocks, cap, separator, |blocks|);
      JoinedOfNothing(header, blocks, separator);
      assert Finished(Packing([], all), header) == [all];
    } else if blocks == [] {
      assert Finished(Packing([], header), header) == [all];
    } else {
      NotOneMessage(header, blocks, cap, separator);
    }
  }

  lemma JoinedOfNothing(header: string, blocks: seq<string>, separator: string)
    requires separator != ""
    ensures Joined(header, blocks, separator) == "" ==> header == ""
  {
    if header != "" {
      JoinedGrows(header, blocks, separator);
    }
  }

  lemma NotOneMessage(header: string, blocks: seq<string>, cap: int, separator: string)
    requires cap >= 1 && separator != "" && blocks != [] && |Joined(header, blocks, separator)| > cap
    ensures Pack(header, blocks, cap, separator) != Ok([Joined(header, blocks, separator)])
  {
    assert Joined(header, blocks, separator) in [Joined(header, blocks, separator)];
    if Pack(header, blocks, cap, separator).Ok? {
      MessagesFit(header, blocks, cap, separator);
      if header != "" {
        JoinedGrows(header, blocks, separator);
      }
    }
  }
}
