/** The parts of Python's `str` the note parser leans on: strip, splitlines, join, decimal printing. */
module Text {
  /** The characters `str.splitlines` ends a line at. */
  predicate IsLineBreak(c: char) {
    var n := c as int;
    10 <= n <= 13 || 28 <= n <= 30 || n == 133 || 8232 <= n <= 8233
  }

  /** `str.isspace`; every line break is a space. */
  predicate IsSpace(c: char) {
    var n := c as int;
    || 9 <= n <= 13 || 28 <= n <= 32 || n == 133 || n == 160 || n == 5760
    || 8192 <= n <= 8202 || 8232 <= n <= 8233 || n == 8239 || n == 8287 || n == 12288
  }

  predicate AllSpace(s: string) {
    forall i :: 0 <= i < |s| ==> IsSpace(s[i])
  }

  predicate NoLineBreak(s: string) {
    forall i :: 0 <= i < |s| ==> !IsLineBreak(s[i])
  }

  // ---- strip ----

  /** How many characters `lstrip` drops. */
  function LeadLength(s: string): (n: nat)
    ensures n <= |s|
  {
    if s == [] || !IsSpace(s[0]) then 0 else 1 + LeadLength(s[1..])
  }

  /** How many characters `rstrip` keeps. */
  function KeptLength(s: string): (n: nat)
    ensures n <= |s|
  {
    if s == [] || !IsSpace(s[|s| - 1]) then |s| else KeptLength(s[..|s| - 1])
  }

  lemma {:induction false} LeadIs(s: string, n: nat)
    requires n <= |s| && (n < |s| ==> !IsSpace(s[n]))
    requires forall i :: 0 <= i < n ==> IsSpace(s[i])
    ensures LeadLength(s) == n
  {
    if n > 0 {
      LeadIs(s[1..], n - 1);
    }
  }

  lemma {:induction false} LeadFacts(s: string)
    ensures LeadLength(s) < |s| ==> !IsSpace(s[LeadLength(s)])
    ensures forall i :: 0 <= i < LeadLength(s) ==> IsSpace(s[i])
  {
    if s != [] && IsSpace(s[0]) {
      LeadFacts(s[1..]);
      assert forall i :: 0 < i < LeadLength(s) ==> s[i] == s[1..][i - 1];
    }
  }

  lemma {:induction false} KeptFacts(s: string)
    ensures KeptLength(s) > 0 ==> !IsSpace(s[KeptLength(s) - 1])
    ensures forall i :: KeptLength(s) <= i < |s| ==> IsSpace(s[i])
  {
    if s != [] && IsSpace(s[|s| - 1]) {
      KeptFacts(s[..|s| - 1]);
    }
  }

  lemma {:induction false} KeptIs(s: string, n: nat)
    requires n <= |s| && (n > 0 ==> !IsSpace(s[n - 1]))
    requires forall i :: n <= i < |s| ==> IsSpace(s[i])
    ensures KeptLength(s) == n
  {
    if n < |s| {
      KeptIs(s[..|s| - 1], n);
    }
  }

  function Strip(s: string): string {
    var kept := s[..KeptLength(s)];
    kept[LeadLength(kept)..]
  }

  /** Text that strip would leave alone. */
  predicate Stripped(s: string) {
    s == [] || (!IsSpace(s[0]) && !IsSpace(s[|s| - 1]))
  }

  /** Strip finds the one core that has blanks around it and none at its ends. */
  lemma StripFinds(a: string, core: string, b: string)
    requires AllSpace(a) && AllSpace(b) && core != [] && Stripped(core)
    ensures Strip(a + core + b) == core && LeadLength(a + core + b) == |a|
  {
    Around(a, core, b);
    KeptBefore(a + core, b);
    LeadBefore(a, core);
    LeadBefore(a, core + b);
  }

  lemma Around(a: string, core: string, b: string)
    requires core != []
    ensures a + core + b == a + (core + b) && (a + core)[|a + core| - 1] == core[|core| - 1]
    ensures (a + core + b)[..|a + core|] == a + core && (a + core)[|a|..] == core
  {
  }

  lemma KeptBefore(t: string, b: string)
    requires t != [] && !IsSpace(t[|t| - 1]) && AllSpace(b)
    ensures KeptLength(t + b) == |t|
  {
    forall i | |t| <= i < |t + b| ensures IsSpace((t + b)[i]) {
      assert (t + b)[i] == b[i - |t|];
    }
    KeptIs(t + b, |t|);
  }

  lemma LeadBefore(a: string, t: string)
    requires AllSpace(a) && t != [] && !IsSpace(t[0])
    ensures LeadLength(a + t) == |a|
  {
    LeadIs(a + t, |a|);
  }

  lemma StripEnds(s: string)
    ensures Stripped(Strip(s))
    ensures Strip(s) == [] <==> AllSpace(s)
  {
    var kept := KeptLength(s);
    KeptFacts(s);
    var t := s[..kept];
    LeadFacts(t);
    assert forall i :: 0 <= i < kept ==> s[i] == t[i];
    if LeadLength(t) < kept {
      assert s[kept - 1] == t[kept - 1];
    }
  }

  lemma StripParts(s: string)
    requires Strip(s) != []
    ensures StripSplits(s, LeadLength(s), Strip(s))
  {
    var kept := KeptLength(s);
    var t := s[..kept];
    var lead := LeadLength(t);
    KeptFacts(s);
    LeadFacts(t);
    assert Strip(s) == s[lead..kept];
    assert t[lead] == s[lead];
    assert forall i :: 0 <= i < lead ==> t[i] == s[i];
    LeadIs(s, lead);
    SplitsAt(s, lead, kept);
  }

  lemma SplitsAt(s: string, lead: nat, kept: nat)
    requires lead <= kept <= |s|
    requires forall i :: 0 <= i < lead ==> IsSpace(s[i])
    requires forall i :: kept <= i < |s| ==> IsSpace(s[i])
    ensures StripSplits(s, lead, s[lead..kept])
  {
    assert s == s[..lead] + s[lead..kept] + s[kept..];
  }

  predicate StripSplits(s: string, lead: nat, core: string) {
    && lead + |core| <= |s|
    && s == s[..lead] + core + s[lead + |core|..]
    && AllSpace(s[..lead]) && AllSpace(s[lead + |core|..])
  }

  lemma StripStripped(s: string)
    requires Stripped(s)
    ensures Strip(s) == s
  {
    if s == [] {
    } else {
      StripFinds([], s, []);
      assert [] + s + [] == s;
    }
  }

  // ---- splitlines ----

  /** The length of the first line of a text, its line break included; `\r\n` is one break. */
  function LineLength(s: string): (n: nat)
    requires s != []
    ensures 1 <= n <= |s|
  {
    if IsLineBreak(s[0]) then (if s[0] == '\r' && |s| > 1 && s[1] == '\n' then 2 else 1)
    else if |s| == 1 then 1
    else 1 + LineLength(s[1..])
  }

  /** `splitlines(keepends=True)` */
  function Lines(s: string): seq<string> {
    if s == [] then [] else [s[..LineLength(s)]] + Lines(s[LineLength(s)..])
  }

  /** A line without its break. */
  function Chomp(line: string): string {
    if line == [] || IsLineBreak(line[0]) then [] else [line[0]] + Chomp(line[1..])
  }

  function Concat(parts: seq<string>): string {
    if parts == [] then [] else parts[0] + Concat(parts[1..])
  }

  /** `"\n".join(parts)` */
  function JoinLines(parts: seq<string>): string {
    if parts == [] then [] else if |parts| == 1 then parts[0] else parts[0] + "\n" + JoinLines(parts[1..])
  }

  /** Pieces that splitlines would give back as they are. */
  predicate LinesOf(parts: seq<string>) {
    parts == [] || (parts[0] != [] && LineLength(Concat(parts)) == |parts[0]| && LinesOf(parts[1..]))
  }

  lemma {:induction false} ConcatLines(s: string)
    ensures Concat(Lines(s)) == s && LinesOf(Lines(s))
    decreases |s|
  {
    if s != [] {
      var line, rest := s[..LineLength(s)], s[LineLength(s)..];
      ConcatLines(rest);
      assert s == line + rest;
      assert Lines(s)[0] == line && Lines(s)[1..] == Lines(rest);
      assert Concat(Lines(s)) == line + Concat(Lines(rest));
    }
  }

  lemma OneLineMore(line: string, rest: string)
    requires line != [] && LineLength(line + rest) == |line|
    ensures Lines(line + rest) == [line] + Lines(rest)
  {
    assert (line + rest)[..|line|] == line && (line + rest)[|line|..] == rest;
  }

  lemma {:induction false} LinesConcat(parts: seq<string>)
    requires LinesOf(parts)
    ensures Lines(Concat(parts)) == parts
  {
    if parts != [] {
      LinesConcat(parts[1..]);
      OneLineMore(parts[0], Concat(parts[1..]));
    }
  }

  lemma {:induction false} LinePrefix(a: string, rest: string)
    requires NoLineBreak(a) && a + rest != []
    ensures LineLength(a + rest) == |a| + if rest == [] then 0 else LineLength(rest)
  {
    if a == [] {
      assert a + rest == rest;
    } else {
      assert (a + rest)[1..] == a[1..] + rest;
      if a[1..] + rest != [] {
        LinePrefix(a[1..], rest);
      }
    }
  }

  /** Whether a piece is a whole line depends only on how the text after it starts. */
  lemma {:induction false} LineStable(line: string, r1: string, r2: string)
    requires line != [] && LineLength(line + r1) == |line|
    requires r1 == [] <==> r2 == []
    requires r1 != [] ==> (r1[0] == '\n' <==> r2[0] == '\n')
    ensures LineLength(line + r2) == |line|
  {
    var s1, s2 := line + r1, line + r2;
    if IsLineBreak(line[0]) {
      assert |line| > 1 ==> s1[1] == s2[1] == line[1];
      assert |line| == 1 && r1 != [] ==> s1[1] == r1[0] && s2[1] == r2[0];
    } else if |s1| > 1 {
      assert s1[1..] == line[1..] + r1 && s2[1..] == line[1..] + r2;
      if |line| > 1 {
        LineStable(line[1..], r1, r2);
      }
    }
  }

  /** In a whole line only the end can be a break. */
  lemma {:induction false} LineInside(line: string, rest: string, i: nat)
    requires line != [] && LineLength(line + rest) == |line|
    requires i < |line| && !IsSpace(line[i])
    ensures NoLineBreak(line[..i + 1])
  {
    var s := line + rest;
    assert |line| > 1 ==> s[1] == line[1];
    if !IsLineBreak(line[0]) && i > 0 {
      assert s[1..] == line[1..] + rest;
      LineInside(line[1..], rest, i - 1);
      forall j | 0 <= j < i + 1 ensures !IsLineBreak(line[j]) {
        if j > 0 {
          assert line[j] == line[1..][..i][j - 1];
        }
      }
    }
  }

  lemma {:induction false} ChompLine(line: string, rest: string)
    requires line != [] && LineLength(line + rest) == |line|
    ensures |Chomp(line)| <= |line| && Chomp(line) == line[..|Chomp(line)|]
    ensures NoLineBreak(Chomp(line)) && AllSpace(line[|Chomp(line)|..])
  {
    var s := line + rest;
    if IsLineBreak(line[0]) {
      if |line| > 1 {
        assert s[1] == line[1] == '\n';
      }
    } else if |line| > 1 {
      assert s[1..] == line[1..] + rest;
      ChompLine(line[1..], rest);
    }
  }

  /** Blanks at the end, line break included, do not change what strip leaves. */
  lemma StripChomp(line: string, rest: string)
    requires line != [] && LineLength(line + rest) == |line|
    ensures Strip(Chomp(line)) == Strip(line)
  {
    ChompLine(line, rest);
    StripKeeps(Chomp(line), line[|Chomp(line)|..]);
    assert line == Chomp(line) + line[|Chomp(line)|..];
  }

  lemma StripKeeps(c: string, tail: string)
    requires AllSpace(tail)
    ensures Strip(c + tail) == Strip(c)
  {
    if Strip(c) == [] {
      StripEnds(c);
      StripEnds(c + tail);
    } else {
      StripEnds(c);
      StripParts(c);
      var lead := LeadLength(c);
      StripFindsLonger(c[..lead], Strip(c), c[lead + |Strip(c)|..], tail);
    }
  }

  lemma StripFindsLonger(a: string, core: string, b: string, tail: string)
    requires AllSpace(a) && AllSpace(b) && AllSpace(tail) && core != [] && Stripped(core)
    ensures Strip((a + core + b) + tail) == core
  {
    StripFinds(a, core, b + tail);
    assert a + core + (b + tail) == (a + core + b) + tail;
  }
}
