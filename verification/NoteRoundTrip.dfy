/** What first-line normalisation and the parser guarantee together, for every payload. */
module NoteRoundTrip {
  import opened Calendar
  import opened NoteParser
  import opened Text
  import opened Wrappers

  /** A body line: stripped, not empty, all on one line. */
  predicate Clean(s: string) {
    s != [] && Stripped(s) && NoLineBreak(s)
  }

  predicate AllClean(parts: seq<string>) {
    forall i :: 0 <= i < |parts| ==> Clean(parts[i])
  }

  lemma IsoIsClean(d: Date)
    ensures Clean(IsoFormat(d))
  {
    ShapeOfYearFirst(d, '-');
  }

  lemma CleanCore(line: string)
    requires NoLineBreak(line)
    ensures Strip(line) != [] ==> Clean(Strip(line))
  {
    StripEnds(line);
    if Strip(line) != [] {
      StripParts(line);
      var lead := LeadLength(line);
      assert forall i :: 0 <= i < |Strip(line)| ==> Strip(line)[i] == line[lead + i];
    }
  }

  lemma {:induction false} CoresClean(lines: seq<string>)
    requires LinesOf(lines)
    ensures AllClean(Cores(lines))
  {
    if lines != [] {
      ChompLine(lines[0], Concat(lines[1..]));
      CleanCore(Chomp(lines[0]));
      CoresClean(lines[1..]);
    }
  }

  /** A line put in front of a text is its first line and moves no other. */
  lemma LineInFront(a: string, b: string)
    requires Clean(a)
    ensures NonEmptyLines(a + "\n" + b) == [a] + NonEmptyLines(b)
  {
    var s := a + "\n" + b;
    assert s == a + ("\n" + b);
    LinePrefix(a, "\n" + b);
    assert s[..|a| + 1] == a + "\n" && s[|a| + 1..] == b;
    StripChomp(a + "\n", b);
    StripKeeps(a, "\n");
    StripStripped(a);
    assert Lines(s)[1..] == Lines(b);
  }

  lemma {:induction false} JoinedLines(parts: seq<string>)
    requires AllClean(parts)
    ensures NonEmptyLines(JoinLines(parts)) == parts
  {
    if |parts| == 1 {
      var a := parts[0];
      LinePrefix(a, "");
      assert a + "" == a;
      assert a[..|a|] == a;
      assert Lines(a) == [a];
      StripChomp(a, "");
      StripStripped(a);
      assert Cores(Lines(a)) == [a] + Cores([]);
    } else if |parts| > 1 {
      JoinedLines(parts[1..]);
      LineInFront(parts[0], JoinLines(parts[1..]));
    }
  }

  /** The parser skips the same blank lines as the dispatcher. */
  lemma {:induction false} FirstCore(lines: seq<string>)
    requires LinesOf(lines)
    ensures Cores(lines) == CoresFrom(lines, FirstNonBlank(lines))
  {
    if lines != [] {
      StripChomp(lines[0], Concat(lines[1..]));
      if Strip(lines[0]) == [] {
        FirstCore(lines[1..]);
        OneLineLater(lines, FirstNonBlank(lines[1..]));
      }
    }
  }

  lemma OneLineLater(lines: seq<string>, i: nat)
    requires lines != [] && i < |lines|
    ensures CoresFrom(lines[1..], i) == CoresFrom(lines, i + 1)
  {
    if i < |lines[1..]| {
      assert lines[1..][i] == lines[i + 1];
      assert lines[1..][i + 1..] == lines[i + 2..];
    }
  }

  function CoresFrom(lines: seq<string>, i: nat): seq<string>
    requires i <= |lines|
  {
    if i == |lines| then [] else [Strip(lines[i])] + Cores(lines[i + 1..])
  }

  /** Exchanging the core of one line leaves the text split at the same places. */
  lemma {:induction false} RecoredLines(lines: seq<string>, i: nat, core: string)
    requires LinesOf(lines) && i < |lines| && Strip(lines[i]) != [] && Clean(core)
    ensures LinesOf(lines[i := Recored(lines[i], core)])
    decreases i
  {
    var line := Recored(lines[i], core);
    var changed := lines[i := line];
    var rest := Concat(lines[1..]);
    if i == 0 {
      assert changed[1..] == lines[1..];
      RecoredWhole(lines[0], core, rest);
    } else {
      RecoredLines(lines[1..], i - 1, core);
      assert changed[1..] == lines[1..][i - 1 := line];
      FirstCharacter(lines[1..], i - 1, core);
      LineStable(lines[0], rest, Concat(changed[1..]));
    }
  }

  lemma FirstCharacter(lines: seq<string>, i: nat, core: string)
    requires LinesOf(lines) && i < |lines| && Strip(lines[i]) != [] && Clean(core)
    ensures var r1, r2 := Concat(lines), Concat(lines[i := Recored(lines[i], core)]);
            r1 != [] && r2 != [] && (r1[0] == '\n' <==> r2[0] == '\n')
  {
    var line := Recored(lines[i], core);
    var changed := lines[i := line];
    if i == 0 {
      FirstOfLine(lines[0], core, Concat(lines[1..]));
      assert Concat(lines)[0] == lines[0][0] && Concat(changed)[0] == line[0];
    } else {
      assert Concat(lines)[0] == lines[0][0] == Concat(changed)[0];
    }
  }

  lemma FirstOfLine(was: string, core: string, rest: string)
    requires was != [] && LineLength(was + rest) == |was| && Strip(was) != [] && Clean(core)
    ensures var line := Recored(was, core); line != [] && (was[0] == '\n' <==> line[0] == '\n')
  {
    StripParts(was);
    StripEnds(was);
    var lead, line := LeadLength(was), Recored(was, core);
    LineInside(was, rest, lead);
    if lead == 0 {
      assert line[0] == core[0] && was[0] == Strip(was)[0];
    } else {
      assert line[0] == was[0] == was[..lead + 1][0];
    }
  }

  lemma RecoredWhole(line: string, core: string, rest: string)
    requires line != [] && LineLength(line + rest) == |line|
    requires Strip(line) != [] && Clean(core)
    ensures Recored(line, core) != [] && LineLength(Recored(line, core) + rest) == |Recored(line, core)|
  {
    var lead, end := LeadLength(line), LeadLength(line) + |Strip(line)|;
    CoreHasNoBreak(line, rest);
    var t := line[end..] + rest;
    assert line + rest == line[..end] + t;
    LeadHasNoBreak(line, lead, end);
    WholeLine(line[..end], line[..lead] + core, t, |line| - end);
    assert Recored(line, core) + rest == line[..lead] + core + t;
  }

  lemma CoreHasNoBreak(line: string, rest: string)
    requires line != [] && LineLength(line + rest) == |line| && Strip(line) != []
    ensures var end := LeadLength(line) + |Strip(line)|; 0 < end <= |line| && NoLineBreak(line[..end])
  {
    StripParts(line);
    StripEnds(line);
    LineInside(line, rest, LeadLength(line) + |Strip(line)| - 1);
  }

  lemma LeadHasNoBreak(line: string, lead: nat, end: nat)
    requires lead <= end <= |line| && NoLineBreak(line[..end])
    ensures NoLineBreak(line[..lead])
  {
    assert forall k :: 0 <= k < lead ==> line[..lead][k] == line[..end][k];
  }

  /** What comes before the break of a whole line can be exchanged. */
  lemma WholeLine(a: string, b: string, t: string, n: nat)
    requires a != [] && b != [] && NoLineBreak(a) && NoLineBreak(b)
    requires LineLength(a + t) == |a| + n
    ensures LineLength(b + t) == |b| + n
  {
    LinePrefix(a, t);
    LinePrefix(b, t);
  }

  lemma RecoredStrips(line: string, core: string)
    requires Strip(line) != [] && Clean(core)
    ensures Strip(Recored(line, core)) == core
  {
    StripParts(line);
    var lead := LeadLength(line);
    StripFinds(line[..lead], core, line[lead + |Strip(line)|..]);
  }

  /** The lines the parser sees after normalisation. */
  /** A new core on the first line that has one changes that core only. */
  lemma RecoredCores(lines: seq<string>, i: nat, core: string)
    requires LinesOf(lines) && i == FirstNonBlank(lines) && i < |lines| && Clean(core) && core != []
    ensures var changed := lines[i := Recored(lines[i], core)];
            LinesOf(changed) && Cores(lines) != [] && Cores(changed) == [core] + Cores(lines)[1..]
  {
    var changed := lines[i := Recored(lines[i], core)];
    RecoredLines(lines, i, core);
    RecoredStrips(lines[i], core);
    BlankBefore(lines);
    FirstNonBlankIs(changed, i);
    FirstCore(lines);
    FirstCore(changed);
    assert changed[i + 1..] == lines[i + 1..];
  }

  lemma NormalizedLines(payload: string, today: Date, fallback: IsoFallback)
    ensures var before, after := NonEmptyLines(payload), NonEmptyLines(NormalizedPayload(payload, today, fallback));
            if before == [] then after == []
            else match NormalizeDateToken(before[0], fallback)
                 case None => after == [IsoFormat(today)] + before
                 case Some(canonical) => after == [canonical] + before[1..]
  {
    var lines := Lines(payload);
    ConcatLines(payload);
    FirstCore(lines);
    var i := FirstNonBlank(lines);
    if i < |lines| {
      var token := Strip(lines[i]);
      match NormalizeDateToken(token, fallback)
      case None =>
        IsoIsClean(today);
        LineInFront(IsoFormat(today), payload);
      case Some(canonical) =>
        var d := NormalizedIsCanonical(token, fallback);
        IsoIsClean(d);
        if canonical != token {
          RecoredCores(lines, i, canonical);
          LinesConcat(lines[i := Recored(lines[i], canonical)]);
        }
    }
  }

  /**
   * A payload with a line that is not blank always parses once normalised. The note's date is the
   * one the first such line prints, with the lines after it as body; when that line is no date,
   * it is the day of receipt with every line as body.
   */
  lemma NormalizedParses(payload: string, today: Date, fallback: IsoFallback)
    ensures var lines, note := NonEmptyLines(payload), ParseNote(NormalizedPayload(payload, today, fallback), fallback);
            && (lines == [] <==> note == None)
            && (lines != [] ==>
                  && note.value.firstLine == IsoFormat(note.value.noteDate)
                  && ((SixForms(lines[0], note.value.noteDate) && note.value.body == JoinLines(lines[1..]))
                      || ((forall d :: !SixForms(lines[0], d))
                          && note.value.noteDate == today && note.value.body == JoinLines(lines))))
  {
    NormalizedLines(payload, today, fallback);
    var lines := NonEmptyLines(payload);
    if lines != [] {
      ConcatLines(payload);
      CoresClean(Lines(payload));
      StripStripped(lines[0]);
      match NormalizeDateToken(lines[0], fallback)
      case None =>
        IsoRoundTrip(today, fallback);
        assert ([IsoFormat(today)] + lines)[1..] == lines;
        forall d ensures !SixForms(lines[0], d) {
          NormalizesExactlySixForms(lines[0], d, fallback);
        }
      case Some(canonical) =>
        var d := NormalizedIsCanonical(lines[0], fallback);
        NormalizesExactlySixForms(lines[0], d, fallback);
        IsoRoundTrip(d, fallback);
        assert ([canonical] + lines[1..])[1..] == lines[1..];
    }
  }

  lemma NormalizedFirst(canonical: string, d: Date, fallback: IsoFallback)
    requires canonical == IsoFormat(d)
    ensures NormalizeDateToken(canonical, fallback) == Some(canonical)
  {
    IsoIsClean(d);
    StripStripped(canonical);
    assert canonical == YearFirst(d, '-');
    SixFormsNormalize(canonical, d, '-', fallback);
  }

  /** Normalising a normalised payload changes nothing, on whatever day it is received again. */
  lemma NormalizationIdempotent(payload: string, today: Date, later: Date, fallback: IsoFallback)
    ensures var once := NormalizedPayload(payload, today, fallback);
            NormalizedPayload(once, later, fallback) == once
  {
    NormalizedLines(payload, today, fallback);
    var once := NormalizedPayload(payload, today, fallback);
    var before, after := NonEmptyLines(payload), NonEmptyLines(once);
    ConcatLines(once);
    FirstCore(Lines(once));
    if before != [] {
      match NormalizeDateToken(before[0], fallback)
      case None => NormalizedFirst(after[0], today, fallback);
      case Some(canonical) =>
        var d := NormalizedIsCanonical(before[0], fallback);
        NormalizedFirst(after[0], d, fallback);
    }
  }

  /** Printing a parsed note's date above its body and parsing that gives the note back. */
  lemma ReparseRoundTrip(payload: string, fallback: IsoFallback)
    requires ParseNote(payload, fallback).Some?
    ensures var note := ParseNote(payload, fallback).value;
            ParseNote(IsoFormat(note.noteDate) + "\n" + note.body, fallback)
              == Some(note.(firstLine := IsoFormat(note.noteDate)))
  {
    var note := ParseNote(payload, fallback).value;
    var lines := NonEmptyLines(payload);
    ConcatLines(payload);
    CoresClean(Lines(payload));
    var body := lines[1..];
    JoinedLines(body);
    IsoIsClean(note.noteDate);
    LineInFront(IsoFormat(note.noteDate), note.body);
    IsoRoundTrip(note.noteDate, fallback);
    assert ([IsoFormat(note.noteDate)] + body)[1..] == body;
  }
}
