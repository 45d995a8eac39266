/**
 * The strict note parser, the near-ISO date whitelist, and the dispatcher's rewrite of a
 * note's first line (`core/domain/parser.py`, `services/dispatcher.py`).
 */
module NoteParser {
  import opened Calendar
  import opened Models
  import opened Text
  import opened Wrappers

  /** What `date.fromisoformat` says of tokens that are not shaped `dddd-dd-dd`. */
  type IsoFallback = string -> Option<Date>

  // ---- Tokens and dates ----

  predicate IsDigit(c: char) {
    '0' <= c <= '9'
  }

  function DigitValue(c: char): nat
    requires IsDigit(c)
  {
    c as int - '0' as int
  }

  function DigitChar(n: nat): (c: char)
    requires n < 10
    ensures IsDigit(c) && DigitValue(c) == n
  {
    ('0' as int + n) as char
  }

  predicate AllDigits(s: string) {
    forall i :: 0 <= i < |s| ==> IsDigit(s[i])
  }

  function Value2(s: string): nat
    requires |s| == 2 && AllDigits(s)
  {
    10 * DigitValue(s[0]) + DigitValue(s[1])
  }

  function Value4(s: string): nat
    requires |s| == 4 && AllDigits(s)
  {
    100 * Value2(s[..2]) + Value2(s[2..])
  }

  function Print2(n: nat): (s: string)
    requires n < 100
    ensures |s| == 2 && AllDigits(s) && Value2(s) == n
  {
    [DigitChar(n / 10), DigitChar(n % 10)]
  }

  function Print4(n: nat): (s: string)
    requires n < 10000
    ensures |s| == 4 && AllDigits(s) && Value4(s) == n
  {
    var s := Print2(n / 100) + Print2(n % 100);
    assert s[..2] == Print2(n / 100) && s[2..] == Print2(n % 100);
    s
  }

  predicate IsSeparator(c: char) {
    c == '-' || c == '/' || c == '.'
  }

  /** `2026-05-09` with a chosen separator. */
  function YearFirst(d: Date, sep: char): string {
    Print4(d.year) + [sep] + Print2(d.month) + [sep] + Print2(d.day)
  }

  /** `09-05-2026` with a chosen separator. */
  function DayFirst(d: Date, sep: char): string {
    Print2(d.day) + [sep] + Print2(d.month) + [sep] + Print4(d.year)
  }

  /** `date.isoformat()` */
  function IsoFormat(d: Date): string {
    YearFirst(d, '-')
  }

  predicate YearFirstShape(s: string) {
    && |s| == 10 && IsSeparator(s[4]) && s[7] == s[4]
    && AllDigits(s[..4]) && AllDigits(s[5..7]) && AllDigits(s[8..])
  }

  predicate DayFirstShape(s: string) {
    && |s| == 10 && IsSeparator(s[2]) && s[5] == s[2]
    && AllDigits(s[..2]) && AllDigits(s[3..5]) && AllDigits(s[6..])
  }

  function CheckedDate(year: nat, month: nat, day: nat): Option<Date> {
    if ValidDate(YearMonthDay(year, month, day)) then Some(YearMonthDay(year, month, day)) else None
  }

  /** `_parse_iso_date` */
  function ParseIsoDate(token: string, fallback: IsoFallback): Option<Date> {
    if YearFirstShape(token) && token[4] == '-' then
      CheckedDate(Value4(token[..4]), Value2(token[5..7]), Value2(token[8..]))
    else
      fallback(token)
  }

  /** `normalize_iso_date_token`: the canonical form of a whitelisted token. */
  function NormalizeDateToken(token: string, fallback: IsoFallback): Option<string> {
    var s := Strip(token);
    if YearFirstShape(s) then
      Candidate(s[..4] + "-" + s[5..7] + "-" + s[8..], fallback)
    else if DayFirstShape(s) then
      Candidate(s[6..] + "-" + s[3..5] + "-" + s[..2], fallback)
    else
      None
  }

  function Candidate(text: string, fallback: IsoFallback): Option<string> {
    if ParseIsoDate(text, fallback).Some? then Some(text) else None
  }

  // ---- The parser ----

  function Cores(lines: seq<string>): seq<string> {
    if lines == [] then []
    else
      var core := Strip(Chomp(lines[0]));
      (if core != [] then [core] else []) + Cores(lines[1..])
  }

  /** `_split_non_empty_lines` */
  function NonEmptyLines(text: string): seq<string> {
    Cores(Lines(text))
  }

  /** `parse_note` */
  function ParseNote(payload: string, fallback: IsoFallback): Option<ParsedNote> {
    var lines := NonEmptyLines(payload);
    if lines == [] then None
    else
      match ParseIsoDate(lines[0], fallback)
      case None => None
      case Some(date) => Some(ParsedNote(date, JoinLines(lines[1..]), lines[0]))
  }

  /** `_first_line`, quoted back to the author of an unusable note. */
  function FirstLine(text: string): string {
    if text == [] then [] else Strip(Chomp(Lines(text)[0]))
  }

  // ---- The dispatcher's rewrite ----

  /** The index of the first line that is not blank, or the number of lines. */
  function FirstNonBlank(lines: seq<string>): (i: nat)
    ensures i <= |lines|
    ensures i < |lines| ==> Strip(lines[i]) != []
  {
    if lines == [] || Strip(lines[0]) != [] then 0 else 1 + FirstNonBlank(lines[1..])
  }

  lemma {:induction false} FirstNonBlankIs(lines: seq<string>, i: nat)
    requires i <= |lines| && (i < |lines| ==> Strip(lines[i]) != [])
    requires forall j :: 0 <= j < i ==> Strip(lines[j]) == []
    ensures FirstNonBlank(lines) == i
  {
    if i > 0 {
      FirstNonBlankIs(lines[1..], i - 1);
    }
  }

  lemma {:induction false} BlankBefore(lines: seq<string>)
    ensures forall j :: 0 <= j < FirstNonBlank(lines) ==> Strip(lines[j]) == []
  {
    if lines != [] && Strip(lines[0]) == [] {
      BlankBefore(lines[1..]);
    }
  }

  /** A line with its core replaced and the blanks around it kept. */
  function Recored(line: string, core: string): string
    requires Strip(line) != []
  {
    StripParts(line);
    var lead := LeadLength(line);
    line[..lead] + core + line[lead + |Strip(line)|..]
  }

  function NormalizedPayload(payload: string, today: Date, fallback: IsoFallback): string {
    var lines := Lines(payload);
    var i := FirstNonBlank(lines);
    if i == |lines| then payload
    else
      match NormalizeDateToken(Strip(lines[i]), fallback)
      case None => IsoFormat(today) + "\n" + payload
      case Some(canonical) =>
        if canonical == Strip(lines[i]) then payload
        else Concat(lines[i := Recored(lines[i], canonical)])
  }

  /** `_normalize_note_first_line`, as the loop it is. */
  method NormalizeNoteFirstLine(message: InboundMessage, fallback: IsoFallback) returns (r: InboundMessage)
    ensures r == message.(payload := NormalizedPayload(message.payload, message.receivedOn, fallback))
  {
    var payload := message.payload;
    if payload == "" {
      return message;
    }
    var lines := Lines(payload);
    for idx := 0 to |lines|
      invariant forall j :: 0 <= j < idx ==> Strip(lines[j]) == []
    {
      var raw := lines[idx];
      var stripped := Strip(raw);
      if stripped == "" {
        continue;
      }
      FirstNonBlankIs(lines, idx);
      var canonical := NormalizeDateToken(stripped, fallback);
      if canonical == None {
        return message.(payload := IsoFormat(message.receivedOn) + "\n" + payload);
      }
      if canonical.value == stripped {
        return message;
      }
      StripParts(raw);
      var lead := LeadLength(raw);
      var trailing := raw[lead + |stripped|..];
      lines := lines[idx := raw[..lead] + canonical.value + trailing];
      return message.(payload := Concat(lines));
    }
    FirstNonBlankIs(lines, |lines|);
    return message;
  }

  // ---- Dates: printing and reading back ----

  lemma ShapeOfYearFirst(d: Date, sep: char)
    requires IsSeparator(sep)
    ensures var s := YearFirst(d, sep);
            && YearFirstShape(s) && s[4] == sep && Stripped(s)
            && s[..4] == Print4(d.year) && s[5..7] == Print2(d.month) && s[8..] == Print2(d.day)
  {
    var s := YearFirst(d, sep);
    assert s[..4] == Print4(d.year);
    assert s[5..7] == Print2(d.month);
    assert s[8..] == Print2(d.day);
    assert s[0] == Print4(d.year)[0] && s[9] == Print2(d.day)[1];
  }

  lemma ShapeOfDayFirst(d: Date, sep: char)
    requires IsSeparator(sep)
    ensures var s := DayFirst(d, sep);
            && DayFirstShape(s) && !YearFirstShape(s) && Stripped(s)
            && s[6..] == Print4(d.year) && s[3..5] == Print2(d.month) && s[..2] == Print2(d.day)
  {
    var s := DayFirst(d, sep);
    assert s[..2] == Print2(d.day);
    assert s[3..5] == Print2(d.month);
    assert s[6..] == Print4(d.year);
    assert s[0] == Print2(d.day)[0] && s[9] == Print4(d.year)[3];
    assert s[..4][2] == sep;
  }

  /** The parser reads back what `isoformat` prints, whatever the fallback accepts besides. */
  lemma IsoRoundTrip(d: Date, fallback: IsoFallback)
    ensures ParseIsoDate(IsoFormat(d), fallback) == Some(d)
  {
    ShapeOfYearFirst(d, '-');
  }

  lemma PrintValue2(s: string)
    requires |s| == 2 && AllDigits(s)
    ensures Value2(s) < 100 && Print2(Value2(s)) == s
  {
  }

  lemma PrintValue4(s: string)
    requires |s| == 4 && AllDigits(s)
    ensures Value4(s) < 10000 && Print4(Value4(s)) == s
  {
    var a, b := Value2(s[..2]), Value2(s[2..]);
    PrintValue2(s[..2]);
    PrintValue2(s[2..]);
    assert s == s[..2] + s[2..];
    SplitHundreds(a, b);
  }

  lemma SplitHundreds(a: nat, b: nat)
    requires a < 100 && b < 100
    ensures 100 * a + b < 10000 && Print4(100 * a + b) == Print2(a) + Print2(b)
  {
    assert (100 * a + b) / 100 == a && (100 * a + b) % 100 == b;
  }

  ghost predicate SixForms(s: string, d: Date) {
    exists sep :: IsSeparator(sep) && (s == YearFirst(d, sep) || s == DayFirst(d, sep))
  }

  /** A token normalises to the canonical form of `d` exactly when it is one of the six printings of `d`. */
  lemma NormalizesExactlySixForms(token: string, d: Date, fallback: IsoFallback)
    ensures NormalizeDateToken(token, fallback) == Some(IsoFormat(d)) <==> SixForms(Strip(token), d)
  {
    if SixForms(Strip(token), d) {
      var sep :| IsSeparator(sep) && (Strip(token) == YearFirst(d, sep) || Strip(token) == DayFirst(d, sep));
      SixFormsNormalize(token, d, sep, fallback);
    }
    if NormalizeDateToken(token, fallback) == Some(IsoFormat(d)) {
      NormalizedIsSixForm(token, d, fallback);
    }
  }

  lemma SixFormsNormalize(token: string, d: Date, sep: char, fallback: IsoFallback)
    requires IsSeparator(sep) && (Strip(token) == YearFirst(d, sep) || Strip(token) == DayFirst(d, sep))
    ensures NormalizeDateToken(token, fallback) == Some(IsoFormat(d))
  {
    IsoRoundTrip(d, fallback);
    if Strip(token) == YearFirst(d, sep) {
      ShapeOfYearFirst(d, sep);
    } else {
      ShapeOfDayFirst(d, sep);
    }
  }

  lemma NormalizedIsSixForm(token: string, d: Date, fallback: IsoFallback)
    requires NormalizeDateToken(token, fallback) == Some(IsoFormat(d))
    ensures SixForms(Strip(token), d)
  {
    var s := Strip(token);
    var c := IsoFormat(d);
    ShapeOfYearFirst(d, '-');
    if YearFirstShape(s) {
      SliceCandidate(s[..4], s[5..7], s[8..], c);
      assert s == s[..4] + [s[4]] + s[5..7] + [s[4]] + s[8..];
      assert s == YearFirst(d, s[4]);
    } else {
      SliceCandidate(s[6..], s[3..5], s[..2], c);
      assert s == s[..2] + [s[2]] + s[3..5] + [s[2]] + s[6..];
      assert s == DayFirst(d, s[2]);
    }
  }

  lemma SliceCandidate(y: string, m: string, d: string, c: string)
    requires |y| == 4 && |m| == 2 && |d| == 2 && c == y + "-" + m + "-" + d
    ensures |c| == 10 && c[..4] == y && c[5..7] == m && c[8..] == d
  {
  }

  /** Whatever normalises, normalises to the canonical form of a calendar date. */
  lemma NormalizedIsCanonical(token: string, fallback: IsoFallback) returns (d: Date)
    requires NormalizeDateToken(token, fallback).Some?
    ensures NormalizeDateToken(token, fallback) == Some(IsoFormat(d))
  {
    var s := Strip(token);
    var c := NormalizeDateToken(token, fallback).value;
    if YearFirstShape(s) {
      SliceCandidate(s[..4], s[5..7], s[8..], c);
    } else {
      SliceCandidate(s[6..], s[3..5], s[..2], c);
    }
    d := ParseIsoDate(c, fallback).value;
    PrintValue4(c[..4]);
    PrintValue2(c[5..7]);
    PrintValue2(c[8..]);
  }
}
