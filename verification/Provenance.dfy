/** Raw before derived: at every moment of every run each note is the parse of the raw message it came from. */
module Provenance {
  import opened CrashSafety
  import opened Diary
  import opened Lifecycle
  import opened Models
  import opened NoteParser
  import opened Plans
  import opened Tables

  /** The note's date and text are what parsing its source gives, and the source was no draft. */
  predicate ParsedFrom(n: Note, s: SourceMessage, fallback: IsoFallback) {
    && s.route != DraftRoute
    && match ParseNote(s.rawText, fallback)
       case None => false
       case Some(parsed) => n.noteDate == parsed.noteDate && n.noteText == parsed.body
  }

  ghost predicate NotesParsed(notes: Notes, sources: Sources, fallback: IsoFallback) {
    forall id :: id in notes ==> notes[id].sourceId in sources && ParsedFrom(notes[id], sources[notes[id].sourceId], fallback)
  }

  /** The service parses the message itself. */
  ghost predicate SelfParsed(op: Op, fallback: IsoFallback) {
    op.Ingest? ==> op.delivery.parsed == ParseNote(op.delivery.message.payload, fallback)
  }

  /** Once its note is saved, an ingest's note carries what was parsed. */
  ghost predicate OwnText(notes: Notes, dl: Delivery) {
    dl.env.noteId in notes ==>
      && dl.message.route != DraftRoute && dl.parsed.Some?
      && notes[dl.env.noteId].noteDate == dl.parsed.value.noteDate && notes[dl.env.noteId].noteText == dl.parsed.value.body
  }

  predicate TextWrite(w: Write, dl: Delivery) {
    w.SaveNote? ==>
      && dl.message.route != DraftRoute && dl.parsed.Some?
      && w.note.noteDate == dl.parsed.value.noteDate && w.note.noteText == dl.parsed.value.body
  }

  lemma {:induction false} TextKept(e: Diary, ws: seq<Write>, dl: Delivery)
    requires OwnText(e.notes.rows, dl) && forall w :: w in ws ==> TextWrite(w, dl)
    ensures OwnText(ApplyAll(e, ws).notes.rows, dl)
    decreases |ws|
  {
    if ws != [] {
      assert TextWrite(ws[0], dl);
      TextKept(Apply(e, ws[0]), ws[1..], dl);
    }
  }

  lemma IngestTexts(d: Diary, dl: Delivery)
    ensures forall w :: w in Writes(d, Ingest(dl)) ==> TextWrite(w, dl)
  {
    IngestShape(d, dl);
    forall w | w in Writes(d, Ingest(dl)) ensures TextWrite(w, dl) {
      assert IngestWrite(w, d, dl);
    }
  }

  /** The row an event adds to the notes, if any, with the source it came from. */
  lemma NewNoteParsed(d: Diary, ev: Event, id: Id, fallback: IsoFallback)
    requires Sound(d) && Fresh(d, ev.op) && SelfParsed(ev.op, fallback)
    requires var e := After(d, ev); id in e.notes.rows && id !in d.notes.rows && Sound(e)
    ensures var e := After(d, ev);
            e.notes.rows[id].sourceId in e.sources.rows
            && ParsedFrom(e.notes.rows[id], e.sources.rows[e.notes.rows[id].sourceId], fallback)
  {
    NewNoteOrigin(d, ev, id);
    var dl := ev.op.delivery;
    WritesOf(d, ev);
    var ws: seq<Write> :| After(d, ev) == ApplyAll(d, ws) && forall w :: w in ws ==> w in Writes(d, ev.op);
    OwnWrites(d, dl);
    NewRowsFrom(d, ws, dl);
    IngestTexts(d, dl);
    TextKept(d, ws, dl);
  }

  lemma OldNotesParsed(d: Diary, e: Diary, fallback: IsoFallback)
    requires NotesParsed(d.notes.rows, d.sources.rows, fallback) && Keeps(d, e)
    ensures forall id :: id in d.notes.rows ==>
              id in e.notes.rows && e.notes.rows[id].sourceId in e.sources.rows
              && ParsedFrom(e.notes.rows[id], e.sources.rows[e.notes.rows[id].sourceId], fallback)
  {
    forall id | id in d.notes.rows
      ensures id in e.notes.rows && e.notes.rows[id].sourceId in e.sources.rows
              && ParsedFrom(e.notes.rows[id], e.sources.rows[e.notes.rows[id].sourceId], fallback)
    {
      assert NoteKept(d.notes.rows[id], e.notes.rows[id]);
      assert d.notes.rows[id].sourceId in d.sources.rows;
    }
  }

  lemma AfterParsed(d: Diary, ev: Event, fallback: IsoFallback)
    requires Sound(d) && Fresh(d, ev.op) && SelfParsed(ev.op, fallback)
    requires NotesParsed(d.notes.rows, d.sources.rows, fallback)
    ensures NotesParsed(After(d, ev).notes.rows, After(d, ev).sources.rows, fallback)
  {
    AfterSound(d, ev);
    OldNotesParsed(d, After(d, ev), fallback);
    forall id | id in After(d, ev).notes.rows && id !in d.notes.rows
      ensures var e := After(d, ev);
              e.notes.rows[id].sourceId in e.sources.rows
              && ParsedFrom(e.notes.rows[id], e.sources.rows[e.notes.rows[id].sourceId], fallback)
    {
      NewNoteParsed(d, ev, id, fallback);
    }
  }

  ghost predicate SelfParsedRun(evs: seq<Event>, fallback: IsoFallback) {
    forall i :: 0 <= i < |evs| ==> SelfParsed(evs[i].op, fallback)
  }

  /** Crashes included, every note can be rebuilt from its stored raw text, and every chunk is its note's text. */
  lemma {:induction false} RunParsed(evs: seq<Event>, fallback: IsoFallback)
    requires FreshRun(evs) && SelfParsedRun(evs, fallback)
    ensures NotesParsed(Run(evs).notes.rows, Run(evs).sources.rows, fallback)
  {
    if evs != [] {
      var before := evs[..|evs| - 1];
      RunParsed(before, fallback);
      RunSound(before);
      AfterParsed(Run(before), evs[|evs| - 1], fallback);
    }
  }
}
