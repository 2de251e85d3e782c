/** The MusicXML reader: MIDI numbers of pitches, the number of staves of
    a part, the part's volume and the walk over a part's `<note>` and
    `<backup>` elements that gives every pitched note its start tick.
    The XML tree is replaced by the values the reader extracts from it:
    for each element the texts of its `<duration>` and `<staff>`
    descendants, its `<pitch>` children and whether it holds a `<rest>`
    or a `<chord>`. */
module MusicXml {
  import opened Common

  const NotesInOctave := 12
  const BaseOctaveOffset := 1
  const MissingVolume := -1

  // ---------------------------------------------------------------------
  // pitch_to_midi

  /** `pitch_to_midi(letter, octave, alter)`: the letter's distance from C
      doubled, less one above E and plus thirteen below C, on top of twelve
      semitones per octave counted from octave -1. `ord` raises TypeError
      unless the letter is a single character. */
  function PitchToMidi(letter: string, octave: int, alter: int): Result<int> {
    if |letter| != 1 then Err(TypeError)
    else
      var noteOffset := letter[0] as int - 'C' as int;
      var octaveOffset := (octave + BaseOctaveOffset) * NotesInOctave;
      var missingHalfStep := if 0 <= noteOffset < 3 then 0 else if noteOffset >= 3 then 1 else -13;
      Ok(noteOffset * 2 - missingHalfStep + octaveOffset + alter)
  }

  /** The seven step letters of MusicXML. */
  predicate IsStep(c: char) {
    c in "CDEFGAB"
  }

  /** The semitone of a step letter above C in the MIDI numbering. */
  function Semitone(c: char): int
    requires IsStep(c)
  {
    match c
    case 'C' => 0
    case 'D' => 2
    case 'E' => 4
    case 'F' => 5
    case 'G' => 7
    case 'A' => 9
    case 'B' => 11
  }

  /** For a step letter the MIDI number is twelve per octave from octave
      -1, plus the letter's semitone, plus the alteration. */
  lemma PitchToMidiMeaning(c: char, octave: int, alter: int)
    requires IsStep(c)
    ensures PitchToMidi([c], octave, alter) == Ok((octave + 1) * 12 + Semitone(c) + alter)
  {
  }

  /** The reference pitches of the MIDI 1.0 numbering: C4 is 60, A4 is 69
      and A0, the lowest key of a piano, is 21. */
  lemma ReferencePitches()
    ensures PitchToMidi("C", 4, 0) == Ok(60)
    ensures PitchToMidi("A", 4, 0) == Ok(69)
    ensures PitchToMidi("A", 0, 0) == Ok(21)
  {
    PitchToMidiMeaning('C', 4, 0);
    PitchToMidiMeaning('A', 4, 0);
    PitchToMidiMeaning('A', 0, 0);
  }

  /** One octave up adds twelve, and the alteration is added as it is. */
  lemma PitchShifts(letter: string, octave: int, alter: int, k: int)
    ensures PitchToMidi(letter, octave + 1, alter).Ok? <==> PitchToMidi(letter, octave, alter).Ok?
    ensures PitchToMidi(letter, octave, alter).Ok? ==>
              PitchToMidi(letter, octave + 1, alter).value == PitchToMidi(letter, octave, alter).value + 12 &&
              PitchToMidi(letter, octave, alter + k).value == PitchToMidi(letter, octave, alter).value + k
  {
  }

  /** A step letter stays within its octave, from its C up to the B below
      the next C, and two different letters give different numbers. */
  lemma StepsInOctave(c: char, d: char, octave: int)
    requires IsStep(c) && IsStep(d)
    ensures (octave + 1) * 12 <= PitchToMidi([c], octave, 0).value < (octave + 2) * 12
    ensures c != d ==> PitchToMidi([c], octave, 0) != PitchToMidi([d], octave, 0)
  {
    PitchToMidiMeaning(c, octave, 0);
    PitchToMidiMeaning(d, octave, 0);
  }

  // ---------------------------------------------------------------------
  // find_staff_count

  /** The distinct texts of a list. */
  function Distinct(texts: seq<string>): set<string> {
    set t | t in texts
  }

  /** A list has at most as many distinct texts as entries, and at least
      one when it is not empty. */
  lemma {:induction false} DistinctBounds(texts: seq<string>)
    ensures |Distinct(texts)| <= |texts|
    ensures |texts| > 0 ==> |Distinct(texts)| >= 1
    decreases |texts|
  {
    if |texts| > 0 {
      var init := texts[..|texts| - 1];
      DistinctBounds(init);
      assert Distinct(texts) == Distinct(init) + {texts[|texts| - 1]};
      assert texts[0] in Distinct(texts);
    }
  }

  /** `find_staff_count`: the texts of the part's `<staff>` elements are
      gathered, and their number of distinct values is the count, or 1
      when there is none. */
  method FindStaffCount(staffTexts: seq<string>) returns (staffCount: int)
    ensures staffCount >= 1
    ensures |staffTexts| > 0 ==> staffCount == |Distinct(staffTexts)| <= |staffTexts|
    ensures |staffTexts| == 0 ==> staffCount == 1
    ensures (forall i :: 0 <= i < |staffTexts| ==> staffTexts[i] == staffTexts[0]) ==> staffCount == 1
  {
    var temp: seq<string> := [];
    for i := 0 to |staffTexts|
      invariant temp == staffTexts[..i]
    {
      temp := temp + [staffTexts[i]];
    }
    assert temp == staffTexts;
    staffCount := |Distinct(temp)|;
    DistinctBounds(temp);
    if staffCount == 0 {
      staffCount := 1;
    }
    if |staffTexts| > 0 && forall i :: 0 <= i < |staffTexts| ==> staffTexts[i] == staffTexts[0] {
      assert Distinct(staffTexts) == {staffTexts[0]};
    }
  }

  // ---------------------------------------------------------------------
  // find_velocity

  /** A `<score-part>` of the part list: its id and the text of its
      `<volume>` element, if it has one. */
  datatype ScorePart = ScorePart(id: string, volume: Option<string>)

  /** `int(score_part.find(".//volume").text)`: a part without a volume
      raises AttributeError (the search gives None). */
  function VolumeOf(part: ScorePart): Result<int> {
    match part.volume
    case None => Err(AttributeError)
    case Some(text) => ParseInt(text)
  }

  /** The volume of the first score part with the id, or -1 when no part
      has it. */
  function Velocity(parts: seq<ScorePart>, partId: string): Result<int>
    decreases |parts|
  {
    if |parts| == 0 then Ok(MissingVolume)
    else if parts[0].id == partId then VolumeOf(parts[0])
    else Velocity(parts[1..], partId)
  }

  /** The velocity is that of the first part with the id, and -1 when
      there is none. */
  lemma {:induction false} VelocityMeaning(parts: seq<ScorePart>, partId: string, i: nat)
    ensures (forall j :: 0 <= j < |parts| ==> parts[j].id != partId) ==> Velocity(parts, partId) == Ok(MissingVolume)
    ensures i < |parts| && parts[i].id == partId && (forall j :: 0 <= j < i ==> parts[j].id != partId) ==>
              Velocity(parts, partId) == VolumeOf(parts[i])
    decreases |parts|
  {
    if |parts| > 0 && parts[0].id != partId {
      VelocityMeaning(parts[1..], partId, if i > 0 then i - 1 else 0);
    }
  }

  /** `find_velocity(part_id)`: the scan of the part list. */
  method FindVelocity(parts: seq<ScorePart>, partId: string) returns (r: Result<int>)
    ensures r == Velocity(parts, partId)
  {
    for i := 0 to |parts|
      invariant Velocity(parts, partId) == Velocity(parts[i..], partId)
    {
      if parts[i].id == partId {
        return VolumeOf(parts[i]);
      }
      assert parts[i..][1..] == parts[i + 1..];
    }
    return Ok(MissingVolume);
  }

  // ---------------------------------------------------------------------
  // generate_note_list

  /** A `<pitch>` element: the texts of its `<step>`, `<octave>` and
      `<alter>` children. */
  datatype Pitch = Pitch(step: seq<string>, octave: seq<string>, alter: seq<string>)

  /** A `<note>` or `<backup>` element of a part. */
  datatype Element = Element(durations: seq<string>, pitches: seq<Pitch>, rest: bool, staffs: seq<string>, chord: bool)

  /** `XMLNote`: start tick, duration, MIDI pitch and velocity. */
  datatype XmlNote = XmlNote(noteStart: int, duration: int, midiPitch: int, velocity: int)

  /** `NoteList`: the notes of one staff of a part. */
  datatype NoteList = NoteList(notes: seq<XmlNote>, partId: string, staffNumber: int)

  /** `PartInfo`: a part's id and its number of staves. */
  datatype PartInfo = PartInfo(id: string, staffCount: int)

  /** `xs[0]` of an XPath result: IndexError when it is empty. */
  function First(xs: seq<string>): Result<string> {
    if |xs| == 0 then Err(IndexError) else Ok(xs[0])
  }

  /** The duration of an element, `int(note.xpath(".//duration")[0].text)`. */
  function DurationOf(e: Element): Result<int> {
    var text :- First(e.durations);
    ParseInt(text)
  }

  /** The staff of an element, 1 when it names none. */
  function StaffOf(e: Element): Result<int> {
    if |e.staffs| > 0 then ParseInt(e.staffs[0]) else Ok(1)
  }

  /** The MIDI number of a `<pitch>`, with no alteration when it has no
      `<alter>`. */
  function MidiOf(p: Pitch): Result<int> {
    var letter :- First(p.step);
    var octaveText :- First(p.octave);
    var octave :- ParseInt(octaveText);
    var alter :- if |p.alter| > 0 then ParseInt(p.alter[0]) else Ok(0);
    PitchToMidi(letter, octave, alter)
  }

  /** The state of the walk: the running start tick, the duration of the
      element last read and the note lists. */
  datatype Walk = Walk(noteStart: int, noteDuration: int, lists: seq<NoteList>)

  /** `notes_list[staff - 1].append(note)`, with Python's indexing. */
  function AppendTo(lists: seq<NoteList>, staff: int, note: XmlNote): Result<seq<NoteList>> {
    match PyIndex(|lists|, staff - 1)
    case None => Err(IndexError)
    case Some(k) => Ok(lists[k := lists[k].(notes := lists[k].notes + [note])])
  }

  /** One element of the walk. A pitched note outside a chord starts at
      the running tick, which then moves on by its duration; a chord note
      starts where the previous note started and moves nothing; a rest
      moves on by its duration and a backup moves back by it. */
  function Visit(w: Walk, e: Element, velocity: int): Result<Walk> {
    var prev := w.noteDuration;
    var duration :- DurationOf(e);
    var staff :- StaffOf(e);
    if |e.pitches| > 0 then
      var midi :- MidiOf(e.pitches[0]);
      if e.chord then
        var lists :- AppendTo(w.lists, staff, XmlNote(w.noteStart - prev, duration, midi, velocity));
        Ok(Walk(w.noteStart, prev, lists))
      else
        var lists :- AppendTo(w.lists, staff, XmlNote(w.noteStart, duration, midi, velocity));
        Ok(Walk(w.noteStart + duration, duration, lists))
    else if e.rest then Ok(Walk(w.noteStart + duration, duration, w.lists))
    else Ok(Walk(w.noteStart - duration, duration, w.lists))
  }

  /** The walk over the elements in document order. */
  function Walked(es: seq<Element>, w: Walk, velocity: int): Result<Walk>
    decreases |es|
  {
    if |es| == 0 then Ok(w)
    else
      var v :- Walked(es[..|es| - 1], w, velocity);
      Visit(v, es[|es| - 1], velocity)
  }

  /** One empty note list per staff, numbered from 1. */
  function EmptyLists(partId: string, staffCount: int): seq<NoteList> {
    if staffCount <= 0 then [] else seq(staffCount, i => NoteList([], partId, i + 1))
  }

  /** `generate_note_list(part_info)`. */
  function NoteLists(scoreParts: seq<ScorePart>, part: PartInfo, es: seq<Element>): Result<seq<NoteList>> {
    var velocity :- Velocity(scoreParts, part.id);
    var w :- Walked(es, Walk(0, 0, EmptyLists(part.id, part.staffCount)), velocity);
    Ok(w.lists)
  }

  /** How far an element moves the running tick, given its duration:
      forward for a note outside a chord and for a rest, back for a
      backup, not at all for a chord note. */
  function Advance(e: Element, duration: int): int {
    if |e.pitches| > 0 && e.chord then 0
    else if |e.pitches| > 0 || e.rest then duration
    else -duration
  }

  /** The total movement of the running tick over elements whose
      durations all read. */
  function Net(es: seq<Element>): int
    decreases |es|
  {
    if |es| == 0 then 0
    else
      var step := match DurationOf(es[|es| - 1])
        case Ok(d) => Advance(es[|es| - 1], d)
        case Err(_) => 0;
      Net(es[..|es| - 1]) + step
  }

  /** The number of pitched elements. */
  function Pitched(es: seq<Element>): nat
    decreases |es|
  {
    if |es| == 0 then 0 else Pitched(es[..|es| - 1]) + if |es[|es| - 1].pitches| > 0 then 1 else 0
  }

  /** The number of notes in all lists. */
  function TotalNotes(lists: seq<NoteList>): nat
    decreases |lists|
  {
    if |lists| == 0 then 0 else TotalNotes(lists[..|lists| - 1]) + |lists[|lists| - 1].notes|
  }

  /** Appending to one list adds one note in all. */
  lemma {:induction false} TotalNotesUpdate(lists: seq<NoteList>, k: nat, n: XmlNote)
    requires k < |lists|
    ensures TotalNotes(lists[k := lists[k].(notes := lists[k].notes + [n])]) == TotalNotes(lists) + 1
    decreases |lists|
  {
    var l2 := lists[k := lists[k].(notes := lists[k].notes + [n])];
    if k < |lists| - 1 {
      assert l2[..|l2| - 1] == lists[..|lists| - 1][k := lists[k].(notes := lists[k].notes + [n])];
      TotalNotesUpdate(lists[..|lists| - 1], k, n);
    } else {
      assert l2[..|l2| - 1] == lists[..|lists| - 1];
    }
  }

  /** The lists keep their number, part and staff numbers, and every
      list only grows at its end. */
  predicate Extends(a: seq<NoteList>, b: seq<NoteList>) {
    |a| == |b| &&
    forall k :: 0 <= k < |a| ==>
      b[k].partId == a[k].partId && b[k].staffNumber == a[k].staffNumber && a[k].notes <= b[k].notes
  }

  /** What one element does: the note it adds, where, and how the running
      tick moves. */
  lemma VisitMeaning(w: Walk, e: Element, velocity: int)
    requires Visit(w, e, velocity).Ok?
    ensures DurationOf(e).Ok? && StaffOf(e).Ok?
    ensures Visit(w, e, velocity).value.noteStart == w.noteStart + Advance(e, DurationOf(e).value)
    ensures Extends(w.lists, Visit(w, e, velocity).value.lists)
    ensures TotalNotes(Visit(w, e, velocity).value.lists) == TotalNotes(w.lists) + if |e.pitches| > 0 then 1 else 0
    ensures |e.pitches| > 0 ==>
              && MidiOf(e.pitches[0]).Ok? && PyIndex(|w.lists|, StaffOf(e).value - 1).Some?
              && var k := PyIndex(|w.lists|, StaffOf(e).value - 1).value;
                 Visit(w, e, velocity).value.lists[k].notes == w.lists[k].notes +
                   [XmlNote(if e.chord then w.noteStart - w.noteDuration else w.noteStart,
                            DurationOf(e).value, MidiOf(e.pitches[0]).value, velocity)]
    ensures |e.pitches| > 0 && e.chord ==> Visit(w, e, velocity).value.noteDuration == w.noteDuration
    ensures !(|e.pitches| > 0 && e.chord) ==> Visit(w, e, velocity).value.noteDuration == DurationOf(e).value
  {
    if |e.pitches| > 0 {
      var k := PyIndex(|w.lists|, StaffOf(e).value - 1).value;
      var note := XmlNote(if e.chord then w.noteStart - w.noteDuration else w.noteStart,
                          DurationOf(e).value, MidiOf(e.pitches[0]).value, velocity);
      TotalNotesUpdate(w.lists, k, note);
    }
  }

  /** A finished walk moves the running tick by the net advance of the
      elements, keeps the lists' number and labels, only appends to them
      and adds one note per pitched element. */
  lemma {:induction false} WalkMeaning(es: seq<Element>, w: Walk, velocity: int)
    requires Walked(es, w, velocity).Ok?
    ensures Walked(es, w, velocity).value.noteStart == w.noteStart + Net(es)
    ensures Extends(w.lists, Walked(es, w, velocity).value.lists)
    ensures TotalNotes(Walked(es, w, velocity).value.lists) == TotalNotes(w.lists) + Pitched(es)
    decreases |es|
  {
    if |es| > 0 {
      var init := es[..|es| - 1];
      WalkMeaning(init, w, velocity);
      VisitMeaning(Walked(init, w, velocity).value, es[|es| - 1], velocity);
    }
  }

  /** Once the walk of a prefix fails, the walk of every longer prefix
      fails with the same error. */
  lemma {:induction false} WalkedError(es: seq<Element>, m: nat, n: nat, w: Walk, velocity: int)
    requires m <= n <= |es| && Walked(es[..m], w, velocity).Err?
    ensures Walked(es[..n], w, velocity) == Walked(es[..m], w, velocity)
    decreases n
  {
    if m < n {
      WalkedError(es, m, n - 1, w, velocity);
      assert es[..n][..n - 1] == es[..n - 1];
    }
  }

  /** The lists `generate_note_list` starts from: one per staff, numbered
      1 to the staff count, all empty. */
  lemma EmptyListsMeaning(partId: string, staffCount: int)
    ensures |EmptyLists(partId, staffCount)| == if staffCount > 0 then staffCount else 0
    ensures TotalNotes(EmptyLists(partId, staffCount)) == 0
    ensures forall k :: 0 <= k < |EmptyLists(partId, staffCount)| ==>
              EmptyLists(partId, staffCount)[k] == NoteList([], partId, k + 1)
  {
    NoNotes(EmptyLists(partId, staffCount));
  }

  /** Lists without notes hold no notes in all. */
  lemma {:induction false} NoNotes(lists: seq<NoteList>)
    requires forall k :: 0 <= k < |lists| ==> lists[k].notes == []
    ensures TotalNotes(lists) == 0
    decreases |lists|
  {
    if |lists| > 0 {
      NoNotes(lists[..|lists| - 1]);
    }
  }

  /** The note lists of a part: one per staff, labelled with the part and
      the staff number, together holding one note per pitched element. */
  lemma NoteListsMeaning(scoreParts: seq<ScorePart>, part: PartInfo, es: seq<Element>)
    requires NoteLists(scoreParts, part, es).Ok?
    ensures |NoteLists(scoreParts, part, es).value| == if part.staffCount > 0 then part.staffCount else 0
    ensures forall k :: 0 <= k < |NoteLists(scoreParts, part, es).value| ==>
              NoteLists(scoreParts, part, es).value[k].partId == part.id &&
              NoteLists(scoreParts, part, es).value[k].staffNumber == k + 1
    ensures TotalNotes(NoteLists(scoreParts, part, es).value) == Pitched(es)
  {
    var velocity := Velocity(scoreParts, part.id).value;
    EmptyListsMeaning(part.id, part.staffCount);
    WalkMeaning(es, Walk(0, 0, EmptyLists(part.id, part.staffCount)), velocity);
  }

  /** `generate_note_list(part_info)`: the lists are created, the velocity
      looked up and the elements walked in order. */
  method GenerateNoteList(scoreParts: seq<ScorePart>, part: PartInfo, es: seq<Element>) returns (r: Result<seq<NoteList>>)
    ensures r == NoteLists(scoreParts, part, es)
  {
    var notesList: seq<NoteList> := [];
    var n := 0;
    while n < part.staffCount
      invariant 0 <= n && (if part.staffCount > 0 then n <= part.staffCount else n == 0)
      invariant notesList == seq(n, k => NoteList([], part.id, k + 1))
    {
      notesList := notesList + [NoteList([], part.id, n + 1)];
      n := n + 1;
    }
    assert notesList == EmptyLists(part.id, part.staffCount);
    var noteStart := 0;
    var noteDuration := 0;
    var velocity :- FindVelocity(scoreParts, part.id);
    ghost var start := Walk(0, 0, notesList);
    for i := 0 to |es|
      invariant Walked(es[..i], start, velocity) == Ok(Walk(noteStart, noteDuration, notesList))
    {
      assert es[..i + 1][..i] == es[..i];
      var w := VisitElement(Walk(noteStart, noteDuration, notesList), es[i], velocity);
      if w.Err? {
        WalkedError(es, i + 1, |es|, start, velocity);
        assert es[..|es|] == es;
        return Err(w.error);
      }
      noteStart, noteDuration, notesList := w.value.noteStart, w.value.noteDuration, w.value.lists;
    }
    assert es[..|es|] == es;
    return Ok(notesList);
  }

  /** The body of the walk for one element. */
  method VisitElement(w: Walk, e: Element, velocity: int) returns (r: Result<Walk>)
    ensures r == Visit(w, e, velocity)
  {
    var noteStart, noteDuration, notesList := w.noteStart, w.noteDuration, w.lists;
    var prevNoteDuration := noteDuration;
    noteDuration :- DurationOf(e);
    var staff :- StaffOf(e);
    if |e.pitches| > 0 {
      var noteMidi :- MidiOf(e.pitches[0]);
      if e.chord {
        noteStart := noteStart - prevNoteDuration;
        notesList :- AppendTo(notesList, staff, XmlNote(noteStart, noteDuration, noteMidi, velocity));
        noteStart := noteStart + prevNoteDuration;
        noteDuration := prevNoteDuration;
      } else {
        notesList :- AppendTo(notesList, staff, XmlNote(noteStart, noteDuration, noteMidi, velocity));
        noteStart := noteStart + noteDuration;
      }
    } else if e.rest {
      noteStart := noteStart + noteDuration;
    } else {
      noteStart := noteStart - noteDuration;
    }
    return Ok(Walk(noteStart, noteDuration, notesList));
  }
}
