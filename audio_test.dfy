/** The note pairing of the audio preview: MIDI note events arrive one at
    a time; the first event of a note opens it as pending, the next event
    of the same note closes it with its duration, and a gap with nothing
    pending becomes a silence note. Notes are values here: each one lives
    in exactly one of the two lists at a time, so `set_duration` on the
    removed note is an update of the value that moves to the note list. */
module AudioTest {
  import opened Common

  /** The MIDI number of a silence. */
  const EmptySound := -1
  /** The duration of a note still pending. */
  const PendingDuration := 0

  /** `Note`: start time, MIDI number, duration and velocity. */
  datatype Note = Note(startTime: int, midiNote: int, duration: int, velocity: int)

  /** `set_duration(d)`: the duration is d and nothing else changes. */
  function SetDuration(n: Note, d: int): (r: Note)
    ensures r.duration == d
    ensures r.startTime == n.startTime && r.midiNote == n.midiNote && r.velocity == n.velocity
  {
    n.(duration := d)
  }

  /** The index of the first pending note with the MIDI number. */
  function FirstWith(pending: seq<Note>, midiNote: int): (r: Option<nat>)
    ensures r.Some? ==> r.value < |pending|
    decreases |pending|
  {
    if |pending| == 0 then None
    else if pending[0].midiNote == midiNote then Some(0)
    else match FirstWith(pending[1..], midiNote)
      case None => None
      case Some(k) => Some(k + 1)
  }

  /** The first pending note with the number is the one found, and there
      is none exactly when no pending note has the number. */
  lemma {:induction false} FirstWithMeaning(pending: seq<Note>, midiNote: int)
    ensures FirstWith(pending, midiNote).None? <==> forall i :: 0 <= i < |pending| ==> pending[i].midiNote != midiNote
    ensures FirstWith(pending, midiNote).Some? ==>
              && FirstWith(pending, midiNote).value < |pending|
              && pending[FirstWith(pending, midiNote).value].midiNote == midiNote
              && forall i :: 0 <= i < FirstWith(pending, midiNote).value ==> pending[i].midiNote != midiNote
    decreases |pending|
  {
    if |pending| > 0 {
      FirstWithMeaning(pending[1..], midiNote);
      if pending[0].midiNote != midiNote {
        forall i | 1 <= i < |pending| ensures pending[i] == pending[1..][i - 1] { }
      }
    }
  }

  /** The silence `find_note` records before the event: the gap since the
      previous event when nothing is pending and the gap is positive. */
  function Silence(notes: seq<Note>, pending: seq<Note>, currentTime: int, previousTime: int): seq<Note> {
    if pending == [] && currentTime - previousTime > 0 then notes + [Note(previousTime, EmptySound, currentTime - previousTime, 0)]
    else notes
  }

  /** `find_note`: after the silence, the first pending note with the
      event's number is closed at the event's time and moves to the note
      list; with none, the event opens a pending note. The result is the
      new note list and the new pending list. */
  function Found(notes: seq<Note>, pending: seq<Note>, midiNote: int, currentTime: int, previousTime: int, velocity: int)
    : (seq<Note>, seq<Note>)
  {
    var noted := Silence(notes, pending, currentTime, previousTime);
    match FirstWith(pending, midiNote)
    case Some(k) =>
      (noted + [SetDuration(pending[k], currentTime - pending[k].startTime)], pending[..k] + pending[k + 1..])
    case None =>
      (noted, pending + [Note(currentTime, midiNote, PendingDuration, velocity)])
  }

  /** Pending notes have no duration yet and no two share a MIDI number. */
  predicate PendingValid(pending: seq<Note>) {
    && (forall i :: 0 <= i < |pending| ==> pending[i].duration == PendingDuration)
    && (forall i, j :: 0 <= i < j < |pending| ==> pending[i].midiNote != pending[j].midiNote)
  }

  /** What one event does to the lengths: the pending list shrinks by one
      exactly when a note with the event's number was pending and grows by
      one exactly when none was; the note list keeps its notes and gains at
      most one, since a silence is recorded only when nothing was pending. */
  lemma FoundLengths(notes: seq<Note>, pending: seq<Note>, midiNote: int, currentTime: int, previousTime: int, velocity: int)
    ensures var r := Found(notes, pending, midiNote, currentTime, previousTime, velocity);
            && |notes| <= |r.0| <= |notes| + 1
            && r.0[..|notes|] == notes
            && (|r.1| == |pending| - 1 <==> exists i :: 0 <= i < |pending| && pending[i].midiNote == midiNote)
            && (|r.1| == |pending| + 1 <==> forall i :: 0 <= i < |pending| ==> pending[i].midiNote != midiNote)
  {
    FirstWithMeaning(pending, midiNote);
    var r := Found(notes, pending, midiNote, currentTime, previousTime, velocity);
    assert r.0[..|notes|] == notes;
  }

  /** The first event after a positive gap with nothing pending records
      the gap as a silence from the previous time and opens its note. */
  lemma FoundAfterSilence(notes: seq<Note>, midiNote: int, currentTime: int, previousTime: int, velocity: int)
    requires currentTime - previousTime > 0
    ensures Found(notes, [], midiNote, currentTime, previousTime, velocity) ==
            (notes + [Note(previousTime, EmptySound, currentTime - previousTime, 0)],
             [Note(currentTime, midiNote, PendingDuration, velocity)])
  {
    var started := Note(currentTime, midiNote, PendingDuration, velocity);
    assert FirstWith([], midiNote) == None;
    assert [] + [started] == [started];
  }

  /** An event whose number is not pending opens a pending note at its
      time with its velocity and no duration. */
  lemma FoundOpens(notes: seq<Note>, pending: seq<Note>, midiNote: int, currentTime: int, previousTime: int, velocity: int)
    requires forall i :: 0 <= i < |pending| ==> pending[i].midiNote != midiNote
    ensures Found(notes, pending, midiNote, currentTime, previousTime, velocity).1 ==
            pending + [Note(currentTime, midiNote, PendingDuration, velocity)]
  {
    FirstWithMeaning(pending, midiNote);
  }

  /** An event whose number is pending, first at index k, removes that
      note from the pending list and appends it to the note list with the
      time since its start as its duration. */
  lemma FoundCloses(notes: seq<Note>, pending: seq<Note>, k: nat, currentTime: int, previousTime: int, velocity: int)
    requires k < |pending|
    requires forall i :: 0 <= i < k ==> pending[i].midiNote != pending[k].midiNote
    ensures Found(notes, pending, pending[k].midiNote, currentTime, previousTime, velocity) ==
            (notes + [Note(pending[k].startTime, pending[k].midiNote, currentTime - pending[k].startTime, pending[k].velocity)],
             pending[..k] + pending[k + 1..])
  {
    var midiNote := pending[k].midiNote;
    FirstWithMeaning(pending, midiNote);
    var j := FirstWith(pending, midiNote).value;
    if j < k {
    } else if k < j {
    }
  }

  /** Every event keeps the pending notes without duration and with
      distinct MIDI numbers. */
  lemma FoundKeepsPending(notes: seq<Note>, pending: seq<Note>, midiNote: int, currentTime: int, previousTime: int, velocity: int)
    requires PendingValid(pending)
    ensures PendingValid(Found(notes, pending, midiNote, currentTime, previousTime, velocity).1)
  {
    FirstWithMeaning(pending, midiNote);
    var r := Found(notes, pending, midiNote, currentTime, previousTime, velocity).1;
    if FirstWith(pending, midiNote).Some? {
      var k := FirstWith(pending, midiNote).value;
      forall i | 0 <= i < |r| ensures r[i] == pending[if i < k then i else i + 1] { }
    }
  }

  /** `NoteList`: the finished notes and the pending ones. */
  class NoteList {
    var noteList: seq<Note>
    var pendingList: seq<Note>

    /** Nothing finished, nothing pending. */
    constructor ()
      ensures noteList == [] && pendingList == []
    {
      noteList := [];
      pendingList := [];
    }

    /** `find_note(midi_note, current_time, previous_time, velocity)`. */
    method FindNote(midiNote: int, currentTime: int, previousTime: int, velocity: int)
      modifies this
      ensures (noteList, pendingList) == Found(old(noteList), old(pendingList), midiNote, currentTime, previousTime, velocity)
    {
      var duration := currentTime - previousTime;
      if pendingList == [] && duration > 0 {
        noteList := noteList + [Note(previousTime, EmptySound, duration, 0)];
      }
      ghost var noted := noteList;
      FirstWithMeaning(pendingList, midiNote);
      var i := 0;
      while i < |pendingList|
        invariant 0 <= i <= |pendingList| && noteList == noted
        invariant pendingList == old(pendingList)
        invariant forall j :: 0 <= j < i ==> pendingList[j].midiNote != midiNote
      {
        var item := pendingList[i];
        if item.midiNote == midiNote {
          assert FirstWith(pendingList, midiNote) == Some(i);
          pendingList := pendingList[..i] + pendingList[i + 1..];
          duration := currentTime - item.startTime;
          var newNote := SetDuration(item, duration);
          noteList := noteList + [newNote];
          return;
        }
        i := i + 1;
      }
      pendingList := pendingList + [Note(currentTime, midiNote, PendingDuration, velocity)];
    }
  }
}
