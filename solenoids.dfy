/** The key map: for every MIDI number, the row of the solenoid bank that
    strikes the key and the rail positions from which a solenoid can reach
    it. */
module Solenoids {
  import opened Common
  import opened Keys

  const BlackRow: int := 1
  const WhiteRow: int := 0

  /** The keyboard sizes the key map accepts. */
  function CheckKeyCount(keyCount: int): (r: bool)
    ensures r <==> keyCount == 88 || keyCount == 76 || keyCount == 61 || keyCount == 49
  {
    if keyCount == 88 then true
    else if keyCount == 76 then true
    else if keyCount == 61 then true
    else if keyCount == 49 then true
    else false
  }

  /** One table entry: the row and the rail positions (None where the slot
      cannot be used). */
  datatype SolenoidPositions = SolenoidPositions(row: int, positions: seq<Option<int>>)

  type Window = seq<Option<int>>

  /** Whether a key at this offset above A (0 to 11) is a white key:
      A, B, C, D, E, F, G sit at 0, 2, 3, 5, 7, 8, 10. */
  predicate IsWhite(offset: int) {
    if offset >= 3 && offset < 8 then offset % 2 == 1 else offset % 2 == 0
  }

  /** The note offset of the k-th key, counting from the first key: one
      more than the previous key's, wrapping from 12 to 0. */
  function Offset(firstOffset: int, k: nat): (r: int)
    requires 0 <= firstOffset < 12
    ensures 0 <= r < 12
  {
    if k == 0 then firstOffset
    else
      var o := Offset(firstOffset, k - 1) + 1;
      if o == 12 then 0 else o
  }

  /** The offset advances modulo 12. */
  lemma {:induction false} OffsetMod(firstOffset: int, k: nat)
    requires 0 <= firstOffset < 12
    ensures Offset(firstOffset, k) == (firstOffset + k) % 12
  {
    if k > 0 {
      OffsetMod(firstOffset, k - 1);
      var previous := Offset(firstOffset, k - 1);
      assert Offset(firstOffset, k) == if previous == 11 then 0 else previous + 1;
      ModStep(firstOffset + k - 1);
    }
  }

  /** One more than a number, modulo 12. */
  lemma ModStep(a: nat)
    ensures (a + 1) % 12 == if a % 12 == 11 then 0 else a % 12 + 1
  {
    var q, m := a / 12, a % 12;
    assert a == 12 * q + m;
    if m == 11 {
      assert a + 1 == 12 * (q + 1);
    } else {
      assert a + 1 == 12 * q + (m + 1);
    }
  }

  /** The window after one key when `remaining` keys (this one included)
      are left: a white key pushes the next position onto the front and
      keeps at most nine slots; once fewer than fifteen keys remain it
      instead shifts None in at the front. Black keys leave it alone. */
  function NextWindow(w: Window, offset: int, remaining: int): (r: Window)
    requires |w| >= 1
    requires remaining >= 15 ==> w[0].Some?
  {
    if !IsWhite(offset) then w else WhiteStep(w, remaining)
  }

  function WhiteStep(w: Window, remaining: int): (r: Window)
    requires |w| >= 1
    requires remaining >= 15 ==> w[0].Some?
  {
    if remaining >= 15 then
      var pushed := [Some(w[0].value + 1)] + w;
      if |pushed| > 9 then pushed[..|pushed| - 1] else pushed
    else [None] + w[..|w| - 1]
  }

  /** The window update a white key makes (solenoids.py repeats it for the
      two kinds of white key). */
  method UpdateWindow(w: Window, remaining: int) returns (r: Window)
    requires |w| >= 1
    requires remaining >= 15 ==> w[0].Some?
    ensures r == WhiteStep(w, remaining)
  {
    r := w;
    if remaining >= 15 {
      r := [Some(r[0].value + 1)] + r;
      if |r| > 9 {
        r := r[..|r| - 1];
      }
    } else {
      r := r[..|r| - 1];
      r := [None] + r;
    }
  }

  /** The window in force when the k-th key (from the first key) is
      reached. */
  function WindowAt(firstOffset: int, keyCount: int, k: nat): (r: Window)
    requires 0 <= firstOffset < 12
    ensures 1 <= |r| <= 9
    ensures k <= keyCount - 14 ==> forall j :: 0 <= j < |r| ==> r[j].Some?
    decreases k
  {
    if k == 0 then [Some(0)]
    else NextWindow(WindowAt(firstOffset, keyCount, k - 1), Offset(firstOffset, k - 1), keyCount - (k - 1))
  }

  /** The table entry of the k-th key: a white key gets the whole window, a
      black key the window without its first slot. */
  function Entry(firstOffset: int, keyCount: int, k: nat): (e: SolenoidPositions)
    requires 0 <= firstOffset < 12
    ensures IsWhite(Offset(firstOffset, k)) ==> e.row == WhiteRow && e.positions == WindowAt(firstOffset, keyCount, k)
    ensures !IsWhite(Offset(firstOffset, k)) ==> e.row == BlackRow && e.positions == WindowAt(firstOffset, keyCount, k)[1..]
  {
    var w := WindowAt(firstOffset, keyCount, k);
    if IsWhite(Offset(firstOffset, k)) then SolenoidPositions(WhiteRow, w)
    else SolenoidPositions(BlackRow, w[1..])
  }

  /** `ord(step) - ord("A")` for a valid key's step letter. */
  function StepOffset(k: Key): (r: int)
    requires ValidKey(k)
    ensures 0 <= r < 7
  {
    assert k.step in StepList;
    k.step[0] as int - 'A' as int
  }

  function Nones(n: nat): (r: seq<Option<SolenoidPositions>>)
    ensures |r| == n && forall j :: 0 <= j < n ==> r[j] == None
  {
    seq(n, _ => None)
  }

  /** Entries first..first+n-1 hold the entries of the first n keys of the
      keyboard, in order. */
  ghost predicate KeyEntries(table: seq<Option<SolenoidPositions>>, first: nat, n: nat, keyCount: int, firstOffset: int)
    requires 0 <= firstOffset < 12
  {
    first + n <= |table| &&
    forall i :: first <= i < first + n ==> table[i] == Some(Entry(firstOffset, keyCount, i - first))
  }

  /** One pass of the key loop: a white key's entry is the whole window,
      which it then updates; a black key's is the window without its first
      slot, which it leaves alone. */
  method AddKey(w: Window, noteOffset: int, remaining: int) returns (entry: SolenoidPositions, next: Window)
    requires 0 <= noteOffset < 12 && |w| >= 1
    requires remaining >= 15 ==> w[0].Some?
    ensures IsWhite(noteOffset) ==> entry == SolenoidPositions(WhiteRow, w)
    ensures !IsWhite(noteOffset) ==> entry == SolenoidPositions(BlackRow, w[1..])
    ensures next == NextWindow(w, noteOffset, remaining)
  {
    next := w;
    if noteOffset >= 3 && noteOffset < 8 {
      if noteOffset % 2 == 1 {
        entry := SolenoidPositions(WhiteRow, w);
        next := UpdateWindow(w, remaining);
      } else {
        entry := SolenoidPositions(BlackRow, w[1..]);
      }
    } else {
      if noteOffset % 2 == 1 {
        entry := SolenoidPositions(BlackRow, w[1..]);
      } else {
        entry := SolenoidPositions(WhiteRow, w);
        next := UpdateWindow(w, remaining);
      }
    }
  }

  /** The key loop of the constructor: one entry per key of the keyboard,
      appended after the entries already there. */
  method AddKeys(table: seq<Option<SolenoidPositions>>, first: nat, keyCount: int, firstOffset: int)
    returns (tempArray: seq<Option<SolenoidPositions>>)
    requires |table| == first && 0 <= firstOffset < 12 && keyCount >= 0
    ensures |tempArray| == first + keyCount && tempArray[..first] == table
    ensures KeyEntries(tempArray, first, keyCount, keyCount, firstOffset)
  {
    tempArray := table;
    var noteOffset := firstOffset;
    var solenoidPositions: Window := [Some(0)];
    for i := first to first + keyCount
      invariant |tempArray| == i && tempArray[..first] == table
      invariant KeyEntries(tempArray, first, i - first, keyCount, firstOffset)
      invariant noteOffset == Offset(firstOffset, i - first)
      invariant solenoidPositions == WindowAt(firstOffset, keyCount, i - first)
    {
      var k := i - first;
      ghost var before := tempArray;
      ghost var w := solenoidPositions;
      KeyStep(firstOffset, keyCount, k);
      var entry, next := AddKey(solenoidPositions, noteOffset, first + keyCount - i);
      tempArray := tempArray + [Some(entry)];
      solenoidPositions := next;
      KeyEntriesAppend(before, first, k, keyCount, firstOffset, entry);
      assert tempArray[..first] == before[..first];
      noteOffset := noteOffset + 1;
      if noteOffset == 12 {
        noteOffset := 0;
      }
    }
  }

  /** From one key to the next: the window update and the offset step. */
  lemma KeyStep(firstOffset: int, keyCount: int, k: nat)
    requires 0 <= firstOffset < 12
    ensures var w := WindowAt(firstOffset, keyCount, k);
            && (keyCount - k >= 15 ==> w[0].Some?)
            && WindowAt(firstOffset, keyCount, k + 1) == NextWindow(w, Offset(firstOffset, k), keyCount - k)
    ensures Offset(firstOffset, k + 1) == if Offset(firstOffset, k) + 1 == 12 then 0 else Offset(firstOffset, k) + 1
  {
  }

  /** Appending the next key's entry extends the run of key entries. */
  lemma KeyEntriesAppend(table: seq<Option<SolenoidPositions>>, first: nat, k: nat, keyCount: int, firstOffset: int,
                         e: SolenoidPositions)
    requires 0 <= firstOffset < 12 && |table| == first + k
    requires KeyEntries(table, first, k, keyCount, firstOffset) && e == Entry(firstOffset, keyCount, k)
    ensures KeyEntries(table + [Some(e)], first, k + 1, keyCount, firstOffset)
  {
  }

  /** `SolenoidIndex(key_count, first_key).index_list`: ValueError for an
      unsupported keyboard size; otherwise None below the first key, one
      entry per key of the keyboard, and None again up to MIDI number 128. */
  method BuildIndex(keyCount: int, firstKey: Key) returns (r: Result<seq<Option<SolenoidPositions>>>)
    requires ValidKey(firstKey)
    ensures r.Err? <==> !CheckKeyCount(keyCount)
    ensures r.Err? ==> r.error == ValueError
    ensures r.Ok? ==> var first := firstKey.midiNumber;
      && |r.value| == (if first + keyCount > 129 then first + keyCount else 129)
      && (forall i :: 0 <= i < first ==> r.value[i] == None)
      && (forall i :: first + keyCount <= i < |r.value| ==> r.value[i] == None)
      && KeyEntries(r.value, first, keyCount, keyCount, StepOffset(firstKey))
  {
    if !CheckKeyCount(keyCount) {
      return Err(ValueError);
    }
    var first := firstKey.midiNumber;
    var tempArray: seq<Option<SolenoidPositions>> := [];
    for i := 0 to first
      invariant tempArray == Nones(i)
    {
      tempArray := tempArray + [None];
    }
    tempArray := AddKeys(tempArray, first, keyCount, StepOffset(firstKey));
    if first + keyCount < 129 {
      ghost var body := tempArray;
      tempArray := tempArray + Nones(129 - (first + keyCount));
      assert forall j :: 0 <= j < |body| ==> tempArray[j] == body[j];
    }
    return Ok(tempArray);
  }

  // ---------------------------------------------------------------------
  // What the window holds

  /** The number of white keys among the first k keys. */
  function WhiteCount(firstOffset: int, k: nat): (n: nat)
    requires 0 <= firstOffset < 12
    ensures n <= k
  {
    if k == 0 then 0
    else WhiteCount(firstOffset, k - 1) + (if IsWhite(Offset(firstOffset, k - 1)) then 1 else 0)
  }

  /** Consecutive positions counting down from top. */
  function Descending(top: int, len: nat): (w: Window)
    ensures |w| == len
  {
    seq(len, j => Some(top - j))
  }

  /** While at least fifteen keys remain, the window lists the most recent
      positions counting down from the number of white keys passed so far,
      at most nine of them. */
  lemma {:induction false} WindowBeforeCutoff(firstOffset: int, keyCount: int, k: nat)
    requires 0 <= firstOffset < 12
    requires k <= keyCount - 14
    ensures var n := WhiteCount(firstOffset, k);
            WindowAt(firstOffset, keyCount, k) == Descending(n, if n + 1 < 9 then n + 1 else 9)
    decreases k
  {
    if k > 0 {
      WindowBeforeCutoff(firstOffset, keyCount, k - 1);
      var n := WhiteCount(firstOffset, k - 1);
      var w := WindowAt(firstOffset, keyCount, k - 1);
      KeyStep(firstOffset, keyCount, k - 1);
      if IsWhite(Offset(firstOffset, k - 1)) {
        PushDescending(n, keyCount - (k - 1));
        assert WhiteCount(firstOffset, k) == n + 1;
        assert WindowAt(firstOffset, keyCount, k) == WhiteStep(w, keyCount - (k - 1));
      } else {
        assert WhiteCount(firstOffset, k) == n;
        assert WindowAt(firstOffset, keyCount, k) == w;
      }
    }
  }

  /** A white key before the cutoff pushes the next position onto a
      descending window. */
  lemma PushDescending(n: nat, remaining: int)
    requires remaining >= 15
    ensures WhiteStep(Descending(n, if n + 1 < 9 then n + 1 else 9), remaining) ==
            Descending(n + 1, if n + 2 < 9 then n + 2 else 9)
  {
    var w := Descending(n, if n + 1 < 9 then n + 1 else 9);
    var pushed := [Some(n + 1)] + w;
    var len := if n + 2 < 9 then n + 2 else 9;
    forall j | 0 <= j < len ensures pushed[j] == Some(n + 1 - j) {
      if j > 0 {
        assert pushed[j] == w[j - 1];
      }
    }
    assert pushed[..len] == Descending(n + 1, len);
  }

  /** `c` Nones shifted in at the front of w, its length kept. */
  function ShiftIn(w: Window, c: nat): (r: Window)
    ensures |r| == |w|
  {
    if c >= |w| then seq(|w|, _ => None) else seq(c, _ => None) + w[..|w| - c]
  }

  /** The number of white keys among keys from..k-1. */
  function WhitesBetween(firstOffset: int, from: nat, k: nat): nat
    requires 0 <= firstOffset < 12 && from <= k
    decreases k - from
  {
    if k == from then 0
    else WhitesBetween(firstOffset, from, k - 1) + (if IsWhite(Offset(firstOffset, k - 1)) then 1 else 0)
  }

  /** Once fewer than fifteen keys remain, every white key shifts one None
      in at the front and drops the last slot: the window keeps its length
      and only loses positions from its low end. */
  lemma {:induction false} WindowAfterCutoff(firstOffset: int, keyCount: int, k: nat)
    requires 0 <= firstOffset < 12
    requires keyCount >= 14 && keyCount - 14 <= k
    ensures var base := WindowAt(firstOffset, keyCount, keyCount - 14);
            WindowAt(firstOffset, keyCount, k) == ShiftIn(base, WhitesBetween(firstOffset, keyCount - 14, k))
    decreases k
  {
    var start := keyCount - 14;
    if k > start {
      WindowAfterCutoff(firstOffset, keyCount, k - 1);
      var base := WindowAt(firstOffset, keyCount, start);
      var c := WhitesBetween(firstOffset, start, k - 1);
      var w := WindowAt(firstOffset, keyCount, k - 1);
      KeyStep(firstOffset, keyCount, k - 1);
      if IsWhite(Offset(firstOffset, k - 1)) {
        ShiftInStep(base, c);
      }
    }
  }

  /** Shifting in one more None is one more white-key step. */
  lemma ShiftInStep(base: Window, c: nat)
    requires |base| >= 1
    ensures var w := ShiftIn(base, c); [None] + w[..|w| - 1] == ShiftIn(base, c + 1)
  { }

  // ---------------------------------------------------------------------
  // The first key's offset

  /** Whether a MIDI number is a white key: C, D, E, F, G, A and B are the
      pitch classes 0, 2, 4, 5, 7, 9 and 11. */
  predicate MidiIsWhite(midi: int) {
    var c := midi % 12;
    c == 0 || c == 2 || c == 4 || c == 5 || c == 7 || c == 9 || c == 11
  }

  /** The pitch class of a natural note's step letter (C is 0). */
  function StepPitchClass(step: string): (r: int)
    requires step in StepList
    ensures 0 <= r < 12
  {
    if step == "C" then 0 else if step == "D" then 2 else if step == "E" then 4
    else if step == "F" then 5 else if step == "G" then 7 else if step == "A" then 9 else 11
  }

  /** A natural first key whose MIDI number agrees with its step letter,
      as the configured keyboards' first keys (A0, C and E1) are. */
  predicate NaturalKey(k: Key) {
    ValidKey(k) && k.alter == 0 && k.midiNumber % 12 == StepPitchClass(k.step)
  }

  /** The offset the loop expects: semitones of the step letter above A,
      so that A, B, C, D, E, F, G sit at 0, 2, 3, 5, 7, 8, 10. */
  function SemitoneOffset(k: Key): (r: int)
    requires ValidKey(k)
    ensures 0 <= r < 12 && r == (StepPitchClass(k.step) + 3) % 12
  {
    (StepPitchClass(k.step) + 3) % 12
  }

  /** The offset above A and the MIDI pitch class name the same colour of
      key. */
  lemma WhiteAgrees(o: int)
    requires 0 <= o < 12
    ensures IsWhite(o) <==> MidiIsWhite(o + 9)
  {
  }

  /** As written, 76 keys from E1 (MIDI 28) give the white key E1 an
      entry on the black row: its step offset is 4, the offset of a black
      key in the loop's reading. */
  lemma AsWrittenE1OnBlackRow()
    ensures var e1 := Key(28, 1, "E", 0);
            && NaturalKey(e1) && MidiIsWhite(e1.midiNumber)
            && StepOffset(e1) == 4
            && Entry(StepOffset(e1), 76, 0).row == BlackRow
  {
    var e1 := Key(28, 1, "E", 0);
    assert e1.step[0] == 'E';
  }

  /** With the semitone offset, the k-th key's entry is on the white row
      exactly when its MIDI number is a white key, for every key of every
      keyboard that starts on a natural key. */
  lemma {:induction false} CorrectedRowsFollowKeyboard(firstKey: Key, keyCount: int, k: nat)
    requires NaturalKey(firstKey)
    ensures Entry(SemitoneOffset(firstKey), keyCount, k).row == WhiteRow
            <==> MidiIsWhite(firstKey.midiNumber + k)
    ensures Entry(SemitoneOffset(firstKey), keyCount, k).row == BlackRow
            <==> !MidiIsWhite(firstKey.midiNumber + k)
  {
    var so := SemitoneOffset(firstKey);
    OffsetMod(so, k);
    var o := (so + k) % 12;
    WhiteAgrees(o);
    ShiftedClass(firstKey.midiNumber, StepPitchClass(firstKey.step), k);
  }

  /** k keys above a key of pitch class p, the offset above A, moved by
      nine semitones, is the MIDI pitch class. */
  lemma ShiftedClass(midi: int, p: int, k: nat)
    requires 0 <= p < 12 && midi % 12 == p
    ensures (((p + 3) % 12 + k) % 12 + 9) % 12 == (midi + k) % 12
  {
  }
}
