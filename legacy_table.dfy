/** The legacy compiler's key table (Old/converter.py): for each white-key
    name from A0 to C8 (and the rest marker "R"), the eight solenoid slots
    of the hand and the hand position from which each slot reaches that
    key, None where no position does. */
module LegacyTable {
  import opened Common

  type Row = seq<Option<int>>

  /** The number of entries of the `positions` name list. */
  const NameCount: int := 53

  /** The name at index i of `positions`: A0, B0, C1, ..., B7, C8 (the
      octave number changes at C), and the rest marker "R" last. */
  function NameAt(i: int): (name: string)
    ensures |name| >= 1
  {
    if 0 <= i < 52 then ["ABCDEFG"[i % 7], DigitChar((i + 5) / 7)] else "R"
  }

  /** `positions`. */
  function Positions(): (p: seq<string>)
    ensures |p| == NameCount
  {
    seq(NameCount, NameAt)
  }

  /** Entry i of `positions` is the name NameAt(i). */
  lemma PositionAt(i: nat)
    requires i < NameCount
    ensures Positions()[i] == NameAt(i)
  {
  }

  /** The initial entry of `notes` at i: slot j holds i - j while that lies
      in 0..44; the rest marker's entry is 1..43. */
  function InitialRow(i: int): (r: Row)
    ensures |r| >= 8
  {
    if i == 52 then seq(43, j => Some(j + 1))
    else seq(8, j => if 0 <= i - j <= 44 then Some(i - j) else None)
  }

  function InitialTable(): (t: seq<Row>)
    ensures |t| == NameCount
    ensures forall i :: 0 <= i < NameCount ==> t[i] == InitialRow(i)
  {
    seq(NameCount, InitialRow)
  }

  /** Physical keys a white-key name stands for: B and E have no sharp. */
  function TempCount(i: nat): (c: int)
    requires i < NameCount
    ensures c == 1 || c == 2
  {
    var key := Positions()[i];
    if key[0] == 'B' || key[0] == 'E' then 1 else 2
  }

  /** The index of the start key among the names, or NameCount when it is
      not one of them (then no name ever matches). */
  function StartIndex(startKey: string): (s: nat)
    ensures s <= NameCount
    ensures s < NameCount ==> Positions()[s] == startKey
    ensures forall i :: 0 <= i < s && i < NameCount ==> Positions()[i] != startKey
  {
    match IndexOf(Positions(), startKey)
    case Ok(s) => s
    case Err(_) => NameCount
  }

  /** Physical keys used up by the matched names before index y. */
  function Used(s: nat, y: nat): int
    requires y <= NameCount
  {
    if y == 0 then 0 else Used(s, y - 1) + (if y - 1 >= s then TempCount(y - 1) else 0)
  }

  /** The hand window after the names s..i have been matched: the most
      recent eight indices, newest first, None where there are fewer. */
  function KeyWindow(s: nat, i: int): (w: Row)
    ensures |w| == 8
  {
    seq(8, j => if s <= i - j then Some(i - j) else None)
  }

  lemma WindowStep(s: nat, i: int)
    requires s <= i
    ensures KeyWindow(s, i) == [Some(i)] + KeyWindow(s, i - 1)[..7]
  {
  }

  lemma WindowBeforeStart(s: nat, i: int)
    requires i < s
    ensures KeyWindow(s, i) == KeyWindow(s, i - 1)
  {
  }

  /** At name i the loop's start key matches exactly from the start index
      on: before it the configured start key, which no earlier name equals;
      at it the configured key itself; after it the name i, copied forward
      on the previous match. */
  lemma StartKeyMatches(startKey0: string, startKey: string, i: nat)
    requires i < NameCount
    requires i <= StartIndex(startKey0) ==> startKey == startKey0
    requires StartIndex(startKey0) < i ==> startKey == Positions()[i]
    ensures Positions()[i] == startKey <==> StartIndex(startKey0) <= i
  {
  }

  /** Storing the window of name i extends the mapped prefix by one. */
  lemma TableStep(notes: seq<Row>, s: nat, i: nat)
    requires i < NameCount && |notes| == NameCount
    requires forall k :: 0 <= k < NameCount ==> notes[k] == (if k < i then KeyWindow(s, k) else InitialRow(k))
    ensures forall k :: 0 <= k < NameCount ==>
              notes[i := KeyWindow(s, i)][k] == (if k < i + 1 then KeyWindow(s, k) else InitialRow(k))
  {
  }

  /** The key-mapping loop (Old/converter.py:288-317). Names before the
      start key keep an all-None window; from the start key on, every name
      pushes its index onto the front of the eight-slot window, and the
      entry stored is a copy of the window. The loop stops at the first
      name reached once the configured key count is used up; `x` is where
      it stopped (the last index when it never stops), and
      `beginningOffset` counts the names passed before the start key. */
  method MapKeys(keyCount0: int, startKey0: string) returns (notes: seq<Row>, x: nat, beginningOffset: nat)
    ensures x < NameCount && |notes| == NameCount
    ensures forall k :: 0 <= k < NameCount ==> |notes[k]| >= 8
    ensures forall y :: 0 <= y < x ==> keyCount0 - Used(StartIndex(startKey0), y) > 0
    ensures x < NameCount - 1 ==> keyCount0 - Used(StartIndex(startKey0), x) <= 0
    ensures var s := StartIndex(startKey0);
            var mapped := if keyCount0 - Used(s, x) > 0 then x + 1 else x;
            && (forall k :: 0 <= k < NameCount ==>
                  notes[k] == (if k < mapped then KeyWindow(s, k) else InitialRow(k)))
            && beginningOffset == (if s < mapped then s else mapped)
  {
    ghost var s := StartIndex(startKey0);
    notes := InitialTable();
    var keyCount := keyCount0;
    var startKey := startKey0;
    var keyPositions: Row := seq(8, _ => None);
    beginningOffset := 0;
    x := 0;
    var i := 0;
    while i < |Positions()|
      invariant 0 <= i <= NameCount && |notes| == NameCount
      invariant x == (if i == 0 then 0 else i - 1)
      invariant keyCount == keyCount0 - Used(s, i)
      invariant forall y :: 0 <= y < i ==> keyCount0 - Used(s, y) > 0
      invariant keyPositions == KeyWindow(s, i - 1)
      invariant i <= s ==> startKey == startKey0
      invariant s < i < NameCount ==> startKey == Positions()[i]
      invariant beginningOffset == (if s < i then s else i)
      invariant forall k :: 0 <= k < NameCount ==> notes[k] == (if k < i then KeyWindow(s, k) else InitialRow(k))
    {
      x := i;
      if keyCount <= 0 {
        break;
      }
      var key := Positions()[i];
      var tempCount := if key[0] == 'B' || key[0] == 'E' then 1 else 2;
      assert forall y :: 0 <= y < i + 1 ==> keyCount0 - Used(s, y) > 0 by {
        assert keyCount0 - Used(s, i) > 0;
      }
      StartKeyMatches(startKey0, startKey, i);
      TableStep(notes, s, i);
      if key == startKey {
        WindowStep(s, i);
        keyCount := keyCount - tempCount;
        keyPositions := [Some(i)] + keyPositions[..7];
        if i + 1 != |Positions()| {
          startKey := Positions()[i + 1];
        }
      } else {
        WindowBeforeStart(s, i);
        beginningOffset := beginningOffset + 1;
      }
      notes := notes[i := keyPositions];
      i := i + 1;
    }
  }

  function Min(a: int, b: int): int { if a < b then a else b }

  /** The last slot the end correction clears in row r after t passes of
      its loop, or -1: pass u visits `notes[x - 8 + u]`, a negative index
      counting from the end, and clears slots 0..min(u - 1, 7). */
  function ClearedBound(r: int, x: int, t: int): int
  {
    if 1 <= r - x + 8 <= t then Min(r - x + 7, 7)
    else if 1 <= r - x - 45 <= t then Min(r - x - 46, 7)
    else -1
  }

  ghost predicate ClearedUpTo(cur: seq<Row>, orig: seq<Row>, x: int, t: int)
  {
    && |cur| == |orig|
    && (forall r :: 0 <= r < |cur| ==> |cur[r]| == |orig[r]|)
    && (forall r, j :: 0 <= r < |cur| && 0 <= j < |cur[r]| ==>
          cur[r][j] == if j <= ClearedBound(r, x, t) then None else orig[r][j])
  }

  /** `while j <= endOffset: row[j] = None`. */
  method ClearSlots(row: Row, endOffset: nat) returns (r: Row)
    requires endOffset < |row|
    ensures |r| == |row|
    ensures forall j :: 0 <= j < |r| ==> r[j] == if j <= endOffset then None else row[j]
  {
    r := row;
    var j := 0;
    while j <= endOffset
      invariant 0 <= j <= endOffset + 1 && |r| == |row|
      invariant forall k :: 0 <= k < |r| ==> r[k] == if k < j then None else row[k]
    {
      r := r[j := None];
      j := j + 1;
    }
  }

  /** Entry k with its first slots cleared as the end correction leaves
      it when the mapping stopped at x. */
  function CorrectedRow(row: Row, k: int, x: int): (r: Row)
    ensures |r| == |row|
  {
    seq(|row|, j requires 0 <= j < |row| => if k >= x - 7 && j <= Min(k - x + 7, 7) then None else row[j])
  }

  /** The end correction (Old/converter.py:319-333): starting seven names
      before the stop index x, each entry loses its first slots to None, one
      more slot per entry up to all eight; entries before x - 7 are left
      alone. When x < 7 the first passes use negative indices, which Python
      counts from the end; those entries are visited again later with a
      larger count, so the closed form holds for every x. */
  method CorrectEnd(notes: seq<Row>, x: nat) returns (r: seq<Row>)
    requires |notes| == NameCount && x < NameCount
    requires forall k :: 0 <= k < NameCount ==> |notes[k]| >= 8
    ensures |r| == NameCount
    ensures forall k :: 0 <= k < NameCount ==> r[k] == CorrectedRow(notes[k], k, x)
  {
    r := notes;
    var index: int := x - 8;
    var endOffset: nat := 0;
    while index + 1 < |r|
      invariant x - 8 <= index <= 52 && |r| == NameCount
      invariant endOffset == Min(index - x + 8, 7)
      invariant ClearedUpTo(r, notes, x, index - x + 8)
    {
      index := index + 1;
      var row := PyIndex(|r|, index).value;
      ghost var before := r;
      var cleared := ClearSlots(r[row], endOffset);
      r := r[row := cleared];
      assert forall k :: 0 <= k < NameCount && k != row ==> r[k] == before[k];
      if endOffset < 7 {
        endOffset := endOffset + 1;
      }
    }
    forall k | 0 <= k < NameCount
      ensures r[k] == CorrectedRow(notes[k], k, x)
    {
      assert forall j :: 0 <= j < |r[k]| ==> r[k][j] == CorrectedRow(notes[k], k, x)[j];
    }
  }

  /** Where the key-mapping loop stops: the first index from y on at which
      the key count is used up, or the last index. */
  function Stop(keyCount: int, s: nat, y: nat): (x: nat)
    requires y <= NameCount - 1
    ensures y <= x <= NameCount - 1
    decreases NameCount - y
  {
    if y == NameCount - 1 || keyCount - Used(s, y) <= 0 then y else Stop(keyCount, s, y + 1)
  }

  lemma {:induction false} StopIsFirst(keyCount: int, s: nat, y: nat, x: nat)
    requires y <= x < NameCount
    requires forall z :: y <= z < x ==> keyCount - Used(s, z) > 0
    requires x < NameCount - 1 ==> keyCount - Used(s, x) <= 0
    ensures Stop(keyCount, s, y) == x
    decreases x - y
  {
    if y < x {
      StopIsFirst(keyCount, s, y + 1, x);
    }
  }

  /** Entry k of the finished table, in closed form. */
  function FinalRow(keyCount: int, startKey: string, k: nat): (r: Row)
    requires k < NameCount
  {
    var s := StartIndex(startKey);
    var x := Stop(keyCount, s, 0);
    var mapped := if keyCount - Used(s, x) > 0 then x + 1 else x;
    CorrectedRow(if k < mapped then KeyWindow(s, k) else InitialRow(k), k, x)
  }

  /** The whole table pass (Old/converter.py:288-333): the key mapping
      followed by the end correction. */
  method BuildTable(keyCount: int, startKey: string) returns (notes: seq<Row>, x: nat, beginningOffset: nat)
    ensures |notes| == NameCount
    ensures x == Stop(keyCount, StartIndex(startKey), 0)
    ensures forall k :: 0 <= k < NameCount ==> notes[k] == FinalRow(keyCount, startKey, k)
  {
    var mappedNotes;
    mappedNotes, x, beginningOffset := MapKeys(keyCount, startKey);
    StopIsFirst(keyCount, StartIndex(startKey), 0, x);
    notes := CorrectEnd(mappedNotes, x);
    FinalRows(keyCount, startKey, x, mappedNotes, notes);
  }

  /** The mapped entries, corrected at the stop index, are the final rows. */
  lemma FinalRows(keyCount: int, startKey: string, x: nat, mappedNotes: seq<Row>, notes: seq<Row>)
    requires x == Stop(keyCount, StartIndex(startKey), 0)
    requires |mappedNotes| == NameCount && |notes| == NameCount
    requires var s := StartIndex(startKey);
             var mapped := if keyCount - Used(s, x) > 0 then x + 1 else x;
             forall k :: 0 <= k < NameCount ==>
               mappedNotes[k] == (if k < mapped then KeyWindow(s, k) else InitialRow(k))
    requires forall k :: 0 <= k < NameCount ==> notes[k] == CorrectedRow(mappedNotes[k], k, x)
    ensures forall k :: 0 <= k < NameCount ==> notes[k] == FinalRow(keyCount, startKey, k)
  {
  }

  /** Slot j of a key's entry only ever names hand position k - j: the
      solenoid j places to the right of the hand's first solenoid. */
  lemma SlotPosition(keyCount: int, startKey: string, k: nat, j: nat)
    requires k < NameCount - 1
    requires j < |FinalRow(keyCount, startKey, k)|
    ensures FinalRow(keyCount, startKey, k)[j].Some? ==> FinalRow(keyCount, startKey, k)[j].value == k - j
  {
  }
}

module LegacyTableConfig {
  import opened Common
  import opened LegacyTable

  lemma StartE1()
    ensures StartIndex("E1") == 4
  {
    assert Positions()[4] == "E1";
    assert IndexOf(Positions(), "E1") == Ok(4);
  }

  /** The names repeat every seven entries, and so do their key counts. */
  lemma TempCountPeriodic(i: nat)
    requires i + 7 < NameCount - 1
    ensures TempCount(i + 7) == TempCount(i)
  {
    assert (i + 7) % 7 == i % 7;
    assert Positions()[i + 7][0] == Positions()[i][0];
  }

  /** Seven consecutive names from the start key on stand for an octave of
      twelve keys. */
  lemma {:induction false} UsedWeek(y: nat)
    requires 4 <= y && y + 7 <= NameCount - 1
    ensures Used(4, y + 7) == Used(4, y) + 12
    decreases y
  {
    if y == 4 {
      UsedFirstWeek();
    } else {
      UsedWeek(y - 1);
      TempCountPeriodic(y - 1);
    }
  }

  /** E1 .. D2 use up twelve keys. */
  lemma UsedFirstWeek()
    ensures Used(4, 11) == 12
  {
    assert Used(4, 4) == 0 by { UsedBeforeStart(4); }
    assert TempCount(4) == 1 && TempCount(5) == 2 && TempCount(6) == 2 && TempCount(7) == 2;
    assert TempCount(8) == 1 && TempCount(9) == 2 && TempCount(10) == 2;
  }

  lemma {:induction false} UsedBeforeStart(y: nat)
    requires y <= 4
    ensures Used(4, y) == 0
  {
    if y > 0 {
      UsedBeforeStart(y - 1);
    }
  }

  lemma UsedToG7()
    ensures Used(4, 48) == 75 && Used(4, 49) == 77
  {
    assert Used(4, 46) == 72 by {
      UsedWeek(4);
      UsedWeek(11);
      UsedWeek(18);
      UsedWeek(25);
      UsedWeek(32);
      UsedWeek(39);
    }
    assert Used(4, 47) == 73 by {
      assert TempCount(46) == 1;
    }
    assert Used(4, 48) == 75 by {
      assert TempCount(47) == 2;
    }
    assert TempCount(48) == 2;
  }

  /** With the configured 76 keys from E1 the mapping stops at A7, index
      49: the names E1 .. G7 use up 77 keys. */
  lemma ConfiguredStop()
    ensures Stop(76, 4, 0) == 49
  {
    UsedToG7();
    forall z | 0 <= z < 49 ensures 76 - Used(4, z) > 0 {
      UsedMonotone(4, z, 48);
    }
    StopIsFirst(76, 4, 0, 49);
  }

  lemma {:induction false} UsedMonotone(s: nat, y: nat, z: nat)
    requires y <= z <= NameCount
    ensures Used(s, y) <= Used(s, z)
    decreases z - y
  {
    if y < z {
      UsedMonotone(s, y, z - 1);
    }
  }

  lemma ConfiguredShape(k: nat)
    requires k < NameCount
    ensures FinalRow(76, "E1", k) == CorrectedRow(if k < 49 then KeyWindow(4, k) else InitialRow(k), k, 49)
  {
    StartE1();
    ConfiguredStop();
    UsedToG7();
  }

  /** In the configured table E1 is reachable only from position 4. */
  lemma ConfiguredE1()
    ensures FinalRow(76, "E1", 4) == [Some(4), None, None, None, None, None, None, None]
  {
    ConfiguredShape(4);
    E1Window();
  }

  lemma E1Window()
    ensures CorrectedRow(KeyWindow(4, 4), 4, 49) == [Some(4), None, None, None, None, None, None, None]
  {
    var c := CorrectedRow(KeyWindow(4, 4), 4, 49);
    var w := KeyWindow(4, 4);
    forall j | 0 <= j < 8
      ensures c[j] == w[j]
    {
    }
    assert c == w;
    assert w == [Some(4), None, None, None, None, None, None, None];
  }

  lemma C7Window()
    ensures CorrectedRow(KeyWindow(4, 44), 44, 49) == [None, None, None, Some(41), Some(40), Some(39), Some(38), Some(37)]
  {
    var c := CorrectedRow(KeyWindow(4, 44), 44, 49);
    var d := seq(8, j => if j < 3 then None else Some(44 - j));
    assert Min(44 - 49 + 7, 7) == 2;
    forall j | 0 <= j < 8
      ensures c[j] == d[j]
    {
      assert KeyWindow(4, 44)[j] == Some(44 - j);
    }
    assert c == d;
    assert d == [None, None, None, Some(41), Some(40), Some(39), Some(38), Some(37)];
  }

  /** In the configured table C7 is reachable only from positions 37 to
      41: its first three slots fall to the end correction. */
  lemma ConfiguredC7()
    ensures FinalRow(76, "E1", 44) == [None, None, None, Some(41), Some(40), Some(39), Some(38), Some(37)]
  {
    ConfiguredShape(44);
    C7Window();
  }
}
