/** The legacy compiler's output stage (Old/converter.py:874-934): one
    chord column per note, naming the solenoid that plays it in the
    seventeen-symbol alphabet, then the pcode text: "s", one deploy line
    per note, one move line per hand movement, and "e". The file is
    written chunk by chunk; here the chunks are returned as a list. */
module LegacyEmit {
  import opened Common
  import opened Alphabets
  import opened LegacyParse

  type Row = seq<Option<int>>

  // ---------------------------------------------------------------------
  // Chord columns

  /** The digit of note x: the slot of its hand position in its key-table
      entry, plus one, plus eight for a sharp played by the right hand; a
      rest has slot -1. The errors are Python's, in evaluation order:
      `sharp[x]`, `values[x]`, the table entry, `.index(part)`, `rest[x]`. */
  function ChordDigit(locations: seq<Option<int>>, values: seq<NoteValue>, table: seq<Row>, handedness: int,
                      sharp: seq<int>, rest: seq<int>, x: nat): (r: Result<int>)
    requires x < |locations|
  {
    if x >= |sharp| || x >= |values| then Err(IndexError)
    else
      var change := if handedness == 0 && sharp[x] == 1 then 8 else 0;
      var place := PyIndex(|table|, values[x].place);
      if place.None? then Err(IndexError)
      else
        var slot :- IndexOf(table[place.value], locations[x]);
        if x >= |rest| then Err(IndexError)
        else Ok((if rest[x] == 1 then -1 else slot as int) + 1 + change)
  }

  /** `[base17[indexSole[x] + 1 + change], "0", "0", "0", "0"]`, joined. */
  function ChordColumn(locations: seq<Option<int>>, values: seq<NoteValue>, table: seq<Row>, handedness: int,
                       sharp: seq<int>, rest: seq<int>, x: nat): (r: Result<string>)
    requires x < |locations|
  {
    var d :- ChordDigit(locations, values, table, handedness, sharp, rest, x);
    var i := PyIndex(|Base17Digits|, d);
    if i.None? then Err(IndexError) else Ok([Base17Digits[i.value]] + "0000")
  }

  /** The columns of the first n notes, or the first note's error. */
  function ChordColumns(locations: seq<Option<int>>, values: seq<NoteValue>, table: seq<Row>, handedness: int,
                        sharp: seq<int>, rest: seq<int>, n: nat): (r: Result<seq<string>>)
    requires n <= |locations|
    ensures r.Ok? ==> |r.value| == n
    decreases n
  {
    if n == 0 then Ok([])
    else
      var init :- ChordColumns(locations, values, table, handedness, sharp, rest, n - 1);
      var c :- ChordColumn(locations, values, table, handedness, sharp, rest, n - 1);
      Ok(init + [c])
  }

  /** What a chord digit means: the note's hand position sits at slot
      `digit - 1 - change` of its key's entry (a rest has digit `change`),
      and with the eight-slot entries of the key table the digit is always
      a symbol of the alphabet. A hand position missing from the entry
      raises ValueError. */
  lemma ChordDigitMeaning(locations: seq<Option<int>>, values: seq<NoteValue>, table: seq<Row>, handedness: int,
                          sharp: seq<int>, rest: seq<int>, x: nat)
    requires x < |locations| && x < |sharp| && x < |values| && x < |rest| && 0 <= values[x].place < |table|
    ensures var r := ChordDigit(locations, values, table, handedness, sharp, rest, x);
            var entry := table[values[x].place];
            var change := if handedness == 0 && sharp[x] == 1 then 8 else 0;
            && (r.Err? <==> locations[x] !in entry)
            && (r.Err? ==> r.error == ValueError)
            && (r.Ok? && rest[x] == 1 ==> r.value == change)
            && (r.Ok? && rest[x] != 1 ==> 1 + change <= r.value <= |entry| + change && entry[r.value - 1 - change] == locations[x])
            && (r.Ok? && |entry| <= 8 ==> 0 <= r.value < 17)
  {
  }

  /** The loop that builds `playNotes` (Old/converter.py:873-889). */
  method BuildChords(locations: seq<Option<int>>, values: seq<NoteValue>, table: seq<Row>, handedness: int,
                     sharp: seq<int>, rest: seq<int>) returns (r: Result<seq<string>>)
    ensures r == ChordColumns(locations, values, table, handedness, sharp, rest, |locations|)
  {
    var playNotes: seq<string> := [];
    for x := 0 to |locations|
      invariant ChordColumns(locations, values, table, handedness, sharp, rest, x) == Ok(playNotes)
    {
      var column := ChordColumn(locations, values, table, handedness, sharp, rest, x);
      if column.Err? {
        ChordColumnsError(locations, values, table, handedness, sharp, rest, x + 1, |locations|);
        return Err(column.error);
      }
      playNotes := playNotes + [column.value];
    }
    return Ok(playNotes);
  }

  /** Once a note fails, every longer prefix fails with its error. */
  lemma {:induction false} ChordColumnsError(locations: seq<Option<int>>, values: seq<NoteValue>, table: seq<Row>,
                                             handedness: int, sharp: seq<int>, rest: seq<int>, m: nat, n: nat)
    requires m <= n <= |locations|
    requires ChordColumns(locations, values, table, handedness, sharp, rest, m).Err?
    ensures ChordColumns(locations, values, table, handedness, sharp, rest, n)
            == ChordColumns(locations, values, table, handedness, sharp, rest, m)
    decreases n
  {
    if m < n {
      ChordColumnsError(locations, values, table, handedness, sharp, rest, m, n - 1);
    }
  }

  /** A chord column: one alphabet symbol, then "0000". */
  predicate IsColumn(s: string) {
    |s| == 5 && s[0] in Base17Digits && s[1..] == "0000"
  }

  /** Every column is five characters: one alphabet symbol, then "0000". */
  lemma {:induction false} ColumnsShape(locations: seq<Option<int>>, values: seq<NoteValue>, table: seq<Row>,
                                        handedness: int, sharp: seq<int>, rest: seq<int>, n: nat)
    requires n <= |locations|
    ensures var r := ChordColumns(locations, values, table, handedness, sharp, rest, n);
            r.Ok? ==> forall i :: 0 <= i < n ==> IsColumn(r.value[i])
    decreases n
  {
    if n > 0 {
      ColumnsShape(locations, values, table, handedness, sharp, rest, n - 1);
      var r := ChordColumns(locations, values, table, handedness, sharp, rest, n);
      if r.Ok? {
        var init := ChordColumns(locations, values, table, handedness, sharp, rest, n - 1).value;
        var c := ChordColumn(locations, values, table, handedness, sharp, rest, n - 1);
        assert r.value == init + [c.value];
        ColumnShape(locations, values, table, handedness, sharp, rest, n - 1);
        forall i | 0 <= i < n ensures IsColumn(r.value[i]) {
          if i < n - 1 {
            assert r.value[i] == init[i];
          }
        }
      }
    }
  }

  /** A single column is one alphabet symbol, then "0000". */
  lemma ColumnShape(locations: seq<Option<int>>, values: seq<NoteValue>, table: seq<Row>,
                    handedness: int, sharp: seq<int>, rest: seq<int>, x: nat)
    requires x < |locations|
    ensures var c := ChordColumn(locations, values, table, handedness, sharp, rest, x);
            c.Ok? ==> IsColumn(c.value)
  {
  }

  // ---------------------------------------------------------------------
  // The pcode text

  /** A deploy line (without its newline): tag "d", then the hand, chord,
      force, time and longevity fields, separated by single spaces. */
  function DeployLine(hand: int, chord: string, force: int, t: int, l: int): string {
    Join(["d", "s" + IntToString(hand), "n" + chord, "f" + IntToString(force), "t" + IntToString(t),
          "l" + IntToString(l)], ' ')
  }

  /** A move line (without its newline): tag "h", hand 0, then the
      position, time and longevity fields. */
  function MoveLine(position: int, t: int, l: int): string {
    Join(["h", "s0", "p" + IntToString(position), "t" + IntToString(t), "l" + IntToString(l)], ' ')
  }

  /** The first n lines that `line` numbers. */
  function Lines(line: nat -> string, n: nat): (r: seq<string>)
    ensures |r| == n
    decreases n
  {
    if n == 0 then [] else Lines(line, n - 1) + [line(n - 1)]
  }

  /** Entry x of the lines is line x. */
  lemma {:induction false} LinesAt(line: nat -> string, n: nat)
    ensures forall x :: 0 <= x < n ==> Lines(line, n)[x] == line(x)
    decreases n
  {
    if n > 0 {
      LinesAt(line, n - 1);
    }
  }

  /** Deploy x's line with its newline, where all four lists reach x. */
  function DeployText(handedness: int, playNotes: seq<string>, playForce: seq<int>, playDurations: seq<int>,
                      playLongevity: seq<int>): nat -> string
  {
    (x: nat) => if x < |playNotes| && x < |playForce| && x < |playDurations| && x < |playLongevity|
         then DeployLine(handedness, playNotes[x], playForce[x], playDurations[x], playLongevity[x]) + "\n"
         else ""
  }

  /** Move x's line with its newline, where all three lists reach x. */
  function MoveText(movePosition: seq<int>, moveDuration: seq<int>, moveLongevity: seq<int>): nat -> string
  {
    (x: nat) => if x < |movePosition| && x < |moveDuration| && x < |moveLongevity|
         then MoveLine(movePosition[x], moveDuration[x], moveLongevity[x]) + "\n"
         else ""
  }

  /** Deploy x's chunk of the written file is its deploy line. */
  lemma DeployChunkAt(handedness: int, playNotes: seq<string>, playForce: seq<int>, playDurations: seq<int>,
                      playLongevity: seq<int>, x: nat)
    requires x < |playDurations| <= |playNotes| && |playDurations| <= |playForce| && |playDurations| <= |playLongevity|
    ensures Lines(DeployText(handedness, playNotes, playForce, playDurations, playLongevity), |playDurations|)[x]
            == DeployLine(handedness, playNotes[x], playForce[x], playDurations[x], playLongevity[x]) + "\n"
  {
    LinesAt(DeployText(handedness, playNotes, playForce, playDurations, playLongevity), |playDurations|);
  }

  /** Move x's chunk of the written file is its move line. */
  lemma MoveChunkAt(movePosition: seq<int>, moveDuration: seq<int>, moveLongevity: seq<int>, x: nat)
    requires x < |movePosition| <= |moveDuration| && |movePosition| <= |moveLongevity|
    ensures Lines(MoveText(movePosition, moveDuration, moveLongevity), |movePosition|)[x]
            == MoveLine(movePosition[x], moveDuration[x], moveLongevity[x]) + "\n"
  {
    LinesAt(MoveText(movePosition, moveDuration, moveLongevity), |movePosition|);
  }

  /** One more deploy adds its line to the written lines. */
  lemma DeployStep(handedness: int, playNotes: seq<string>, playForce: seq<int>, playDurations: seq<int>,
                   playLongevity: seq<int>, x: nat)
    requires x < |playDurations| && x < |playNotes| && x < |playForce| && x < |playLongevity|
    ensures Lines(DeployText(handedness, playNotes, playForce, playDurations, playLongevity), x + 1)
            == Lines(DeployText(handedness, playNotes, playForce, playDurations, playLongevity), x)
               + [DeployLine(handedness, playNotes[x], playForce[x], playDurations[x], playLongevity[x]) + "\n"]
  {
  }

  /** One more move adds its line to the written lines. */
  lemma MoveStep(movePosition: seq<int>, moveDuration: seq<int>, moveLongevity: seq<int>, x: nat)
    requires x < |movePosition| && x < |moveDuration| && x < |moveLongevity|
    ensures Lines(MoveText(movePosition, moveDuration, moveLongevity), x + 1)
            == Lines(MoveText(movePosition, moveDuration, moveLongevity), x)
               + [MoveLine(movePosition[x], moveDuration[x], moveLongevity[x]) + "\n"]
  {
  }

  /** The writing of the pcode file (Old/converter.py:897-932). The deploy
      loop runs over `playDurations` and indexes the other deploy lists by
      position, the move loop over `movePosition`: a shorter list raises
      IndexError. Otherwise the chunks are "s\n", one line per deploy and
      per move, each ending in a newline, and "e" (DeployChunkAt and
      MoveChunkAt name the line of each deploy and move). */
  method WritePcode(handedness: int, playNotes: seq<string>, playForce: seq<int>, playDurations: seq<int>,
                    playLongevity: seq<int>, movePosition: seq<int>, moveDuration: seq<int>,
                    moveLongevity: seq<int>) returns (r: Result<seq<string>>)
    ensures r.Err? <==>
              |playNotes| < |playDurations| || |playForce| < |playDurations| || |playLongevity| < |playDurations| ||
              |moveDuration| < |movePosition| || |moveLongevity| < |movePosition|
    ensures r.Err? ==> r.error == IndexError
    ensures r.Ok? ==>
              r.value == ["s\n"] + Lines(DeployText(handedness, playNotes, playForce, playDurations, playLongevity), |playDurations|)
                         + Lines(MoveText(movePosition, moveDuration, moveLongevity), |movePosition|) + ["e"]
  {
    var chunks := ["s\n"];
    var deployed := WriteDeploys(chunks, handedness, playNotes, playForce, playDurations, playLongevity);
    if deployed.Err? {
      return Err(deployed.error);
    }
    var moved := WriteMoves(deployed.value, movePosition, moveDuration, moveLongevity);
    if moved.Err? {
      return Err(moved.error);
    }
    chunks := moved.value + ["e"];
    return Ok(chunks);
  }

  /** The deploy loop of the pcode writer: one line per entry of
      `playDurations`, after the chunks already written. */
  method WriteDeploys(chunks0: seq<string>, handedness: int, playNotes: seq<string>, playForce: seq<int>,
                      playDurations: seq<int>, playLongevity: seq<int>) returns (r: Result<seq<string>>)
    ensures r.Err? <==> |playNotes| < |playDurations| || |playForce| < |playDurations| || |playLongevity| < |playDurations|
    ensures r.Err? ==> r.error == IndexError
    ensures r.Ok? ==> r.value == chunks0 + Lines(DeployText(handedness, playNotes, playForce, playDurations, playLongevity), |playDurations|)
  {
    var chunks := chunks0;
    for x := 0 to |playDurations|
      invariant x <= |playNotes| && x <= |playForce| && x <= |playLongevity|
      invariant chunks == chunks0 + Lines(DeployText(handedness, playNotes, playForce, playDurations, playLongevity), x)
    {
      if x >= |playNotes| || x >= |playForce| || x >= |playLongevity| {
        return Err(IndexError);
      }
      var toWrite := DeployLine(handedness, playNotes[x], playForce[x], playDurations[x], playLongevity[x]) + "\n";
      DeployStep(handedness, playNotes, playForce, playDurations, playLongevity, x);
      chunks := chunks + [toWrite];
    }
    return Ok(chunks);
  }

  /** The move loop of the pcode writer: one line per entry of
      `movePosition`, after the chunks already written. */
  method WriteMoves(chunks0: seq<string>, movePosition: seq<int>, moveDuration: seq<int>, moveLongevity: seq<int>)
    returns (r: Result<seq<string>>)
    ensures r.Err? <==> |moveDuration| < |movePosition| || |moveLongevity| < |movePosition|
    ensures r.Err? ==> r.error == IndexError
    ensures r.Ok? ==> r.value == chunks0 + Lines(MoveText(movePosition, moveDuration, moveLongevity), |movePosition|)
  {
    var chunks := chunks0;
    for x := 0 to |movePosition|
      invariant x <= |moveDuration| && x <= |moveLongevity|
      invariant chunks == chunks0 + Lines(MoveText(movePosition, moveDuration, moveLongevity), x)
    {
      if x >= |moveDuration| || x >= |moveLongevity| {
        return Err(IndexError);
      }
      var toWrite := MoveLine(movePosition[x], moveDuration[x], moveLongevity[x]) + "\n";
      MoveStep(movePosition, moveDuration, moveLongevity, x);
      chunks := chunks + [toWrite];
    }
    return Ok(chunks);
  }
}
