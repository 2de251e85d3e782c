/** The older pcode reader of pcode_decode.py. Every line is split on
    spaces; lines whose first token is "d" are deploys, "h" moves, and the
    rest are dropped. Each deploy's and each move's fields become integers,
    the time field becomes the running sum of its stream, and the result is
    the two streams, each sorted by time, side by side (not merged). */
module PcodeDecode {
  import opened Common
  import opened Alphabets
  import opened StableSort
  import opened RunningSums
  import opened Chords
  import Decode

  /** A converted deploy: `[d, hand, keys, force, time, longevity, ...]`,
      with any further tokens kept as they are. */
  datatype DeployRow = DeployRow(hand: int, keys: seq<nat>, force: int, time: int, longevity: int, extra: seq<string>)

  /** A converted move: `[h, hand, position, time, longevity, ...]`. */
  datatype MoveRow = MoveRow(hand: int, position: int, time: int, longevity: int, extra: seq<string>)

  /** The token lists of the lines. */
  function Tokens(lines: seq<string>): (r: seq<seq<string>>)
    ensures |r| == |lines| && forall i :: 0 <= i < |r| ==> |r[i]| >= 1
  {
    seq(|lines|, i requires 0 <= i < |lines| => Split(lines[i], ' '))
  }

  /** The token lists whose first token is `tag`, in order. */
  function Tagged(ts: seq<seq<string>>, tag: string): (r: seq<seq<string>>)
    requires forall i :: 0 <= i < |ts| ==> |ts[i]| >= 1
    ensures |r| <= |ts|
    ensures forall i :: 0 <= i < |r| ==> |r[i]| >= 1 && r[i][0] == tag && r[i] in ts
    decreases |ts|
  {
    if |ts| == 0 then []
    else Tagged(ts[..|ts| - 1], tag) + (if ts[|ts| - 1][0] == tag then [ts[|ts| - 1]] else [])
  }

  /** The conversion of one deploy token list, its time still relative:
      tokens 1, 3, 4 and 5 become integers, token 2 without its tag is the
      chord, whose characters other than "0" become indices of the
      seventeen-symbol alphabet. */
  function DeployOf(com: seq<string>): (r: Result<DeployRow>)
    ensures r.Ok? ==> |com| >= 6 && ChordValues(Decode.Tail(com[2]), Base17Digits, '0') == Ok(r.value.keys)
  {
    var hand :- Decode.Field(com, 1);
    if |com| < 3 then Err(IndexError)
    else
      var chord := Decode.Tail(com[2]);
      var force :- Decode.Field(com, 3);
      var time :- Decode.Field(com, 4);
      var longevity :- Decode.Field(com, 5);
      var keys :- ChordValues(chord, Base17Digits, '0');
      Ok(DeployRow(hand, keys, force, time, longevity, com[6..]))
  }

  /** The conversion of one move token list: tokens 1 to 4 become
      integers. */
  function MoveOf(com: seq<string>): (r: Result<MoveRow>) {
    var hand :- Decode.Field(com, 1);
    var position :- Decode.Field(com, 2);
    var time :- Decode.Field(com, 3);
    var longevity :- Decode.Field(com, 4);
    Ok(MoveRow(hand, position, time, longevity, com[5..]))
  }

  function DeployTimes(rows: seq<DeployRow>): (r: seq<int>)
    ensures |r| == |rows|
  {
    seq(|rows|, i requires 0 <= i < |rows| => rows[i].time)
  }

  function MoveTimes(rows: seq<MoveRow>): (r: seq<int>)
    ensures |r| == |rows|
  {
    seq(|rows|, i requires 0 <= i < |rows| => rows[i].time)
  }

  /** Each deploy's time replaced by the running sum of the deploy times. */
  function RetimeDeploys(rows: seq<DeployRow>): (r: seq<DeployRow>)
    ensures |r| == |rows|
  {
    var ts := PrefixSums(DeployTimes(rows));
    seq(|rows|, i requires 0 <= i < |rows| => rows[i].(time := ts[i]))
  }

  /** Each move's time replaced by the running sum of the move times. */
  function RetimeMoves(rows: seq<MoveRow>): (r: seq<MoveRow>)
    ensures |r| == |rows|
  {
    var ts := PrefixSums(MoveTimes(rows));
    seq(|rows|, i requires 0 <= i < |rows| => rows[i].(time := ts[i]))
  }

  function DeployKey(d: DeployRow): real { d.time as real }

  function MoveKey(m: MoveRow): real { m.time as real }

  /** What `sorted_commandsList` returns for a file with these lines: the
      deploys are converted first, then the moves, and the first failing
      conversion raises. */
  function SortedCommands(lines: seq<string>): Result<(seq<MoveRow>, seq<DeployRow>)> {
    var ts := Tokens(lines);
    var ds :- MapResult(Tagged(ts, "d"), DeployOf);
    var hs :- MapResult(Tagged(ts, "h"), MoveOf);
    Ok((Sort(RetimeMoves(hs), MoveKey), Sort(RetimeDeploys(ds), DeployKey)))
  }

  // ---------------------------------------------------------------------
  // The loops of sorted_commandsList

  /** Splits every line on spaces. */
  method SplitLines(lines: seq<string>) returns (ts: seq<seq<string>>)
    ensures ts == Tokens(lines)
  {
    ts := [];
    for i := 0 to |lines|
      invariant ts == Tokens(lines[..i])
    {
      assert Tokens(lines[..i + 1]) == Tokens(lines[..i]) + [Split(lines[i], ' ')];
      ts := ts + [Split(lines[i], ' ')];
    }
    assert lines[..|lines|] == lines;
  }

  /** Puts the "d" token lists in one list and the "h" ones in another. */
  method Partition(ts: seq<seq<string>>) returns (ds: seq<seq<string>>, hs: seq<seq<string>>)
    requires forall i :: 0 <= i < |ts| ==> |ts[i]| >= 1
    ensures ds == Tagged(ts, "d") && hs == Tagged(ts, "h")
  {
    ds, hs := [], [];
    for i := 0 to |ts|
      invariant ds == Tagged(ts[..i], "d") && hs == Tagged(ts[..i], "h")
    {
      assert ts[..i + 1][..i] == ts[..i];
      if ts[i][0] == "d" {
        ds := ds + [ts[i]];
      } else if ts[i][0] == "h" {
        hs := hs + [ts[i]];
      }
    }
    assert ts[..|ts|] == ts;
  }

  /** The deploy loop: converts each token list (with `convert`, which is
      DeployOf), keeping a running total of the times. */
  method ConvertDeploys(ds: seq<seq<string>>, convert: seq<string> -> Result<DeployRow>) returns (r: Result<seq<DeployRow>>)
    ensures MapResult(ds, convert).Err? ==> r == Err(MapResult(ds, convert).error)
    ensures MapResult(ds, convert).Ok? ==> r == Ok(RetimeDeploys(MapResult(ds, convert).value))
  {
    var rows: seq<DeployRow> := [];
    ghost var raw: seq<DeployRow> := [];
    var dPlayTime := 0;
    for x := 0 to |ds|
      invariant MapResult(ds[..x], convert) == Ok(raw)
      invariant rows == RetimeDeploys(raw) && dPlayTime == Sum(DeployTimes(raw))
    {
      var com := convert(ds[x]);
      if com.Err? {
        MapResultEach(ds, convert);
        FirstError(ds, convert, x);
        return Err(com.error);
      }
      MapResultStep(ds, convert, x, raw, com.value);
      dPlayTime := dPlayTime + com.value.time;
      RetimeDeploysAppend(raw, com.value);
      raw := raw + [com.value];
      rows := rows + [com.value.(time := dPlayTime)];
    }
    assert ds[..|ds|] == ds;
    return Ok(rows);
  }

  /** The move loop, as the deploy loop (`convert` is MoveOf). */
  method ConvertMoves(hs: seq<seq<string>>, convert: seq<string> -> Result<MoveRow>) returns (r: Result<seq<MoveRow>>)
    ensures MapResult(hs, convert).Err? ==> r == Err(MapResult(hs, convert).error)
    ensures MapResult(hs, convert).Ok? ==> r == Ok(RetimeMoves(MapResult(hs, convert).value))
  {
    var rows: seq<MoveRow> := [];
    ghost var raw: seq<MoveRow> := [];
    var hPlayTime := 0;
    for x := 0 to |hs|
      invariant MapResult(hs[..x], convert) == Ok(raw)
      invariant rows == RetimeMoves(raw) && hPlayTime == Sum(MoveTimes(raw))
    {
      var com := convert(hs[x]);
      if com.Err? {
        MapResultEach(hs, convert);
        FirstError(hs, convert, x);
        return Err(com.error);
      }
      MapResultStep(hs, convert, x, raw, com.value);
      hPlayTime := hPlayTime + com.value.time;
      RetimeMovesAppend(raw, com.value);
      raw := raw + [com.value];
      rows := rows + [com.value.(time := hPlayTime)];
    }
    assert hs[..|hs|] == hs;
    return Ok(rows);
  }

  /** `sorted_commandsList`, with the file's lines given. */
  method SortedCommandsList(lines: seq<string>) returns (r: Result<(seq<MoveRow>, seq<DeployRow>)>)
    ensures r == SortedCommands(lines)
  {
    var commandsList := SplitLines(lines);
    var dCommandsList, hCommandsList := Partition(commandsList);
    var ds := ConvertDeploys(dCommandsList, DeployOf);
    if ds.Err? {
      return Err(ds.error);
    }
    var hs := ConvertMoves(hCommandsList, MoveOf);
    if hs.Err? {
      return Err(hs.error);
    }
    return Ok((Sort(hs.value, MoveKey), Sort(ds.value, DeployKey)));
  }

  // ---------------------------------------------------------------------
  // Lemmas

  /** The error of the whole list is that of its first failing element. */
  lemma {:induction false} FirstError<A, B>(xs: seq<A>, f: A -> Result<B>, x: nat)
    requires x < |xs| && MapResult(xs[..x], f).Ok? && f(xs[x]).Err?
    ensures MapResult(xs, f) == Err(f(xs[x]).error)
    decreases |xs|
  {
    if x + 1 == |xs| {
      assert xs[..|xs| - 1] == xs[..x];
    } else {
      assert xs[..|xs| - 1][..x] == xs[..x];
      FirstError(xs[..|xs| - 1], f, x);
    }
  }

  lemma RetimeDeploysAppend(raw: seq<DeployRow>, d: DeployRow)
    ensures RetimeDeploys(raw + [d]) == RetimeDeploys(raw) + [d.(time := Sum(DeployTimes(raw)) + d.time)]
    ensures Sum(DeployTimes(raw + [d])) == Sum(DeployTimes(raw)) + d.time
  {
    assert DeployTimes(raw + [d]) == DeployTimes(raw) + [d.time];
    PrefixSumsAppend(DeployTimes(raw), d.time);
    var e := DeployTimes(raw + [d]);
    assert e[..|e| - 1] == DeployTimes(raw);
  }

  lemma RetimeMovesAppend(raw: seq<MoveRow>, m: MoveRow)
    ensures RetimeMoves(raw + [m]) == RetimeMoves(raw) + [m.(time := Sum(MoveTimes(raw)) + m.time)]
    ensures Sum(MoveTimes(raw + [m])) == Sum(MoveTimes(raw)) + m.time
  {
    assert MoveTimes(raw + [m]) == MoveTimes(raw) + [m.time];
    PrefixSumsAppend(MoveTimes(raw), m.time);
    var e := MoveTimes(raw + [m]);
    assert e[..|e| - 1] == MoveTimes(raw);
  }

  /** The result is the two streams, each ordered by time and each a
      permutation of its retimed stream. */
  lemma SortedCommandsOrdered(lines: seq<string>)
    requires SortedCommands(lines).Ok?
    ensures SortedBy(SortedCommands(lines).value.0, MoveKey)
    ensures SortedBy(SortedCommands(lines).value.1, DeployKey)
    ensures multiset(SortedCommands(lines).value.0) ==
              multiset(RetimeMoves(MapResult(Tagged(Tokens(lines), "h"), MoveOf).value))
    ensures multiset(SortedCommands(lines).value.1) ==
              multiset(RetimeDeploys(MapResult(Tagged(Tokens(lines), "d"), DeployOf).value))
  {
    var ts := Tokens(lines);
    SortProps(RetimeMoves(MapResult(Tagged(ts, "h"), MoveOf).value), MoveKey);
    SortProps(RetimeDeploys(MapResult(Tagged(ts, "d"), DeployOf).value), DeployKey);
  }

  /** Retiming changes only the times, and the relative times are the
      differences of the absolute ones. */
  lemma RetimeDeploysInverse(rows: seq<DeployRow>)
    ensures forall i :: 0 <= i < |rows| ==> RetimeDeploys(rows)[i] == rows[i].(time := RetimeDeploys(rows)[i].time)
    ensures Differences(DeployTimes(RetimeDeploys(rows))) == DeployTimes(rows)
  {
    assert DeployTimes(RetimeDeploys(rows)) == PrefixSums(DeployTimes(rows));
    DifferencesOfSums(DeployTimes(rows));
  }

  lemma RetimeMovesInverse(rows: seq<MoveRow>)
    ensures forall i :: 0 <= i < |rows| ==> RetimeMoves(rows)[i] == rows[i].(time := RetimeMoves(rows)[i].time)
    ensures Differences(MoveTimes(RetimeMoves(rows))) == MoveTimes(rows)
  {
    assert MoveTimes(RetimeMoves(rows)) == PrefixSums(MoveTimes(rows));
    DifferencesOfSums(MoveTimes(rows));
  }

  /** Every key of every row lies in 1..16. */
  ghost predicate KeysInRange(rows: seq<DeployRow>) {
    forall i, k :: 0 <= i < |rows| && 0 <= k < |rows[i].keys| ==> 1 <= rows[i].keys[k] <= 16
  }

  /** Every decoded key is an index of the alphabet other than the
      padding: 1 to 16. */
  lemma SortedCommandsKeys(lines: seq<string>)
    requires SortedCommands(lines).Ok?
    ensures KeysInRange(SortedCommands(lines).value.1)
  {
    var dts := Tagged(Tokens(lines), "d");
    ConvertedKeys(dts);
    SortedKeys(MapResult(dts, DeployOf).value);
  }

  lemma ConvertedKeys(dts: seq<seq<string>>)
    requires MapResult(dts, DeployOf).Ok?
    ensures KeysInRange(MapResult(dts, DeployOf).value)
  {
    MapResultEach(dts, DeployOf);
    forall j | 0 <= j < |dts| ensures KeysInRange([MapResult(dts, DeployOf).value[j]]) {
      DeployKeysRange(dts[j]);
    }
    var rows := MapResult(dts, DeployOf).value;
    forall i, k | 0 <= i < |rows| && 0 <= k < |rows[i].keys| ensures 1 <= rows[i].keys[k] <= 16 {
      assert KeysInRange([rows[i]]);
      assert [rows[i]][0] == rows[i];
    }
  }

  /** Retiming and sorting keep the keys of every row. */
  lemma SortedKeys(rows: seq<DeployRow>)
    requires KeysInRange(rows)
    ensures KeysInRange(Sort(RetimeDeploys(rows), DeployKey))
  {
    var sorted := Sort(RetimeDeploys(rows), DeployKey);
    SortProps(RetimeDeploys(rows), DeployKey);
    forall i, k | 0 <= i < |sorted| && 0 <= k < |sorted[i].keys|
      ensures 1 <= sorted[i].keys[k] <= 16
    {
      assert sorted[i] in multiset(RetimeDeploys(rows));
      var j :| 0 <= j < |rows| && RetimeDeploys(rows)[j] == sorted[i];
      assert sorted[i].keys == rows[j].keys;
    }
  }

  /** The keys of a converted deploy lie in 1..16. */
  lemma DeployKeysRange(com: seq<string>)
    requires DeployOf(com).Ok?
    ensures forall k :: 0 <= k < |DeployOf(com).value.keys| ==> 1 <= DeployOf(com).value.keys[k] <= 16
  {
    ChordKeysRange(Decode.Tail(com[2]));
  }

  /** A base-17 chord padded with "0" names solenoids 1 to 16. */
  lemma ChordKeysRange(chord: string)
    requires ChordValues(chord, Base17Digits, '0').Ok?
    ensures forall k :: 0 <= k < |ChordValues(chord, Base17Digits, '0').value| ==>
              1 <= ChordValues(chord, Base17Digits, '0').value[k] <= 16
  {
    ChordValuesRange(chord, Base17Digits, '0');
    assert Base17Digits[0] == '0';
  }

  /** With non-negative relative times, each sorted stream is its retimed
      stream in file order. */
  lemma NonnegativeInFileOrder(lines: seq<string>)
    requires SortedCommands(lines).Ok?
    requires var ts := Tokens(lines);
             (forall i :: 0 <= i < |MapResult(Tagged(ts, "d"), DeployOf).value| ==>
                MapResult(Tagged(ts, "d"), DeployOf).value[i].time >= 0) &&
             (forall i :: 0 <= i < |MapResult(Tagged(ts, "h"), MoveOf).value| ==>
                MapResult(Tagged(ts, "h"), MoveOf).value[i].time >= 0)
    ensures var ts := Tokens(lines);
            SortedCommands(lines).value ==
              (RetimeMoves(MapResult(Tagged(ts, "h"), MoveOf).value), RetimeDeploys(MapResult(Tagged(ts, "d"), DeployOf).value))
  {
    var ts := Tokens(lines);
    var ds := MapResult(Tagged(ts, "d"), DeployOf).value;
    var hs := MapResult(Tagged(ts, "h"), MoveOf).value;
    SumsNondecreasing(DeployTimes(ds));
    SumsNondecreasing(MoveTimes(hs));
    assert SortedBy(RetimeDeploys(ds), DeployKey);
    assert SortedBy(RetimeMoves(hs), MoveKey);
    SortSorted(RetimeDeploys(ds), DeployKey);
    SortSorted(RetimeMoves(hs), MoveKey);
  }
}
