/** The pcode decoder of decode.py and its newer variant in test/decode.py.
    A pcode file is split into lines; each line becomes a Command, tagged by
    its first character: "h" lines are moves, "d" lines deploys, others
    markers. The deploys and the moves are then kept apart, their relative
    times turned into absolute times by a running sum, each stream sorted by
    time, and the two merged into one list in time order. */
module Decode {
  import opened Common
  import opened Alphabets
  import opened StableSort
  import opened RunningSums
  import opened Chords

  /** decode.py accepts any tag and pads chords with "0"; test/decode.py
      accepts only the tags s, h, d and e and pads chords with "H". */
  datatype Dialect = Release | Test

  /** The chord padding character of a dialect. */
  function Pad(d: Dialect): (c: char)
    ensures c in Base18Digits
    ensures d == Release ==> c == Base18Digits[0]
    ensures d == Test ==> c == Base18Digits[17]
  {
    if d == Release then '0' else 'H'
  }

  /** test/decode.py's CommandType. */
  datatype CommandType = Start | MoveType | DeployType | End

  /** The tag character of each command type. */
  function TypeTag(t: CommandType): char {
    match t
    case Start => 's'
    case MoveType => 'h'
    case DeployType => 'd'
    case End => 'e'
  }

  /** `find_command_type`: s, h, d and e name the four command types; any
      other character raises ValueError. */
  function FindCommandType(tag: char): (r: Result<CommandType>)
    ensures r.Ok? <==> tag == 's' || tag == 'h' || tag == 'd' || tag == 'e'
    ensures r.Err? ==> r.error == ValueError
    ensures r.Ok? ==> TypeTag(r.value) == tag
  {
    match tag
    case 's' => Ok(Start)
    case 'h' => Ok(MoveType)
    case 'd' => Ok(DeployType)
    case 'e' => Ok(End)
    case _ => Err(ValueError)
  }

  /** A parsed line. Each keeps its text; the fields a move or a deploy
      carries are the ones its processing method sets. */
  datatype Command =
    | Move(text: string, hand: int, position: int, duration: int, longevity: int)
    | Deploy(text: string, hand: int, force: int, duration: int, longevity: int, solenoidLocations: seq<nat>)
    | Marker(text: string, tag: char)

  /** `s[1:]`. */
  function Tail(s: string): string {
    if |s| == 0 then "" else s[1..]
  }

  /** `int(parts[k][1:])`: IndexError when there is no token k. */
  function Field(parts: seq<string>, k: nat): (r: Result<int>)
    ensures k >= |parts| ==> r == Err(IndexError)
    ensures k < |parts| ==> r == ParseInt(Tail(parts[k]))
  {
    if k >= |parts| then Err(IndexError) else ParseInt(Tail(parts[k]))
  }

  /** `process_move_command`: hand, position, duration and longevity from
      tokens 1 to 4, each without its one-letter tag. */
  function MoveOf(line: string): (r: Result<Command>)
    ensures r.Ok? ==> r.value.Move? && r.value.text == line
  {
    var parts := Split(line, ' ');
    var hand :- Field(parts, 1);
    var position :- Field(parts, 2);
    var duration :- Field(parts, 3);
    var longevity :- Field(parts, 4);
    Ok(Move(line, hand, position, duration, longevity))
  }

  /** `process_play_command`: hand from token 1, force, duration and
      longevity from tokens 3 to 5, then the chord of token 2. */
  function DeployOf(line: string, pad: char): (r: Result<Command>)
    ensures r.Ok? ==> r.value.Deploy? && r.value.text == line
  {
    var parts := Split(line, ' ');
    var hand :- Field(parts, 1);
    var force :- Field(parts, 3);
    var duration :- Field(parts, 4);
    var longevity :- Field(parts, 5);
    var locations :- ChordValues(Tail(parts[2]), Base18Digits, pad);
    Ok(Deploy(line, hand, force, duration, longevity, locations))
  }

  /** `Command(line)`: an empty line raises IndexError (it has no first
      character); test/decode.py raises ValueError for an unknown tag. */
  function CommandOf(line: string, d: Dialect): (r: Result<Command>)
    ensures |line| == 0 ==> r == Err(IndexError)
    ensures |line| > 0 && d == Test && FindCommandType(line[0]).Err? ==> r == Err(ValueError)
    ensures r.Ok? ==> |line| > 0 && r.value.text == line
    ensures r.Ok? ==> (r.value.Move? <==> line[0] == 'h') && (r.value.Deploy? <==> line[0] == 'd')
    ensures r.Ok? && r.value.Marker? ==> r.value.tag == line[0]
  {
    if |line| == 0 then Err(IndexError)
    else if d == Test && FindCommandType(line[0]).Err? then Err(ValueError)
    else if line[0] == 'h' then MoveOf(line)
    else if line[0] == 'd' then DeployOf(line, Pad(d))
    else Ok(Marker(line, line[0]))
  }

  /** The solenoid indices of a decoded deploy: 1 to 17 for decode.py, whose
      padding "0" is index 0; 0 to 16 for test/decode.py, whose padding "H"
      is index 17. */
  lemma DeployLocationsRange(line: string, d: Dialect)
    requires CommandOf(line, d).Ok? && CommandOf(line, d).value.Deploy?
    ensures var locs := CommandOf(line, d).value.solenoidLocations;
            forall k :: 0 <= k < |locs| ==> if d == Release then 1 <= locs[k] <= 17 else locs[k] <= 16
  {
    var parts := Split(line, ' ');
    assert CommandOf(line, d) == DeployOf(line, Pad(d));
    var chord := Tail(parts[2]);
    var locs := ChordValues(chord, Base18Digits, Pad(d)).value;
    assert CommandOf(line, d).value.solenoidLocations == locs;
    ChordValuesRange(chord, Base18Digits, Pad(d));
    forall k | 0 <= k < |locs| ensures if d == Release then 1 <= locs[k] <= 17 else locs[k] <= 16 {
      PadExcluded(locs[k], d);
    }
  }

  /** An index whose digit is not the padding is not the padding's index. */
  lemma PadExcluded(v: nat, d: Dialect)
    requires v < 18 && Base18Digits[v] != Pad(d)
    ensures if d == Release then 1 <= v <= 17 else v <= 16
  {
  }

  /** The commands of a whole file, or the first line's exception. */
  function ParseAll(lines: seq<string>, d: Dialect): (r: Result<seq<Command>>)
    ensures r.Ok? ==> |r.value| == |lines|
  {
    MapResult(lines, Parser(d))
  }

  /** `Command` as a function of the line. */
  function Parser(d: Dialect): string -> Result<Command> {
    line => CommandOf(line, d)
  }

  /** The deploys of cs, in order. */
  function Plays(cs: seq<Command>): (r: seq<Command>)
    ensures |r| <= |cs|
    ensures forall i :: 0 <= i < |r| ==> r[i].Deploy? && r[i] in cs
    decreases |cs|
  {
    if |cs| == 0 then []
    else Plays(cs[..|cs| - 1]) + (if cs[|cs| - 1].Deploy? then [cs[|cs| - 1]] else [])
  }

  /** The moves of cs, in order. */
  function Moves(cs: seq<Command>): (r: seq<Command>)
    ensures |r| <= |cs|
    ensures forall i :: 0 <= i < |r| ==> r[i].Move? && r[i] in cs
    decreases |cs|
  {
    if |cs| == 0 then []
    else Moves(cs[..|cs| - 1]) + (if cs[|cs| - 1].Move? then [cs[|cs| - 1]] else [])
  }

  /** Appending a command appends it to the list of its kind. */
  lemma FilterStep(cs: seq<Command>, c: Command)
    ensures Plays(cs + [c]) == Plays(cs) + (if c.Deploy? then [c] else [])
    ensures Moves(cs + [c]) == Moves(cs) + (if c.Move? then [c] else [])
  {
    assert (cs + [c])[..|cs|] == cs;
  }

  /** A line that makes `sort_commands` raise: every line before it
      parses, this one does not, with the given error. */
  ghost predicate RaisedAt(lines: seq<string>, parse: string -> Result<Command>, j: nat, e: Error) {
    j < |lines| && MapResult(lines[..j], parse).Ok? && parse(lines[j]) == Err(e)
  }

  // ---------------------------------------------------------------------
  // Times

  /** Moves and deploys carry a time. */
  predicate Timed(c: Command) {
    c.Move? || c.Deploy?
  }

  predicate AllTimed(cs: seq<Command>) {
    forall i :: 0 <= i < |cs| ==> Timed(cs[i])
  }

  /** The sort key `lambda x: x.duration`. */
  function TimeKey(c: Command): real {
    if Timed(c) then c.duration as real else 0.0
  }

  function Durations(cs: seq<Command>): (r: seq<int>)
    requires AllTimed(cs)
    ensures |r| == |cs|
  {
    seq(|cs|, i requires 0 <= i < |cs| => cs[i].duration)
  }

  /** The stream with each relative time replaced by the running sum of
      the stream's times up to and including it. */
  function Retimed(cs: seq<Command>): (r: seq<Command>)
    requires AllTimed(cs)
    ensures |r| == |cs| && AllTimed(r)
  {
    var ts := PrefixSums(Durations(cs));
    seq(|cs|, i requires 0 <= i < |cs| => cs[i].(duration := ts[i]))
  }

  /** Retiming changes only the times, and the old times are the
      differences of the new ones. */
  lemma RetimedInverse(cs: seq<Command>)
    requires AllTimed(cs)
    ensures forall i :: 0 <= i < |cs| ==> Retimed(cs)[i] == cs[i].(duration := Retimed(cs)[i].duration)
    ensures Differences(Durations(Retimed(cs))) == Durations(cs)
  {
    assert Durations(Retimed(cs)) == PrefixSums(Durations(cs));
    DifferencesOfSums(Durations(cs));
  }

  /** With non-negative relative times the absolute times are already in
      order, so sorting a retimed stream leaves it in file order. */
  lemma RetimedSorted(cs: seq<Command>)
    requires AllTimed(cs)
    requires forall i :: 0 <= i < |cs| ==> cs[i].duration >= 0
    ensures Sort(Retimed(cs), TimeKey) == Retimed(cs)
  {
    var ds := Durations(cs);
    SumsNondecreasing(ds);
    var r := Retimed(cs);
    assert forall i :: 0 <= i < |r| ==> TimeKey(r[i]) == PrefixSums(ds)[i] as real;
    SortSorted(r, TimeKey);
  }

  /** The merged list holds every move and every deploy, in time order;
      among commands with the same time the moves come first, each stream
      in its own order. */
  lemma InOrderMerge(moves: seq<Command>, plays: seq<Command>)
    ensures SortedBy(Sort(moves + plays, TimeKey), TimeKey)
    ensures multiset(Sort(moves + plays, TimeKey)) == multiset(moves) + multiset(plays)
    ensures forall k :: WithKey(Sort(moves + plays, TimeKey), TimeKey, k) == WithKey(moves, TimeKey, k) + WithKey(plays, TimeKey, k)
  {
    SortProps(moves + plays, TimeKey);
    forall k ensures WithKey(moves + plays, TimeKey, k) == WithKey(moves, TimeKey, k) + WithKey(plays, TimeKey, k) {
      WithKeyAppend(moves, plays, TimeKey, k);
    }
  }

  // ---------------------------------------------------------------------
  // The command list

  /** `CommandList`: the lines of the file and the three command lists
      built from them. */
  class CommandList {
    const dialect: Dialect
    var fileCommands: seq<string>
    var playCommands: seq<Command>
    var moveCommands: seq<Command>
    var inOrderCommands: seq<Command>

    /** The play list holds deploys only, the move list moves only. */
    ghost predicate Valid()
      reads this
    {
      (forall i :: 0 <= i < |playCommands| ==> playCommands[i].Deploy?) &&
      (forall i :: 0 <= i < |moveCommands| ==> moveCommands[i].Move?)
    }

    /** The file's text split on newlines, and three empty lists. */
    constructor (text: string, dialect: Dialect)
      ensures this.dialect == dialect && fileCommands == Split(text, '\n')
      ensures playCommands == [] && moveCommands == [] && inOrderCommands == []
      ensures Valid()
    {
      this.dialect := dialect;
      fileCommands := Split(text, '\n');
      playCommands := [];
      moveCommands := [];
      inOrderCommands := [];
    }

    /** `sort_commands`: every line in turn becomes a Command, deploys are
        appended to the play list and moves to the move list; a line that
        raises stops the walk with the lists built so far. */
    method SortCommands() returns (r: Outcome, ghost stop: nat)
      requires Valid()
      modifies this
      ensures Valid()
      ensures fileCommands == old(fileCommands) && inOrderCommands == old(inOrderCommands)
      ensures r.Done? <==> ParseAll(fileCommands, dialect).Ok?
      ensures r.Done? ==>
                && playCommands == old(playCommands) + Plays(ParseAll(fileCommands, dialect).value)
                && moveCommands == old(moveCommands) + Moves(ParseAll(fileCommands, dialect).value)
      ensures r.Raised? ==>
                && RaisedAt(fileCommands, Parser(dialect), stop, r.error)
                && playCommands == old(playCommands) + Plays(ParseAll(fileCommands[..stop], dialect).value)
                && moveCommands == old(moveCommands) + Moves(ParseAll(fileCommands[..stop], dialect).value)
    {
      var plays, moves;
      r, plays, moves, stop := SortLines(fileCommands, Parser(dialect), playCommands, moveCommands);
      playCommands := plays;
      moveCommands := moves;
    }

    /** `convert_duration`: each stream's times become running sums, each
        stream is sorted by time, and the merged list is the moves followed
        by the deploys, sorted by time. */
    method ConvertDuration()
      requires Valid()
      modifies this
      ensures Valid()
      ensures fileCommands == old(fileCommands)
      ensures playCommands == Sort(Retimed(old(playCommands)), TimeKey)
      ensures moveCommands == Sort(Retimed(old(moveCommands)), TimeKey)
      ensures inOrderCommands == Sort(moveCommands + playCommands, TimeKey)
    {
      playCommands := RunningTimes(playCommands);
      moveCommands := RunningTimes(moveCommands);
      SortKeepsKinds(Retimed(old(playCommands)), true);
      SortKeepsKinds(Retimed(old(moveCommands)), false);
      moveCommands := Sort(moveCommands, TimeKey);
      playCommands := Sort(playCommands, TimeKey);
      inOrderCommands := Sort(moveCommands + playCommands, TimeKey);
    }
  }

  /** The walk of `sort_commands` over the lines: each line becomes a
      Command through `parse`, deploys are appended to `plays` and moves to
      `moves`, and a line that raises stops the walk. */
  method SortLines(lines: seq<string>, parse: string -> Result<Command>, plays0: seq<Command>, moves0: seq<Command>)
    returns (r: Outcome, plays: seq<Command>, moves: seq<Command>, ghost stop: nat)
    ensures r.Done? <==> MapResult(lines, parse).Ok?
    ensures r.Done? ==>
              plays == plays0 + Plays(MapResult(lines, parse).value) && moves == moves0 + Moves(MapResult(lines, parse).value)
    ensures r.Raised? ==>
              && RaisedAt(lines, parse, stop, r.error)
              && plays == plays0 + Plays(MapResult(lines[..stop], parse).value)
              && moves == moves0 + Moves(MapResult(lines[..stop], parse).value)
  {
    plays, moves := plays0, moves0;
    ghost var parsed: seq<Command> := [];
    for x := 0 to |lines|
      invariant MapResult(lines[..x], parse) == Ok(parsed)
      invariant plays == plays0 + Plays(parsed) && moves == moves0 + Moves(parsed)
    {
      var processed := parse(lines[x]);
      if processed.Err? {
        assert RaisedAt(lines, parse, x, processed.error);
        MapResultEach(lines, parse);
        return Raised(processed.error), plays, moves, x;
      }
      MapResultStep(lines, parse, x, parsed, processed.value);
      FilterStep(parsed, processed.value);
      parsed := parsed + [processed.value];
      if processed.value.Deploy? {
        plays := plays + [processed.value];
      } else if processed.value.Move? {
        moves := moves + [processed.value];
      }
    }
    assert lines[..|lines|] == lines;
    return Done, plays, moves, 0;
  }

  /** Retiming and sorting keep a stream of deploys (or of moves) one. */
  lemma SortKeepsKinds(cs: seq<Command>, deploys: bool)
    ensures deploys && (forall i :: 0 <= i < |cs| ==> cs[i].Deploy?) ==>
              forall i :: 0 <= i < |cs| ==> Sort(cs, TimeKey)[i].Deploy?
    ensures !deploys && (forall i :: 0 <= i < |cs| ==> cs[i].Move?) ==>
              forall i :: 0 <= i < |cs| ==> Sort(cs, TimeKey)[i].Move?
  {
    SortProps(cs, TimeKey);
    var r := Sort(cs, TimeKey);
    forall i | 0 <= i < |r| ensures r[i] in cs {
      assert r[i] in multiset(r);
    }
  }

  /** The running-sum loop of `convert_duration` over one stream: each
      time is replaced, in place, by the total so far. */
  method RunningTimes(cs: seq<Command>) returns (r: seq<Command>)
    requires AllTimed(cs)
    ensures r == Retimed(cs)
  {
    r := cs;
    var total := 0;
    for i := 0 to |r|
      invariant |r| == |cs|
      invariant forall j :: 0 <= j < i ==> r[j] == Retimed(cs)[j]
      invariant forall j :: i <= j < |r| ==> r[j] == cs[j]
      invariant total == Sum(Durations(cs)[..i])
    {
      SumStep(Durations(cs), i);
      total := total + r[i].duration;
      r := r[i := r[i].(duration := total)];
    }
  }

  /** `CommandList(path)`: the constructor, `sort_commands` and
      `convert_duration` in turn, with the file's text given. */
  method Open(text: string, dialect: Dialect) returns (r: Result<CommandList>)
    ensures r.Err? <==> ParseAll(Split(text, '\n'), dialect).Err?
    ensures r.Err? ==> r.error == ParseAll(Split(text, '\n'), dialect).error
    ensures r.Ok? ==> fresh(r.value) && r.value.Valid()
    ensures r.Ok? ==>
              var cs := ParseAll(Split(text, '\n'), dialect).value;
              && r.value.fileCommands == Split(text, '\n')
              && r.value.moveCommands == Sort(Retimed(Moves(cs)), TimeKey)
              && r.value.playCommands == Sort(Retimed(Plays(cs)), TimeKey)
              && r.value.inOrderCommands == Sort(r.value.moveCommands + r.value.playCommands, TimeKey)
  {
    var list := new CommandList(text, dialect);
    var outcome, stop := list.SortCommands();
    if outcome.Raised? {
      MapResultFirstError(list.fileCommands, Parser(dialect), stop, |list.fileCommands|);
      assert list.fileCommands[..|list.fileCommands|] == list.fileCommands;
      return Err(outcome.error);
    }
    ghost var cs := ParseAll(Split(text, '\n'), dialect).value;
    assert [] + Plays(cs) == Plays(cs) && [] + Moves(cs) == Moves(cs);
    assert list.playCommands == Plays(cs) && list.moveCommands == Moves(cs);
    list.ConvertDuration();
    return Ok(list);
  }
}
