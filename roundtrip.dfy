/** The legacy compiler's pcode (Old/converter.py) read back by the
    decoder of decode.py: every line it writes parses to the values it
    wrote, and the whole file parses to a start marker, the deploys, the
    moves and an end marker. */
module PcodeRoundTrip {
  import opened Common
  import opened Alphabets
  import opened Chords
  import opened LegacyEmit
  import opened Decode

  /** The chord column of digit d: its symbol, then four padding zeros. */
  function Column(d: nat): string
    requires d < 17
  {
    [Base17Digits[d]] + "0000"
  }

  /** The solenoid list decode.py reads from the column of digit d: the
      digit itself, or nothing for the rest digit 0. */
  function Solenoids(d: nat): seq<nat> {
    if d == 0 then [] else [d]
  }

  /** In a list of distinct characters, index-of finds each position. */
  lemma {:induction false} IndexOfDistinct(xs: seq<char>, i: nat)
    requires i < |xs| && forall j, k :: 0 <= j < k < |xs| ==> xs[j] != xs[k]
    ensures IndexOf(xs, xs[i]) == Ok(i)
  {
    assert IndexOf(xs, xs[i]).Ok?;
  }

  /** A column of any alphabet whose first symbol is the padding decodes
      to its digit. */
  lemma ColumnDecodesIn(alphabet: seq<char>, d: nat)
    requires d < |alphabet| && forall j, k :: 0 <= j < k < |alphabet| ==> alphabet[j] != alphabet[k]
    ensures ChordValues([alphabet[d]] + seq(4, _ => alphabet[0]), alphabet, alphabet[0]) == Ok(Solenoids(d))
  {
    var c := alphabet[d];
    PaddingIgnored([c], 4, alphabet, alphabet[0]);
    assert [c][..0] == [];
    assert ChordValues([c][..0], alphabet, alphabet[0]) == Ok([]);
    if d > 0 {
      IndexOfDistinct(alphabet, d);
      assert c != alphabet[0];
      assert ChordValues([c], alphabet, alphabet[0]) == Ok([] + [d]);
      assert [] + [d] == [d];
    }
  }

  /** A column decodes to its digit, its padding ignored. */
  lemma ColumnDecodes(d: nat)
    requires d < 17
    ensures ChordValues(Column(d), Base18Digits, '0') == Ok(Solenoids(d))
  {
    Base17IsPrefix();
    Base18Distinct();
    assert Base18Digits[0] == '0';
    assert Column(d) == [Base18Digits[d]] + seq(4, _ => Base18Digits[0]);
    ColumnDecodesIn(Base18Digits, d);
  }

  /** A tagged integer field reads back as its integer. */
  lemma TaggedField(tag: char, n: int)
    requires tag != ' ' && tag != '\n'
    ensures Tail([tag] + IntToString(n)) == IntToString(n)
    ensures ParseInt(Tail([tag] + IntToString(n))) == Ok(n)
    ensures ' ' !in [tag] + IntToString(n) && '\n' !in [tag] + IntToString(n)
  {
    TaggedIntHasNoSpace(tag, n);
    ParseIntToString(n);
    var s := [tag] + IntToString(n);
    forall i | 0 <= i < |s| ensures s[i] != '\n' {
      if i > 0 {
        assert s[i] == IntToString(n)[i - 1];
      }
    }
  }

  /** The tokens of a deploy line. */
  function DeployTokens(hand: int, chord: string, force: int, t: int, l: int): seq<string> {
    ["d", "s" + IntToString(hand), "n" + chord, "f" + IntToString(force), "t" + IntToString(t), "l" + IntToString(l)]
  }

  /** Splitting a line of fields separated by spaces gives the fields. */
  lemma SplitFields(fields: seq<string>)
    requires |fields| >= 1 && forall i :: 0 <= i < |fields| ==> ' ' !in fields[i]
    ensures Split(Join(fields, ' '), ' ') == fields
  {
    SplitJoin(fields, ' ');
  }

  /** A deploy line is its tokens joined by spaces. */
  lemma DeployLineIsJoin(hand: int, chord: string, force: int, t: int, l: int)
    ensures DeployLine(hand, chord, force, t, l) == Join(DeployTokens(hand, chord, force, t, l), ' ')
  {
  }

  /** No token of a deploy line holds a space or a newline. */
  lemma DeployTokensPlain(hand: int, d: nat, force: int, t: int, l: int)
    requires d < 17
    ensures var tokens := DeployTokens(hand, Column(d), force, t, l);
            |tokens| == 6 && forall i :: 0 <= i < 6 ==> ' ' !in tokens[i] && '\n' !in tokens[i]
  {
    var tokens := DeployTokens(hand, Column(d), force, t, l);
    TaggedPlain('s', hand);
    TaggedPlain('f', force);
    TaggedPlain('t', t);
    TaggedPlain('l', l);
    ColumnPlain(d);
    PrefixedPlain('n', Column(d));
    assert tokens == ["d", ['s'] + IntToString(hand), ['n'] + Column(d), ['f'] + IntToString(force),
                      ['t'] + IntToString(t), ['l'] + IntToString(l)];
  }

  /** A tagged integer field holds neither a space nor a newline. */
  lemma TaggedPlain(tag: char, n: int)
    requires tag != ' ' && tag != '\n'
    ensures ' ' !in [tag] + IntToString(n) && '\n' !in [tag] + IntToString(n)
  {
    TaggedField(tag, n);
  }

  /** A chord column holds neither a space nor a newline. */
  lemma ColumnPlain(d: nat)
    requires d < 17
    ensures ' ' !in Column(d) && '\n' !in Column(d)
  {
    var c := Base17Digits[d];
    assert c in Base17Digits;
    assert c != ' ' && c != '\n';
    assert Column(d) == [c] + "0000";
  }

  /** A tag in front of a plain token leaves it plain. */
  lemma PrefixedPlain(tag: char, s: string)
    requires tag != ' ' && tag != '\n' && ' ' !in s && '\n' !in s
    ensures ' ' !in [tag] + s && '\n' !in [tag] + s
  {
  }

  /** The tokens of a deploy line hold no space, so the line splits back
      into them. */
  lemma DeployLineSplits(hand: int, d: nat, force: int, t: int, l: int)
    requires d < 17
    ensures Split(DeployLine(hand, Column(d), force, t, l), ' ') == DeployTokens(hand, Column(d), force, t, l)
  {
    DeployLineIsJoin(hand, Column(d), force, t, l);
    DeployTokensPlain(hand, d, force, t, l);
    SplitFields(DeployTokens(hand, Column(d), force, t, l));
  }

  /** A deploy line as Old/converter.py writes it parses back to its hand,
      force, time and longevity, and to the solenoid of its chord digit. */
  lemma DeployLineParses(hand: int, d: nat, force: int, t: int, l: int)
    requires d < 17
    ensures var line := DeployLine(hand, Column(d), force, t, l);
            CommandOf(line, Release) == Ok(Deploy(line, hand, force, t, l, Solenoids(d)))
  {
    var tokens := DeployTokens(hand, Column(d), force, t, l);
    var line := DeployLine(hand, Column(d), force, t, l);
    DeployLineFields(hand, d, force, t, l);
    DeployOfFields(line, '0', hand, force, t, l, Solenoids(d));
    DeployLineIsJoin(hand, Column(d), force, t, l);
    assert tokens[0] == "d";
    JoinHead(tokens, ' ');
    assert line[0] == 'd';
  }

  /** The fields of a written deploy line read back as its hand, force,
      time and longevity, and its chord as the solenoid of the digit. */
  lemma DeployLineFields(hand: int, d: nat, force: int, t: int, l: int)
    requires d < 17
    ensures var parts := Split(DeployLine(hand, Column(d), force, t, l), ' ');
            && |parts| >= 6 && Field(parts, 1) == Ok(hand) && Field(parts, 3) == Ok(force)
            && Field(parts, 4) == Ok(t) && Field(parts, 5) == Ok(l)
            && ChordValues(Tail(parts[2]), Base18Digits, '0') == Ok(Solenoids(d))
  {
    var tokens := DeployTokens(hand, Column(d), force, t, l);
    DeployLineSplits(hand, d, force, t, l);
    assert tokens == ["d", ['s'] + IntToString(hand), ['n'] + Column(d), ['f'] + IntToString(force),
                      ['t'] + IntToString(t), ['l'] + IntToString(l)];
    FieldAt(tokens, 1, 's', hand);
    FieldAt(tokens, 3, 'f', force);
    FieldAt(tokens, 4, 't', t);
    FieldAt(tokens, 5, 'l', l);
    assert Tail(tokens[2]) == Column(d);
    ColumnDecodes(d);
  }

  /** A tagged integer token reads back as its integer. */
  lemma FieldAt(parts: seq<string>, k: nat, tag: char, n: int)
    requires k < |parts| && parts[k] == [tag] + IntToString(n) && tag != ' ' && tag != '\n'
    ensures Field(parts, k) == Ok(n)
  {
    TaggedField(tag, n);
  }

  /** A joined line starts with the first character of its first part. */
  lemma JoinHead(parts: seq<string>, sep: char)
    requires |parts| >= 1 && |parts[0]| >= 1
    ensures |Join(parts, sep)| >= 1 && Join(parts, sep)[0] == parts[0][0]
  {
  }

  /** DeployOf reads the fields it is given. */
  lemma DeployOfFields(line: string, pad: char, hand: int, force: int, t: int, l: int, locs: seq<nat>)
    requires var parts := Split(line, ' ');
             |parts| >= 6 && Field(parts, 1) == Ok(hand) && Field(parts, 3) == Ok(force) &&
             Field(parts, 4) == Ok(t) && Field(parts, 5) == Ok(l) &&
             ChordValues(Tail(parts[2]), Base18Digits, pad) == Ok(locs)
    ensures DeployOf(line, pad) == Ok(Deploy(line, hand, force, t, l, locs))
  {
  }

  /** The tokens of a move line. */
  function MoveTokens(position: int, t: int, l: int): seq<string> {
    ["h", "s0", "p" + IntToString(position), "t" + IntToString(t), "l" + IntToString(l)]
  }

  /** A move line is its tokens joined by spaces. */
  lemma MoveLineIsJoin(position: int, t: int, l: int)
    ensures MoveLine(position, t, l) == Join(MoveTokens(position, t, l), ' ')
  {
  }

  /** No token of a move line holds a space or a newline. */
  lemma MoveTokensPlain(position: int, t: int, l: int)
    ensures var tokens := MoveTokens(position, t, l);
            |tokens| == 5 && forall i :: 0 <= i < 5 ==> ' ' !in tokens[i] && '\n' !in tokens[i]
  {
    var tokens := MoveTokens(position, t, l);
    TaggedPlain('p', position);
    TaggedPlain('t', t);
    TaggedPlain('l', l);
    assert tokens == ["h", "s0", ['p'] + IntToString(position), ['t'] + IntToString(t), ['l'] + IntToString(l)];
  }

  /** A move line parses back to hand 0 and its position, time and
      longevity, in either dialect. */
  lemma MoveLineParses(position: int, t: int, l: int, dialect: Dialect)
    ensures var line := MoveLine(position, t, l);
            CommandOf(line, dialect) == Ok(Move(line, 0, position, t, l))
  {
    var tokens := MoveTokens(position, t, l);
    var line := MoveLine(position, t, l);
    MoveLineIsJoin(position, t, l);
    MoveTokensPlain(position, t, l);
    SplitFields(tokens);
    assert tokens[2..] == [['p'] + IntToString(position), ['t'] + IntToString(t), ['l'] + IntToString(l)];
    HandZero(tokens);
    FieldAt(tokens, 2, 'p', position);
    FieldAt(tokens, 3, 't', t);
    FieldAt(tokens, 4, 'l', l);
    MoveOfFields(line, 0, position, t, l);
    JoinHead(tokens, ' ');
    assert line[0] == 'h';
    assert FindCommandType('h').Ok?;
  }

  /** The hand token "s0" reads back as hand 0. */
  lemma HandZero(parts: seq<string>)
    requires |parts| >= 2 && parts[1] == "s0"
    ensures Field(parts, 1) == Ok(0)
  {
    assert IntToString(0) == "0";
    assert "s0" == ['s'] + IntToString(0);
    TaggedField('s', 0);
  }

  /** MoveOf reads the fields it is given. */
  lemma MoveOfFields(line: string, hand: int, position: int, t: int, l: int)
    requires var parts := Split(line, ' ');
             Field(parts, 1) == Ok(hand) && Field(parts, 2) == Ok(position) &&
             Field(parts, 3) == Ok(t) && Field(parts, 4) == Ok(l)
    ensures MoveOf(line) == Ok(Move(line, hand, position, t, l))
  {
  }

  /** Neither kind of line holds a newline, so the file splits into them. */
  lemma LinesHaveNoNewline(hand: int, d: nat, force: int, t: int, l: int, position: int)
    requires d < 17
    ensures '\n' !in DeployLine(hand, Column(d), force, t, l)
    ensures '\n' !in MoveLine(position, t, l)
  {
    DeployLineIsJoin(hand, Column(d), force, t, l);
    DeployTokensPlain(hand, d, force, t, l);
    JoinChars(DeployTokens(hand, Column(d), force, t, l), ' ', '\n');
    MoveLineIsJoin(position, t, l);
    MoveTokensPlain(position, t, l);
    JoinChars(MoveTokens(position, t, l), ' ', '\n');
  }

  // ---------------------------------------------------------------------
  // The whole file

  /** The digit a chord column stands for: its symbol's place in the
      base-17 alphabet. */
  function ColumnDigit(s: string): nat
    requires IsColumn(s)
  {
    match IndexOf(Base17Digits, s[0])
    case Ok(d) => d
    case Err(_) => 0
  }

  /** Every column the converter builds is the column of its digit. */
  lemma ColumnOfDigit(s: string)
    requires IsColumn(s)
    ensures ColumnDigit(s) < 17 && s == Column(ColumnDigit(s))
  {
    IndexedColumn(Base17Digits, s);
  }

  /** A column whose symbol is in the alphabet is that symbol's index
      in front of its padding. */
  lemma IndexedColumn(alphabet: seq<char>, s: string)
    requires |s| == 5 && s[0] in alphabet
    ensures var d := IndexOf(alphabet, s[0]);
            d.Ok? && d.value < |alphabet| && s == [alphabet[d.value]] + s[1..]
  {
  }

  /** The deploy lines of the written file, without their newlines. */
  function DeployLines(handedness: int, playNotes: seq<string>, playForce: seq<int>, playDurations: seq<int>,
                       playLongevity: seq<int>): (r: seq<string>)
    requires |playDurations| <= |playNotes| && |playDurations| <= |playForce| && |playDurations| <= |playLongevity|
    ensures |r| == |playDurations|
  {
    seq(|playDurations|, x requires 0 <= x < |playDurations| =>
          DeployLine(handedness, playNotes[x], playForce[x], playDurations[x], playLongevity[x]))
  }

  /** The move lines of the written file, without their newlines. */
  function MoveLines(movePosition: seq<int>, moveDuration: seq<int>, moveLongevity: seq<int>): (r: seq<string>)
    requires |movePosition| <= |moveDuration| && |movePosition| <= |moveLongevity|
    ensures |r| == |movePosition|
  {
    seq(|movePosition|, x requires 0 <= x < |movePosition| =>
          MoveLine(movePosition[x], moveDuration[x], moveLongevity[x]))
  }

  /** What decode.py reads from each deploy line: its hand, force, time
      and longevity, and the solenoid of its chord digit. */
  function WrittenDeploys(handedness: int, playNotes: seq<string>, playForce: seq<int>, playDurations: seq<int>,
                          playLongevity: seq<int>): (r: seq<Command>)
    requires |playDurations| <= |playNotes| && |playDurations| <= |playForce| && |playDurations| <= |playLongevity|
    requires forall x :: 0 <= x < |playDurations| ==> IsColumn(playNotes[x])
    ensures |r| == |playDurations|
  {
    seq(|playDurations|, x requires 0 <= x < |playDurations| =>
          Deploy(DeployLine(handedness, playNotes[x], playForce[x], playDurations[x], playLongevity[x]),
                 handedness, playForce[x], playDurations[x], playLongevity[x], Solenoids(ColumnDigit(playNotes[x]))))
  }

  /** What decode.py reads from each move line: hand 0 and the move's
      position, time and longevity. */
  function WrittenMoves(movePosition: seq<int>, moveDuration: seq<int>, moveLongevity: seq<int>): (r: seq<Command>)
    requires |movePosition| <= |moveDuration| && |movePosition| <= |moveLongevity|
    ensures |r| == |movePosition|
  {
    seq(|movePosition|, x requires 0 <= x < |movePosition| =>
          Move(MoveLine(movePosition[x], moveDuration[x], moveLongevity[x]), 0, movePosition[x], moveDuration[x], moveLongevity[x]))
  }

  /** Each chunk is its line followed by a newline. */
  predicate Terminated(chunks: seq<string>, lines: seq<string>) {
    |chunks| == |lines| && forall x :: 0 <= x < |lines| ==> chunks[x] == lines[x] + "\n"
  }

  lemma TerminatedAppend(da: seq<string>, la: seq<string>, db: seq<string>, lb: seq<string>)
    requires Terminated(da, la) && Terminated(db, lb)
    ensures Terminated(da + db, la + lb)
  {
    forall x | 0 <= x < |la| + |lb| ensures (da + db)[x] == (la + lb)[x] + "\n" {
      if x >= |la| {
        assert (da + db)[x] == db[x - |la|] && (la + lb)[x] == lb[x - |la|];
      }
    }
  }

  /** Terminated lines, then a last line, are the lines joined by
      newlines. */
  lemma {:induction false} TerminatedJoin(chunks: seq<string>, lines: seq<string>, tail: string)
    requires Terminated(chunks, lines)
    ensures Concat(chunks + [tail]) == Join(lines + [tail], '\n')
    decreases |lines|
  {
    if |lines| == 0 {
      assert chunks + [tail] == [tail] && lines + [tail] == [tail];
      assert Concat([tail]) == tail + Concat([]);
    } else {
      var rest, restLines := chunks[1..], lines[1..];
      assert Terminated(rest, restLines) by {
        forall x | 0 <= x < |restLines| ensures rest[x] == restLines[x] + "\n" {
          assert rest[x] == chunks[x + 1] && restLines[x] == lines[x + 1];
        }
      }
      TerminatedJoin(rest, restLines, tail);
      assert (chunks + [tail])[1..] == rest + [tail];
      assert (lines + [tail])[1..] == restLines + [tail];
      assert Concat(chunks + [tail]) == chunks[0] + Concat(rest + [tail]);
      assert Join(lines + [tail], '\n') == lines[0] + ['\n'] + Join(restLines + [tail], '\n');
    }
  }

  /** Chunks that are a head line, lines ending in newlines and a tail
      line are those lines joined by newlines. */
  lemma ChunksJoin(head: string, da: seq<string>, la: seq<string>, db: seq<string>, lb: seq<string>, tail: string)
    requires Terminated(da, la) && Terminated(db, lb)
    ensures Concat([head + "\n"] + da + db + [tail]) == Join([head] + la + lb + [tail], '\n')
  {
    assert Terminated([head + "\n"], [head]);
    TerminatedAppend([head + "\n"], [head], da, la);
    TerminatedAppend([head + "\n"] + da, [head] + la, db, lb);
    TerminatedJoin([head + "\n"] + da + db, [head] + la + lb, tail);
  }

  /** The chunks WritePcode returns are the file's lines joined by
      newlines. */
  lemma WrittenIsJoin(handedness: int, playNotes: seq<string>, playForce: seq<int>, playDurations: seq<int>,
                      playLongevity: seq<int>, movePosition: seq<int>, moveDuration: seq<int>,
                      moveLongevity: seq<int>)
    requires |playDurations| <= |playNotes| && |playDurations| <= |playForce| && |playDurations| <= |playLongevity|
    requires |movePosition| <= |moveDuration| && |movePosition| <= |moveLongevity|
    ensures Concat(["s\n"] + Lines(DeployText(handedness, playNotes, playForce, playDurations, playLongevity), |playDurations|)
                   + Lines(MoveText(movePosition, moveDuration, moveLongevity), |movePosition|) + ["e"])
            == Join(["s"] + DeployLines(handedness, playNotes, playForce, playDurations, playLongevity)
                    + MoveLines(movePosition, moveDuration, moveLongevity) + ["e"], '\n')
  {
    var da := Lines(DeployText(handedness, playNotes, playForce, playDurations, playLongevity), |playDurations|);
    var la := DeployLines(handedness, playNotes, playForce, playDurations, playLongevity);
    var db := Lines(MoveText(movePosition, moveDuration, moveLongevity), |movePosition|);
    var lb := MoveLines(movePosition, moveDuration, moveLongevity);
    assert Terminated(da, la) by {
      forall x | 0 <= x < |la| ensures da[x] == la[x] + "\n" {
        DeployChunkAt(handedness, playNotes, playForce, playDurations, playLongevity, x);
      }
    }
    assert Terminated(db, lb) by {
      forall x | 0 <= x < |lb| ensures db[x] == lb[x] + "\n" {
        MoveChunkAt(movePosition, moveDuration, moveLongevity, x);
      }
    }
    ChunksJoin("s", da, la, db, lb, "e");
    assert "s" + "\n" == "s\n";
  }

  /** No deploy line and no move line holds a newline. */
  lemma WrittenLinesPlain(handedness: int, playNotes: seq<string>, playForce: seq<int>, playDurations: seq<int>,
                          playLongevity: seq<int>, movePosition: seq<int>, moveDuration: seq<int>,
                          moveLongevity: seq<int>)
    requires |playDurations| <= |playNotes| && |playDurations| <= |playForce| && |playDurations| <= |playLongevity|
    requires |movePosition| <= |moveDuration| && |movePosition| <= |moveLongevity|
    requires forall x :: 0 <= x < |playDurations| ==> IsColumn(playNotes[x])
    ensures Plain(DeployLines(handedness, playNotes, playForce, playDurations, playLongevity))
    ensures Plain(MoveLines(movePosition, moveDuration, moveLongevity))
  {
    var la := DeployLines(handedness, playNotes, playForce, playDurations, playLongevity);
    forall x | 0 <= x < |la| ensures '\n' !in la[x] {
      ColumnOfDigit(playNotes[x]);
      LinesHaveNoNewline(handedness, ColumnDigit(playNotes[x]), playForce[x], playDurations[x], playLongevity[x], 0);
    }
    var lb := MoveLines(movePosition, moveDuration, moveLongevity);
    forall x | 0 <= x < |lb| ensures '\n' !in lb[x] {
      LinesHaveNoNewline(handedness, 0, 0, moveDuration[x], moveLongevity[x], movePosition[x]);
    }
  }

  /** No line holds a newline. */
  predicate Plain(lines: seq<string>) {
    forall x :: 0 <= x < |lines| ==> '\n' !in lines[x]
  }

  lemma PlainAppend(la: seq<string>, lb: seq<string>)
    requires Plain(la) && Plain(lb)
    ensures Plain(la + lb)
  {
    forall x | 0 <= x < |la + lb| ensures '\n' !in (la + lb)[x] {
      if x >= |la| {
        assert (la + lb)[x] == lb[x - |la|];
      }
    }
  }

  /** A head line, lines and a tail line without newlines split back out
      of their join. */
  lemma SplitWritten(head: string, la: seq<string>, lb: seq<string>, tail: string)
    requires '\n' !in head && '\n' !in tail && Plain(la) && Plain(lb)
    ensures Split(Join([head] + la + lb + [tail], '\n'), '\n') == [head] + la + lb + [tail]
  {
    PlainAppend([head], la);
    PlainAppend([head] + la, lb);
    PlainAppend([head] + la + lb, [tail]);
    SplitJoin([head] + la + lb + [tail], '\n');
  }

  /** Each deploy line parses to its deploy and each move line to its
      move. */
  lemma WrittenLinesParse(handedness: int, playNotes: seq<string>, playForce: seq<int>, playDurations: seq<int>,
                          playLongevity: seq<int>, movePosition: seq<int>, moveDuration: seq<int>,
                          moveLongevity: seq<int>)
    requires |playDurations| <= |playNotes| && |playDurations| <= |playForce| && |playDurations| <= |playLongevity|
    requires |movePosition| <= |moveDuration| && |movePosition| <= |moveLongevity|
    requires forall x :: 0 <= x < |playDurations| ==> IsColumn(playNotes[x])
    ensures ParseAll(DeployLines(handedness, playNotes, playForce, playDurations, playLongevity), Release)
            == Ok(WrittenDeploys(handedness, playNotes, playForce, playDurations, playLongevity))
    ensures ParseAll(MoveLines(movePosition, moveDuration, moveLongevity), Release)
            == Ok(WrittenMoves(movePosition, moveDuration, moveLongevity))
  {
    var la := DeployLines(handedness, playNotes, playForce, playDurations, playLongevity);
    var ca := WrittenDeploys(handedness, playNotes, playForce, playDurations, playLongevity);
    forall x | 0 <= x < |la| ensures Parser(Release)(la[x]) == Ok(ca[x]) {
      ColumnOfDigit(playNotes[x]);
      DeployLineParses(handedness, ColumnDigit(playNotes[x]), playForce[x], playDurations[x], playLongevity[x]);
    }
    MapResultOfEach(la, Parser(Release), ca);
    var lb := MoveLines(movePosition, moveDuration, moveLongevity);
    var cb := WrittenMoves(movePosition, moveDuration, moveLongevity);
    forall x | 0 <= x < |lb| ensures Parser(Release)(lb[x]) == Ok(cb[x]) {
      MoveLineParses(movePosition[x], moveDuration[x], moveLongevity[x], Release);
    }
    MapResultOfEach(lb, Parser(Release), cb);
  }

  /** The markers parse to themselves. */
  lemma MarkersParse()
    ensures ParseAll(["s"], Release) == Ok([Marker("s", 's')])
    ensures ParseAll(["e"], Release) == Ok([Marker("e", 'e')])
  {
    MapResultOfEach(["s"], Parser(Release), [Marker("s", 's')]);
    MapResultOfEach(["e"], Parser(Release), [Marker("e", 'e')]);
  }

  /** The file Old/converter.py writes (the chunks WritePcode returns, its
      chords built as columns), split into lines and read by decode.py,
      is the start marker, then one deploy per deploy line with its hand,
      force, time, longevity and chord digit, then one move per move line,
      then the end marker. */
  lemma WrittenFileParses(handedness: int, playNotes: seq<string>, playForce: seq<int>, playDurations: seq<int>,
                          playLongevity: seq<int>, movePosition: seq<int>, moveDuration: seq<int>,
                          moveLongevity: seq<int>)
    requires |playDurations| <= |playNotes| && |playDurations| <= |playForce| && |playDurations| <= |playLongevity|
    requires |movePosition| <= |moveDuration| && |movePosition| <= |moveLongevity|
    requires forall x :: 0 <= x < |playDurations| ==> IsColumn(playNotes[x])
    ensures var chunks := ["s\n"] + Lines(DeployText(handedness, playNotes, playForce, playDurations, playLongevity), |playDurations|)
                          + Lines(MoveText(movePosition, moveDuration, moveLongevity), |movePosition|) + ["e"];
            ParseAll(Split(Concat(chunks), '\n'), Release)
            == Ok([Marker("s", 's')] + WrittenDeploys(handedness, playNotes, playForce, playDurations, playLongevity)
                  + WrittenMoves(movePosition, moveDuration, moveLongevity) + [Marker("e", 'e')])
  {
    var la := DeployLines(handedness, playNotes, playForce, playDurations, playLongevity);
    var lb := MoveLines(movePosition, moveDuration, moveLongevity);
    var ca := WrittenDeploys(handedness, playNotes, playForce, playDurations, playLongevity);
    var cb := WrittenMoves(movePosition, moveDuration, moveLongevity);
    WrittenIsJoin(handedness, playNotes, playForce, playDurations, playLongevity, movePosition, moveDuration, moveLongevity);
    WrittenLinesPlain(handedness, playNotes, playForce, playDurations, playLongevity, movePosition, moveDuration, moveLongevity);
    SplitWritten("s", la, lb, "e");
    WrittenLinesParse(handedness, playNotes, playForce, playDurations, playLongevity, movePosition, moveDuration, moveLongevity);
    MarkersParse();
    MapResultAppend(["s"], la, Parser(Release), [Marker("s", 's')], ca);
    MapResultAppend(["s"] + la, lb, Parser(Release), [Marker("s", 's')] + ca, cb);
    MapResultAppend(["s"] + la + lb, ["e"], Parser(Release), [Marker("s", 's')] + ca + cb, [Marker("e", 'e')]);
  }
}
