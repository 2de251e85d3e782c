/** The legacy compiler's input stage (Old/converter.py): the hand letter
    and the note tokens "<duration>/<name>" of a score file. */
module LegacyParse {
  import opened Common
  import opened LegacyTable

  /** The hand the score is for: 0 for "R", 1 for "L"; anything else
      makes the script exit. */
  function Handedness(hand: string): (r: Result<int>)
    ensures r.Ok? <==> hand == "R" || hand == "L"
    ensures r.Ok? ==> (r.value == 0 <==> hand == "R") && (r.value == 1 <==> hand == "L")
    ensures r.Err? ==> r.error == Exit
  {
    if hand == "R" then Ok(0)
    else if hand == "L" then Ok(1)
    else Err(Exit)
  }

  /** The characters Python's `str.strip()` removes in ASCII text. */
  predicate IsSpace(c: char) {
    c == ' ' || c == '\t' || c == '\n' || c == '\r' || c == '\U{0B}' || c == '\U{0C}'
  }

  /** `s.strip()`. */
  function Strip(s: string): (r: string)
    ensures |r| <= |s|
    ensures |r| > 0 ==> !IsSpace(r[0]) && !IsSpace(r[|r| - 1])
    ensures (|s| == 0 || (!IsSpace(s[0]) && !IsSpace(s[|s| - 1]))) ==> r == s
    decreases |s|
  {
    if |s| > 0 && IsSpace(s[0]) then Strip(s[1..])
    else if |s| > 0 && IsSpace(s[|s| - 1]) then Strip(s[..|s| - 1])
    else s
  }

  /** One parsed note token: the duration text, the key place, and the
      sharp and rest flags. */
  datatype NoteValue = NoteValue(duration: string, place: int, sharp: int, rest: int, noteType: int)

  /** The parse of one token (Old/converter.py:345-370). The text after the
      first "/" names a key; an "S" in it marks a sharp and the middle
      character is dropped ("CS4" is C4 sharp); an "R" in what remains marks
      a rest. For the right hand a sharp moves the place one up. A token
      without "/" or a sharp name shorter than three characters raises
      IndexError; an unknown name or a duration that is not an integer
      raises ValueError. */
  function ParseToken(note: string, handedness: int): (r: Result<NoteValue>)
  {
    var value := Split(note, '/');
    if |value| < 2 then Err(IndexError)
    else if 'S' in value[1] && |value[1]| < 3 then Err(IndexError)
    else
      var sharp := if 'S' in value[1] then 1 else 0;
      var name := KeyText(value[1]);
      var rest := if 'R' in name then 1 else 0;
      match IndexOf(Positions(), Strip(name))
      case Err(e) => Err(e)
      case Ok(place) =>
        match ParseInt(value[0])
        case Err(e) => Err(e)
        case Ok(n) => Ok(NoteValue(value[0], if handedness == 0 then place + sharp else place, sharp, rest, n))
  }

  /** What a successful parse means: the duration is the text before the
      first "/" and parses as an integer; the sharp flag is set exactly when
      the key text holds an "S"; and the place, less the right hand's sharp
      shift, is the index of the (stripped) key name. */
  lemma ParseTokenMeaning(note: string, handedness: int)
    ensures var r := ParseToken(note, handedness);
      r.Ok? ==> var v := r.value; var parts := Split(note, '/');
      && |parts| >= 2
      && v.duration == parts[0]
      && ParseInt(parts[0]) == Ok(v.noteType)
      && (v.sharp == 1 <==> 'S' in parts[1]) && (v.sharp == 0 <==> 'S' !in parts[1])
      && (v.rest == 1 <==> 'R' in KeyText(parts[1])) && (v.rest == 0 <==> 'R' !in KeyText(parts[1]))
      && var shift := if handedness == 0 then v.sharp else 0;
         0 <= v.place - shift < NameCount && Positions()[v.place - shift] == Strip(KeyText(parts[1]))
    ensures |Split(note, '/')| < 2 ==> ParseToken(note, handedness) == Err(IndexError)
  {
    var value := Split(note, '/');
    var r := ParseToken(note, handedness);
    if |value| >= 2 && r.Ok? {
      var name := KeyText(value[1]);
      var found := IndexOf(Positions(), Strip(name));
      assert found.Ok?;
      var place := found.value;
      assert Positions()[place] == Strip(name);
      var shift := if handedness == 0 then r.value.sharp else 0;
      assert r.value.place - shift == place;
    }
  }

  /** The key text of a token after the sharp marker is taken out. */
  function KeyText(t: string): string {
    if 'S' in t && |t| >= 3 then [t[0], t[2]] else t
  }

  /** What the parsing loop leaves behind: `sharp`, `rest`, `values` and
      `allValues`, one entry per token. */
  datatype Parsed = Parsed(sharp: seq<int>, rest: seq<int>, values: seq<NoteValue>, allValues: seq<int>)

  /** The parsing loop over all note tokens: the first failing token's
      error, or every token parsed in order. */
  method ParseTokens(playable: seq<string>, handedness: int) returns (r: Result<Parsed>)
    ensures r.Ok? <==> forall i :: 0 <= i < |playable| ==> ParseToken(playable[i], handedness).Ok?
    ensures r.Err? ==> exists i :: 0 <= i < |playable| && ParseToken(playable[i], handedness) == Err(r.error)
                         && forall k :: 0 <= k < i ==> ParseToken(playable[k], handedness).Ok?
    ensures r.Ok? ==> var p := r.value;
      && |p.values| == |playable|
      && (forall i :: 0 <= i < |playable| ==> ParseToken(playable[i], handedness) == Ok(p.values[i]))
      && Columns(p)
  {
    var sharp: seq<int> := [];
    var rest: seq<int> := [];
    var values: seq<NoteValue> := [];
    var allValues: seq<int> := [];
    for x := 0 to |playable|
      invariant |values| == x
      invariant forall i :: 0 <= i < x ==> ParseToken(playable[i], handedness) == Ok(values[i])
      invariant Columns(Parsed(sharp, rest, values, allValues))
    {
      var parsed := ParseToken(playable[x], handedness);
      if parsed.Err? {
        assert forall k :: 0 <= k < x ==> ParseToken(playable[k], handedness).Ok?;
        return Err(parsed.error);
      }
      var v := parsed.value;
      ColumnsAppend(Parsed(sharp, rest, values, allValues), v);
      sharp := sharp + [v.sharp];
      rest := rest + [v.rest];
      values := values + [v];
      allValues := allValues + [v.noteType];
    }
    return Ok(Parsed(sharp, rest, values, allValues));
  }

  /** `sharp`, `rest` and `allValues` are the columns of `values`. */
  predicate Columns(p: Parsed) {
    && |p.sharp| == |p.rest| == |p.allValues| == |p.values|
    && forall i :: 0 <= i < |p.values| ==>
         p.sharp[i] == p.values[i].sharp && p.rest[i] == p.values[i].rest && p.allValues[i] == p.values[i].noteType
  }

  /** Appending a parsed value to all four lists keeps them columns. */
  lemma ColumnsAppend(p: Parsed, v: NoteValue)
    requires Columns(p)
    ensures Columns(Parsed(p.sharp + [v.sharp], p.rest + [v.rest], p.values + [v], p.allValues + [v.noteType]))
  {
  }

  // ---------------------------------------------------------------------
  // Writing a token and reading it back

  /** The token for a white key (index p below the rest marker), possibly
      marked sharp, with an integer duration. */
  function FormatToken(noteType: int, p: nat, sharp: bool): (t: string)
    requires p < NameCount - 1
  {
    var name := NameAt(p);
    IntToString(noteType) + "/" + (if sharp then [name[0], 'S', name[1]] else name)
  }

  lemma LetterDistinct(a: nat, b: nat)
    requires a < 7 && b < 7 && "ABCDEFG"[a] == "ABCDEFG"[b]
    ensures a == b
  {
  }

  /** The names are distinct, so `positions.index` finds each one at its
      own index. */
  lemma NamesDistinct(i: nat, j: nat)
    requires i < NameCount && j < NameCount && NameAt(i) == NameAt(j)
    ensures i == j
  {
    if i < 52 && j < 52 {
      LetterDistinct(i % 7, j % 7);
      assert DigitChar((i + 5) / 7) == DigitChar((j + 5) / 7);
      assert (i + 5) / 7 == (j + 5) / 7;
      assert i == 7 * (i / 7) + i % 7;
      assert j == 7 * (j / 7) + j % 7;
    }
  }

  lemma IndexOfName(p: nat)
    requires p < NameCount
    ensures IndexOf(Positions(), NameAt(p)) == Ok(p)
  {
    var r := IndexOf(Positions(), NameAt(p));
    assert Positions()[p] == NameAt(p);
    if r.value != p {
      NamesDistinct(r.value, p);
    }
  }

  /** Reading back a written token gives its key, duration and sharp flag:
      the place is the key's index, one more for a right-hand sharp. */
  lemma ParseFormatToken(noteType: int, p: nat, sharp: bool, handedness: int)
    requires p < NameCount - 1
    ensures var s := if sharp then 1 else 0;
            ParseToken(FormatToken(noteType, p, sharp), handedness)
              == Ok(NoteValue(IntToString(noteType), if handedness == 0 then p + s else p, s, 0, noteType))
  {
    var name := NameAt(p);
    var key := if sharp then [name[0], 'S', name[1]] else name;
    FormatTokenSplit(noteType, p, sharp);
    KeyTextOfName(p, sharp);
    IndexOfName(p);
    ParseIntToString(noteType);
  }

  /** A written token splits at "/" into its duration and key texts. */
  lemma FormatTokenSplit(noteType: int, p: nat, sharp: bool)
    requires p < NameCount - 1
    ensures var name := NameAt(p);
            Split(FormatToken(noteType, p, sharp), '/') ==
            [IntToString(noteType), if sharp then [name[0], 'S', name[1]] else name]
  {
    var name := NameAt(p);
    var key := if sharp then [name[0], 'S', name[1]] else name;
    var d := IntToString(noteType);
    assert '/' !in d;
    assert '/' !in key;
    SplitJoin([d, key], '/');
    assert Join([d, key], '/') == FormatToken(noteType, p, sharp);
  }

  /** The key text of a written key holds an "S" exactly when it is
      sharp, and without the sharp marker it is the name, with no "R". */
  lemma KeyTextOfName(p: nat, sharp: bool)
    requires p < NameCount - 1
    ensures var name := NameAt(p);
            var key := if sharp then [name[0], 'S', name[1]] else name;
            && ('S' in key <==> sharp)
            && (if 'S' in key then [key[0], key[2]] else key) == name
            && 'R' !in name
            && Strip(name) == name
  {
    var name := NameAt(p);
    assert |name| == 2 && 'S' !in name && 'R' !in name;
  }
}
