/** The replay simulator of frame.py: a picture of the keyboard in three
    text lines (solenoids above, black keys and white solenoids in the
    middle, white keys below), a hand of seventeen solenoids that sits at
    a rail position, and a loop that replays the time-ordered pcode
    commands into a list of captured pictures. */
module Frame {
  import opened Common
  import Decode

  const KeyCount := 76
  const ScreenOffset := 89 - KeyCount
  /** The number of columns of each picture line. */
  const LineWidth := KeyCount + ScreenOffset
  const TopRowOffset := 9
  const KeyWidth := 22
  const SolenoidCount := 17
  /** The white and the black solenoids of the hand. */
  const WhiteCount := 9
  const BlackCount := 8
  const InitialHandPosition := 0
  /** The even columns 0 to 88, and the odd columns 1 to 89. */
  const ColumnPairs := 45

  const ClosedSolenoid: char := '\U{03A6}'
  const OpenSolenoid: char := '\U{039F}'
  const KeyMark: char := '\U{203E}'
  const DepressKey: char := '\U{2534}'
  const DepressBlankKey: char := '|'

  // ---------------------------------------------------------------------
  // The index lists of `setup`

  /** `white_keys_index` and `white_solenoid_index`: the even columns. */
  function WhiteIndex(): seq<int> {
    seq(ColumnPairs, i => 2 * i)
  }

  /** `black_solenoid_index`: the odd columns. */
  function BlackSolenoidIndex(): seq<int> {
    seq(ColumnPairs, i => 2 * i + 1)
  }

  /** The reading of the `missingKey` counter at the k-th odd column: it
      starts at 2 and counts modulo 7. */
  function Counter(k: int): int {
    (k + 2) % 7
  }

  /** The counter steps by one and wraps from 6 to 0. */
  lemma CounterStep(k: int)
    ensures Counter(k + 1) == if Counter(k) == 6 then 0 else Counter(k) + 1
  {
  }

  /** Whether the k-th odd column carries a black key: the columns where
      the counter reads 2 or 6 are the gaps of the keyboard (B-C and E-F). */
  predicate HasBlackKey(k: int) {
    Counter(k) != 2 && Counter(k) != 6
  }

  /** The black-key columns among the first n odd columns. */
  function BlackKeyColumns(n: nat): (r: seq<int>)
    ensures n >= 2 ==> |r| > 0
  {
    if n == 0 then []
    else BlackKeyColumns(n - 1) + (if HasBlackKey(n - 1) then [2 * (n - 1) + 1] else [])
  }

  /** `black_keys_index`: the black-key columns of all 45 odd columns,
      with the last one popped. */
  function BlackKeysIndex(): seq<int> {
    var c := BlackKeyColumns(ColumnPairs);
    c[..|c| - 1]
  }

  /** `setup`: one pass over the columns 0 to 89 with the seven-step
      counter. */
  method Setup() returns (whiteKeys: seq<int>, blackKeys: seq<int>, whiteSolenoids: seq<int>,
                          blackSolenoids: seq<int>)
    ensures whiteKeys == WhiteIndex() && whiteSolenoids == WhiteIndex()
    ensures blackSolenoids == BlackSolenoidIndex() && blackKeys == BlackKeysIndex()
  {
    var missingKey := 2;
    ghost var k := 0;
    whiteKeys, blackKeys, whiteSolenoids, blackSolenoids := [], [], [], [];
    for x := 0 to KeyCount + ScreenOffset + 1
      invariant x == 2 * k || x == 2 * k + 1
      invariant whiteKeys == seq(x - k, i => 2 * i) && whiteSolenoids == whiteKeys
      invariant blackSolenoids == seq(k, i => 2 * i + 1)
      invariant blackKeys == BlackKeyColumns(k)
      invariant missingKey == Counter(k)
    {
      if x % 2 == 1 {
        CounterStep(k);
        blackSolenoids := blackSolenoids + [x];
        if missingKey != 2 && missingKey != 6 {
          blackKeys := blackKeys + [x];
        }
        missingKey := missingKey + 1;
        if missingKey == 7 {
          missingKey := 0;
        }
        k := k + 1;
      } else {
        whiteKeys := whiteKeys + [x];
        whiteSolenoids := whiteSolenoids + [x];
      }
    }
    assert k == ColumnPairs;
    blackKeys := blackKeys[..|blackKeys| - 1];
  }

  /** A column holds a black key exactly when it is odd, at most 87, and
      the counter does not read 2 or 6 there. */
  lemma {:induction false} BlackKeyColumnsMembers(n: nat, x: int)
    ensures x in BlackKeyColumns(n) <==> x % 2 == 1 && 0 <= (x - 1) / 2 < n && HasBlackKey((x - 1) / 2)
    decreases n
  {
    if n > 0 {
      BlackKeyColumnsMembers(n - 1, x);
      OddColumn(x, n - 1);
    }
  }

  /** Column x is the j-th odd column. */
  lemma OddColumn(x: int, j: int)
    ensures x == 2 * j + 1 <==> x % 2 == 1 && (x - 1) / 2 == j
  {
  }

  /** The black keys are the odd columns up to 87 whose counter reading
      is neither 2 nor 6. */
  lemma BlackKeysMembers(x: int)
    ensures x in BlackKeysIndex() <==> x % 2 == 1 && 1 <= x <= 87 && HasBlackKey((x - 1) / 2)
  {
    LastBlackKeyPopped();
    BlackKeyColumnsMembers(44, x);
    if x % 2 == 1 {
      assert x == 2 * ((x - 1) / 2) + 1;
    }
  }

  /** The popped column is the last odd column, 89. */
  lemma LastBlackKeyPopped()
    ensures BlackKeysIndex() == BlackKeyColumns(44)
  {
    assert HasBlackKey(44);
  }

  /** 45 white and 31 black keys: the 76 keys of the keyboard. */
  lemma KeysOfKeyboard()
    ensures |WhiteIndex()| + |BlackKeysIndex()| == KeyCount
  {
    LastBlackKeyPopped();
    BlackKeyColumnsCount(44);
  }

  /** The counter reads 2 or 6 at the odd columns 0 and 4 of each seven. */
  lemma HasBlackKeyCycle(k: int)
    ensures HasBlackKey(k) <==> k % 7 != 0 && k % 7 != 4
  {
    assert Counter(k) == (k % 7 + 2) % 7;
  }

  /** The black keys among the first r odd columns of a cycle of seven. */
  function CycleBlackKeys(r: nat): nat
    requires r < 7
  {
    if r <= 1 then 0 else if r <= 4 then r - 1 else r - 2
  }

  /** Of every seven odd columns, five hold black keys. */
  lemma {:induction false} BlackKeyColumnsCount(n: nat)
    ensures |BlackKeyColumns(n)| == 5 * (n / 7) + CycleBlackKeys(n % 7)
    decreases n
  {
    if n > 0 {
      var m := n - 1;
      BlackKeyColumnsCount(m);
      HasBlackKeyCycle(m);
      if m % 7 == 6 {
        assert n / 7 == m / 7 + 1 && n % 7 == 0;
      } else {
        assert n / 7 == m / 7 && n % 7 == m % 7 + 1;
      }
    }
  }

  // ---------------------------------------------------------------------
  // Pictures and the writes that change them

  /** A deep copy of the piano state: the hand's solenoid columns, its rail
      position, the time of the picture, and the three picture lines. */
  datatype Snapshot = Snapshot(solenoids: seq<Option<int>>, position: int, time: real,
                               top: string, middle: string, bottom: string)

  /** Seventeen solenoid slots and three lines of full width. */
  predicate WellFormed(p: Snapshot) {
    |p.solenoids| == SolenoidCount && |p.top| == LineWidth && |p.middle| == LineWidth && |p.bottom| == LineWidth
  }

  /** The writes `xs[i] = v` one operation makes, list by list, in the
      order it makes them. */
  datatype Writes = Writes(top: seq<(nat, char)>, middle: seq<(nat, char)>, bottom: seq<(nat, char)>,
                           slots: seq<(nat, Option<int>)>)

  const NoWrites := Writes([], [], [], [])

  /** The writes of a, then those of b. */
  function Then(a: Writes, b: Writes): Writes {
    Writes(a.top + b.top, a.middle + b.middle, a.bottom + b.bottom, a.slots + b.slots)
  }

  /** The list xs after the writes ws, in order; a write past the end
      changes nothing. */
  function Written<T>(xs: seq<T>, ws: seq<(nat, T)>): (r: seq<T>)
    ensures |r| == |xs|
    decreases |ws|
  {
    if |ws| == 0 then xs
    else
      var before := Written(xs, ws[..|ws| - 1]);
      var w := ws[|ws| - 1];
      if w.0 < |before| then before[w.0 := w.1] else before
  }

  /** A picture after a set of writes. */
  function Apply(p: Snapshot, w: Writes): (r: Snapshot)
    ensures WellFormed(p) ==> WellFormed(r)
  {
    p.(top := Written(p.top, w.top), middle := Written(p.middle, w.middle), bottom := Written(p.bottom, w.bottom),
       solenoids := Written(p.solenoids, w.slots))
  }

  /** A place no write touches keeps its value. */
  lemma {:induction false} WrittenElsewhere<T>(xs: seq<T>, ws: seq<(nat, T)>, i: nat)
    requires i < |xs| && forall j :: 0 <= j < |ws| ==> ws[j].0 != i
    ensures Written(xs, ws)[i] == xs[i]
    decreases |ws|
  {
    if |ws| > 0 {
      WrittenElsewhere(xs, ws[..|ws| - 1], i);
    }
  }

  /** A place that some write touches, and that every write touching it
      gives the value v, holds v. */
  lemma {:induction false} WrittenHere<T>(xs: seq<T>, ws: seq<(nat, T)>, i: nat, v: T)
    requires i < |xs|
    requires exists j :: 0 <= j < |ws| && ws[j].0 == i
    requires forall j :: 0 <= j < |ws| && ws[j].0 == i ==> ws[j].1 == v
    ensures Written(xs, ws)[i] == v
    decreases |ws|
  {
    var n := |ws|;
    if ws[n - 1].0 != i {
      var j :| 0 <= j < n && ws[j].0 == i;
      assert ws[..n - 1][j] == ws[j];
      WrittenHere(xs, ws[..n - 1], i, v);
    }
  }

  /** When write j goes to place j, place i holds the value of write i. */
  lemma {:induction false} WrittenInOrder<T>(xs: seq<T>, ws: seq<(nat, T)>, i: nat)
    requires i < |xs| && i < |ws| && forall j :: 0 <= j < |ws| ==> ws[j].0 == j
    ensures Written(xs, ws)[i] == ws[i].1
    decreases |ws|
  {
    if i < |ws| - 1 {
      WrittenInOrder(xs, ws[..|ws| - 1], i);
    }
  }

  /** Writing a then b is writing their concatenation. */
  lemma {:induction false} WrittenThen<T>(xs: seq<T>, a: seq<(nat, T)>, b: seq<(nat, T)>)
    ensures Written(xs, a + b) == Written(Written(xs, a), b)
    decreases |b|
  {
    if |b| == 0 {
      assert a + b == a;
    } else {
      assert (a + b)[..|a + b| - 1] == a + b[..|b| - 1];
      WrittenThen(xs, a, b[..|b| - 1]);
    }
  }

  /** Applying a then b is applying their concatenation. */
  lemma ApplyThen(p: Snapshot, a: Writes, b: Writes)
    ensures Apply(p, Then(a, b)) == Apply(Apply(p, a), b)
  {
    WrittenThen(p.top, a.top, b.top);
    WrittenThen(p.middle, a.middle, b.middle);
    WrittenThen(p.bottom, a.bottom, b.bottom);
    WrittenThen(p.solenoids, a.slots, b.slots);
  }

  /** The writes of f on every element of xs in turn, or the first
      element's error. */
  function Collect<X>(xs: seq<X>, f: X -> Result<Writes>): (r: Result<Writes>)
    decreases |xs|
  {
    if |xs| == 0 then Ok(NoWrites)
    else
      var before :- Collect(xs[..|xs| - 1], f);
      var last :- f(xs[|xs| - 1]);
      Ok(Then(before, last))
  }

  /** Once an element fails, every longer prefix fails with its error. */
  lemma {:induction false} CollectError<X>(xs: seq<X>, f: X -> Result<Writes>, m: nat, n: nat)
    requires m <= n <= |xs| && Collect(xs[..m], f).Err?
    ensures Collect(xs[..n], f) == Collect(xs[..m], f)
    decreases n
  {
    if m < n {
      CollectError(xs, f, m, n - 1);
      assert xs[..n][..n - 1] == xs[..n - 1];
    }
  }

  /** One more element: its writes follow those before it. */
  lemma CollectStep<X>(xs: seq<X>, f: X -> Result<Writes>, n: nat)
    requires n < |xs|
    ensures Collect(xs[..n + 1], f) ==
            match Collect(xs[..n], f)
            case Err(e) => Err(e)
            case Ok(w) => (match f(xs[n]) case Err(e) => Err(e) case Ok(v) => Ok(Then(w, v)))
  {
    assert xs[..n + 1][..n] == xs[..n];
  }

  /** An element that succeeds extends the collected writes. */
  lemma CollectOk<X>(xs: seq<X>, f: X -> Result<Writes>, n: nat, acc: Writes, w: Writes)
    requires n < |xs| && Collect(xs[..n], f) == Ok(acc) && f(xs[n]) == Ok(w)
    ensures Collect(xs[..n + 1], f) == Ok(Then(acc, w))
  {
    assert xs[..n + 1][..n] == xs[..n];
  }

  /** An element that raises, after the ones before it succeeded, makes
      the whole walk raise its error. */
  lemma CollectRaises<X>(xs: seq<X>, f: X -> Result<Writes>, n: nat, e: Error)
    requires n < |xs| && Collect(xs[..n], f).Ok? && f(xs[n]) == Err(e)
    ensures Collect(xs, f) == Err(e)
  {
    assert xs[..n + 1][..n] == xs[..n];
    CollectError(xs, f, n + 1, |xs|);
    assert xs[..|xs|] == xs;
  }

  /** Writing one more set of writes onto a picture. */
  lemma ApplyStep(p: Snapshot, acc: Writes, w: Writes, q: Snapshot)
    requires q == Apply(p, acc)
    ensures Apply(p, Then(acc, w)) == Apply(q, w)
  {
    ApplyThen(p, acc, w);
  }

  /** The picture after at most one write per line and no slot write. */
  lemma ApplyLines(q: Snapshot, w: Writes)
    requires |w.top| <= 1 && |w.middle| <= 1 && |w.bottom| <= 1 && w.slots == []
    requires |w.top| == 1 ==> w.top[0].0 < |q.top|
    requires |w.middle| == 1 ==> w.middle[0].0 < |q.middle|
    requires |w.bottom| == 1 ==> w.bottom[0].0 < |q.bottom|
    ensures Apply(q, w) ==
            q.(top := if |w.top| == 1 then q.top[w.top[0].0 := w.top[0].1] else q.top,
               middle := if |w.middle| == 1 then q.middle[w.middle[0].0 := w.middle[0].1] else q.middle,
               bottom := if |w.bottom| == 1 then q.bottom[w.bottom[0].0 := w.bottom[0].1] else q.bottom)
  {
    if |w.top| == 1 {
      assert w.top == [w.top[0]];
      WrittenOne(q.top, w.top[0].0, w.top[0].1);
    }
    if |w.middle| == 1 {
      assert w.middle == [w.middle[0]];
      WrittenOne(q.middle, w.middle[0].0, w.middle[0].1);
    }
    if |w.bottom| == 1 {
      assert w.bottom == [w.bottom[0]];
      WrittenOne(q.bottom, w.bottom[0].0, w.bottom[0].1);
    }
  }

  /** The picture lines, to speak of the writes to one of them. */
  datatype Row = Top | Middle | Bottom

  function LineWrites(w: Writes, row: Row): seq<(nat, char)> {
    match row
    case Top => w.top
    case Middle => w.middle
    case Bottom => w.bottom
  }

  /** The collected writes succeed exactly when every element's do. */
  lemma {:induction false} CollectSucceeds<X>(xs: seq<X>, f: X -> Result<Writes>)
    ensures Collect(xs, f).Ok? <==> forall i :: 0 <= i < |xs| ==> f(xs[i]).Ok?
    ensures Collect(xs, f).Err? ==> exists i :: 0 <= i < |xs| && f(xs[i]) == Err(Collect(xs, f).error)
    decreases |xs|
  {
    if |xs| > 0 {
      var init := xs[..|xs| - 1];
      CollectSucceeds(init, f);
      if Collect(init, f).Err? {
        var i :| 0 <= i < |init| && f(init[i]) == Err(Collect(init, f).error);
        assert xs[i] == init[i];
      } else {
        forall i | 0 <= i < |init| ensures f(xs[i]).Ok? {
          assert xs[i] == init[i];
        }
      }
    }
  }

  /** Every write to a line comes from one element, and every write of
      every element is there. */
  lemma {:induction false} CollectLine<X>(xs: seq<X>, f: X -> Result<Writes>, row: Row)
    requires Collect(xs, f).Ok?
    ensures forall w :: w in LineWrites(Collect(xs, f).value, row) ==>
              exists i :: 0 <= i < |xs| && f(xs[i]).Ok? && w in LineWrites(f(xs[i]).value, row)
    ensures forall i, w :: 0 <= i < |xs| && f(xs[i]).Ok? && w in LineWrites(f(xs[i]).value, row) ==>
              w in LineWrites(Collect(xs, f).value, row)
    decreases |xs|
  {
    if |xs| > 0 {
      var init := xs[..|xs| - 1];
      CollectLine(init, f, row);
      var before := Collect(init, f).value;
      var last := f(xs[|xs| - 1]).value;
      assert LineWrites(Then(before, last), row) == LineWrites(before, row) + LineWrites(last, row);
      forall i | 0 <= i < |init| ensures xs[i] == init[i] {
      }
    }
  }

  /** `lst[v]` for a list of n elements: the position read, or IndexError. */
  function At(n: nat, v: int): (r: Result<nat>)
    ensures r.Ok? <==> -(n as int) <= v < n
    ensures r.Ok? ==> r.value < n && r.value == (if v < 0 then v + n else v)
    ensures r.Err? ==> r.error == IndexError
  {
    var i := PyIndex(n, v);
    if i.None? then Err(IndexError) else Ok(i.value)
  }

  /** The slot value as a list index: None raises TypeError. */
  function Slot(s: Option<int>): (r: Result<int>)
    ensures r.Ok? <==> s.Some?
    ensures r.Err? ==> r.error == TypeError
    ensures r.Ok? ==> r.value == s.value
  {
    if s.None? then Err(TypeError) else Ok(s.value)
  }

  /** The indices 0 to n - 1, as `range(n)` walks them. */
  function Range(n: nat): (r: seq<nat>)
    ensures |r| == n && forall i :: 0 <= i < n ==> r[i] == i
  {
    seq(n, i => i)
  }

  // ---------------------------------------------------------------------
  // The PianoFrame operations, as functions of the picture

  /** A column of the index lists read with a Python index that stayed in
      range (negative ones count from the end). */
  function Wrap(v: int): int {
    if v < 0 then v + 45 else v
  }

  /** Step x of the first loop of `populate_hand`: white solenoid x goes
      to `white_solenoid_index[x + location]`, whose middle-line column
      shows a closed solenoid. */
  function WhiteAt(location: int, x: nat): (r: Result<Writes>) {
    var k :- At(|WhiteIndex()|, x + location);
    var w := WhiteIndex()[k];
    var c :- At(LineWidth, w);
    Ok(Writes([], [(c, ClosedSolenoid)], [], [(x, Some(w))]))
  }

  /** Step x of the second loop: black solenoid x, in slot x + 9, goes to
      `black_solenoid_index[x + location]`, shown on the top line. */
  function BlackAt(location: int, x: nat): (r: Result<Writes>) {
    var k :- At(|BlackSolenoidIndex()|, x + location);
    var b := BlackSolenoidIndex()[k];
    var c :- At(LineWidth, b);
    Ok(Writes([(c, ClosedSolenoid)], [], [], [(x + TopRowOffset, Some(b))]))
  }

  function WhiteOf(location: int): nat -> Result<Writes> {
    (x: nat) => WhiteAt(location, x)
  }

  function BlackOf(location: int): nat -> Result<Writes> {
    (x: nat) => BlackAt(location, x)
  }

  /** `populate_hand(location)`: the hand moves to the location, then the
      nine white and eight black solenoids take their columns. */
  function Populated(p: Snapshot, location: int): (r: Result<Snapshot>)
    ensures r.Ok? && WellFormed(p) ==> WellFormed(r.value)
  {
    var w :- HandWrites(location);
    Ok(Apply(p.(position := location), w))
  }

  /** The writes of the two loops of `populate_hand`. */
  function HandWrites(location: int): (r: Result<Writes>) {
    var whites :- Collect(Range(WhiteCount), WhiteOf(location));
    var blacks :- Collect(Range(BlackCount), BlackOf(location));
    Ok(Then(whites, blacks))
  }

  /** Step of `clear_hand` for one slot: an odd column is blanked on the
      top line, an even one on the middle line; an empty slot raises
      TypeError (`None % 2`). */
  function ClearAt(s: Option<int>): (r: Result<Writes>) {
    var v :- Slot(s);
    var c :- At(LineWidth, v);
    if v % 2 == 1 then Ok(Writes([(c, ' ')], [], [], [])) else Ok(Writes([], [(c, ' ')], [], []))
  }

  /** `clear_hand`: every solenoid column blanked, then all slots empty. */
  function Cleared(p: Snapshot): (r: Result<Snapshot>) {
    var w :- Collect(p.solenoids, ClearAt);
    Ok(Apply(p, w).(solenoids := seq(SolenoidCount, _ => None)))
  }

  /** Step of `actuate` for one solenoid index: a white solenoid (below 9)
      depresses its key on the bottom line and opens on the middle line; a
      black one (9 to 16) depresses its key, or shows a blank key where
      the column has none, and opens on the top line; 17 and above raise
      ValueError. */
  function ActuateAt(slots: seq<Option<int>>, sol: int): (r: Result<Writes>) {
    if sol < 9 then
      var j :- At(|slots|, sol);
      var v :- Slot(slots[j]);
      var c :- At(LineWidth, v);
      Ok(Writes([], [(c, OpenSolenoid)], [(c, DepressKey)], []))
    else if sol < 17 then
      var j :- At(|slots|, sol);
      var v :- Slot(slots[j]);
      var c :- At(LineWidth, v);
      Ok(Writes([(c, OpenSolenoid)], [(c, if v in BlackKeysIndex() then DepressKey else DepressBlankKey)], [], []))
    else Err(ValueError)
  }

  function ActuateOf(slots: seq<Option<int>>): int -> Result<Writes> {
    sol => ActuateAt(slots, sol)
  }

  /** `actuate(solenoid_locations, frame_time)`. */
  function Actuated(p: Snapshot, locations: seq<int>, t: real): (r: Result<Snapshot>) {
    var w :- Collect(locations, ActuateOf(p.solenoids));
    Ok(Apply(p, w).(time := t))
  }

  /** The list with each element paired with its index, as `enumerate`. */
  function Enumerate<T>(xs: seq<T>): (r: seq<(nat, T)>)
    ensures |r| == |xs| && forall i :: 0 <= i < |xs| ==> r[i] == (i, xs[i])
  {
    seq(|xs|, i requires 0 <= i < |xs| => (i, xs[i]))
  }

  /** Step of `retract` for slot i: a white solenoid shows its key again
      and closes; a black one shows its key (or a blank) and closes on
      the top line. */
  function RetractAt(slot: (nat, Option<int>)): (r: Result<Writes>) {
    if slot.0 < 9 then
      var v :- Slot(slot.1);
      var c :- At(LineWidth, v);
      Ok(Writes([], [(c, ClosedSolenoid)], [(c, KeyMark)], []))
    else if slot.0 < 17 then
      var v :- Slot(slot.1);
      var c :- At(LineWidth, v);
      Ok(Writes([(c, ClosedSolenoid)], [(c, if v in BlackKeysIndex() then KeyMark else ' ')], [], []))
    else Ok(NoWrites)
  }

  /** `retract(frame_time)`. */
  function Retracted(p: Snapshot, t: real): (r: Result<Snapshot>) {
    var w :- Collect(Enumerate(p.solenoids), RetractAt);
    Ok(Apply(p, w).(time := t))
  }

  /** `shift_hand(keys_shift, frame_time)`: clear, repopulate the shifted
      position, stamp the time. */
  function Shifted(p: Snapshot, keysShift: int, t: real): (r: Result<Snapshot>) {
    var q :- Cleared(p);
    var h :- Populated(q, keysShift + q.position);
    Ok(h.(time := t))
  }

  /** Once the hand is cleared, `shift_hand` is the population at the
      shifted position, stamped with the time. */
  lemma ShiftedAfterClear(p: Snapshot, keysShift: int, t: real, q: Snapshot)
    requires Cleared(p) == Ok(q)
    ensures Populated(q, keysShift + q.position).Err? ==>
              Shifted(p, keysShift, t) == Err(Populated(q, keysShift + q.position).error)
    ensures Populated(q, keysShift + q.position).Ok? ==>
              Shifted(p, keysShift, t) == Ok(Populated(q, keysShift + q.position).value.(time := t))
  {
  }

  // ---------------------------------------------------------------------
  // What the operations do

  /** One step of the white loop. */
  lemma WhiteAtMeaning(location: int, x: nat)
    ensures WhiteAt(location, x).Ok? <==> WhiteFits(location + x)
    ensures WhiteAt(location, x).Err? ==> WhiteAt(location, x).error == IndexError
    ensures WhiteAt(location, x).Ok? ==>
              WhiteAt(location, x).value ==
              Writes([], [(2 * Wrap(location + x), ClosedSolenoid)], [], [(x, Some(2 * Wrap(location + x)))])
  {
  }

  /** Whether `white_solenoid_index[k]` is a valid read. */
  predicate WhiteFits(k: int) {
    -45 <= k < 45
  }

  /** The first n steps of the white loop succeed while `x + location`
      stays a valid index of the 45 white columns. */
  lemma {:induction false} WhitesSucceed(location: int, n: nat)
    ensures Collect(Range(n), WhiteOf(location)).Ok? <==> forall k :: location <= k < location + n ==> WhiteFits(k)
    ensures Collect(Range(n), WhiteOf(location)).Err? ==> Collect(Range(n), WhiteOf(location)).error == IndexError
    decreases n
  {
    if n > 0 {
      assert Range(n)[..n - 1] == Range(n - 1);
      WhitesSucceed(location, n - 1);
      WhiteAtMeaning(location, n - 1);
    }
  }

  /** Each white step writes a closed solenoid at its column on the middle
      line and fills slot x. */
  lemma {:induction false} WhitesWrites(location: int, n: nat)
    requires Collect(Range(n), WhiteOf(location)).Ok?
    ensures Collect(Range(n), WhiteOf(location)).value.top == []
    ensures Collect(Range(n), WhiteOf(location)).value.bottom == []
    ensures |Collect(Range(n), WhiteOf(location)).value.middle| == n
    ensures |Collect(Range(n), WhiteOf(location)).value.slots| == n
    ensures forall x :: 0 <= x < n ==>
              Collect(Range(n), WhiteOf(location)).value.middle[x] == (2 * Wrap(location + x), ClosedSolenoid) &&
              Collect(Range(n), WhiteOf(location)).value.slots[x] == (x, Some(2 * Wrap(location + x)))
    decreases n
  {
    if n > 0 {
      var xs := Range(n);
      assert xs[..n - 1] == Range(n - 1);
      WhitesWrites(location, n - 1);
      WhiteAtMeaning(location, n - 1);
      assert WhiteOf(location)(xs[n - 1]) == WhiteAt(location, n - 1);
      var before := Collect(Range(n - 1), WhiteOf(location)).value;
      assert Collect(xs, WhiteOf(location)).value == Then(before, WhiteAt(location, n - 1).value);
    }
  }

  /** Whether `black_solenoid_index[k]` is a column of the picture lines. */
  predicate BlackFits(k: int) {
    -45 <= k < 44 && k != -1
  }

  /** One step of the black loop. */
  lemma BlackAtMeaning(location: int, x: nat)
    ensures BlackAt(location, x).Ok? <==> BlackFits(location + x)
    ensures BlackAt(location, x).Err? ==> BlackAt(location, x).error == IndexError
    ensures BlackAt(location, x).Ok? ==>
              BlackAt(location, x).value ==
              Writes([(2 * Wrap(location + x) + 1, ClosedSolenoid)], [], [], [(x + TopRowOffset, Some(2 * Wrap(location + x) + 1))])
  {
  }

  /** The first n steps of the black loop succeed while `x + location`
      stays a valid index of the 45 black columns other than the last,
      column 89, which is past the end of the picture lines. */
  lemma {:induction false} BlacksSucceed(location: int, n: nat)
    ensures Collect(Range(n), BlackOf(location)).Ok? <==> forall k :: location <= k < location + n ==> BlackFits(k)
    ensures Collect(Range(n), BlackOf(location)).Err? ==> Collect(Range(n), BlackOf(location)).error == IndexError
    decreases n
  {
    if n > 0 {
      assert Range(n)[..n - 1] == Range(n - 1);
      BlacksSucceed(location, n - 1);
      BlackAtMeaning(location, n - 1);
    }
  }

  /** Each black step writes a closed solenoid at its column on the top
      line and fills slot x + 9. */
  lemma {:induction false} BlacksWrites(location: int, n: nat)
    requires Collect(Range(n), BlackOf(location)).Ok?
    ensures Collect(Range(n), BlackOf(location)).value.middle == []
    ensures Collect(Range(n), BlackOf(location)).value.bottom == []
    ensures |Collect(Range(n), BlackOf(location)).value.top| == n
    ensures |Collect(Range(n), BlackOf(location)).value.slots| == n
    ensures forall x :: 0 <= x < n ==>
              Collect(Range(n), BlackOf(location)).value.top[x] == (2 * Wrap(location + x) + 1, ClosedSolenoid) &&
              Collect(Range(n), BlackOf(location)).value.slots[x] ==
              (x + TopRowOffset, Some(2 * Wrap(location + x) + 1))
    decreases n
  {
    if n > 0 {
      var xs := Range(n);
      assert xs[..n - 1] == Range(n - 1);
      BlacksWrites(location, n - 1);
      BlackAtMeaning(location, n - 1);
      assert BlackOf(location)(xs[n - 1]) == BlackAt(location, n - 1);
      var before := Collect(Range(n - 1), BlackOf(location)).value;
      assert Collect(xs, BlackOf(location)).value == Then(before, BlackAt(location, n - 1).value);
    }
  }

  /** `populate_hand(location)` succeeds exactly for locations -45 to 36
      other than -8 to -1, where a black solenoid would land on column
      89, past the end of the lines; otherwise it raises IndexError. */
  lemma PopulateSucceeds(p: Snapshot, location: int)
    ensures Populated(p, location).Ok? <==> -45 <= location <= 36 && !(-8 <= location <= -1)
    ensures Populated(p, location).Err? ==> Populated(p, location).error == IndexError
  {
    WhitesSucceed(location, WhiteCount);
    BlacksSucceed(location, BlackCount);
    if -45 <= location <= 36 {
      assert forall k :: location <= k < location + 9 ==> WhiteFits(k);
      if -8 <= location <= -1 {
        assert !BlackFits(-1);
      } else {
        assert forall k :: location <= k < location + 8 ==> BlackFits(k);
      }
    } else if location < -45 {
      assert !WhiteFits(location);
    } else {
      assert !WhiteFits(location + 8);
    }
  }

  /** Populating moves the hand and leaves the bottom line and the time
      alone. */
  lemma PopulateKeeps(p: Snapshot, location: int)
    requires WellFormed(p) && Populated(p, location).Ok?
    ensures WellFormed(Populated(p, location).value)
    ensures Populated(p, location).value.position == location
    ensures Populated(p, location).value.time == p.time && Populated(p, location).value.bottom == p.bottom
  {
    WhitesWrites(location, WhiteCount);
    BlacksWrites(location, BlackCount);
  }

  /** The column slot j of the hand takes at a location: white columns for
      slots 0 to 8, black ones for 9 to 16, read with Python indices that
      wrap around below zero. */
  function SlotColumn(location: int, j: int): int {
    if j < TopRowOffset then 2 * Wrap(location + j) else 2 * Wrap(location + j - TopRowOffset) + 1
  }

  /** Write j of the hand goes to slot j and puts its column there. */
  lemma HandSlots(location: int)
    requires HandWrites(location).Ok?
    ensures |HandWrites(location).value.slots| == SolenoidCount
    ensures forall j :: 0 <= j < SolenoidCount ==> HandWrites(location).value.slots[j] == (j, Some(SlotColumn(location, j)))
  {
    var whites := Collect(Range(WhiteCount), WhiteOf(location)).value;
    var blacks := Collect(Range(BlackCount), BlackOf(location)).value;
    WhitesWrites(location, WhiteCount);
    BlacksWrites(location, BlackCount);
    var slots := whites.slots + blacks.slots;
    assert HandWrites(location).value.slots == slots;
    forall j | 0 <= j < |slots|
      ensures slots[j] == (j, Some(SlotColumn(location, j)))
    {
      if j >= TopRowOffset {
        var x := j - TopRowOffset;
        assert slots[j] == blacks.slots[x];
        assert blacks.slots[x] == (x + TopRowOffset, Some(2 * Wrap(location + x) + 1));
        assert SlotColumn(location, j) == 2 * Wrap(location + x) + 1;
      } else {
        assert slots[j] == whites.slots[j];
        assert whites.slots[j] == (j, Some(2 * Wrap(location + j)));
      }
    }
  }

  /** The hand's picture writes: a closed solenoid at the column of each
      white slot on the middle line, and of each black slot on the top
      line. */
  lemma HandLines(location: int)
    requires HandWrites(location).Ok?
    ensures |HandWrites(location).value.middle| == WhiteCount && HandWrites(location).value.bottom == []
    ensures |HandWrites(location).value.top| == BlackCount
    ensures forall x :: 0 <= x < WhiteCount ==> HandWrites(location).value.middle[x] == (SlotColumn(location, x), ClosedSolenoid)
    ensures forall x :: 0 <= x < BlackCount ==>
              HandWrites(location).value.top[x] == (SlotColumn(location, x + TopRowOffset), ClosedSolenoid)
  {
    var whites := Collect(Range(WhiteCount), WhiteOf(location)).value;
    var blacks := Collect(Range(BlackCount), BlackOf(location)).value;
    WhitesWrites(location, WhiteCount);
    BlacksWrites(location, BlackCount);
    var w := HandWrites(location).value;
    assert w == Then(whites, blacks);
    assert w.middle == whites.middle by {
      assert blacks.middle == [];
    }
    assert w.top == blacks.top by {
      assert whites.top == [];
    }
    assert w.bottom == [] by {
      assert whites.bottom == [] && blacks.bottom == [];
    }
    forall x | 0 <= x < BlackCount
      ensures w.top[x] == (SlotColumn(location, x + TopRowOffset), ClosedSolenoid)
    {
      assert blacks.top[x] == (2 * Wrap(location + x) + 1, ClosedSolenoid);
    }
  }

  /** After populating, the middle line shows a closed solenoid at every
      white slot's column and the top line at every black slot's column. */
  lemma PopulateLines(p: Snapshot, location: int)
    requires WellFormed(p) && -45 <= location <= 36 && !(-8 <= location <= -1)
    ensures Populated(p, location).Ok?
    ensures forall j :: 0 <= j < TopRowOffset ==> Populated(p, location).value.middle[SlotColumn(location, j)] == ClosedSolenoid
    ensures forall j :: TopRowOffset <= j < SolenoidCount ==>
              Populated(p, location).value.top[SlotColumn(location, j)] == ClosedSolenoid
  {
    PopulateSucceeds(p, location);
    HandLines(location);
    var w := HandWrites(location).value;
    forall j | 0 <= j < TopRowOffset
      ensures Written(p.middle, w.middle)[SlotColumn(location, j)] == ClosedSolenoid
    {
      assert w.middle[j].0 == SlotColumn(location, j);
      WrittenHere(p.middle, w.middle, SlotColumn(location, j), ClosedSolenoid);
    }
    forall j | TopRowOffset <= j < SolenoidCount
      ensures Written(p.top, w.top)[SlotColumn(location, j)] == ClosedSolenoid
    {
      assert w.top[j - TopRowOffset].0 == SlotColumn(location, j);
      WrittenHere(p.top, w.top, SlotColumn(location, j), ClosedSolenoid);
    }
  }

  /** After populating, every slot holds its column. */
  lemma PopulateSlotColumns(p: Snapshot, location: int)
    requires WellFormed(p) && Populated(p, location).Ok?
    ensures forall j :: 0 <= j < SolenoidCount ==> Populated(p, location).value.solenoids[j] == Some(SlotColumn(location, j))
  {
    HandSlots(location);
    var slots := HandWrites(location).value.slots;
    forall j | 0 <= j < SolenoidCount
      ensures Written(p.solenoids, slots)[j] == Some(SlotColumn(location, j))
    {
      WrittenInOrder(p.solenoids, slots, j);
    }
  }

  /** From a location in range, the nine white solenoids take
      `white_solenoid_index[location..location + 9]` and the eight black
      ones `black_solenoid_index[location..location + 8]`. */
  lemma PopulateSlots(p: Snapshot, location: int)
    requires WellFormed(p) && 0 <= location <= 36
    ensures Populated(p, location).Ok?
    ensures forall j :: 0 <= j < TopRowOffset ==> Populated(p, location).value.solenoids[j] == Some(WhiteIndex()[location + j])
    ensures forall j :: TopRowOffset <= j < SolenoidCount ==>
              Populated(p, location).value.solenoids[j] == Some(BlackSolenoidIndex()[location + j - TopRowOffset])
  {
    PopulateSucceeds(p, location);
    PopulateSlotColumns(p, location);
  }

  // ---------------------------------------------------------------------
  // The hand's slots and the other operations

  /** Whether `populate_hand(location)` reaches all of its columns. */
  predicate InReach(location: int) {
    -45 <= location <= 36 && !(-8 <= location <= -1)
  }

  /** A slot holding a position the picture lines can index. */
  predicate Placed(s: Option<int>) {
    s.Some? && -LineWidth <= s.value < LineWidth
  }

  /** The slots of a populated hand: seventeen columns of the picture
      lines, even ones (white) in slots 0 to 8 and odd ones (black) in
      slots 9 to 16. */
  predicate HandPlaced(solenoids: seq<Option<int>>) {
    |solenoids| == SolenoidCount &&
    forall j :: 0 <= j < SolenoidCount ==>
      solenoids[j].Some? && 0 <= solenoids[j].value < LineWidth &&
      (solenoids[j].value % 2 == 0 <==> j < TopRowOffset)
  }

  /** Populating leaves a hand whose slots are placed. */
  lemma PopulatePlaces(p: Snapshot, location: int)
    requires WellFormed(p) && Populated(p, location).Ok?
    ensures HandPlaced(Populated(p, location).value.solenoids)
  {
    PopulateSucceeds(p, location);
    PopulateSlotColumns(p, location);
    SlotColumnsPlaced(location);
  }

  /** From a location in reach, every slot's column is on the picture
      lines, even for the white slots and odd for the black ones. */
  lemma SlotColumnsPlaced(location: int)
    requires InReach(location)
    ensures forall j :: 0 <= j < SolenoidCount ==>
              0 <= SlotColumn(location, j) < LineWidth && (SlotColumn(location, j) % 2 == 0 <==> j < TopRowOffset)
  {
  }

  /** A place some write touches, where every write touching it gives v,
      holds v. */
  lemma WrittenMember<T>(xs: seq<T>, ws: seq<(nat, T)>, i: nat, v: T)
    requires i < |xs|
    requires exists w :: w in ws && w.0 == i
    requires forall w :: w in ws && w.0 == i ==> w.1 == v
    ensures Written(xs, ws)[i] == v
  {
    WrittenHere(xs, ws, i, v);
  }

  /** A place no write touches keeps its value. */
  lemma WrittenUntouched<T>(xs: seq<T>, ws: seq<(nat, T)>, i: nat)
    requires i < |xs| && forall w :: w in ws ==> w.0 != i
    ensures Written(xs, ws)[i] == xs[i]
  {
    WrittenElsewhere(xs, ws, i);
  }

  /** A list no write reaches. */
  lemma WrittenNothing<T>(xs: seq<T>)
    ensures Written(xs, []) == xs
  {
  }

  /** A single write in range. */
  lemma WrittenOne<T>(xs: seq<T>, i: nat, v: T)
    requires i < |xs|
    ensures Written(xs, [(i, v)]) == xs[i := v]
  {
    assert [(i, v)][..0] == [];
  }

  /** An element with no writes to a line adds none to the collected ones. */
  lemma {:induction false} CollectNoLine<X>(xs: seq<X>, f: X -> Result<Writes>, row: Row)
    requires Collect(xs, f).Ok?
    requires forall i :: 0 <= i < |xs| && f(xs[i]).Ok? ==> LineWrites(f(xs[i]).value, row) == []
    ensures LineWrites(Collect(xs, f).value, row) == []
    decreases |xs|
  {
    if |xs| > 0 {
      var init := xs[..|xs| - 1];
      forall i | 0 <= i < |init| ensures xs[i] == init[i] {
      }
      CollectNoLine(init, f, row);
    }
  }

  /** Elements that fill no slot fill none together. */
  lemma {:induction false} CollectNoSlots<X>(xs: seq<X>, f: X -> Result<Writes>)
    requires Collect(xs, f).Ok?
    requires forall i :: 0 <= i < |xs| && f(xs[i]).Ok? ==> f(xs[i]).value.slots == []
    ensures Collect(xs, f).value.slots == []
    decreases |xs|
  {
    if |xs| > 0 {
      var init := xs[..|xs| - 1];
      forall i | 0 <= i < |init| ensures xs[i] == init[i] {
      }
      CollectNoSlots(init, f);
    }
  }

  /** One step of `clear_hand`. */
  lemma ClearAtMeaning(s: Option<int>)
    ensures ClearAt(s).Ok? <==> Placed(s)
    ensures ClearAt(s).Err? ==> ClearAt(s).error == (if s.None? then TypeError else IndexError)
    ensures ClearAt(s).Ok? ==> ClearAt(s).value.bottom == [] && ClearAt(s).value.slots == []
    ensures ClearAt(s).Ok? && 0 <= s.value ==>
              if s.value % 2 == 1 then ClearAt(s).value == Writes([(s.value, ' ')], [], [], [])
              else ClearAt(s).value == Writes([], [(s.value, ' ')], [], [])
  {
  }

  /** `clear_hand` succeeds exactly when every slot holds a position of
      the lines; an empty slot raises TypeError, one out of range
      IndexError. */
  lemma ClearSucceeds(p: Snapshot)
    ensures Cleared(p).Ok? <==> forall j :: 0 <= j < |p.solenoids| ==> Placed(p.solenoids[j])
    ensures Cleared(p).Err? ==> Cleared(p).error == TypeError || Cleared(p).error == IndexError
  {
    CollectSucceeds(p.solenoids, ClearAt);
    forall j | 0 <= j < |p.solenoids| ensures ClearAt(p.solenoids[j]).Ok? <==> Placed(p.solenoids[j]) {
      ClearAtMeaning(p.solenoids[j]);
    }
    if Cleared(p).Err? {
      var j :| 0 <= j < |p.solenoids| && ClearAt(p.solenoids[j]) == Err(Cleared(p).error);
      ClearAtMeaning(p.solenoids[j]);
    }
  }

  /** Clearing a populated hand empties every slot and keeps the bottom
      line, the position and the time. */
  lemma ClearKeeps(p: Snapshot)
    requires WellFormed(p) && HandPlaced(p.solenoids)
    ensures Cleared(p).Ok?
    ensures WellFormed(Cleared(p).value) && Cleared(p).value.solenoids == seq(SolenoidCount, _ => None)
    ensures Cleared(p).value.position == p.position && Cleared(p).value.time == p.time
    ensures Cleared(p).value.bottom == p.bottom
  {
    ClearSucceeds(p);
    forall i | 0 <= i < |p.solenoids| ensures ClearAt(p.solenoids[i]).Ok? ==> ClearAt(p.solenoids[i]).value.bottom == [] {
      ClearAtMeaning(p.solenoids[i]);
    }
    CollectNoLine(p.solenoids, ClearAt, Bottom);
  }

  /** Every write of `clear_hand` to a picture line is a blank. */
  lemma ClearWritesBlanks(p: Snapshot)
    requires Cleared(p).Ok?
    ensures forall x :: x in Collect(p.solenoids, ClearAt).value.middle ==> x.1 == ' '
    ensures forall x :: x in Collect(p.solenoids, ClearAt).value.top ==> x.1 == ' '
  {
    var w := Collect(p.solenoids, ClearAt).value;
    CollectLine(p.solenoids, ClearAt, Top);
    CollectLine(p.solenoids, ClearAt, Middle);
    assert LineWrites(w, Middle) == w.middle && LineWrites(w, Top) == w.top;
    forall x | x in w.middle ensures x.1 == ' ' {
      var i :| 0 <= i < |p.solenoids| && ClearAt(p.solenoids[i]).Ok? && x in LineWrites(ClearAt(p.solenoids[i]).value, Middle);
      ClearAtMeaning(p.solenoids[i]);
    }
    forall x | x in w.top ensures x.1 == ' ' {
      var i :| 0 <= i < |p.solenoids| && ClearAt(p.solenoids[i]).Ok? && x in LineWrites(ClearAt(p.solenoids[i]).value, Top);
      ClearAtMeaning(p.solenoids[i]);
    }
  }

  /** Clearing a populated hand blanks the column of every white slot on
      the middle line and of every black slot on the top line. */
  lemma ClearBlanks(p: Snapshot)
    requires WellFormed(p) && HandPlaced(p.solenoids)
    ensures Cleared(p).Ok?
    ensures forall j :: 0 <= j < TopRowOffset ==> Cleared(p).value.middle[p.solenoids[j].value] == ' '
    ensures forall j :: TopRowOffset <= j < SolenoidCount ==> Cleared(p).value.top[p.solenoids[j].value] == ' '
  {
    ClearSucceeds(p);
    ClearWritesBlanks(p);
    var w := Collect(p.solenoids, ClearAt).value;
    CollectLine(p.solenoids, ClearAt, Top);
    CollectLine(p.solenoids, ClearAt, Middle);
    assert LineWrites(w, Middle) == w.middle && LineWrites(w, Top) == w.top;
    forall j | 0 <= j < TopRowOffset
      ensures Written(p.middle, w.middle)[p.solenoids[j].value] == ' '
    {
      var c := p.solenoids[j].value;
      ClearAtMeaning(p.solenoids[j]);
      assert (c, ' ') in LineWrites(ClearAt(p.solenoids[j]).value, Middle);
      WrittenMember(p.middle, w.middle, c, ' ');
    }
    forall j | TopRowOffset <= j < SolenoidCount
      ensures Written(p.top, w.top)[p.solenoids[j].value] == ' '
    {
      var c := p.solenoids[j].value;
      ClearAtMeaning(p.solenoids[j]);
      assert (c, ' ') in LineWrites(ClearAt(p.solenoids[j]).value, Top);
      WrittenMember(p.top, w.top, c, ' ');
    }
  }

  /** One step of `actuate`, on a populated hand. */
  lemma ActuateAtMeaning(slots: seq<Option<int>>, sol: int)
    ensures sol >= SolenoidCount ==> ActuateAt(slots, sol) == Err(ValueError)
    ensures ActuateAt(slots, sol).Ok? ==> ActuateAt(slots, sol).value.slots == []
    ensures ActuateAt(slots, sol).Ok? && sol < TopRowOffset ==> ActuateAt(slots, sol).value.top == []
    ensures ActuateAt(slots, sol).Ok? && sol >= TopRowOffset ==> ActuateAt(slots, sol).value.bottom == []
    ensures HandPlaced(slots) && 0 <= sol < TopRowOffset ==>
              ActuateAt(slots, sol) == Ok(Writes([], [(slots[sol].value, OpenSolenoid)], [(slots[sol].value, DepressKey)], []))
    ensures HandPlaced(slots) && TopRowOffset <= sol < SolenoidCount ==>
              ActuateAt(slots, sol).Ok? && ActuateAt(slots, sol).value.top == [(slots[sol].value, OpenSolenoid)] &&
              |ActuateAt(slots, sol).value.middle| == 1 && ActuateAt(slots, sol).value.middle[0].0 == slots[sol].value
  {
  }

  /** On a populated hand, `actuate` with solenoid indices that are not
      negative succeeds exactly when all of them are below 17; otherwise
      it raises ValueError. */
  lemma ActuateSucceeds(p: Snapshot, locations: seq<int>, t: real)
    requires HandPlaced(p.solenoids) && forall i :: 0 <= i < |locations| ==> 0 <= locations[i]
    ensures Actuated(p, locations, t).Ok? <==> forall i :: 0 <= i < |locations| ==> locations[i] < SolenoidCount
    ensures Actuated(p, locations, t).Err? ==> Actuated(p, locations, t).error == ValueError
  {
    var f := ActuateOf(p.solenoids);
    CollectSucceeds(locations, f);
    forall i | 0 <= i < |locations| ensures f(locations[i]).Ok? <==> locations[i] < SolenoidCount {
      ActuateAtMeaning(p.solenoids, locations[i]);
    }
    if Actuated(p, locations, t).Err? {
      var i :| 0 <= i < |locations| && f(locations[i]) == Err(Collect(locations, f).error);
      ActuateAtMeaning(p.solenoids, locations[i]);
    }
  }

  /** `actuate` keeps the slots and the position and stamps the time;
      white solenoids alone (below 9) leave the top line alone, black
      ones alone (9 and above) the bottom line. */
  lemma ActuateKeeps(p: Snapshot, locations: seq<int>, t: real)
    requires WellFormed(p) && Actuated(p, locations, t).Ok?
    ensures WellFormed(Actuated(p, locations, t).value)
    ensures Actuated(p, locations, t).value.solenoids == p.solenoids
    ensures Actuated(p, locations, t).value.position == p.position && Actuated(p, locations, t).value.time == t
    ensures (forall i :: 0 <= i < |locations| ==> locations[i] < TopRowOffset) ==> Actuated(p, locations, t).value.top == p.top
    ensures (forall i :: 0 <= i < |locations| ==> locations[i] >= TopRowOffset) ==>
              Actuated(p, locations, t).value.bottom == p.bottom
  {
    var f := ActuateOf(p.solenoids);
    forall i | 0 <= i < |locations| ensures f(locations[i]).Ok? ==> f(locations[i]).value.slots == [] {
      ActuateAtMeaning(p.solenoids, locations[i]);
    }
    CollectNoSlots(locations, f);
    if forall i :: 0 <= i < |locations| ==> locations[i] < TopRowOffset {
      forall i | 0 <= i < |locations| ensures f(locations[i]).Ok? ==> LineWrites(f(locations[i]).value, Top) == [] {
        ActuateAtMeaning(p.solenoids, locations[i]);
      }
      CollectNoLine(locations, f, Top);
    }
    if forall i :: 0 <= i < |locations| ==> locations[i] >= TopRowOffset {
      forall i | 0 <= i < |locations| ensures f(locations[i]).Ok? ==> LineWrites(f(locations[i]).value, Bottom) == [] {
        ActuateAtMeaning(p.solenoids, locations[i]);
      }
      CollectNoLine(locations, f, Bottom);
    }
  }

  /** A property every element's writes to a line have, the collected
      writes to that line have. */
  lemma CollectLineAll<X>(xs: seq<X>, f: X -> Result<Writes>, row: Row, ok: ((nat, char)) -> bool)
    requires Collect(xs, f).Ok?
    requires forall i, x :: 0 <= i < |xs| && f(xs[i]).Ok? && x in LineWrites(f(xs[i]).value, row) ==> ok(x)
    ensures forall x :: x in LineWrites(Collect(xs, f).value, row) ==> ok(x)
  {
    CollectLine(xs, f, row);
  }

  /** The writes of one step of `actuate` on a populated hand. */
  lemma ActuateAtWrites(slots: seq<Option<int>>, sol: int)
    requires HandPlaced(slots) && 0 <= sol && ActuateAt(slots, sol).Ok?
    ensures forall x :: x in ActuateAt(slots, sol).value.bottom ==> x.1 == DepressKey
    ensures forall x :: x in ActuateAt(slots, sol).value.top ==> x.1 == OpenSolenoid
    ensures forall x :: x in ActuateAt(slots, sol).value.middle && x.0 % 2 == 0 ==> x.1 == OpenSolenoid
  {
    ActuateAtMeaning(slots, sol);
  }

  /** On a populated hand, every write of `actuate` to the bottom line
      depresses a key, every write to the top line opens a solenoid, and
      every write to an even (white) column of the middle line opens one. */
  lemma ActuateWrites(p: Snapshot, locations: seq<int>, t: real)
    requires HandPlaced(p.solenoids) && Actuated(p, locations, t).Ok?
    requires forall i :: 0 <= i < |locations| ==> 0 <= locations[i]
    ensures forall x :: x in Collect(locations, ActuateOf(p.solenoids)).value.bottom ==> x.1 == DepressKey
    ensures forall x :: x in Collect(locations, ActuateOf(p.solenoids)).value.top ==> x.1 == OpenSolenoid
    ensures forall x :: x in Collect(locations, ActuateOf(p.solenoids)).value.middle && x.0 % 2 == 0 ==> x.1 == OpenSolenoid
  {
    var f := ActuateOf(p.solenoids);
    var w := Collect(locations, f).value;
    assert LineWrites(w, Top) == w.top && LineWrites(w, Middle) == w.middle && LineWrites(w, Bottom) == w.bottom;
    forall i, x | 0 <= i < |locations| && f(locations[i]).Ok? && x in LineWrites(f(locations[i]).value, Bottom)
      ensures x.1 == DepressKey
    {
      ActuateAtWrites(p.solenoids, locations[i]);
    }
    CollectLineAll(locations, f, Bottom, (x: (nat, char)) => x.1 == DepressKey);
    forall x | x in w.bottom ensures x.1 == DepressKey {
      assert x in LineWrites(w, Bottom);
    }
    forall i, x | 0 <= i < |locations| && f(locations[i]).Ok? && x in LineWrites(f(locations[i]).value, Top)
      ensures x.1 == OpenSolenoid
    {
      ActuateAtWrites(p.solenoids, locations[i]);
    }
    CollectLineAll(locations, f, Top, (x: (nat, char)) => x.1 == OpenSolenoid);
    forall x | x in w.top ensures x.1 == OpenSolenoid {
      assert x in LineWrites(w, Top);
    }
    forall i, x | 0 <= i < |locations| && f(locations[i]).Ok? && x in LineWrites(f(locations[i]).value, Middle)
      ensures x.0 % 2 == 0 ==> x.1 == OpenSolenoid
    {
      ActuateAtWrites(p.solenoids, locations[i]);
    }
    CollectLineAll(locations, f, Middle, (x: (nat, char)) => x.0 % 2 == 0 ==> x.1 == OpenSolenoid);
    forall x | x in w.middle && x.0 % 2 == 0 ensures x.1 == OpenSolenoid {
      assert x in LineWrites(w, Middle);
    }
  }

  /** On a populated hand, `actuate` shows each white solenoid it fires
      open on the middle line over a depressed key on the bottom line,
      and each black one open on the top line. */
  lemma ActuateDraws(p: Snapshot, locations: seq<int>, t: real)
    requires WellFormed(p) && HandPlaced(p.solenoids) && Actuated(p, locations, t).Ok?
    requires forall i :: 0 <= i < |locations| ==> 0 <= locations[i]
    ensures forall i :: 0 <= i < |locations| && locations[i] < TopRowOffset ==>
              Actuated(p, locations, t).value.bottom[p.solenoids[locations[i]].value] == DepressKey &&
              Actuated(p, locations, t).value.middle[p.solenoids[locations[i]].value] == OpenSolenoid
    ensures forall i :: 0 <= i < |locations| && TopRowOffset <= locations[i] < SolenoidCount ==>
              Actuated(p, locations, t).value.top[p.solenoids[locations[i]].value] == OpenSolenoid
  {
    ActuateWrites(p, locations, t);
    var f := ActuateOf(p.solenoids);
    var w := Collect(locations, f).value;
    CollectLine(locations, f, Top);
    CollectLine(locations, f, Middle);
    CollectLine(locations, f, Bottom);
    assert LineWrites(w, Top) == w.top && LineWrites(w, Middle) == w.middle && LineWrites(w, Bottom) == w.bottom;
    forall i | 0 <= i < |locations| && locations[i] < TopRowOffset
      ensures Written(p.bottom, w.bottom)[p.solenoids[locations[i]].value] == DepressKey
      ensures Written(p.middle, w.middle)[p.solenoids[locations[i]].value] == OpenSolenoid
    {
      var c := p.solenoids[locations[i]].value;
      ActuateAtMeaning(p.solenoids, locations[i]);
      assert (c, DepressKey) in LineWrites(f(locations[i]).value, Bottom);
      assert (c, OpenSolenoid) in LineWrites(f(locations[i]).value, Middle);
      WrittenMember(p.bottom, w.bottom, c, DepressKey);
      WrittenMember(p.middle, w.middle, c, OpenSolenoid);
    }
    forall i | 0 <= i < |locations| && TopRowOffset <= locations[i] < SolenoidCount
      ensures Written(p.top, w.top)[p.solenoids[locations[i]].value] == OpenSolenoid
    {
      var c := p.solenoids[locations[i]].value;
      ActuateAtMeaning(p.solenoids, locations[i]);
      assert (c, OpenSolenoid) in LineWrites(f(locations[i]).value, Top);
      WrittenMember(p.top, w.top, c, OpenSolenoid);
    }
  }

  /** One step of `retract`. */
  lemma RetractAtMeaning(i: nat, s: Option<int>)
    ensures RetractAt((i, s)).Ok? <==> i >= SolenoidCount || Placed(s)
    ensures RetractAt((i, s)).Err? ==> RetractAt((i, s)).error == (if s.None? then TypeError else IndexError)
    ensures RetractAt((i, s)).Ok? ==> RetractAt((i, s)).value.slots == []
    ensures RetractAt((i, s)).Ok? && i < TopRowOffset && 0 <= s.value ==>
              RetractAt((i, s)).value == Writes([], [(s.value, ClosedSolenoid)], [(s.value, KeyMark)], [])
    ensures RetractAt((i, s)).Ok? && TopRowOffset <= i < SolenoidCount && 0 <= s.value ==>
              RetractAt((i, s)).value ==
              Writes([(s.value, ClosedSolenoid)], [(s.value, if s.value in BlackKeysIndex() then KeyMark else ' ')], [], [])
  {
  }

  /** `retract` succeeds exactly when every slot holds a position of the
      lines; an empty slot raises TypeError, one out of range IndexError. */
  lemma RetractSucceeds(p: Snapshot, t: real)
    requires WellFormed(p)
    ensures Retracted(p, t).Ok? <==> forall j :: 0 <= j < SolenoidCount ==> Placed(p.solenoids[j])
    ensures Retracted(p, t).Err? ==> Retracted(p, t).error == TypeError || Retracted(p, t).error == IndexError
  {
    var e := Enumerate(p.solenoids);
    CollectSucceeds(e, RetractAt);
    forall j | 0 <= j < SolenoidCount ensures RetractAt(e[j]).Ok? <==> Placed(p.solenoids[j]) {
      RetractAtMeaning(j, p.solenoids[j]);
    }
    if Retracted(p, t).Err? {
      var j :| 0 <= j < |e| && RetractAt(e[j]) == Err(Collect(e, RetractAt).error);
      RetractAtMeaning(j, p.solenoids[j]);
    }
  }

  /** `retract` keeps the slots and the position and stamps the time. */
  lemma RetractKeeps(p: Snapshot, t: real)
    requires WellFormed(p) && Retracted(p, t).Ok?
    ensures WellFormed(Retracted(p, t).value)
    ensures Retracted(p, t).value.solenoids == p.solenoids
    ensures Retracted(p, t).value.position == p.position && Retracted(p, t).value.time == t
  {
    var e := Enumerate(p.solenoids);
    forall i | 0 <= i < |e| && RetractAt(e[i]).Ok? ensures RetractAt(e[i]).value.slots == [] {
      RetractAtMeaning(e[i].0, e[i].1);
    }
    CollectNoSlots(e, RetractAt);
  }

  /** The writes of one step of `retract` on a populated hand. */
  lemma RetractAtWrites(slots: seq<Option<int>>, j: nat)
    requires HandPlaced(slots) && j < SolenoidCount
    ensures RetractAt((j, slots[j])).Ok?
    ensures forall x :: x in RetractAt((j, slots[j])).value.bottom ==> x.1 == KeyMark
    ensures forall x :: x in RetractAt((j, slots[j])).value.top ==> x.1 == ClosedSolenoid
    ensures forall x :: x in RetractAt((j, slots[j])).value.middle ==>
              x.1 == (if x.0 % 2 == 0 then ClosedSolenoid else if x.0 in BlackKeysIndex() then KeyMark else ' ')
  {
    RetractAtMeaning(j, slots[j]);
  }

  /** On a populated hand, every write of `retract` to the bottom line
      shows a key, every one to the top line a closed solenoid, and every
      one to the middle line a closed solenoid at an even (white) column
      and the key mark or a blank at an odd one. */
  lemma RetractWrites(p: Snapshot, t: real)
    requires WellFormed(p) && HandPlaced(p.solenoids)
    ensures Retracted(p, t).Ok?
    ensures forall x :: x in Collect(Enumerate(p.solenoids), RetractAt).value.bottom ==> x.1 == KeyMark
    ensures forall x :: x in Collect(Enumerate(p.solenoids), RetractAt).value.top ==> x.1 == ClosedSolenoid
    ensures forall x :: x in Collect(Enumerate(p.solenoids), RetractAt).value.middle ==>
              x.1 == (if x.0 % 2 == 0 then ClosedSolenoid else if x.0 in BlackKeysIndex() then KeyMark else ' ')
  {
    RetractSucceeds(p, t);
    var e := Enumerate(p.solenoids);
    var w := Collect(e, RetractAt).value;
    assert LineWrites(w, Top) == w.top && LineWrites(w, Middle) == w.middle && LineWrites(w, Bottom) == w.bottom;
    forall i, x | 0 <= i < |e| && RetractAt(e[i]).Ok? && x in LineWrites(RetractAt(e[i]).value, Bottom)
      ensures x.1 == KeyMark
    {
      RetractAtWrites(p.solenoids, i);
    }
    CollectLineAll(e, RetractAt, Bottom, (x: (nat, char)) => x.1 == KeyMark);
    forall x | x in w.bottom ensures x.1 == KeyMark {
      assert x in LineWrites(w, Bottom);
    }
    forall i, x | 0 <= i < |e| && RetractAt(e[i]).Ok? && x in LineWrites(RetractAt(e[i]).value, Top)
      ensures x.1 == ClosedSolenoid
    {
      RetractAtWrites(p.solenoids, i);
    }
    CollectLineAll(e, RetractAt, Top, (x: (nat, char)) => x.1 == ClosedSolenoid);
    forall x | x in w.top ensures x.1 == ClosedSolenoid {
      assert x in LineWrites(w, Top);
    }
    forall i, x | 0 <= i < |e| && RetractAt(e[i]).Ok? && x in LineWrites(RetractAt(e[i]).value, Middle)
      ensures x.1 == (if x.0 % 2 == 0 then ClosedSolenoid else if x.0 in BlackKeysIndex() then KeyMark else ' ')
    {
      RetractAtWrites(p.solenoids, i);
    }
    CollectLineAll(e, RetractAt, Middle,
                   (x: (nat, char)) => x.1 == (if x.0 % 2 == 0 then ClosedSolenoid else if x.0 in BlackKeysIndex() then KeyMark else ' '));
    forall x | x in w.middle
      ensures x.1 == (if x.0 % 2 == 0 then ClosedSolenoid else if x.0 in BlackKeysIndex() then KeyMark else ' ')
    {
      assert x in LineWrites(w, Middle);
    }
  }

  /** After `retract` on a populated hand, every white slot's column
      shows a closed solenoid over an undepressed key. */
  lemma RetractDrawsWhite(p: Snapshot, t: real)
    requires WellFormed(p) && HandPlaced(p.solenoids)
    ensures Retracted(p, t).Ok?
    ensures forall j :: 0 <= j < TopRowOffset ==>
              Retracted(p, t).value.bottom[p.solenoids[j].value] == KeyMark &&
              Retracted(p, t).value.middle[p.solenoids[j].value] == ClosedSolenoid
  {
    RetractSucceeds(p, t);
    forall j | 0 <= j < TopRowOffset
      ensures Retracted(p, t).value.bottom[p.solenoids[j].value] == KeyMark
      ensures Retracted(p, t).value.middle[p.solenoids[j].value] == ClosedSolenoid
    {
      RetractWhiteBottom(p, t, j);
      RetractWhiteMiddle(p, t, j);
    }
  }

  /** The key line under white slot j after `retract`. */
  lemma RetractWhiteBottom(p: Snapshot, t: real, j: nat)
    requires WellFormed(p) && HandPlaced(p.solenoids) && j < TopRowOffset
    ensures Retracted(p, t).Ok?
    ensures Retracted(p, t).value.bottom[p.solenoids[j].value] == KeyMark
  {
    RetractWrites(p, t);
    var e := Enumerate(p.solenoids);
    var w := Collect(e, RetractAt).value;
    CollectLine(e, RetractAt, Bottom);
    assert LineWrites(w, Bottom) == w.bottom;
    var c := p.solenoids[j].value;
    RetractAtMeaning(j, p.solenoids[j]);
    assert e[j] == (j, p.solenoids[j]);
    assert RetractAt(e[j]).value == Writes([], [(c, ClosedSolenoid)], [(c, KeyMark)], []);
    assert (c, KeyMark) in LineWrites(RetractAt(e[j]).value, Bottom);
    WrittenMember(p.bottom, w.bottom, c, KeyMark);
  }

  /** The middle line over white slot j after `retract`. */
  lemma RetractWhiteMiddle(p: Snapshot, t: real, j: nat)
    requires WellFormed(p) && HandPlaced(p.solenoids) && j < TopRowOffset
    ensures Retracted(p, t).Ok?
    ensures Retracted(p, t).value.middle[p.solenoids[j].value] == ClosedSolenoid
  {
    RetractWrites(p, t);
    var e := Enumerate(p.solenoids);
    var w := Collect(e, RetractAt).value;
    CollectLine(e, RetractAt, Middle);
    assert LineWrites(w, Middle) == w.middle;
    var c := p.solenoids[j].value;
    RetractAtMeaning(j, p.solenoids[j]);
    assert e[j] == (j, p.solenoids[j]);
    assert RetractAt(e[j]).value == Writes([], [(c, ClosedSolenoid)], [(c, KeyMark)], []);
    assert (c, ClosedSolenoid) in LineWrites(RetractAt(e[j]).value, Middle);
    WrittenMember(p.middle, w.middle, c, ClosedSolenoid);
  }

  /** After `retract` on a populated hand, every black slot's column
      shows a closed solenoid on the top line over its key mark, or over a
      blank where the keyboard has no black key. */
  lemma RetractDrawsBlack(p: Snapshot, t: real)
    requires WellFormed(p) && HandPlaced(p.solenoids)
    ensures Retracted(p, t).Ok?
    ensures forall j :: TopRowOffset <= j < SolenoidCount ==>
              Retracted(p, t).value.top[p.solenoids[j].value] == ClosedSolenoid &&
              Retracted(p, t).value.middle[p.solenoids[j].value] ==
              (if p.solenoids[j].value in BlackKeysIndex() then KeyMark else ' ')
  {
    RetractWrites(p, t);
    var e := Enumerate(p.solenoids);
    var w := Collect(e, RetractAt).value;
    CollectLine(e, RetractAt, Top);
    CollectLine(e, RetractAt, Middle);
    assert LineWrites(w, Top) == w.top && LineWrites(w, Middle) == w.middle;
    forall j | TopRowOffset <= j < SolenoidCount
      ensures Written(p.top, w.top)[p.solenoids[j].value] == ClosedSolenoid
      ensures Written(p.middle, w.middle)[p.solenoids[j].value] ==
              (if p.solenoids[j].value in BlackKeysIndex() then KeyMark else ' ')
    {
      var c := p.solenoids[j].value;
      var m := if c in BlackKeysIndex() then KeyMark else ' ';
      RetractAtMeaning(j, p.solenoids[j]);
      assert e[j] == (j, p.solenoids[j]);
      assert (c, ClosedSolenoid) in LineWrites(RetractAt(e[j]).value, Top);
      assert (c, m) in LineWrites(RetractAt(e[j]).value, Middle);
      WrittenMember(p.top, w.top, c, ClosedSolenoid);
      WrittenMember(p.middle, w.middle, c, m);
    }
  }

  /** `shift_hand(k, t)` moves the hand by k keys and stamps the time. */
  lemma ShiftKeeps(p: Snapshot, keysShift: int, t: real)
    requires Shifted(p, keysShift, t).Ok?
    ensures Shifted(p, keysShift, t).value.position == p.position + keysShift
    ensures Shifted(p, keysShift, t).value.time == t
  {
  }

  /** On a populated hand, `shift_hand(k, t)` succeeds exactly when the
      new position is in reach (otherwise IndexError), and leaves a
      populated hand there with the bottom line unchanged. */
  lemma ShiftMeaning(p: Snapshot, keysShift: int, t: real)
    requires WellFormed(p) && HandPlaced(p.solenoids)
    ensures Shifted(p, keysShift, t).Ok? <==> InReach(p.position + keysShift)
    ensures Shifted(p, keysShift, t).Err? ==> Shifted(p, keysShift, t).error == IndexError
    ensures Shifted(p, keysShift, t).Ok? ==>
              WellFormed(Shifted(p, keysShift, t).value) && HandPlaced(Shifted(p, keysShift, t).value.solenoids) &&
              Shifted(p, keysShift, t).value.bottom == p.bottom
  {
    ClearKeeps(p);
    var q := Cleared(p).value;
    var location := keysShift + q.position;
    assert location == p.position + keysShift;
    ShiftedAfterClear(p, keysShift, t, q);
    PopulateSucceeds(q, location);
    if InReach(location) {
      PopulateKeeps(q, location);
      PopulatePlaces(q, location);
      var h := Populated(q, location).value;
      assert Shifted(p, keysShift, t) == Ok(h.(time := t));
    }
  }

  // ---------------------------------------------------------------------
  // The PianoFrame object

  /** The default picture: no solenoids on the top line, the black keys
      marked on the middle line, the white keys (even columns) marked on
      the bottom line. */
  function DefaultTop(): string {
    seq(LineWidth, _ => ' ')
  }

  function DefaultMiddle(): string {
    seq(LineWidth, i => if i in BlackKeysIndex() then KeyMark else ' ')
  }

  function DefaultBottom(): string {
    seq(LineWidth, i => if i % 2 == 0 then KeyMark else ' ')
  }

  /** A column is a white-key column exactly when it is even. */
  lemma WhiteIndexMembers(x: int)
    requires 0 <= x < LineWidth
    ensures x in WhiteIndex() <==> x % 2 == 0
  {
    if x % 2 == 0 {
      assert WhiteIndex()[x / 2] == x;
    }
  }

  /** The loops of `default_piano`: the key mark written at each of the
      columns in turn. */
  method MarkKeys(line: string, columns: seq<int>) returns (r: string)
    requires forall x :: x in columns ==> 0 <= x < |line|
    ensures |r| == |line|
    ensures forall i :: 0 <= i < |line| ==> r[i] == if i in columns then KeyMark else line[i]
  {
    r := line;
    for n := 0 to |columns|
      invariant |r| == |line|
      invariant forall i :: 0 <= i < |line| ==> r[i] == if i in columns[..n] then KeyMark else line[i]
    {
      var x := columns[n];
      assert x in columns;
      assert columns[..n + 1] == columns[..n] + [x];
      r := r[x := KeyMark];
    }
    assert columns[..|columns|] == columns;
  }

  /** `PianoFrame`: the index lists of `setup`, the hand's seventeen slots
      and rail position, the time of the picture and its three lines. */
  class PianoFrame {
    const whiteKeysIndex: seq<int>
    const blackKeysIndex: seq<int>
    const whiteSolenoidIndex: seq<int>
    const blackSolenoidIndex: seq<int>
    var solenoids: seq<Option<int>>
    var currentPosition: int
    var frameTime: real
    var topLine: string
    var middleLine: string
    var bottomLine: string

    /** The index lists are those of `setup` and the picture has its
        shape. */
    ghost predicate Valid()
      reads this
    {
      && whiteKeysIndex == WhiteIndex() && whiteSolenoidIndex == WhiteIndex()
      && blackKeysIndex == BlackKeysIndex() && blackSolenoidIndex == BlackSolenoidIndex()
      && WellFormed(Snap())
    }

    /** The object's state as a value. */
    function Snap(): Snapshot
      reads this
    {
      Snapshot(solenoids, currentPosition, frameTime, topLine, middleLine, bottomLine)
    }

    /** `PianoFrame()`: empty slots at position 0, time 0, the index lists
        of `setup` and the default picture. */
    constructor ()
      ensures Valid()
      ensures solenoids == seq(SolenoidCount, _ => None) && currentPosition == 0 && frameTime == 0.0
      ensures topLine == DefaultTop() && middleLine == DefaultMiddle() && bottomLine == DefaultBottom()
    {
      var whites, blacks, whiteSolenoids, blackSolenoids := Setup();
      whiteKeysIndex := whites;
      blackKeysIndex := blacks;
      whiteSolenoidIndex := whiteSolenoids;
      blackSolenoidIndex := blackSolenoids;
      solenoids := seq(SolenoidCount, _ => None);
      currentPosition := 0;
      frameTime := 0.0;
      topLine, middleLine, bottomLine := [], [], [];
      new;
      DefaultPiano();
    }

    /** `default_piano`: three blank lines, then the key marks of the white
        keys on the bottom line and of the black keys on the middle line. */
    method DefaultPiano()
      requires whiteKeysIndex == WhiteIndex() && blackKeysIndex == BlackKeysIndex()
      modifies this
      ensures solenoids == old(solenoids) && currentPosition == old(currentPosition) && frameTime == old(frameTime)
      ensures topLine == DefaultTop() && middleLine == DefaultMiddle() && bottomLine == DefaultBottom()
    {
      forall x | x in whiteKeysIndex ensures 0 <= x < LineWidth {
        var n :| 0 <= n < |whiteKeysIndex| && whiteKeysIndex[n] == x;
      }
      forall x | x in blackKeysIndex ensures 0 <= x < LineWidth {
        BlackKeysMembers(x);
      }
      var bottom := MarkKeys(seq(LineWidth, _ => ' '), whiteKeysIndex);
      var middle := MarkKeys(seq(LineWidth, _ => ' '), blackKeysIndex);
      forall i | 0 <= i < LineWidth ensures bottom[i] == DefaultBottom()[i] {
        WhiteIndexMembers(i);
      }
      bottomLine, middleLine, topLine := bottom, middle, seq(LineWidth, _ => ' ');
    }
  
    /** `populate_hand(location)`: the hand moves to the location, then
        white solenoid x takes `white_solenoid_index[x + location]` and
        black solenoid x takes `black_solenoid_index[x + location]`, each
        drawn closed; an index out of range raises IndexError. */
    method PopulateHand(location: int) returns (r: Outcome)
      requires Valid()
      modifies this
      ensures Valid()
      ensures r.Done? <==> Populated(old(Snap()), location).Ok?
      ensures r.Done? ==> Snap() == Populated(old(Snap()), location).value
      ensures r.Raised? ==> Populated(old(Snap()), location) == Err(r.error)
    {
      currentPosition := location;
      ghost var start := Snap();
      ghost var whites, blacks;
      r, whites := PlaceWhites(location);
      if r.Raised? {
        return;
      }
      r, blacks := PlaceBlacks(location);
      if r.Raised? {
        return;
      }
      ApplyThen(start, whites, blacks);
    }

    /** The first loop of `populate_hand`. */
    method PlaceWhites(location: int) returns (r: Outcome, ghost whites: Writes)
      requires Valid()
      modifies this
      ensures Valid()
      ensures r.Done? <==> Collect(Range(WhiteCount), WhiteOf(location)).Ok?
      ensures r.Done? ==> Collect(Range(WhiteCount), WhiteOf(location)) == Ok(whites) && Snap() == Apply(old(Snap()), whites)
      ensures r.Raised? ==> Collect(Range(WhiteCount), WhiteOf(location)) == Err(r.error)
    {
      ghost var start := Snap();
      whites := NoWrites;
      for x := 0 to WhiteCount
        invariant Valid()
        invariant Collect(Range(WhiteCount)[..x], WhiteOf(location)) == Ok(whites)
        invariant Snap() == Apply(start, whites)
      {
        ghost var before := Snap();
        var step, w := PlaceWhite(location, x);
        if step.Raised? {
          CollectRaises(Range(WhiteCount), WhiteOf(location), x, step.error);
          return step, whites;
        }
        CollectOk(Range(WhiteCount), WhiteOf(location), x, whites, w);
        ApplyStep(start, whites, w, before);
        whites := Then(whites, w);
      }
      assert Range(WhiteCount)[..WhiteCount] == Range(WhiteCount);
      return Done, whites;
    }

    /** The body of the first loop of `populate_hand`: white solenoid x
        takes `white_solenoid_index[x + location]`. */
    method PlaceWhite(location: int, x: nat) returns (r: Outcome, ghost w: Writes)
      requires Valid() && x < WhiteCount
      modifies this
      ensures Valid()
      ensures r.Done? ==> WhiteAt(location, x) == Ok(w) && Snap() == Apply(old(Snap()), w)
      ensures r.Raised? ==> WhiteAt(location, x) == Err(r.error)
    {
      w := NoWrites;
      var k := At(|whiteSolenoidIndex|, x + location);
      if k.Err? {
        return Raised(k.error), w;
      }
      var adjusted := whiteSolenoidIndex[k.value];
      var c := At(|middleLine|, adjusted);
      if c.Err? {
        return Raised(c.error), w;
      }
      w := Writes([], [(c.value, ClosedSolenoid)], [], [(x, Some(adjusted))]);
      WrittenOne(middleLine, c.value, ClosedSolenoid);
      WrittenOne(solenoids, x, Some(adjusted));
      middleLine := middleLine[c.value := ClosedSolenoid];
      solenoids := solenoids[x := Some(adjusted)];
      return Done, w;
    }

    /** The second loop of `populate_hand`. */
    method PlaceBlacks(location: int) returns (r: Outcome, ghost blacks: Writes)
      requires Valid()
      modifies this
      ensures Valid()
      ensures r.Done? <==> Collect(Range(BlackCount), BlackOf(location)).Ok?
      ensures r.Done? ==> Collect(Range(BlackCount), BlackOf(location)) == Ok(blacks) && Snap() == Apply(old(Snap()), blacks)
      ensures r.Raised? ==> Collect(Range(BlackCount), BlackOf(location)) == Err(r.error)
    {
      ghost var start := Snap();
      blacks := NoWrites;
      for x := 0 to BlackCount
        invariant Valid()
        invariant Collect(Range(BlackCount)[..x], BlackOf(location)) == Ok(blacks)
        invariant Snap() == Apply(start, blacks)
      {
        ghost var before := Snap();
        var step, w := PlaceBlack(location, x);
        if step.Raised? {
          CollectRaises(Range(BlackCount), BlackOf(location), x, step.error);
          return step, blacks;
        }
        CollectOk(Range(BlackCount), BlackOf(location), x, blacks, w);
        ApplyStep(start, blacks, w, before);
        blacks := Then(blacks, w);
      }
      assert Range(BlackCount)[..BlackCount] == Range(BlackCount);
      return Done, blacks;
    }

    /** The body of the second loop of `populate_hand`: black solenoid x,
        in slot x + 9, takes `black_solenoid_index[x + location]`. */
    method PlaceBlack(location: int, x: nat) returns (r: Outcome, ghost w: Writes)
      requires Valid() && x < BlackCount
      modifies this
      ensures Valid()
      ensures r.Done? ==> BlackAt(location, x) == Ok(w) && Snap() == Apply(old(Snap()), w)
      ensures r.Raised? ==> BlackAt(location, x) == Err(r.error)
    {
      w := NoWrites;
      var k := At(|blackSolenoidIndex|, x + location);
      if k.Err? {
        return Raised(k.error), w;
      }
      var adjusted := blackSolenoidIndex[k.value];
      var c := At(|topLine|, adjusted);
      if c.Err? {
        return Raised(c.error), w;
      }
      w := Writes([(c.value, ClosedSolenoid)], [], [], [(x + TopRowOffset, Some(adjusted))]);
      WrittenOne(topLine, c.value, ClosedSolenoid);
      WrittenOne(solenoids, x + TopRowOffset, Some(adjusted));
      topLine := topLine[c.value := ClosedSolenoid];
      solenoids := solenoids[x + TopRowOffset := Some(adjusted)];
      return Done, w;
    }

    /** `clear_hand`: the column of every slot is blanked, on the top line
        when it is odd and on the middle line when it is even, then every
        slot is emptied; an empty slot raises TypeError, a column out of
        range IndexError. */
    method ClearHand() returns (r: Outcome)
      requires Valid()
      modifies this
      ensures Valid()
      ensures r.Done? <==> Cleared(old(Snap())).Ok?
      ensures r.Done? ==> Snap() == Cleared(old(Snap())).value
      ensures r.Raised? ==> Cleared(old(Snap())) == Err(r.error)
    {
      ghost var start := Snap();
      ghost var acc := NoWrites;
      var slots := solenoids;
      for j := 0 to |slots|
        invariant Valid() && acc.slots == []
        invariant Collect(slots[..j], ClearAt) == Ok(acc)
        invariant Snap() == Apply(start, acc)
      {
        ghost var before := Snap();
        var step, w := ClearSlot(slots[j]);
        if step.Raised? {
          CollectRaises(slots, ClearAt, j, step.error);
          return step;
        }
        CollectOk(slots, ClearAt, j, acc, w);
        ApplyStep(start, acc, w, before);
        acc := Then(acc, w);
      }
      assert slots[..|slots|] == slots;
      solenoids := seq(SolenoidCount, _ => None);
      return Done;
    }

    /** The body of the loop of `clear_hand` for a slot holding sol. */
    method ClearSlot(sol: Option<int>) returns (r: Outcome, ghost w: Writes)
      requires Valid()
      modifies this
      ensures Valid()
      ensures r.Done? ==> ClearAt(sol) == Ok(w) && w.slots == [] && Snap() == Apply(old(Snap()), w)
      ensures r.Raised? ==> ClearAt(sol) == Err(r.error)
    {
      w := NoWrites;
      var v := Slot(sol);
      if v.Err? {
        return Raised(v.error), w;
      }
      if v.value % 2 == 1 {
        var c := At(|topLine|, v.value);
        if c.Err? {
          return Raised(c.error), w;
        }
        w := Writes([(c.value, ' ')], [], [], []);
        WrittenOne(topLine, c.value, ' ');
        topLine := topLine[c.value := ' '];
      } else {
        var c := At(|middleLine|, v.value);
        if c.Err? {
          return Raised(c.error), w;
        }
        w := Writes([], [(c.value, ' ')], [], []);
        WrittenOne(middleLine, c.value, ' ');
        middleLine := middleLine[c.value := ' '];
      }
      return Done, w;
    }

    /** `actuate(solenoid_locations, frame_time)`: each white solenoid
        (index below 9) depresses its key and opens, each black one (9 to
        16) depresses its key or shows a blank one and opens, an index of
        17 or more raises ValueError; then the time is stamped. */
    method Actuate(locations: seq<int>, t: real) returns (r: Outcome)
      requires Valid()
      modifies this
      ensures Valid()
      ensures r.Done? <==> Actuated(old(Snap()), locations, t).Ok?
      ensures r.Done? ==> Snap() == Actuated(old(Snap()), locations, t).value
      ensures r.Raised? ==> Actuated(old(Snap()), locations, t) == Err(r.error)
    {
      ghost var start := Snap();
      ghost var f := ActuateOf(solenoids);
      ghost var acc := NoWrites;
      for i := 0 to |locations|
        invariant Valid() && acc.slots == [] && f == ActuateOf(solenoids)
        invariant Collect(locations[..i], f) == Ok(acc)
        invariant Snap() == Apply(start, acc)
      {
        ghost var before := Snap();
        var step, w := ActuateSolenoid(locations[i]);
        if step.Raised? {
          CollectRaises(locations, f, i, step.error);
          return step;
        }
        CollectOk(locations, f, i, acc, w);
        ApplyStep(start, acc, w, before);
        acc := Then(acc, w);
      }
      assert locations[..|locations|] == locations;
      frameTime := t;
      return Done;
    }

    /** The body of the loop of `actuate` for solenoid index sol. */
    method ActuateSolenoid(sol: int) returns (r: Outcome, ghost w: Writes)
      requires Valid()
      modifies this
      ensures Valid() && solenoids == old(solenoids)
      ensures r.Done? ==> ActuateAt(solenoids, sol) == Ok(w) && w.slots == [] && Snap() == Apply(old(Snap()), w)
      ensures r.Raised? ==> ActuateAt(solenoids, sol) == Err(r.error)
    {
      w := NoWrites;
      if sol >= SolenoidCount {
        return Raised(ValueError), w;
      }
      var j := At(|solenoids|, sol);
      if j.Err? {
        return Raised(j.error), w;
      }
      var v := Slot(solenoids[j.value]);
      if v.Err? {
        return Raised(v.error), w;
      }
      var c := At(|middleLine|, v.value);
      if c.Err? {
        return Raised(c.error), w;
      }
      if sol < TopRowOffset {
        w := Writes([], [(c.value, OpenSolenoid)], [(c.value, DepressKey)], []);
        WrittenOne(bottomLine, c.value, DepressKey);
        WrittenOne(middleLine, c.value, OpenSolenoid);
        bottomLine := bottomLine[c.value := DepressKey];
        middleLine := middleLine[c.value := OpenSolenoid];
      } else {
        var mark := if v.value in blackKeysIndex then DepressKey else DepressBlankKey;
        w := Writes([(c.value, OpenSolenoid)], [(c.value, mark)], [], []);
        WrittenOne(middleLine, c.value, mark);
        WrittenOne(topLine, c.value, OpenSolenoid);
        middleLine := middleLine[c.value := mark];
        topLine := topLine[c.value := OpenSolenoid];
      }
      return Done, w;
    }

    /** `retract(frame_time)`: every white slot's column shows its key and
        a closed solenoid again, every black slot's column its key (or a
        blank) and a closed solenoid on the top line; then the time is
        stamped. An empty slot raises TypeError. */
    method Retract(t: real) returns (r: Outcome)
      requires Valid()
      modifies this
      ensures Valid()
      ensures r.Done? <==> Retracted(old(Snap()), t).Ok?
      ensures r.Done? ==> Snap() == Retracted(old(Snap()), t).value
      ensures r.Raised? ==> Retracted(old(Snap()), t) == Err(r.error)
    {
      ghost var start := Snap();
      ghost var acc := NoWrites;
      var slots := Enumerate(solenoids);
      for n := 0 to |slots|
        invariant Valid() && acc.slots == []
        invariant Collect(slots[..n], RetractAt) == Ok(acc)
        invariant Snap() == Apply(start, acc)
      {
        ghost var before := Snap();
        var (i, sol) := slots[n];
        var step, w := RetractSlot(i, sol);
        if step.Raised? {
          CollectRaises(slots, RetractAt, n, step.error);
          return step;
        }
        CollectOk(slots, RetractAt, n, acc, w);
        ApplyStep(start, acc, w, before);
        acc := Then(acc, w);
      }
      assert slots[..|slots|] == slots;
      frameTime := t;
      return Done;
    }

    /** The body of the loop of `retract` for slot i holding sol. */
    method RetractSlot(i: nat, sol: Option<int>) returns (r: Outcome, ghost w: Writes)
      requires Valid()
      modifies this
      ensures Valid()
      ensures r.Done? ==> RetractAt((i, sol)) == Ok(w) && w.slots == [] && Snap() == Apply(old(Snap()), w)
      ensures r.Raised? ==> RetractAt((i, sol)) == Err(r.error)
    {
      w := NoWrites;
      if i < SolenoidCount {
        var v := Slot(sol);
        if v.Err? {
          return Raised(v.error), w;
        }
        var c := At(|middleLine|, v.value);
        if c.Err? {
          return Raised(c.error), w;
        }
        if i < TopRowOffset {
          w := Writes([], [(c.value, ClosedSolenoid)], [(c.value, KeyMark)], []);
          WrittenOne(bottomLine, c.value, KeyMark);
          WrittenOne(middleLine, c.value, ClosedSolenoid);
          bottomLine := bottomLine[c.value := KeyMark];
          middleLine := middleLine[c.value := ClosedSolenoid];
        } else {
          var mark := if v.value in blackKeysIndex then KeyMark else ' ';
          w := Writes([(c.value, ClosedSolenoid)], [(c.value, mark)], [], []);
          WrittenOne(middleLine, c.value, mark);
          WrittenOne(topLine, c.value, ClosedSolenoid);
          middleLine := middleLine[c.value := mark];
          topLine := topLine[c.value := ClosedSolenoid];
        }
      }
      return Done, w;
    }

    /** `shift_hand(keys_shift, frame_time)`: clear the hand, populate it
        keys_shift keys further along, stamp the time. */
    method ShiftHand(keysShift: int, t: real) returns (r: Outcome)
      requires Valid()
      modifies this
      ensures Valid()
      ensures r.Done? <==> Shifted(old(Snap()), keysShift, t).Ok?
      ensures r.Done? ==> Snap() == Shifted(old(Snap()), keysShift, t).value
      ensures r.Raised? ==> Shifted(old(Snap()), keysShift, t) == Err(r.error)
    {
      ghost var p := Snap();
      r := ClearHand();
      if r.Raised? {
        return;
      }
      ghost var q := Snap();
      ShiftedAfterClear(p, keysShift, t, q);
      var location := keysShift + currentPosition;
      r := PopulateHand(location);
      if r.Raised? {
        return;
      }
      ghost var h := Snap();
      frameTime := t;
      assert Snap() == h.(time := t);
    }
  }
}
