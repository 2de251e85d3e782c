/** The legacy compiler's grouping pass (Old/converter.py:439-511): the
    parsed notes are cut, in order, into groups that the hand can play
    without moving. A note joins the current group while the set of
    positions shared by the group's key-table entries and its own entry is
    non-empty; otherwise the group is closed and the note starts the next
    one. */
module LegacyGroup {
  import opened Common
  import opened StableSort
  import opened LegacyParse

  type Row = seq<Option<int>>

  // ---------------------------------------------------------------------
  // Python helpers: set(), set.intersection, max, min, sorted

  /** `set(row)`: every slot value, None included. */
  function AllSlots(row: Row): set<Option<int>> {
    set o | o in row
  }

  /** The slot values that name a hand position. */
  function RealSlots(row: Row): set<Option<int>> {
    set o | o in row && o.Some?
  }

  /** The slots the pass compares: all of them as written, or only the
      real positions. */
  function Slots(row: Row, realOnly: bool): set<Option<int>> {
    if realOnly then RealSlots(row) else AllSlots(row)
  }

  predicate Distinct(s: Row) {
    forall i, j :: 0 <= i < j < |s| ==> s[i] != s[j]
  }

  /** `set(a).intersection(b)`, listed without repetition. */
  function Intersect(a: Row, b: Row): (r: Row)
    ensures AllSlots(r) == AllSlots(a) * AllSlots(b)
    ensures Distinct(r)
    decreases |a|
  {
    if |a| == 0 then []
    else
      var d := Intersect(a[..|a| - 1], b);
      var o := a[|a| - 1];
      assert AllSlots(a) == AllSlots(a[..|a| - 1]) + {o} by {
        assert a == a[..|a| - 1] + [o];
      }
      assert AllSlots(d + [o]) == AllSlots(d) + {o};
      if o in b && o !in d then d + [o] else d
  }

  lemma {:induction false} DistinctCard(s: Row)
    requires Distinct(s)
    ensures |AllSlots(s)| == |s|
    decreases |s|
  {
    if |s| > 0 {
      var init := s[..|s| - 1];
      DistinctCard(init);
      assert AllSlots(s) == AllSlots(init) + {s[|s| - 1]} by {
        assert s == init + [s[|s| - 1]];
      }
      assert s[|s| - 1] !in AllSlots(init);
    }
  }

  /** Comparing None with anything raises TypeError, so a list can be
      ordered (by max, min or sorted) only when it has at most one element
      or no None. */
  predicate PyOrderable(l: Row) {
    |l| <= 1 || None !in l
  }

  function MaxInt(l: Row): (m: int)
    requires |l| >= 1 && None !in l
    ensures Some(m) in l && forall i :: 0 <= i < |l| ==> l[i].value <= m
    decreases |l|
  {
    if |l| == 1 then l[0].value
    else
      var m := MaxInt(l[..|l| - 1]);
      assert forall i :: 0 <= i < |l| - 1 ==> l[..|l| - 1][i] == l[i];
      if l[|l| - 1].value > m then l[|l| - 1].value else m
  }

  function MinInt(l: Row): (m: int)
    requires |l| >= 1 && None !in l
    ensures Some(m) in l && forall i :: 0 <= i < |l| ==> m <= l[i].value
    decreases |l|
  {
    if |l| == 1 then l[0].value
    else
      var m := MinInt(l[..|l| - 1]);
      assert forall i :: 0 <= i < |l| - 1 ==> l[..|l| - 1][i] == l[i];
      if l[|l| - 1].value < m then l[|l| - 1].value else m
  }

  /** `max(l)`. */
  function PyMax(l: Row): (r: Result<Option<int>>)
    ensures r.Err? <==> |l| == 0 || !PyOrderable(l)
    ensures r.Err? ==> r.error == (if |l| == 0 then ValueError else TypeError)
    ensures r.Ok? ==> r.value in l && (r.value.Some? ==> forall i :: 0 <= i < |l| ==> l[i].value <= r.value.value)
  {
    if |l| == 0 then Err(ValueError)
    else if |l| == 1 then Ok(l[0])
    else if None in l then Err(TypeError)
    else Ok(Some(MaxInt(l)))
  }

  /** `min(l)`. */
  function PyMin(l: Row): (r: Result<Option<int>>)
    ensures r.Err? <==> |l| == 0 || !PyOrderable(l)
    ensures r.Err? ==> r.error == (if |l| == 0 then ValueError else TypeError)
    ensures r.Ok? ==> r.value in l && (r.value.Some? ==> forall i :: 0 <= i < |l| ==> r.value.value <= l[i].value)
  {
    if |l| == 0 then Err(ValueError)
    else if |l| == 1 then Ok(l[0])
    else if None in l then Err(TypeError)
    else Ok(Some(MinInt(l)))
  }

  function PositionKey(o: Option<int>): real {
    if o.Some? then o.value as real else 0.0
  }

  /** `sorted(l)`. */
  function PySorted(l: Row): (r: Result<Row>)
    ensures r.Err? <==> !PyOrderable(l)
    ensures r.Err? ==> r.error == TypeError
    ensures r.Ok? ==> multiset(r.value) == multiset(l) && SortedBy(r.value, PositionKey)
  {
    if |l| <= 1 then Ok(l)
    else if None in l then Err(TypeError)
    else
      SortProps(l, PositionKey);
      Ok(Sort(l, PositionKey))
  }

  // ---------------------------------------------------------------------
  // The reference partition

  /** Every note's place names an entry of the key table. */
  predicate InRange(table: seq<Row>, notes: seq<NoteValue>) {
    forall i :: 0 <= i < |notes| ==> 0 <= notes[i].place < |table|
  }

  /** InRange, note by note from the back. */
  function AllIn(table: seq<Row>, notes: seq<NoteValue>): bool
    decreases |notes|
  {
    |notes| == 0 || (AllIn(table, notes[..|notes| - 1]) && 0 <= notes[|notes| - 1].place < |table|)
  }

  lemma {:induction false} AllInRange(table: seq<Row>, notes: seq<NoteValue>)
    ensures AllIn(table, notes) <==> InRange(table, notes)
    decreases |notes|
  {
    if |notes| > 0 {
      var init := notes[..|notes| - 1];
      AllInRange(table, init);
      assert forall i :: 0 <= i < |init| ==> init[i] == notes[i];
    }
  }

  /** The key-table entry of a note (empty for a place off the table). */
  function EntryOf(table: seq<Row>, n: NoteValue): Row {
    if 0 <= n.place < |table| then table[n.place] else []
  }

  /** The positions shared by every note of a group. */
  function Shared(table: seq<Row>, g: seq<NoteValue>, realOnly: bool): set<Option<int>>
    decreases |g|
  {
    if |g| == 0 then {}
    else if |g| == 1 then Slots(EntryOf(table, g[0]), realOnly)
    else Shared(table, g[..|g| - 1], realOnly) * Slots(EntryOf(table, g[|g| - 1]), realOnly)
  }

  /** Whether note n may join a group: they share a position. */
  predicate Joins(table: seq<Row>, g: seq<NoteValue>, n: NoteValue, realOnly: bool) {
    Shared(table, g, realOnly) * Slots(EntryOf(table, n), realOnly) != {}
  }

  /** One more note: it joins the last group when they share a position,
      and starts a new group otherwise. */
  function AddNote(table: seq<Row>, gs: seq<seq<NoteValue>>, n: NoteValue, realOnly: bool): seq<seq<NoteValue>> {
    if |gs| == 0 then [[n]]
    else if Joins(table, gs[|gs| - 1], n, realOnly) then gs[..|gs| - 1] + [gs[|gs| - 1] + [n]]
    else gs + [[n]]
  }

  /** The greedy cut of the notes into groups, note by note. */
  function Groups(table: seq<Row>, notes: seq<NoteValue>, realOnly: bool): (gs: seq<seq<NoteValue>>)
    ensures (|gs| == 0) <==> (|notes| == 0)
    decreases |notes|
  {
    if |notes| == 0 then []
    else AddNote(table, Groups(table, notes[..|notes| - 1], realOnly), notes[|notes| - 1], realOnly)
  }

  function Flatten<T>(gs: seq<seq<T>>): seq<T>
    decreases |gs|
  {
    if |gs| == 0 then [] else Flatten(gs[..|gs| - 1]) + gs[|gs| - 1]
  }

  lemma FlattenAppend<T>(gs: seq<seq<T>>, g: seq<T>)
    ensures Flatten(gs + [g]) == Flatten(gs) + g
  {
    assert (gs + [g])[..|gs|] == gs;
  }

  lemma AddNoteFlatten(table: seq<Row>, gs: seq<seq<NoteValue>>, n: NoteValue, realOnly: bool)
    ensures Flatten(AddNote(table, gs, n, realOnly)) == Flatten(gs) + [n]
  {
    if |gs| == 0 {
      FlattenAppend(gs, [n]);
    } else {
      var last := gs[|gs| - 1];
      var front := gs[..|gs| - 1];
      assert gs == front + [last];
      FlattenAppend(front, last);
      if Joins(table, last, n, realOnly) {
        FlattenAppend(front, last + [n]);
      } else {
        FlattenAppend(gs, [n]);
      }
    }
  }

  /** The groups are the notes, in order, cut into runs. */
  lemma {:induction false} GroupsFlatten(table: seq<Row>, notes: seq<NoteValue>, realOnly: bool)
    ensures Flatten(Groups(table, notes, realOnly)) == notes
    decreases |notes|
  {
    if |notes| > 0 {
      var init := notes[..|notes| - 1];
      var n := notes[|notes| - 1];
      assert notes == init + [n];
      var gi := Groups(table, init, realOnly);
      GroupsFlatten(table, init, realOnly);
      AddNoteFlatten(table, gi, n, realOnly);
      assert Groups(table, notes, realOnly) == AddNote(table, gi, n, realOnly);
    }
  }

  /** Every note after the first of a group shares a position with the
      notes before it. */
  ghost predicate Cohesive(table: seq<Row>, g: seq<NoteValue>, realOnly: bool) {
    forall i :: 1 <= i < |g| ==> Joins(table, g[..i], g[i], realOnly)
  }

  /** The first note of every group after the first shares no position
      with the group before it. */
  ghost predicate Maximal(table: seq<Row>, gs: seq<seq<NoteValue>>, realOnly: bool) {
    forall k :: 1 <= k < |gs| && |gs[k]| >= 1 ==> !Joins(table, gs[k - 1], gs[k][0], realOnly)
  }

  /** No group is empty. */
  ghost predicate NonEmpty(gs: seq<seq<NoteValue>>) {
    forall k :: 0 <= k < |gs| ==> |gs[k]| >= 1
  }

  /** The cut is greedy: groups are non-empty, cohesive and maximal. */
  ghost predicate Greedy(table: seq<Row>, gs: seq<seq<NoteValue>>, realOnly: bool) {
    NonEmpty(gs) && (forall k :: 0 <= k < |gs| ==> Cohesive(table, gs[k], realOnly)) && Maximal(table, gs, realOnly)
  }

  lemma CohesiveExtend(table: seq<Row>, g: seq<NoteValue>, n: NoteValue, realOnly: bool)
    requires Cohesive(table, g, realOnly) && Joins(table, g, n, realOnly)
    ensures Cohesive(table, g + [n], realOnly)
  {
    var h := g + [n];
    forall i | 1 <= i < |h|
      ensures Joins(table, h[..i], h[i], realOnly)
    {
      if i < |g| {
        assert h[..i] == g[..i];
      } else {
        assert h[..i] == g;
      }
    }
  }

  lemma AddNoteGreedy(table: seq<Row>, gs: seq<seq<NoteValue>>, n: NoteValue, realOnly: bool)
    requires Greedy(table, gs, realOnly)
    ensures Greedy(table, AddNote(table, gs, n, realOnly), realOnly)
  {
    if |gs| == 0 {
      assert Cohesive(table, [n], realOnly);
    } else if Joins(table, gs[|gs| - 1], n, realOnly) {
      JoinGreedy(table, gs, n, realOnly);
    } else {
      StartGreedy(table, gs, n, realOnly);
    }
  }

  lemma JoinGreedy(table: seq<Row>, gs: seq<seq<NoteValue>>, n: NoteValue, realOnly: bool)
    requires |gs| >= 1 && Greedy(table, gs, realOnly)
    requires Joins(table, gs[|gs| - 1], n, realOnly)
    ensures Greedy(table, gs[..|gs| - 1] + [gs[|gs| - 1] + [n]], realOnly)
  {
    JoinGroups(table, gs, n, realOnly);
    JoinMaximal(table, gs, n, realOnly);
  }

  /** Joining keeps every group non-empty and cohesive. */
  lemma JoinGroups(table: seq<Row>, gs: seq<seq<NoteValue>>, n: NoteValue, realOnly: bool)
    requires |gs| >= 1 && NonEmpty(gs) && forall k :: 0 <= k < |gs| ==> Cohesive(table, gs[k], realOnly)
    requires Joins(table, gs[|gs| - 1], n, realOnly)
    ensures var r := gs[..|gs| - 1] + [gs[|gs| - 1] + [n]];
            NonEmpty(r) && forall k :: 0 <= k < |r| ==> Cohesive(table, r[k], realOnly)
  {
    var last := gs[|gs| - 1];
    var r := gs[..|gs| - 1] + [last + [n]];
    CohesiveExtend(table, last, n, realOnly);
    forall k | 0 <= k < |r|
      ensures |r[k]| >= 1 && Cohesive(table, r[k], realOnly)
    {
      if k < |r| - 1 {
        assert r[k] == gs[k];
      }
    }
  }

  /** Joining keeps every boundary between groups maximal. */
  lemma JoinMaximal(table: seq<Row>, gs: seq<seq<NoteValue>>, n: NoteValue, realOnly: bool)
    requires |gs| >= 1 && NonEmpty(gs) && Maximal(table, gs, realOnly)
    ensures Maximal(table, gs[..|gs| - 1] + [gs[|gs| - 1] + [n]], realOnly)
  {
    var r := gs[..|gs| - 1] + [gs[|gs| - 1] + [n]];
    forall k | 1 <= k < |r| && |r[k]| >= 1
      ensures !Joins(table, r[k - 1], r[k][0], realOnly)
    {
      assert r[k - 1] == gs[k - 1];
      if k < |r| - 1 {
        assert r[k] == gs[k];
      } else {
        assert r[k][0] == gs[k][0];
      }
    }
  }

  lemma StartGreedy(table: seq<Row>, gs: seq<seq<NoteValue>>, n: NoteValue, realOnly: bool)
    requires |gs| >= 1 && Greedy(table, gs, realOnly)
    requires !Joins(table, gs[|gs| - 1], n, realOnly)
    ensures Greedy(table, gs + [[n]], realOnly)
  {
    StartGroups(table, gs, n, realOnly);
    StartMaximal(table, gs, n, realOnly);
  }

  /** A new group of one note is non-empty and cohesive. */
  lemma StartGroups(table: seq<Row>, gs: seq<seq<NoteValue>>, n: NoteValue, realOnly: bool)
    requires NonEmpty(gs) && forall k :: 0 <= k < |gs| ==> Cohesive(table, gs[k], realOnly)
    ensures var r := gs + [[n]];
            NonEmpty(r) && forall k :: 0 <= k < |r| ==> Cohesive(table, r[k], realOnly)
  {
    var r := gs + [[n]];
    assert Cohesive(table, [n], realOnly);
    forall k | 0 <= k < |r|
      ensures |r[k]| >= 1 && Cohesive(table, r[k], realOnly)
    {
      if k < |gs| {
        assert r[k] == gs[k];
      }
    }
  }

  /** A new group starts only where the note cannot join. */
  lemma StartMaximal(table: seq<Row>, gs: seq<seq<NoteValue>>, n: NoteValue, realOnly: bool)
    requires |gs| >= 1 && Maximal(table, gs, realOnly)
    requires !Joins(table, gs[|gs| - 1], n, realOnly)
    ensures Maximal(table, gs + [[n]], realOnly)
  {
    var r := gs + [[n]];
    forall k | 1 <= k < |r| && |r[k]| >= 1
      ensures !Joins(table, r[k - 1], r[k][0], realOnly)
    {
      assert r[k - 1] == gs[k - 1];
      if k < |gs| {
        assert r[k] == gs[k];
      }
    }
  }

  /** A new group starts exactly when the next note shares no position
      with the running group: each group is cohesive and no two
      neighbouring groups could have been one. */
  lemma {:induction false} GroupsGreedy(table: seq<Row>, notes: seq<NoteValue>, realOnly: bool)
    ensures Greedy(table, Groups(table, notes, realOnly), realOnly)
    decreases |notes|
  {
    if |notes| > 0 {
      var init := notes[..|notes| - 1];
      GroupsGreedy(table, init, realOnly);
      AddNoteGreedy(table, Groups(table, init, realOnly), notes[|notes| - 1], realOnly);
    }
  }

  // ---------------------------------------------------------------------
  // The running minimum and maximum of a group's places

  /** The least of ps[0..i], taken note by note as the pass does. */
  function MinTo(ps: seq<int>, i: nat): int
    requires i < |ps|
    decreases i
  {
    if i == 0 then ps[0]
    else
      var m := MinTo(ps, i - 1);
      if ps[i] < m then ps[i] else m
  }

  /** The greatest of ps[0..i]. */
  function MaxTo(ps: seq<int>, i: nat): int
    requires i < |ps|
    decreases i
  {
    if i == 0 then ps[0]
    else
      var m := MaxTo(ps, i - 1);
      if ps[i] > m then ps[i] else m
  }

  function MinOf(s: seq<int>): int
    requires |s| >= 1
  {
    MinTo(s, |s| - 1)
  }

  function MaxOf(s: seq<int>): int
    requires |s| >= 1
  {
    MaxTo(s, |s| - 1)
  }

  /** MinTo is the least of the places up to i, and one of them. */
  lemma {:induction false} MinToIsMin(s: seq<int>, i: nat)
    requires i < |s|
    ensures exists j :: 0 <= j <= i && s[j] == MinTo(s, i)
    ensures forall j :: 0 <= j <= i ==> MinTo(s, i) <= s[j]
  {
    if i > 0 {
      MinToIsMin(s, i - 1);
      if s[i] >= MinTo(s, i - 1) {
        var j :| 0 <= j <= i - 1 && s[j] == MinTo(s, i - 1);
        assert s[j] == MinTo(s, i);
      } else {
        assert s[i] == MinTo(s, i);
      }
    } else {
      assert s[0] == MinTo(s, 0);
    }
  }

  /** MaxTo is the greatest of the places up to i, and one of them. */
  lemma {:induction false} MaxToIsMax(s: seq<int>, i: nat)
    requires i < |s|
    ensures exists j :: 0 <= j <= i && s[j] == MaxTo(s, i)
    ensures forall j :: 0 <= j <= i ==> s[j] <= MaxTo(s, i)
  {
    if i > 0 {
      MaxToIsMax(s, i - 1);
      if s[i] <= MaxTo(s, i - 1) {
        var j :| 0 <= j <= i - 1 && s[j] == MaxTo(s, i - 1);
        assert s[j] == MaxTo(s, i);
      } else {
        assert s[i] == MaxTo(s, i);
      }
    } else {
      assert s[0] == MaxTo(s, 0);
    }
  }

  /** MinOf is the least of the places, and one of them. */
  lemma MinOfIsMin(s: seq<int>)
    requires |s| >= 1
    ensures MinOf(s) in s && forall i :: 0 <= i < |s| ==> MinOf(s) <= s[i]
  {
    MinToIsMin(s, |s| - 1);
  }

  /** MaxOf is the greatest of the places, and one of them. */
  lemma MaxOfIsMax(s: seq<int>)
    requires |s| >= 1
    ensures MaxOf(s) in s && forall i :: 0 <= i < |s| ==> s[i] <= MaxOf(s)
  {
    MaxToIsMax(s, |s| - 1);
  }

  /** A note appended later does not change the running values before it. */
  lemma {:induction false} RunningAppend(ps: seq<int>, p: int, i: nat)
    requires i < |ps|
    ensures MinTo(ps + [p], i) == MinTo(ps, i) && MaxTo(ps + [p], i) == MaxTo(ps, i)
  {
    assert (ps + [p])[i] == ps[i];
    if i > 0 {
      RunningAppend(ps, p, i - 1);
    }
  }

  /** How far the running minimum of the places drops at note i + 1 (0
      when it does not drop, and for the last note). */
  function Drop(ps: seq<int>, i: int): int
    requires 0 <= i < |ps|
  {
    if i + 1 < |ps| && ps[i + 1] < MinTo(ps, i) then ps[i + 1] - MinTo(ps, i) else 0
  }

  /** How far the running maximum of the places rises at note i + 1. */
  function Rise(ps: seq<int>, i: int): int
    requires 0 <= i < |ps|
  {
    if i + 1 < |ps| && ps[i + 1] > MaxTo(ps, i) then ps[i + 1] - MaxTo(ps, i) else 0
  }

  /** A group's `changes` list: one Drop per note. */
  function ChangesOf(ps: seq<int>): seq<int> {
    seq(|ps|, i requires 0 <= i < |ps| => Drop(ps, i))
  }

  /** A group's `adjust` list: one Rise per note. */
  function AdjustOf(ps: seq<int>): seq<int> {
    seq(|ps|, i requires 0 <= i < |ps| => Rise(ps, i))
  }

  // ---------------------------------------------------------------------
  // The pass itself

  function Places(g: seq<NoteValue>): (r: seq<int>)
    ensures |r| == |g| && forall i :: 0 <= i < |g| ==> r[i] == g[i].place
  {
    seq(|g|, i requires 0 <= i < |g| => g[i].place)
  }

  /** `int(note[0])` for each note: the parser has already converted the
      same text into noteType. */
  function Types(g: seq<NoteValue>): (r: seq<int>)
    ensures |r| == |g| && forall i :: 0 <= i < |g| ==> r[i] == g[i].noteType
  {
    seq(|g|, i requires 0 <= i < |g| => g[i].noteType)
  }

  /** `playList`: the key-table entry itself while the group has one note,
      afterwards the Python set of shared positions (listed once each). */
  datatype Pool = RowPool(row: Row) | SetPool(elems: Row)

  function PoolList(p: Pool): Row {
    match p
    case RowPool(row) => row
    case SetPool(elems) => elems
  }

  /** One entry of playSet: the sorted shared positions, the places, the
      highest and lowest shared position and the note types. */
  datatype Group = Group(playList: Row, places: seq<int>, top: Option<int>, bottom: Option<int>, setValues: seq<int>)

  datatype Grouping = Grouping(playSet: seq<Group>, forwardChange: seq<seq<int>>, forwardAdjust: seq<seq<int>>)

  /** Whether closing a group can order its positions without comparing
      None with a number. */
  predicate Orderable(table: seq<Row>, g: seq<NoteValue>) {
    if |g| == 1 then PyOrderable(EntryOf(table, g[0]))
    else |Shared(table, g, false)| <= 1 || None !in Shared(table, g, false)
  }

  ghost predicate AllOrderable(table: seq<Row>, gs: seq<seq<NoteValue>>) {
    forall k :: 0 <= k < |gs| ==> Orderable(table, gs[k])
  }

  /** The top and bottom of a group are shared positions, and bound every
      shared position that is a number. */
  ghost predicate Bounds(grp: Group, s: set<Option<int>>) {
    grp.top in s && grp.bottom in s &&
    forall o :: o in s && o.Some? ==>
      grp.top.Some? && grp.bottom.Some? && grp.bottom.value <= o.value <= grp.top.value
  }

  /** What a closed group holds for the notes g. */
  ghost predicate GroupOf(grp: Group, changes: seq<int>, adjust: seq<int>, table: seq<Row>, g: seq<NoteValue>) {
    var s := Shared(table, g, false);
    && |g| >= 1
    && grp.places == Places(g)
    && grp.setValues == Types(g)
    && changes == ChangesOf(Places(g))
    && adjust == AdjustOf(Places(g))
    && AllSlots(grp.playList) == s
    && SortedBy(grp.playList, PositionKey)
    && (|g| == 1 ==> multiset(grp.playList) == multiset(EntryOf(table, g[0])))
    && (|g| >= 2 ==> |grp.playList| == |s|)
    && Bounds(grp, s)
  }

  ghost predicate Describes(res: Grouping, table: seq<Row>, gs: seq<seq<NoteValue>>) {
    && |res.playSet| == |gs| && |res.forwardChange| == |gs| && |res.forwardAdjust| == |gs|
    && forall k :: 0 <= k < |gs| ==> GroupOf(res.playSet[k], res.forwardChange[k], res.forwardAdjust[k], table, gs[k])
  }

  /** The pool holds the entry of a lone note, or exactly the positions
      the group shares. */
  ghost predicate PoolOf(pool: Pool, table: seq<Row>, g: seq<NoteValue>) {
    if |g| == 0 then false
    else if |g| == 1 then pool == RowPool(EntryOf(table, g[0]))
    else pool.SetPool? && Distinct(pool.elems) && AllSlots(pool.elems) == Shared(table, g, false)
  }

  /** h keeps every group of g but the last. */
  ghost predicate KeepsFront(g: seq<seq<NoteValue>>, h: seq<seq<NoteValue>>) {
    |g| <= |h| && forall k :: 0 <= k < |g| - 1 ==> h[k] == g[k]
  }

  lemma AddNotePrefix(table: seq<Row>, gs: seq<seq<NoteValue>>, n: NoteValue, realOnly: bool)
    ensures KeepsFront(gs, AddNote(table, gs, n, realOnly))
  {
  }

  /** The groups closed so far: every group of gs but the last. */
  ghost predicate ClosedGroups(playSet: seq<Group>, forwardChange: seq<seq<int>>, forwardAdjust: seq<seq<int>>,
                               table: seq<Row>, gs: seq<seq<NoteValue>>)
  {
    && |gs| >= 1 && NonEmpty(gs)
    && |playSet| == |gs| - 1 && |forwardChange| == |gs| - 1 && |forwardAdjust| == |gs| - 1
    && forall k :: 0 <= k < |gs| - 1 ==>
         GroupOf(playSet[k], forwardChange[k], forwardAdjust[k], table, gs[k]) && Orderable(table, gs[k])
  }

  /** The state of the group being built. */
  ghost predicate OpenGroup(places: seq<int>, setValues: seq<int>, changes: seq<int>, adjust: seq<int>,
                            spots: seq<int>, locate: seq<int>, playList: Pool, table: seq<Row>, cur: seq<NoteValue>)
  {
    && |cur| >= 1
    && places == Places(cur) && setValues == Types(cur)
    && changes == ChangesOf(places) && adjust == AdjustOf(places)
    && |spots| >= 1 && spots[|spots| - 1] == MinOf(places)
    && |locate| >= 1 && locate[|locate| - 1] == MaxOf(places)
    && PoolOf(playList, table, cur) && |PoolList(playList)| >= 1
  }

  lemma CloseGroup(playSet: seq<Group>, forwardChange: seq<seq<int>>, forwardAdjust: seq<seq<int>>,
                   table: seq<Row>, gs: seq<seq<NoteValue>>, grp: Group, n: NoteValue)
    requires ClosedGroups(playSet, forwardChange, forwardAdjust, table, gs)
    requires var cur := gs[|gs| - 1];
             GroupOf(grp, ChangesOf(Places(cur)), AdjustOf(Places(cur)), table, cur) && Orderable(table, cur)
    ensures var cur := gs[|gs| - 1];
            ClosedGroups(playSet + [grp], forwardChange + [ChangesOf(Places(cur))],
                         forwardAdjust + [AdjustOf(Places(cur))], table, gs + [[n]])
  {
  }

  lemma JoinGroup(playSet: seq<Group>, forwardChange: seq<seq<int>>, forwardAdjust: seq<seq<int>>,
                  table: seq<Row>, gs: seq<seq<NoteValue>>, n: NoteValue)
    requires ClosedGroups(playSet, forwardChange, forwardAdjust, table, gs)
    ensures ClosedGroups(playSet, forwardChange, forwardAdjust, table, gs[..|gs| - 1] + [gs[|gs| - 1] + [n]])
  {
    var h := gs[..|gs| - 1] + [gs[|gs| - 1] + [n]];
    assert forall k :: 0 <= k < |gs| - 1 ==> h[k] == gs[k];
  }

  /** Later notes only extend the last group or add new ones: the groups
      before the last are never touched again. */
  lemma {:induction false} GroupsPrefix(table: seq<Row>, notes: seq<NoteValue>, x: nat, realOnly: bool)
    requires x <= |notes|
    ensures KeepsFront(Groups(table, notes[..x], realOnly), Groups(table, notes, realOnly))
    decreases |notes|
  {
    if x < |notes| {
      var init := notes[..|notes| - 1];
      GroupsPrefix(table, init, x, realOnly);
      assert init[..x] == notes[..x];
      var gi := Groups(table, init, realOnly);
      AddNotePrefix(table, gi, notes[|notes| - 1], realOnly);
    } else {
      assert notes[..x] == notes;
    }
  }

  /** A group that is closed when note x starts a new one is a group of
      the whole pass. */
  lemma ClosedIsFinal(table: seq<Row>, notes: seq<NoteValue>, x: nat)
    requires 1 <= x < |notes|
    requires var g := Groups(table, notes[..x], false);
             !Joins(table, g[|g| - 1], notes[x], false)
    ensures var g := Groups(table, notes[..x], false);
            var h := Groups(table, notes, false);
            |g| <= |h| && forall k :: 0 <= k < |g| ==> h[k] == g[k]
  {
    var g := Groups(table, notes[..x], false);
    assert notes[..x + 1][..x] == notes[..x];
    var g1 := Groups(table, notes[..x + 1], false);
    assert g1 == g + [[notes[x]]];
    GroupsPrefix(table, notes, x + 1, false);
    assert forall k :: 0 <= k < |g| ==> g1[k] == g[k];
  }

  /** A group that cannot be ordered when it is closed stays a group of the
      final partition, so the partition is not orderable either. */
  lemma ClosedNotOrderable(table: seq<Row>, notes: seq<NoteValue>, x: nat)
    requires 1 <= x < |notes|
    requires var g := Groups(table, notes[..x], false);
             |g| >= 1 && !Joins(table, g[|g| - 1], notes[x], false) && !Orderable(table, g[|g| - 1])
    ensures !AllOrderable(table, Groups(table, notes, false))
  {
    ClosedIsFinal(table, notes, x);
    var g := Groups(table, notes[..x], false);
    assert Groups(table, notes, false)[|g| - 1] == g[|g| - 1];
  }

  /** A note that fails the pass is off the key table, or closes a group
      that cannot be ordered, so that not every greedy group can be. */
  lemma FailedStep(table: seq<Row>, notes: seq<NoteValue>, x: nat)
    requires x < |notes|
    requires var g := Groups(table, notes[..x], false);
             notes[x].place >= |table| || (|g| >= 1 && !Joins(table, g[|g| - 1], notes[x], false) && !Orderable(table, g[|g| - 1]))
    ensures InRange(table, notes) ==> notes[x].place < |table| && !AllOrderable(table, Groups(table, notes, false))
  {
    if InRange(table, notes) {
      assert notes[x].place < |table|;
      assert |notes[..x]| >= 1;
      ClosedNotOrderable(table, notes, x);
    }
  }

  lemma SlotsOfPermutation(a: Row, b: Row)
    requires multiset(a) == multiset(b)
    ensures AllSlots(a) == AllSlots(b)
  {
    forall o ensures o in AllSlots(a) <==> o in AllSlots(b) {
      assert o in a <==> o in multiset(a);
      assert o in b <==> o in multiset(b);
    }
  }

  /** Closing a pool: max, min and sorted, in the source's order. */
  lemma CloseProps(pool: Pool, table: seq<Row>, g: seq<NoteValue>, grp: Group)
    requires |g| >= 1 && PoolOf(pool, table, g)
    requires PyMax(PoolList(pool)) == Ok(grp.top) && PyMin(PoolList(pool)) == Ok(grp.bottom)
    requires PySorted(PoolList(pool)) == Ok(grp.playList)
    requires grp.places == Places(g) && grp.setValues == Types(g)
    ensures GroupOf(grp, ChangesOf(Places(g)), AdjustOf(Places(g)), table, g)
  {
    var l := PoolList(pool);
    SlotsOfPermutation(grp.playList, l);
    assert |grp.playList| == |l| by {
      assert |multiset(grp.playList)| == |multiset(l)|;
    }
    if |g| >= 2 {
      DistinctCard(pool.elems);
    }
  }

  /** Closing the pool fails exactly when the group is not orderable. */
  lemma CloseFails(pool: Pool, table: seq<Row>, g: seq<NoteValue>)
    requires |g| >= 1 && PoolOf(pool, table, g) && |PoolList(pool)| >= 1
    ensures PyMax(PoolList(pool)).Ok? <==> Orderable(table, g)
  {
    if |g| >= 2 {
      DistinctCard(pool.elems);
      assert None in pool.elems <==> None in AllSlots(pool.elems);
    }
  }

  /** Joining: the intersection is the pool of the longer group. */
  lemma JoinPool(pool: Pool, table: seq<Row>, g: seq<NoteValue>, n: NoteValue)
    requires |g| >= 1 && PoolOf(pool, table, g)
    ensures var hold := Intersect(PoolList(pool), EntryOf(table, n));
            (hold != [] <==> Joins(table, g, n, false)) &&
            (hold != [] ==> PoolOf(SetPool(hold), table, g + [n]))
  {
    var hold := Intersect(PoolList(pool), EntryOf(table, n));
    assert (g + [n])[..|g|] == g;
    assert AllSlots(PoolList(pool)) == Shared(table, g, false);
    if hold != [] {
      assert hold[0] in AllSlots(hold);
    }
  }

  lemma GroupsStep(table: seq<Row>, notes: seq<NoteValue>, x: nat)
    requires x < |notes|
    ensures Groups(table, notes[..x + 1], false) == AddNote(table, Groups(table, notes[..x], false), notes[x], false)
  {
    assert notes[..x + 1][..x] == notes[..x];
  }

  /** Closing a group: `top = max(playList)`, `bottom = min(playList)`,
      `playList = sorted(playList)` and the playSet entry (the source
      writes these lines twice, inside and after the loop). */
  method Close(playList: Pool, places: seq<int>, setValues: seq<int>, ghost table: seq<Row>, ghost g: seq<NoteValue>)
    returns (r: Result<Group>)
    requires PoolOf(playList, table, g) && |PoolList(playList)| >= 1
    requires places == Places(g) && setValues == Types(g)
    ensures r.Ok? <==> Orderable(table, g)
    ensures r.Err? ==> r.error == TypeError
    ensures r.Ok? ==> GroupOf(r.value, ChangesOf(places), AdjustOf(places), table, g)
  {
    CloseFails(playList, table, g);
    var top :- PyMax(PoolList(playList));
    // once max() has succeeded, min() and sorted() cannot raise
    var bottom := PyMin(PoolList(playList)).value;
    var sorted := PySorted(PoolList(playList)).value;
    var grp := Group(sorted, places, top, bottom, setValues);
    CloseProps(playList, table, g, grp);
    return Ok(grp);
  }

  /** The state after a note starts a group. */
  lemma StartState(table: seq<Row>, note: NoteValue)
    requires 0 <= note.place < |table| && |table[note.place]| >= 1
    ensures OpenGroup([note.place], [note.noteType], [0], [0], [note.place], [note.place],
                      RowPool(table[note.place]), table, [note])
  {
    assert Places([note]) == [note.place];
    assert Types([note]) == [note.noteType];
  }

  /** The changes list and the spots list after a note joins. */
  lemma RunningMin(places: seq<int>, changes: seq<int>, spots: seq<int>, p: int, changes2: seq<int>, spots2: seq<int>)
    requires |places| >= 1 && changes == ChangesOf(places)
    requires |spots| >= 1 && spots[|spots| - 1] == MinOf(places)
    requires spots2 == if p < MinOf(places) then spots + [p] else spots
    requires changes2 == (changes + [0])[|changes| - 1 := if p < MinOf(places) then p - MinOf(places) else 0]
    ensures changes2 == ChangesOf(places + [p])
    ensures |spots2| >= 1 && spots2[|spots2| - 1] == MinOf(places + [p])
  {
    var ps := places + [p];
    var n := |places|;
    RunningAppend(places, p, n - 1);
    forall i | 0 <= i < n + 1
      ensures changes2[i] == Drop(ps, i)
    {
      if i < n {
        RunningAppend(places, p, i);
        assert ps[i + 1] == if i + 1 < n then places[i + 1] else p;
      }
    }
  }



  /** The adjust list and the locate list after a note joins. */
  lemma RunningMax(places: seq<int>, adjust: seq<int>, locate: seq<int>, p: int, adjust2: seq<int>, locate2: seq<int>)
    requires |places| >= 1 && adjust == AdjustOf(places)
    requires |locate| >= 1 && locate[|locate| - 1] == MaxOf(places)
    requires locate2 == if p > MaxOf(places) then locate + [p] else locate
    requires adjust2 == (adjust + [0])[|adjust| - 1 := if p > MaxOf(places) then p - MaxOf(places) else 0]
    ensures adjust2 == AdjustOf(places + [p])
    ensures |locate2| >= 1 && locate2[|locate2| - 1] == MaxOf(places + [p])
  {
    var ps := places + [p];
    var n := |places|;
    RunningAppend(places, p, n - 1);
    forall i | 0 <= i < n + 1
      ensures adjust2[i] == Rise(ps, i)
    {
      if i < n {
        RunningAppend(places, p, i);
        assert ps[i + 1] == if i + 1 < n then places[i + 1] else p;
      }
    }
  }



  /** The running-minimum bookkeeping when a note joins: a place below
      every earlier one is appended to spots, and the drop is written into
      the previous note's changes entry. */
  method FollowMin(places: seq<int>, spots: seq<int>, changes: seq<int>) returns (spots2: seq<int>, changes2: seq<int>)
    requires |places| >= 2 && changes == ChangesOf(places[..|places| - 1]) + [0]
    requires |spots| >= 1 && spots[|spots| - 1] == MinOf(places[..|places| - 1])
    ensures changes2 == ChangesOf(places)
    ensures |spots2| >= 1 && spots2[|spots2| - 1] == MinOf(places)
  {
    ghost var init := places[..|places| - 1];
    ghost var changesIn := changes[..|changes| - 1];
    assert changes == changesIn + [0];
    spots2, changes2 := spots, changes;
    if places[|places| - 1] < spots2[|spots2| - 1] {
      spots2 := spots2 + [places[|places| - 1]];
      changes2 := changes2[|changes2| - 2 := spots2[|spots2| - 1] - spots2[|spots2| - 2]];
    }
    RunningMin(init, changesIn, spots, places[|places| - 1], changes2, spots2);
    assert init + [places[|places| - 1]] == places;
  }

  /** The running-maximum bookkeeping when a note joins: a place above
      every earlier one is appended to locate, and the rise is written into
      the previous note's adjust entry. */
  method FollowMax(places: seq<int>, locate: seq<int>, adjust: seq<int>) returns (locate2: seq<int>, adjust2: seq<int>)
    requires |places| >= 2 && adjust == AdjustOf(places[..|places| - 1]) + [0]
    requires |locate| >= 1 && locate[|locate| - 1] == MaxOf(places[..|places| - 1])
    ensures adjust2 == AdjustOf(places)
    ensures |locate2| >= 1 && locate2[|locate2| - 1] == MaxOf(places)
  {
    ghost var init := places[..|places| - 1];
    ghost var adjustIn := adjust[..|adjust| - 1];
    assert adjust == adjustIn + [0];
    locate2, adjust2 := locate, adjust;
    if places[|places| - 1] > locate2[|locate2| - 1] {
      locate2 := locate2 + [places[|places| - 1]];
      adjust2 := adjust2[|adjust2| - 2 := locate2[|locate2| - 1] - locate2[|locate2| - 2]];
    }
    RunningMax(init, adjustIn, locate, places[|places| - 1], adjust2, locate2);
    assert init + [places[|places| - 1]] == places;
  }

  /** The state after a note joins the group. */
  lemma JoinState(places: seq<int>, setValues: seq<int>, changes: seq<int>, adjust: seq<int>,
                  spots: seq<int>, locate: seq<int>, playList: Pool, table: seq<Row>, cur: seq<NoteValue>,
                  note: NoteValue, hold: Row,
                  changes2: seq<int>, adjust2: seq<int>, spots2: seq<int>, locate2: seq<int>)
    requires OpenGroup(places, setValues, changes, adjust, spots, locate, playList, table, cur)
    requires 0 <= note.place < |table|
    requires hold == Intersect(PoolList(playList), table[note.place]) && hold != []
    requires changes2 == ChangesOf(places + [note.place])
    requires |spots2| >= 1 && spots2[|spots2| - 1] == MinOf(places + [note.place])
    requires adjust2 == AdjustOf(places + [note.place])
    requires |locate2| >= 1 && locate2[|locate2| - 1] == MaxOf(places + [note.place])
    ensures OpenGroup(places + [note.place], setValues + [note.noteType], changes2, adjust2, spots2, locate2,
                      SetPool(hold), table, cur + [note])
  {
    JoinPool(playList, table, cur, note);
    assert Places(cur + [note]) == Places(cur) + [note.place];
    assert Types(cur + [note]) == Types(cur) + [note.noteType];
  }

  /** A note joins the open group (converter.py lines 451-468): its place
      and type are recorded, the running minimum and maximum follow it and
      the shared positions shrink to `hold`. */
  method JoinNote(places: seq<int>, setValues: seq<int>, spots: seq<int>, locate: seq<int>,
                  changes: seq<int>, adjust: seq<int>, playList: Pool, table: seq<Row>,
                  ghost cur: seq<NoteValue>, note: NoteValue, hold: Row)
    returns (places2: seq<int>, setValues2: seq<int>, spots2: seq<int>, locate2: seq<int>,
             changes2: seq<int>, adjust2: seq<int>, playList2: Pool)
    requires |changes| >= 1 && changes[|changes| - 1] == 0 && |adjust| >= 1 && adjust[|adjust| - 1] == 0
    requires OpenGroup(places, setValues, changes[..|changes| - 1], adjust[..|adjust| - 1], spots, locate, playList, table, cur)
    requires 0 <= note.place < |table|
    requires hold == Intersect(PoolList(playList), table[note.place]) && hold != []
    ensures OpenGroup(places2, setValues2, changes2, adjust2, spots2, locate2, playList2, table, cur + [note])
  {
    ghost var changesIn, adjustIn := changes[..|changes| - 1], adjust[..|adjust| - 1];
    assert changes == changesIn + [0] && adjust == adjustIn + [0];
    places2 := places + [note.place];
    setValues2 := setValues + [note.noteType];
    assert places2[..|places2| - 1] == places;
    spots2, changes2 := FollowMin(places2, spots, changes);
    locate2, adjust2 := FollowMax(places2, locate, adjust);
    playList2 := SetPool(hold);
    JoinState(places, setValues, changesIn, adjustIn, spots, locate, playList, table, cur, note, hold,
              changes2, adjust2, spots2, locate2);
  }

  /** A note opens a new group (converter.py lines 446-450 and 481-488):
      its place is the only place, minimum and maximum, and its key-table
      entry is the pool. */
  method StartGroup(table: seq<Row>, note: NoteValue)
    returns (places: seq<int>, setValues: seq<int>, spots: seq<int>, locate: seq<int>,
             changes: seq<int>, adjust: seq<int>, playList: Pool)
    requires 0 <= note.place < |table| && |table[note.place]| >= 1
    ensures OpenGroup(places, setValues, changes, adjust, spots, locate, playList, table, [note])
  {
    places := [note.place];
    setValues := [note.noteType];
    playList := RowPool(table[note.place]);
    spots := [places[|places| - 1]];
    locate := [places[|places| - 1]];
    changes := [0];
    adjust := [0];
    StartState(table, note);
  }

  /** The variables the pass carries from one note to the next. */
  datatype Pass = Pass(places: seq<int>, setValues: seq<int>, spots: seq<int>, locate: seq<int>,
                       changes: seq<int>, adjust: seq<int>, playList: Pool,
                       playSet: seq<Group>, forwardChange: seq<seq<int>>, forwardAdjust: seq<seq<int>>)

  /** Their values before the first note (converter.py lines 421-432). */
  function Initial(): Pass {
    Pass([], [], [], [], [], [], RowPool([]), [], [], [])
  }

  /** The pass state describes the groups gs: the closed ones are in
      playSet, the last one is open. */
  ghost predicate Tracks(p: Pass, table: seq<Row>, gs: seq<seq<NoteValue>>) {
    if |gs| == 0 then p == Initial()
    else
      && ClosedGroups(p.playSet, p.forwardChange, p.forwardAdjust, table, gs)
      && OpenGroup(p.places, p.setValues, p.changes, p.adjust, p.spots, p.locate, p.playList, table, gs[|gs| - 1])
  }

  /** The first note opens the first group. */
  lemma TracksFirst(q: Pass, table: seq<Row>, note: NoteValue)
    requires q.playSet == [] && q.forwardChange == [] && q.forwardAdjust == []
    requires OpenGroup(q.places, q.setValues, q.changes, q.adjust, q.spots, q.locate, q.playList, table, [note])
    ensures Tracks(q, table, AddNote(table, [], note, false))
  {
  }

  /** A note that shares a position with the open group joins it. */
  lemma TracksJoin(p: Pass, q: Pass, table: seq<Row>, gs: seq<seq<NoteValue>>, note: NoteValue)
    requires |gs| >= 1 && Tracks(p, table, gs) && Joins(table, gs[|gs| - 1], note, false)
    requires q.playSet == p.playSet && q.forwardChange == p.forwardChange && q.forwardAdjust == p.forwardAdjust
    requires OpenGroup(q.places, q.setValues, q.changes, q.adjust, q.spots, q.locate, q.playList, table,
                       gs[|gs| - 1] + [note])
    ensures Tracks(q, table, AddNote(table, gs, note, false))
  {
    JoinGroup(p.playSet, p.forwardChange, p.forwardAdjust, table, gs, note);
  }

  /** A note that shares no position with the open group closes it and
      opens the next one. */
  lemma TracksClose(p: Pass, q: Pass, grp: Group, table: seq<Row>, gs: seq<seq<NoteValue>>, note: NoteValue)
    requires |gs| >= 1 && Tracks(p, table, gs) && !Joins(table, gs[|gs| - 1], note, false)
    requires GroupOf(grp, ChangesOf(p.places), AdjustOf(p.places), table, gs[|gs| - 1]) && Orderable(table, gs[|gs| - 1])
    requires q.playSet == p.playSet + [grp]
    requires q.forwardChange == p.forwardChange + [p.changes] && q.forwardAdjust == p.forwardAdjust + [p.adjust]
    requires OpenGroup(q.places, q.setValues, q.changes, q.adjust, q.spots, q.locate, q.playList, table, [note])
    ensures Tracks(q, table, AddNote(table, gs, note, false))
  {
    CloseGroup(p.playSet, p.forwardChange, p.forwardAdjust, table, gs, grp, note);
  }

  /** One iteration of the loop (converter.py lines 439-489): the note
      opens the first group, joins the open group, or closes it and opens
      the next one. A place past the key table raises IndexError; closing
      a group that cannot be ordered raises TypeError. */
  method Step(p: Pass, table: seq<Row>, note: NoteValue, ghost gs: seq<seq<NoteValue>>) returns (r: Result<Pass>)
    requires forall k :: 0 <= k < |table| ==> |table[k]| >= 1
    requires note.place >= 0 && Tracks(p, table, gs)
    ensures r.Err? <==>
              note.place >= |table| ||
              (|gs| >= 1 && !Joins(table, gs[|gs| - 1], note, false) && !Orderable(table, gs[|gs| - 1]))
    ensures r.Err? ==> r.error == if note.place >= |table| then IndexError else TypeError
    ensures r.Ok? ==> Tracks(r.value, table, AddNote(table, gs, note, false))
  {
    var changes := p.changes + [0];
    var adjust := p.adjust + [0];
    if note.place >= |table| {
      return Err(IndexError);
    }
    if PoolList(p.playList) == [] {
      var places, setValues, spots, locate, changes1, adjust1, playList := StartGroup(table, note);
      var q := Pass(places, setValues, spots, locate, changes1, adjust1, playList,
                    p.playSet, p.forwardChange, p.forwardAdjust);
      TracksFirst(q, table, note);
      return Ok(q);
    }
    ghost var cur := gs[|gs| - 1];
    var hold := Intersect(PoolList(p.playList), table[note.place]);
    JoinPool(p.playList, table, cur, note);
    if hold != [] {
      assert changes[..|changes| - 1] == p.changes && adjust[..|adjust| - 1] == p.adjust;
      var places, setValues, spots, locate, changes1, adjust1, playList :=
        JoinNote(p.places, p.setValues, p.spots, p.locate, changes, adjust, p.playList, table, cur, note, hold);
      var q := Pass(places, setValues, spots, locate, changes1, adjust1, playList,
                    p.playSet, p.forwardChange, p.forwardAdjust);
      TracksJoin(p, q, table, gs, note);
      return Ok(q);
    }
    changes := changes[..|changes| - 1];
    adjust := adjust[..|adjust| - 1];
    assert changes == p.changes && adjust == p.adjust;
    var closed := Close(p.playList, p.places, p.setValues, table, cur);
    if closed.Err? {
      return Err(closed.error);
    }
    var places, setValues, spots, locate, changes1, adjust1, playList := StartGroup(table, note);
    var q := Pass(places, setValues, spots, locate, changes1, adjust1, playList,
                  p.playSet + [closed.value], p.forwardChange + [changes], p.forwardAdjust + [adjust]);
    TracksClose(p, q, closed.value, table, gs, note);
    return Ok(q);
  }

  /** After the loop (converter.py lines 491-498): the last group is
      closed like the others. */
  method Finish(p: Pass, table: seq<Row>, ghost gs: seq<seq<NoteValue>>) returns (r: Result<Grouping>)
    requires |gs| >= 1 && Tracks(p, table, gs)
    ensures r.Ok? <==> AllOrderable(table, gs)
    ensures r.Err? ==> r.error == TypeError
    ensures r.Ok? ==> Describes(r.value, table, gs)
  {
    var grp :- Close(p.playList, p.places, p.setValues, table, gs[|gs| - 1]);
    return Ok(Grouping(p.playSet + [grp], p.forwardChange + [p.changes], p.forwardAdjust + [p.adjust]));
  }

  /** The grouping pass (converter.py lines 439-511). With no notes, max()
      of the empty list raises ValueError. Otherwise the walk fails at the
      first note whose place is off the key table (IndexError) or that
      closes a group whose positions mix None with numbers (TypeError),
      whichever comes first, and the final close can raise TypeError too.
      A walk that does not fail describes the greedy groups: one playSet
      entry, change list and adjust list per group. */
  method GroupNotes(values: seq<NoteValue>, table: seq<Row>) returns (r: Result<Grouping>)
    requires forall k :: 0 <= k < |table| ==> |table[k]| >= 1
    requires forall i :: 0 <= i < |values| ==> values[i].place >= 0
    ensures |values| == 0 ==> r == Err(ValueError)
    ensures !InRange(table, values) ==> r.Err?
    ensures |values| >= 1 && r.Err? ==> r.error == IndexError || r.error == TypeError
    ensures InRange(table, values) && |values| >= 1 ==>
              (r.Ok? <==> AllOrderable(table, Groups(table, values, false))) &&
              (r.Err? ==> r.error == TypeError)
    ensures r.Ok? ==> InRange(table, values) && Describes(r.value, table, Groups(table, values, false))
  {
    var pass := Initial();
    ghost var gs: seq<seq<NoteValue>> := [];
    for x := 0 to |values|
      invariant gs == Groups(table, values[..x], false)
      invariant AllIn(table, values[..x])
      invariant Tracks(pass, table, gs)
    {
      GroupsStep(table, values, x);
      var next := Step(pass, table, values[x], gs);
      if next.Err? {
        FailedStep(table, values, x);
        return Err(next.error);
      }
      assert values[..x + 1][..x] == values[..x];
      pass := next.value;
      gs := AddNote(table, gs, values[x], false);
    }
    assert values[..|values|] == values;
    AllInRange(table, values);
    if |values| == 0 {
      return Err(ValueError);
    }
    r := Finish(pass, table, gs);
  }
}
