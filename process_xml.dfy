/** The MusicXML pass of the converter: the tempo (and dynamics) lists
    looked up by tick, and the tagging of every element of a part with the
    tick at which it starts. Decimal values are reals. The parsed score is
    replaced by the values the pass reads from it: a measure's elements,
    and for a note the items of its choice list that matter here. */
module ProcessXml {
  import opened Common
  import opened StableSort

  // ---------------------------------------------------------------------
  // TempoList and DynamicList

  /** A (value, tick) entry. */
  type Entry = (real, real)

  /** The sort key of `sort`: an entry's tick. */
  function Tick(e: Entry): real {
    e.1
  }

  /** `len([i for i in entries if i[1] <= tick])`. */
  function AtOrBefore(entries: seq<Entry>, tick: real): (n: nat)
    ensures n <= |entries|
    decreases |entries|
  {
    if |entries| == 0 then 0 else (if entries[0].1 <= tick then 1 else 0) + AtOrBefore(entries[1..], tick)
  }

  /** The value `tempo_at_tick` reads: the entry at index (number of
      entries at or before the tick) - 1 of the list sorted by tick; with
      no entry at or before the tick that index is -1, the last entry. An
      empty list raises IndexError. */
  function ValueAt(entries: seq<Entry>, tick: real): Result<real> {
    var sorted := Sort(entries, Tick);
    match PyIndex(|sorted|, AtOrBefore(entries, tick) - 1)
    case None => Err(IndexError)
    case Some(k) => Ok(sorted[k].0)
  }

  /** `list(dict.fromkeys(entries))`: the entries without repeats, each
      kept where it first occurs. */
  function Dedupe<T(==)>(xs: seq<T>): seq<T>
    decreases |xs|
  {
    if |xs| == 0 then []
    else
      var d := Dedupe(xs[..|xs| - 1]);
      if xs[|xs| - 1] in d then d else d + [xs[|xs| - 1]]
  }

  lemma {:induction false} AtOrBeforeAppend(a: seq<Entry>, b: seq<Entry>, tick: real)
    ensures AtOrBefore(a + b, tick) == AtOrBefore(a, tick) + AtOrBefore(b, tick)
    decreases |a|
  {
    if |a| > 0 {
      assert (a + b)[0] == a[0] && (a + b)[1..] == a[1..] + b;
      AtOrBeforeAppend(a[1..], b, tick);
    } else {
      assert a + b == b;
    }
  }

  lemma {:induction false} AtOrBeforeInsert(x: Entry, t: seq<Entry>, tick: real)
    ensures AtOrBefore(Insert(x, t, Tick), tick) == AtOrBefore(t, tick) + AtOrBefore([x], tick)
    decreases |t|
  {
    if |t| > 0 && Tick(t[0]) <= Tick(x) {
      AtOrBeforeInsert(x, t[1..], tick);
      assert Insert(x, t, Tick)[1..] == Insert(x, t[1..], Tick);
    } else if |t| > 0 {
      assert ([x] + t)[1..] == t;
    }
  }

  /** Sorting does not change how many entries are at or before a tick. */
  lemma {:induction false} AtOrBeforeSort(s: seq<Entry>, tick: real)
    ensures AtOrBefore(Sort(s, Tick), tick) == AtOrBefore(s, tick)
    decreases |s|
  {
    if |s| > 0 {
      var init := s[..|s| - 1];
      AtOrBeforeSort(init, tick);
      AtOrBeforeInsert(s[|s| - 1], Sort(init, Tick), tick);
      assert s == init + [s[|s| - 1]];
      AtOrBeforeAppend(init, [s[|s| - 1]], tick);
    }
  }

  /** In a list sorted by tick the entries at or before a tick are
      exactly the first ones. */
  lemma {:induction false} SortedSplit(s: seq<Entry>, tick: real)
    requires SortedBy(s, Tick)
    ensures AtOrBefore(s, tick) <= |s|
    ensures forall j :: 0 <= j < AtOrBefore(s, tick) ==> s[j].1 <= tick
    ensures forall j :: AtOrBefore(s, tick) <= j < |s| ==> s[j].1 > tick
    decreases |s|
  {
    if |s| > 0 {
      SortedTail(s, Tick);
      SortedSplit(s[1..], tick);
      if s[0].1 > tick {
        assert forall j :: 0 <= j < |s| ==> Tick(s[0]) <= Tick(s[j]);
        assert forall j :: 1 <= j < |s| ==> s[j] == s[1..][j - 1];
      } else {
        forall j | 1 <= j < |s| ensures s[j] == s[1..][j - 1] { }
      }
    }
  }

  /** The value at a tick comes from the latest entry at or before it in
      tick order (of equal ticks, the one appended last: EqualTicksLastWins);
      when every entry is after the tick it comes from the latest entry of
      all. */
  lemma ValueAtMeaning(entries: seq<Entry>, tick: real)
    ensures ValueAt(entries, tick).Err? <==> |entries| == 0
    ensures ValueAt(entries, tick).Err? ==> ValueAt(entries, tick).error == IndexError
    ensures AtOrBefore(entries, tick) > 0 ==>
              && var k := AtOrBefore(entries, tick) - 1;
                 && ValueAt(entries, tick) == Ok(Sort(entries, Tick)[k].0)
                 && Sort(entries, Tick)[k].1 <= tick
                 && forall j :: k < j < |entries| ==> Sort(entries, Tick)[j].1 > tick
    ensures |entries| > 0 && AtOrBefore(entries, tick) == 0 ==>
              ValueAt(entries, tick) == Ok(Sort(entries, Tick)[|entries| - 1].0) &&
              forall j :: 0 <= j < |entries| ==> Sort(entries, Tick)[j].1 <= Sort(entries, Tick)[|entries| - 1].1
  {
    var s := Sort(entries, Tick);
    SortedCount(entries, tick);
    SortedSplit(s, tick);
    if |entries| > 0 && AtOrBefore(entries, tick) == 0 {
      assert forall j :: 0 <= j < |s| ==> Tick(s[j]) <= Tick(s[|s| - 1]);
    }
  }

  /** The sorted list is ordered and counts the same entries at or before
      the tick. */
  lemma SortedCount(entries: seq<Entry>, tick: real)
    ensures SortedBy(Sort(entries, Tick), Tick)
    ensures AtOrBefore(Sort(entries, Tick), tick) == AtOrBefore(entries, tick)
  {
    SortProps(entries, Tick);
    AtOrBeforeSort(entries, tick);
  }

  /** When every entry is at or before the tick, all are counted. */
  lemma {:induction false} AtOrBeforeAll(entries: seq<Entry>, tick: real)
    requires forall j :: 0 <= j < |entries| ==> entries[j].1 <= tick
    ensures AtOrBefore(entries, tick) == |entries|
    decreases |entries|
  {
    if |entries| > 0 {
      AtOrBeforeAll(entries[1..], tick);
    }
  }

  /** Of the entries that share the tick the value comes from, the value is
      the one appended last: the sort is stable. */
  lemma EqualTicksLastWins(entries: seq<Entry>, tick: real)
    requires AtOrBefore(entries, tick) > 0
    ensures var t := Sort(entries, Tick)[AtOrBefore(entries, tick) - 1].1;
            var same := WithKey(entries, Tick, t);
            && |same| > 0 && same[|same| - 1].1 == t
            && ValueAt(entries, tick) == Ok(same[|same| - 1].0)
  {
    var s := Sort(entries, Tick);
    var k := AtOrBefore(entries, tick) - 1;
    ValueAtMeaning(entries, tick);
    SortProps(entries, Tick);
    LastOfTick(s, k);
  }

  /** In a list sorted by tick, entry k is the last one with its tick when
      every later entry is later. */
  lemma LastOfTick(s: seq<Entry>, k: nat)
    requires k < |s| && forall j :: k < j < |s| ==> s[j].1 > s[k].1
    ensures var same := WithKey(s, Tick, s[k].1);
            |same| > 0 && same[|same| - 1] == s[k]
  {
    var t := s[k].1;
    var head, rest := s[..k + 1], s[k + 1..];
    assert s == head + rest;
    forall i | 0 <= i < |rest| ensures Tick(rest[i]) > t {
      assert rest[i] == s[k + 1 + i];
    }
    WithKeyAppend(head, rest, Tick, t);
    WithKeyNone(rest, Tick, t);
    assert head[..k] == s[..k];
    assert WithKey(head, Tick, t) == WithKey(s[..k], Tick, t) + [s[k]];
  }

  /** An entry appended with a tick no earlier than any other gives the
      value from its tick on. */
  lemma LatestWins(entries: seq<Entry>, value: real, tick: real, t: real)
    requires forall j :: 0 <= j < |entries| ==> entries[j].1 <= tick
    requires tick <= t
    ensures ValueAt(entries + [(value, tick)], t) == Ok(value)
  {
    var s := entries + [(value, tick)];
    assert s[..|s| - 1] == entries;
    var sorted := Sort(entries, Tick);
    SortProps(entries, Tick);
    forall i | 0 <= i < |sorted| ensures Tick(sorted[i]) <= Tick((value, tick)) {
      assert sorted[i] in multiset(sorted);
    }
    InsertAtEnd((value, tick), sorted, Tick);
    AtOrBeforeAll(s, t);
  }

  lemma {:induction false} DedupeMembers<T>(xs: seq<T>)
    ensures forall x :: x in Dedupe(xs) <==> x in xs
    ensures forall i, j :: 0 <= i < j < |Dedupe(xs)| ==> Dedupe(xs)[i] != Dedupe(xs)[j]
    ensures |Dedupe(xs)| <= |xs|
    decreases |xs|
  {
    if |xs| > 0 {
      DedupeMembers(xs[..|xs| - 1]);
      assert xs == xs[..|xs| - 1] + [xs[|xs| - 1]];
    }
  }

  /** Without repeats, the list is kept as it is. */
  lemma {:induction false} DedupeDistinct<T>(xs: seq<T>)
    requires forall i, j :: 0 <= i < j < |xs| ==> xs[i] != xs[j]
    ensures Dedupe(xs) == xs
    decreases |xs|
  {
    if |xs| > 0 {
      DedupeDistinct(xs[..|xs| - 1]);
    }
  }

  /** The kept entries are in the order of their first occurrences. */
  lemma {:induction false} DedupeOrder<T>(xs: seq<T>)
    ensures forall x :: x in Dedupe(xs) ==> x in xs
    ensures forall i, j :: 0 <= i < j < |Dedupe(xs)| ==>
              IndexOf(xs, Dedupe(xs)[i]).value < IndexOf(xs, Dedupe(xs)[j]).value
    decreases |xs|
  {
    if |xs| > 0 {
      var init := xs[..|xs| - 1];
      var last := xs[|xs| - 1];
      var d := Dedupe(init);
      DedupeOrder(init);
      DedupeMembers(init);
      forall x | x in init ensures IndexOf(xs, x) == IndexOf(init, x) {
        IndexOfPrefix(init, last, x);
        assert xs == init + [last];
      }
      if last !in d {
        assert last !in init;
        IndexOfPrefix(init, last, last);
        assert xs == init + [last];
      }
    }
  }

  lemma {:induction false} IndexOfPrefix<T>(xs: seq<T>, y: T, x: T)
    ensures x in xs ==> IndexOf(xs + [y], x) == IndexOf(xs, x)
    ensures x !in xs && x == y ==> IndexOf(xs + [y], x) == Ok(|xs|)
    decreases |xs|
  {
    if |xs| > 0 {
      assert (xs + [y])[1..] == xs[1..] + [y];
      IndexOfPrefix(xs[1..], y, x);
    }
  }

  /** `TempoList`: (tempo, tick) entries in the order they were added.
      `DynamicList` is the same class for dynamics, with `dynamic_at_tick`
      for `tempo_at_tick`. */
  class TempoList {
    var entries: seq<Entry>

    /** An empty list. */
    constructor ()
      ensures entries == []
    {
      entries := [];
    }

    /** `append(tempo, tick)`: the entry goes at the end. */
    method Append(tempo: real, tick: real)
      modifies this
      ensures entries == old(entries) + [(tempo, tick)]
    {
      entries := entries + [(tempo, tick)];
    }

    /** `sort`: stable sort by tick, in place. */
    method SortByTick()
      modifies this
      ensures entries == Sort(old(entries), Tick)
      ensures SortedBy(entries, Tick) && multiset(entries) == multiset(old(entries))
    {
      SortProps(entries, Tick);
      entries := Sort(entries, Tick);
    }

    /** `tempo_at_tick(tick)`: the index is counted on the list as it is,
        then the list is sorted by tick and read at that index. */
    method TempoAtTick(tick: real) returns (r: Result<real>)
      modifies this
      ensures r == ValueAt(old(entries), tick)
      ensures entries == Sort(old(entries), Tick)
    {
      var tickIndex := AtOrBefore(entries, tick) - 1;
      SortByTick();
      match PyIndex(|entries|, tickIndex)
      case None =>
        r := Err(IndexError);
      case Some(k) =>
        r := Ok(entries[k].0);
    }

    /** `combine(other)`: this list followed by the other, without
        repeats. */
    method Combine(other: TempoList)
      modifies this
      ensures entries == Dedupe(old(entries) + old(other.entries))
    {
      var tempList := entries + other.entries;
      entries := Dedupe(tempList);
    }
  }

  // ---------------------------------------------------------------------
  // Tick tagging

  /** The items of a note's choice list the pass looks at: the chord
      mark, a duration, and anything else. */
  datatype NoteItem = ChordMark | Duration(value: real) | OtherItem

  /** An element of a measure: a note (its choice list), a backup, a
      forward, or any other element (directions, attributes, ...). */
  datatype Element = Note(choice: seq<NoteItem>) | Backup(duration: real) | Forward(duration: real) | Other

  /** An element with the tick it is tagged with. */
  type Tagged = (Element, real)

  /** `chord_check(note)`: some item of the note is a chord mark. */
  function ChordCheck(choice: seq<NoteItem>): bool {
    ChordMark in choice
  }

  /** `find_note_duration(note)`: the last duration among the items, 0
      when there is none. */
  function LastDuration(choice: seq<NoteItem>): real
    decreases |choice|
  {
    if |choice| == 0 then 0.0
    else if choice[|choice| - 1].Duration? then choice[|choice| - 1].value
    else LastDuration(choice[..|choice| - 1])
  }

  /** The duration read is that of a duration item with no duration item
      after it, or 0 when the note has none. */
  lemma {:induction false} LastDurationMeaning(choice: seq<NoteItem>)
    ensures (forall i :: 0 <= i < |choice| ==> !choice[i].Duration?) ==> LastDuration(choice) == 0.0
    ensures (exists i :: 0 <= i < |choice| && choice[i].Duration?) ==>
              exists i :: 0 <= i < |choice| && choice[i] == Duration(LastDuration(choice)) &&
                forall j :: i < j < |choice| ==> !choice[j].Duration?
    decreases |choice|
  {
    if |choice| > 0 && !choice[|choice| - 1].Duration? {
      var init := choice[..|choice| - 1];
      LastDurationMeaning(init);
      if exists i :: 0 <= i < |choice| && choice[i].Duration? {
        var i :| 0 <= i < |choice| && choice[i].Duration?;
        assert init[i] == choice[i];
        var k :| 0 <= k < |init| && init[k] == Duration(LastDuration(init)) &&
          forall j :: k < j < |init| ==> !init[j].Duration?;
        assert choice[k] == init[k];
      } else {
        forall i | 0 <= i < |init| ensures !init[i].Duration? {
          assert init[i] == choice[i];
        }
      }
    }
  }

  /** The loop of `find_note_duration`. */
  method FindNoteDuration(choice: seq<NoteItem>) returns (result: real)
    ensures result == LastDuration(choice)
  {
    result := 0.0;
    for i := 0 to |choice|
      invariant result == LastDuration(choice[..i])
    {
      assert choice[..i + 1][..i] == choice[..i];
      if choice[i].Duration? {
        result := choice[i].value;
      }
    }
    assert choice[..|choice|] == choice;
  }

  /** The state of the tagging: the running tick, the previous note's
      duration and the tagged elements. */
  datatype Tag = Tag(tick: real, previous: real, list: seq<Tagged>)

  /** `tick_tag_note(tick, note, list, previous)`: a chord note replaces
      the last entry by itself at tick - previous and moves nothing (an
      empty list raises IndexError); any other note moves the tick on by
      its duration, which becomes the previous duration. */
  function TagNote(tick: real, note: Element, list: seq<Tagged>, previous: real): Result<Tag>
    requires note.Note?
  {
    var duration := LastDuration(note.choice);
    if ChordCheck(note.choice) then
      if |list| == 0 then Err(IndexError)
      else
        var start := tick - previous;
        Ok(Tag(start + previous, previous, list[..|list| - 1] + [(note, start)]))
    else Ok(Tag(tick + duration, duration, list))
  }

  /** One element of a measure: it is tagged with the running tick; a
      note goes on as `tick_tag_note` says, a backup moves the tick back
      by its duration, a forward on by it. */
  function TagElement(t: Tag, e: Element): Tag {
    var list := t.list + [(e, t.tick)];
    match e
    case Note(_) => TagNote(t.tick, e, list, t.previous).value
    case Backup(d) => Tag(t.tick - d, t.previous, list)
    case Forward(d) => Tag(t.tick + d, t.previous, list)
    case Other => Tag(t.tick, t.previous, list)
  }

  /** The elements of a measure in order. */
  function TagElements(es: seq<Element>, t: Tag): Tag
    decreases |es|
  {
    if |es| == 0 then t else TagElement(TagElements(es[..|es| - 1], t), es[|es| - 1])
  }

  /** `tick_tag_measure(measure, list, tick)`: the previous duration starts
      at 0 in every measure; the result is the tick after the measure. */
  function TagMeasure(es: seq<Element>, list: seq<Tagged>, measureTick: real): (real, seq<Tagged>) {
    var t := TagElements(es, Tag(measureTick, 0.0, list));
    (t.tick, t.list)
  }

  /** The measures in order, each starting at the tick the previous one
      ended at. */
  function TagMeasures(measures: seq<seq<Element>>, tick: real, list: seq<Tagged>): (real, seq<Tagged>)
    decreases |measures|
  {
    if |measures| == 0 then (tick, list)
    else
      var before := TagMeasures(measures[..|measures| - 1], tick, list);
      TagMeasure(measures[|measures| - 1], before.1, before.0)
  }

  /** `tick_tag_part(part)`: the measures from tick 0. */
  function TagPart(measures: seq<seq<Element>>): seq<Tagged> {
    TagMeasures(measures, 0.0, []).1
  }

  /** A chord note: the element it is tagged with. */
  predicate IsChordNote(e: Element) {
    e.Note? && ChordCheck(e.choice)
  }

  /** How far an element moves the running tick: a note outside a chord
      by its duration, a backup back by its duration, a forward on by
      it. */
  function Moves(e: Element): real {
    match e
    case Note(choice) => if ChordCheck(choice) then 0.0 else LastDuration(choice)
    case Backup(d) => -d
    case Forward(d) => d
    case Other => 0.0
  }

  /** The total movement over the elements. */
  function NetMoves(es: seq<Element>): real
    decreases |es|
  {
    if |es| == 0 then 0.0 else NetMoves(es[..|es| - 1]) + Moves(es[|es| - 1])
  }

  /** The elements of tagged entries. */
  function Elements(list: seq<Tagged>): seq<Element> {
    seq(|list|, i requires 0 <= i < |list| => list[i].0)
  }

  /** A chord note keeps the tick and the previous duration and retags
      the last entry at tick - previous; any other note moves the tick by
      its last duration. */
  lemma TagNoteMeaning(tick: real, note: Element, list: seq<Tagged>, previous: real)
    requires note.Note?
    ensures TagNote(tick, note, list, previous).Err? <==> ChordCheck(note.choice) && |list| == 0
    ensures TagNote(tick, note, list, previous).Err? ==> TagNote(tick, note, list, previous).error == IndexError
    ensures ChordCheck(note.choice) && |list| > 0 ==>
              TagNote(tick, note, list, previous) == Ok(Tag(tick, previous, list[..|list| - 1] + [(note, tick - previous)]))
    ensures !ChordCheck(note.choice) ==>
              TagNote(tick, note, list, previous) ==
              Ok(Tag(tick + LastDuration(note.choice), LastDuration(note.choice), list))
  {
  }

  /** Tagging a measure's elements adds one entry per element, in order,
      keeps the entries before them and ends at the start tick moved by
      the net movement. */
  lemma {:induction false} TagElementsMeaning(es: seq<Element>, t: Tag)
    ensures |TagElements(es, t).list| == |t.list| + |es|
    ensures TagElements(es, t).list[..|t.list|] == t.list
    ensures Elements(TagElements(es, t).list) == Elements(t.list) + es
    ensures TagElements(es, t).tick == t.tick + NetMoves(es)
    decreases |es|
  {
    if |es| > 0 {
      var init := es[..|es| - 1];
      var e := es[|es| - 1];
      TagElementsMeaning(init, t);
      var u := TagElements(init, t);
      var v := TagElement(u, e);
      if e.Note? {
        TagNoteMeaning(u.tick, e, u.list + [(e, u.tick)], u.previous);
      }
      assert v.list[..|u.list|] == u.list;
      assert v.list[..|t.list|] == u.list[..|t.list|];
      assert Elements(v.list) == Elements(u.list) + [e];
      assert Elements(t.list) + es == Elements(t.list) + init + [e];
    }
  }

  /** Every element other than a chord note is tagged with the tick
      reached by the elements before it. */
  lemma {:induction false} TagElementsTicks(es: seq<Element>, t: Tag)
    ensures |TagElements(es, t).list| == |t.list| + |es|
    ensures forall i :: 0 <= i < |es| && !IsChordNote(es[i]) ==>
              TagElements(es, t).list[|t.list| + i].1 == t.tick + NetMoves(es[..i])
    decreases |es|
  {
    TagElementsMeaning(es, t);
    if |es| > 0 {
      var init := es[..|es| - 1];
      var e := es[|es| - 1];
      TagElementsTicks(init, t);
      TagElementsMeaning(init, t);
      var u := TagElements(init, t);
      var v := TagElement(u, e);
      if e.Note? {
        TagNoteMeaning(u.tick, e, u.list + [(e, u.tick)], u.previous);
      }
      assert v.list[..|u.list|] == u.list;
      forall i | 0 <= i < |es| && !IsChordNote(es[i])
        ensures v.list[|t.list| + i].1 == t.tick + NetMoves(es[..i])
      {
        if i < |init| {
          assert es[..i] == init[..i];
          assert v.list[|t.list| + i] == u.list[|t.list| + i];
        } else {
          assert es[..i] == init;
        }
      }
    }
  }

  /** The tagging of a part: one entry per element of every measure, in
      order, each measure starting where the one before ended. */
  lemma {:induction false} TagMeasuresMeaning(measures: seq<seq<Element>>, tick: real, list: seq<Tagged>)
    ensures |TagMeasures(measures, tick, list).1| == |list| + |Flatten(measures)|
    ensures TagMeasures(measures, tick, list).1[..|list|] == list
    ensures Elements(TagMeasures(measures, tick, list).1) == Elements(list) + Flatten(measures)
    ensures TagMeasures(measures, tick, list).0 == tick + NetOfMeasures(measures)
    decreases |measures|
  {
    if |measures| > 0 {
      var init := measures[..|measures| - 1];
      TagMeasuresMeaning(init, tick, list);
      var before := TagMeasures(init, tick, list);
      TagElementsMeaning(measures[|measures| - 1], Tag(before.0, 0.0, before.1));
      assert |before.1| == |Elements(before.1)|;
      assert Flatten(measures) == Flatten(init) + measures[|measures| - 1];
    }
  }

  /** The measures' elements one after the other. */
  function Flatten(measures: seq<seq<Element>>): seq<Element>
    decreases |measures|
  {
    if |measures| == 0 then [] else Flatten(measures[..|measures| - 1]) + measures[|measures| - 1]
  }

  /** The net movement over all measures. */
  function NetOfMeasures(measures: seq<seq<Element>>): real
    decreases |measures|
  {
    if |measures| == 0 then 0.0 else NetOfMeasures(measures[..|measures| - 1]) + NetMoves(measures[|measures| - 1])
  }

  /** A part's tagged list holds exactly its elements, in order. */
  lemma TagPartMeaning(measures: seq<seq<Element>>)
    ensures Elements(TagPart(measures)) == Flatten(measures)
  {
    TagMeasuresMeaning(measures, 0.0, []);
    assert Elements([]) == [];
  }

  /** `tick_tag_note`. */
  method TickTagNote(currentTick: real, note: Element, resultList: seq<Tagged>, previousNoteDur: real)
    returns (r: Result<Tag>)
    requires note.Note?
    ensures r == TagNote(currentTick, note, resultList, previousNoteDur)
  {
    var duration := FindNoteDuration(note.choice);
    if ChordCheck(note.choice) {
      var tick := currentTick - previousNoteDur;
      if |resultList| == 0 {
        return Err(IndexError);
      }
      var list := resultList[..|resultList| - 1];
      list := list + [(note, tick)];
      return Ok(Tag(tick + previousNoteDur, previousNoteDur, list));
    } else {
      return Ok(Tag(currentTick + duration, duration, resultList));
    }
  }

  /** `tick_tag_measure`. */
  method TickTagMeasure(measure: seq<Element>, resultList: seq<Tagged>, measureTick: real)
    returns (tick: real, list: seq<Tagged>)
    ensures (tick, list) == TagMeasure(measure, resultList, measureTick)
  {
    var previousNoteDur := 0.0;
    tick := measureTick;
    list := resultList;
    for i := 0 to |measure|
      invariant TagElements(measure[..i], Tag(measureTick, 0.0, resultList)) == Tag(tick, previousNoteDur, list)
    {
      assert measure[..i + 1][..i] == measure[..i];
      var element := measure[i];
      list := list + [(element, tick)];
      match element
      case Note(_) =>
        var r := TickTagNote(tick, element, list, previousNoteDur);
        if r.Err? {
          assert false;
        }
        tick, previousNoteDur, list := r.value.tick, r.value.previous, r.value.list;
      case Backup(d) =>
        tick := tick - d;
      case Forward(d) =>
        tick := tick + d;
      case Other =>
    }
    assert measure[..|measure|] == measure;
  }

  /** `tick_tag_part`. */
  method TickTagPart(measures: seq<seq<Element>>) returns (resultList: seq<Tagged>)
    ensures resultList == TagPart(measures)
  {
    resultList := [];
    var currentTick := 0.0;
    for i := 0 to |measures|
      invariant TagMeasures(measures[..i], 0.0, []) == (currentTick, resultList)
    {
      assert measures[..i + 1][..i] == measures[..i];
      currentTick, resultList := TickTagMeasure(measures[i], resultList, currentTick);
    }
    assert measures[..|measures|] == measures;
  }
}
