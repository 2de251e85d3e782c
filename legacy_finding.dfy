/** The grouping pass compares key-table entries as Python sets, and an
    entry marks the slots that reach no hand position with None. Two keys
    that share no hand position still share None, so the pass puts them in
    one group, whose only "position" is None. This module exhibits the case
    on the configured table (76 keys from E1) and proves what the pass
    evidently means when only real positions are compared. */
module LegacyFinding {
  import opened Common
  import opened LegacyParse
  import opened LegacyGroup
  import LegacyTable
  import LegacyTableConfig

  /** The key table built for the configured keyboard: 76 keys from E1. */
  function ConfiguredTable(): (t: seq<Row>)
    ensures |t| == LegacyTable.NameCount
    ensures forall k :: 0 <= k < LegacyTable.NameCount ==> t[k] == LegacyTable.FinalRow(76, "E1", k)
  {
    seq(LegacyTable.NameCount, k requires 0 <= k < LegacyTable.NameCount => LegacyTable.FinalRow(76, "E1", k))
  }

  /** E1 (place 4) is reached only from position 4. */
  lemma E1Entry(a: NoteValue)
    requires a.place == 4
    ensures EntryOf(ConfiguredTable(), a) == [Some(4), None, None, None, None, None, None, None]
  {
    LegacyTableConfig.ConfiguredE1();
  }

  /** C7 (place 44) is reached only from positions 37 to 41. */
  lemma C7Entry(b: NoteValue)
    requires b.place == 44
    ensures EntryOf(ConfiguredTable(), b) == [None, None, None, Some(41), Some(40), Some(39), Some(38), Some(37)]
  {
    LegacyTableConfig.ConfiguredC7();
  }

  /** Both entries hold None; their real positions are disjoint. */
  lemma E1C7Slots(a: NoteValue, b: NoteValue)
    requires a.place == 4 && b.place == 44
    ensures AllSlots(EntryOf(ConfiguredTable(), a)) * AllSlots(EntryOf(ConfiguredTable(), b)) == {None}
    ensures RealSlots(EntryOf(ConfiguredTable(), a)) * RealSlots(EntryOf(ConfiguredTable(), b)) == {}
  {
    E1Entry(a);
    C7Entry(b);
    RowSlots();
  }

  lemma RowSlots()
    ensures var e1: Row := [Some(4), None, None, None, None, None, None, None];
            var c7: Row := [None, None, None, Some(41), Some(40), Some(39), Some(38), Some(37)];
            AllSlots(e1) * AllSlots(c7) == {None} && RealSlots(e1) * RealSlots(c7) == {}
  {
    var e1: Row := [Some(4), None, None, None, None, None, None, None];
    var c7: Row := [None, None, None, Some(41), Some(40), Some(39), Some(38), Some(37)];
    assert e1[1] == None && c7[0] == None;
    forall o | o in e1 && o in c7 ensures o == None {
      var i :| 0 <= i < |e1| && e1[i] == o;
      assert o == None || o == Some(4);
      var j :| 0 <= j < |c7| && c7[j] == o;
    }
  }

  /** Two notes whose entries share only None form one group, whose top
      and bottom are None. */
  lemma NoneJoins(table: seq<Row>, a: NoteValue, b: NoteValue)
    requires AllSlots(EntryOf(table, a)) * AllSlots(EntryOf(table, b)) == {None}
    ensures Shared(table, [a, b], false) == {None}
    ensures Groups(table, [a, b], false) == [[a, b]]
    ensures forall res :: Describes(res, table, [[a, b]]) ==>
              res.playSet[0].top == None && res.playSet[0].bottom == None
  {
    assert [a, b][..1] == [a];
    assert Shared(table, [a, b], false) == AllSlots(EntryOf(table, a)) * AllSlots(EntryOf(table, b));
    assert None in Shared(table, [a], false) * AllSlots(EntryOf(table, b));
    assert Groups(table, [a], false) == [[a]];
    assert Groups(table, [a, b], false) == AddNote(table, [[a]], b, false);
    assert [a] + [b] == [a, b];
    assert [[a]][..0] + [[a] + [b]] == [[a, b]];
    forall res | Describes(res, table, [[a, b]])
      ensures res.playSet[0].top == None && res.playSet[0].bottom == None
    {
      assert GroupOf(res.playSet[0], res.forwardChange[0], res.forwardAdjust[0], table, [a, b]);
    }
  }

  /** Two notes whose entries share no real position form two groups when
      only real positions are compared. */
  lemma RealSplits(table: seq<Row>, a: NoteValue, b: NoteValue)
    requires RealSlots(EntryOf(table, a)) * RealSlots(EntryOf(table, b)) == {}
    ensures Groups(table, [a, b], true) == [[a], [b]]
  {
    assert [a, b][..1] == [a];
    assert Groups(table, [a], true) == [[a]];
  }

  /** As written: E1 followed by C7 forms one group, and the only position
      the group shares is None, so the pass records None as the group's
      top and bottom hand position. */
  lemma AsWrittenJoinsE1C7(a: NoteValue, b: NoteValue)
    requires a.place == 4 && b.place == 44
    ensures Shared(ConfiguredTable(), [a, b], false) == {None}
    ensures Groups(ConfiguredTable(), [a, b], false) == [[a, b]]
    ensures forall res :: Describes(res, ConfiguredTable(), [[a, b]]) ==>
              res.playSet[0].top == None && res.playSet[0].bottom == None
  {
    E1C7Slots(a, b);
    NoneJoins(ConfiguredTable(), a, b);
  }

  /** Corrected: comparing real positions only, E1 and C7 fall into two
      groups. */
  lemma CorrectedSplitsE1C7(a: NoteValue, b: NoteValue)
    requires a.place == 4 && b.place == 44
    ensures Groups(ConfiguredTable(), [a, b], true) == [[a], [b]]
  {
    E1C7Slots(a, b);
    RealSplits(ConfiguredTable(), a, b);
  }

  /** The group is non-empty and shares a real position. */
  ghost predicate SharesReal(table: seq<Row>, g: seq<NoteValue>) {
    |g| >= 1 && Shared(table, g, true) != {}
  }

  /** Hand position p reaches every note of g. */
  ghost predicate Reaches(table: seq<Row>, g: seq<NoteValue>, p: int) {
    forall n :: n in g ==> Some(p) in EntryOf(table, n)
  }

  /** The shared positions of a group lie in every member's entry. */
  lemma {:induction false} SharedInEntries(table: seq<Row>, g: seq<NoteValue>, realOnly: bool)
    ensures forall i :: 0 <= i < |g| ==> Shared(table, g, realOnly) <= Slots(EntryOf(table, g[i]), realOnly)
    decreases |g|
  {
    if |g| >= 2 {
      var init := g[..|g| - 1];
      SharedInEntries(table, init, realOnly);
      forall i | 0 <= i < |g| - 1
        ensures Shared(table, g, realOnly) <= Slots(EntryOf(table, g[i]), realOnly)
      {
        assert init[i] == g[i];
      }
    }
  }

  /** Every group of the corrected pass is non-empty and shares a real
      position, given that every note's key has one. */
  lemma {:induction false} CorrectedGroupsShare(table: seq<Row>, notes: seq<NoteValue>)
    requires forall i :: 0 <= i < |notes| ==> RealSlots(EntryOf(table, notes[i])) != {}
    ensures forall k :: 0 <= k < |Groups(table, notes, true)| ==> SharesReal(table, Groups(table, notes, true)[k])
    decreases |notes|
  {
    if |notes| > 0 {
      var init := notes[..|notes| - 1];
      var n := notes[|notes| - 1];
      assert forall i :: 0 <= i < |init| ==> init[i] == notes[i];
      CorrectedGroupsShare(table, init);
      var gs := Groups(table, init, true);
      var gs2 := Groups(table, notes, true);
      assert gs2 == AddNote(table, gs, n, true);
      if |gs| >= 1 && Joins(table, gs[|gs| - 1], n, true) {
        var g := gs[|gs| - 1];
        assert (g + [n])[..|g|] == g;
        assert Shared(table, g + [n], true) == Shared(table, g, true) * Slots(EntryOf(table, n), true);
        assert gs2 == gs[..|gs| - 1] + [g + [n]];
        forall k | 0 <= k < |gs2|
          ensures SharesReal(table, gs2[k])
        {
          if k < |gs| - 1 {
            assert gs2[k] == gs[k];
            assert SharesReal(table, gs[k]);
          } else {
            assert gs2[k] == g + [n];
            assert Shared(table, g, true) * Slots(EntryOf(table, n), true) != {};
          }
        }
      } else {
        assert gs2 == gs + [[n]];
        forall k | 0 <= k < |gs2|
          ensures SharesReal(table, gs2[k])
        {
          if k < |gs| {
            assert gs2[k] == gs[k];
            assert SharesReal(table, gs[k]);
          } else {
            assert gs2[k] == [n];
            assert Shared(table, [n], true) == RealSlots(EntryOf(table, notes[|notes| - 1]));
          }
        }
      }
    }
  }

  /** Some hand position reaches every note of g. */
  ghost predicate Playable(table: seq<Row>, g: seq<NoteValue>) {
    exists p :: Reaches(table, g, p)
  }

  /** A group that shares a real position has a hand position reaching
      all of its notes. */
  lemma GroupReaches(table: seq<Row>, g: seq<NoteValue>)
    requires SharesReal(table, g)
    ensures Playable(table, g)
  {
    SharedInEntries(table, g, true);
    var o :| o in Shared(table, g, true);
    assert o in RealSlots(EntryOf(table, g[0]));
    forall n | n in g
      ensures Some(o.value) in EntryOf(table, n)
    {
      var i :| 0 <= i < |g| && g[i] == n;
      assert o in Slots(EntryOf(table, g[i]), true);
    }
    assert Reaches(table, g, o.value);
  }

  /** Corrected: when every key of the piece can be reached at all, every
      group of the corrected pass has one hand position from which all of
      its notes are reached, which is what a group is for. */
  lemma CorrectedGroupsPlayable(table: seq<Row>, notes: seq<NoteValue>)
    requires forall i :: 0 <= i < |notes| ==> RealSlots(EntryOf(table, notes[i])) != {}
    ensures forall k :: 0 <= k < |Groups(table, notes, true)| ==> Playable(table, Groups(table, notes, true)[k])
  {
    CorrectedGroupsShare(table, notes);
    forall k | 0 <= k < |Groups(table, notes, true)|
      ensures Playable(table, Groups(table, notes, true)[k])
    {
      GroupReaches(table, Groups(table, notes, true)[k]);
    }
  }
}
