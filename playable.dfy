/** A chord being assembled: pitches that start together, and the rail
    positions from which all of them can be struck. */
module Playable {

  /** The rail positions that can strike every pitch of the chord: the
      intersection of the key map's position sets. */
  function ChordLocations(keyMap: int -> set<int>, pitches: seq<int>): set<int>
    requires |pitches| >= 1
    decreases |pitches|
  {
    if |pitches| == 1 then keyMap(pitches[0])
    else ChordLocations(keyMap, pitches[..|pitches| - 1]) * keyMap(pitches[|pitches| - 1])
  }

  /** A position serves the chord exactly when it serves every pitch. */
  lemma {:induction false} ChordLocationsMembership(keyMap: int -> set<int>, pitches: seq<int>, x: int)
    requires |pitches| >= 1
    ensures x in ChordLocations(keyMap, pitches) <==> forall i :: 0 <= i < |pitches| ==> x in keyMap(pitches[i])
    decreases |pitches|
  {
    if |pitches| > 1 {
      var init := pitches[..|pitches| - 1];
      ChordLocationsMembership(keyMap, init, x);
      assert forall i :: 0 <= i < |init| ==> init[i] == pitches[i];
    }
  }

  /** Adding a pitch never adds a position. */
  lemma ChordLocationsShrink(keyMap: int -> set<int>, pitches: seq<int>, p: int)
    requires |pitches| >= 1
    ensures ChordLocations(keyMap, pitches + [p]) <= ChordLocations(keyMap, pitches)
    ensures ChordLocations(keyMap, pitches + [p]) <= keyMap(p)
  {
    assert (pitches + [p])[..|pitches|] == pitches;
  }

  /** `PlayableNote`: one chord. The key map's `playable_for_pitch` is not
      part of this model; it is the function-valued `keyMap`. */
  class PlayableNote {
    const keyMap: int -> set<int>
    var noteStart: int
    var duration: int
    var velocity: int
    var midiPitches: seq<int>
    var possibleLocations: set<int>

    /** The stored positions are always those of all pitches so far. */
    ghost predicate Valid()
      reads this
    {
      |midiPitches| >= 1 && possibleLocations == ChordLocations(keyMap, midiPitches)
    }

    constructor (keyMap: int -> set<int>, noteStart: int, duration: int, midiPitch: int, velocity: int)
      ensures Valid()
      ensures this.keyMap == keyMap && this.noteStart == noteStart && this.duration == duration
      ensures this.velocity == velocity
      ensures midiPitches == [midiPitch] && possibleLocations == keyMap(midiPitch)
    {
      this.keyMap := keyMap;
      this.noteStart := noteStart;
      this.duration := duration;
      this.velocity := velocity;
      midiPitches := [midiPitch];
      possibleLocations := keyMap(midiPitch);
    }

    /** `add_pitch`: the pitch is appended even when no position is left;
        the positions are narrowed to those that also strike it; the result
        is 0 when some position remains and 1 otherwise. Start, duration,
        velocity and key map are left alone (the frame says so). */
    method AddPitch(newMidiPitch: int) returns (code: int)
      requires Valid()
      modifies this`midiPitches, this`possibleLocations
      ensures Valid()
      ensures midiPitches == old(midiPitches) + [newMidiPitch]
      ensures possibleLocations == old(possibleLocations) * keyMap(newMidiPitch)
      ensures possibleLocations <= old(possibleLocations)
      ensures code == (if possibleLocations != {} then 0 else 1)
    {
      midiPitches := midiPitches + [newMidiPitch];
      var newLocations := keyMap(newMidiPitch);
      possibleLocations := possibleLocations * newLocations;
      assert midiPitches[..|midiPitches| - 1] == old(midiPitches);
      if possibleLocations != {} {
        code := 0;
      } else {
        code := 1;
      }
    }
  }
}
