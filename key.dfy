/** The validated description of one piano key: MIDI number, octave, step
    letter and alteration. */
module Keys {
  import opened Common

  /** The step letters a key may name. */
  const StepList: seq<string> := ["A", "B", "C", "D", "E", "F", "G"]

  datatype Key = Key(midiNumber: int, octave: int, step: string, alter: int)

  /** The guarded constructor `Key(midi_number, octave, step, alter)`: every
      argument outside its range raises ValueError, otherwise the four
      fields are the arguments. */
  function NewKey(midiNumber: int, octave: int, step: string, alter: int): (r: Result<Key>)
    ensures r.Ok? <==> 0 <= midiNumber <= 128 && 0 <= octave <= 8 && step in StepList && -1 <= alter <= 1
    ensures r.Ok? ==> r.value.midiNumber == midiNumber && r.value.octave == octave
                      && r.value.step == step && r.value.alter == alter
    ensures r.Err? ==> r.error == ValueError
  {
    if midiNumber > 128 || midiNumber < 0 then Err(ValueError)
    else if octave > 8 || octave < 0 then Err(ValueError)
    else if step !in StepList then Err(ValueError)
    else if alter > 1 || alter < -1 then Err(ValueError)
    else Ok(Key(midiNumber, octave, step, alter))
  }

  /** A key that passed the constructor's checks. */
  predicate ValidKey(k: Key) {
    0 <= k.midiNumber <= 128 && 0 <= k.octave <= 8 && k.step in StepList && -1 <= k.alter <= 1
  }

  /** Exactly the keys the constructor returns are the valid ones. */
  lemma NewKeyValid(midiNumber: int, octave: int, step: string, alter: int)
    ensures NewKey(midiNumber, octave, step, alter).Ok?
            <==> ValidKey(Key(midiNumber, octave, step, alter))
  {
  }
}
