/** The radix alphabets and step letters built by the two `Constants`
    modules. The YAML configuration read is not part of this model: the
    values it supplies are constructor parameters. */
module Alphabets {
  import opened Keys

  /** The eighteen chord-digit symbols, each a one-character string in the
      source, here a character. */
  const Base18Digits: seq<char> := "0123456789ABCDEFGH"

  /** The seventeen-symbol alphabet of the older tools: the first seventeen
      symbols of Base18Digits. */
  const Base17Digits: seq<char> := "0123456789ABCDEFG"

  /** `base_18()`: ten decimal digits, then the letters A to H. */
  method Base18() returns (r: seq<char>)
    ensures |r| == 18
    ensures forall i :: 0 <= i < 10 ==> r[i] == ('0' as int + i) as char
    ensures forall i :: 10 <= i < 18 ==> r[i] == ('A' as int + i - 10) as char
    ensures r == Base18Digits
  {
    r := [];
    for i := 0 to 10
      invariant |r| == i
      invariant forall j :: 0 <= j < i ==> r[j] == ('0' as int + j) as char
    {
      r := r + [('0' as int + i) as char];
    }
    for c := 'A' as int to 'H' as int + 1
      invariant |r| == 10 + c - 'A' as int
      invariant forall j :: 0 <= j < 10 ==> r[j] == ('0' as int + j) as char
      invariant forall j :: 10 <= j < |r| ==> r[j] == ('A' as int + j - 10) as char
    {
      r := r + [c as char];
    }
  }

  /** `__generate_step_list`: the letters A to G. */
  method StepLetters() returns (r: seq<string>)
    ensures |r| == 7
    ensures forall i :: 0 <= i < 7 ==> r[i] == [('A' as int + i) as char]
    ensures r == StepList
  {
    r := [];
    for c := 'A' as int to 'G' as int + 1
      invariant |r| == c - 'A' as int
      invariant forall j :: 0 <= j < |r| ==> r[j] == [('A' as int + j) as char]
    {
      r := r + [[c as char]];
    }
  }

  /** The symbols are pairwise distinct, so `index` inverts lookup. */
  lemma Base18Distinct()
    ensures forall i, j :: 0 <= i < j < 18 ==> Base18Digits[i] != Base18Digits[j]
  {
  }

  /** The last symbol, 'H', is the padding sentinel of the chord field. */
  lemma Base18Sentinel()
    ensures Base18Digits[17] == 'H' && 'H' !in Base18Digits[..17]
  {
  }

  /** The seventeen-symbol alphabet is the eighteen-symbol one without 'H'. */
  lemma Base17IsPrefix()
    ensures Base17Digits == Base18Digits[..17]
  {
  }

  /** The configuration object of constants.py: the kinematic limits and
      first keys come from the configuration file and are parameters here;
      the two tuples are generated. */
  class Settings {
    const maxVelocity: int
    const maxAcceleration: int
    const first88Key: Key
    const first76Key: Key
    const first61Key: Key
    const first49Key: Key
    var base18: seq<char>
    var stepList: seq<string>

    constructor (maxVelocity: int, maxAcceleration: int, first88Key: Key, first76Key: Key,
                 first61Key: Key, first49Key: Key)
      ensures this.maxVelocity == maxVelocity && this.maxAcceleration == maxAcceleration
      ensures this.first88Key == first88Key && this.first76Key == first76Key
      ensures this.first61Key == first61Key && this.first49Key == first49Key
      ensures base18 == Base18Digits && stepList == StepList
    {
      this.maxVelocity := maxVelocity;
      this.maxAcceleration := maxAcceleration;
      this.first88Key := first88Key;
      this.first76Key := first76Key;
      this.first61Key := first61Key;
      this.first49Key := first49Key;
      base18 := [];
      stepList := [];
      new;
      GenerateBase18();
      GenerateStepList();
    }

    /** `__generate_base_18`: stores the eighteen symbols. */
    method GenerateBase18()
      modifies this`base18
      ensures base18 == Base18Digits
    {
      base18 := Base18();
    }

    /** `__generate_step_list`: stores the letters A to G. */
    method GenerateStepList()
      modifies this`stepList
      ensures stepList == StepList
    {
      stepList := StepLetters();
    }
  }
}
