/** The chord field of a deploy command: one character per solenoid slot,
    each a digit of a radix alphabet. The decoders walk it character by
    character, skip the padding character and replace every other one by
    its index in the alphabet (`BASE18.index(c)`, `base17.index(c)`). The
    three decoders differ only in the alphabet and the padding character. */
module Chords {
  import opened Common

  /** The solenoid indices named by chord s, or ValueError for a character
      outside the alphabet. */
  function ChordValues(s: string, alphabet: seq<char>, pad: char): (r: Result<seq<nat>>)
    decreases |s|
  {
    if |s| == 0 then Ok([])
    else
      var init :- ChordValues(s[..|s| - 1], alphabet, pad);
      var c := s[|s| - 1];
      if c == pad then Ok(init)
      else
        var i :- IndexOf(alphabet, c);
        Ok(init + [i])
  }

  /** A chord fails exactly when it holds a character that is neither the
      padding nor in the alphabet, and the failure is ValueError. */
  lemma {:induction false} ChordValuesError(s: string, alphabet: seq<char>, pad: char)
    ensures ChordValues(s, alphabet, pad).Err? <==> exists i :: 0 <= i < |s| && s[i] != pad && s[i] !in alphabet
    ensures ChordValues(s, alphabet, pad).Err? ==> ChordValues(s, alphabet, pad).error == ValueError
    decreases |s|
  {
    if |s| > 0 {
      var init := s[..|s| - 1];
      ChordValuesError(init, alphabet, pad);
      if exists i :: 0 <= i < |init| && init[i] != pad && init[i] !in alphabet {
        var i :| 0 <= i < |init| && init[i] != pad && init[i] !in alphabet;
        assert s[i] == init[i];
      } else {
        forall i | 0 <= i < |init| ensures s[i] == pad || s[i] in alphabet {
          assert s[i] == init[i];
        }
      }
    }
  }

  /** Every decoded value is an index of the alphabet, and names a
      character of the chord that is not the padding. */
  lemma {:induction false} ChordValuesRange(s: string, alphabet: seq<char>, pad: char)
    requires ChordValues(s, alphabet, pad).Ok?
    ensures forall k :: 0 <= k < |ChordValues(s, alphabet, pad).value| ==>
              ChordValues(s, alphabet, pad).value[k] < |alphabet| &&
              alphabet[ChordValues(s, alphabet, pad).value[k]] in s &&
              alphabet[ChordValues(s, alphabet, pad).value[k]] != pad
    decreases |s|
  {
    if |s| > 0 {
      var init := s[..|s| - 1];
      ChordValuesRange(init, alphabet, pad);
      var r := ChordValues(s, alphabet, pad).value;
      forall k | 0 <= k < |r|
        ensures r[k] < |alphabet| && alphabet[r[k]] in s && alphabet[r[k]] != pad
      {
        if k < |ChordValues(init, alphabet, pad).value| {
          var c := alphabet[r[k]];
          var j :| 0 <= j < |init| && init[j] == c;
          assert s[j] == c;
        }
      }
    }
  }

  /** The characters naming the indices vs. */
  function Encode(vs: seq<nat>, alphabet: seq<char>): (s: string)
    requires forall k :: 0 <= k < |vs| ==> vs[k] < |alphabet|
    ensures |s| == |vs|
  {
    seq(|vs|, k requires 0 <= k < |vs| => alphabet[vs[k]])
  }

  /** Decoding inverts encoding for an alphabet of distinct characters,
      as long as no index names the padding character. */
  lemma {:induction false} DecodeEncode(vs: seq<nat>, alphabet: seq<char>, pad: char)
    requires forall i, j :: 0 <= i < j < |alphabet| ==> alphabet[i] != alphabet[j]
    requires forall k :: 0 <= k < |vs| ==> vs[k] < |alphabet| && alphabet[vs[k]] != pad
    ensures ChordValues(Encode(vs, alphabet), alphabet, pad) == Ok(vs)
    decreases |vs|
  {
    if |vs| > 0 {
      var init := vs[..|vs| - 1];
      DecodeEncode(init, alphabet, pad);
      assert Encode(vs, alphabet)[..|vs| - 1] == Encode(init, alphabet);
      var c := alphabet[vs[|vs| - 1]];
      var i := IndexOf(alphabet, c);
      assert i.Ok?;
      assert i.value == vs[|vs| - 1];
      var e := Encode(vs, alphabet);
      assert e[|e| - 1] == c && c != pad;
      assert ChordValues(e, alphabet, pad) == Ok(vs[..|vs| - 1] + [vs[|vs| - 1]]);
      assert vs[..|vs| - 1] + [vs[|vs| - 1]] == vs;
    }
  }

  /** Padding characters at the end decode to nothing. */
  lemma {:induction false} PaddingIgnored(s: string, n: nat, alphabet: seq<char>, pad: char)
    ensures ChordValues(s + seq(n, _ => pad), alphabet, pad) == ChordValues(s, alphabet, pad)
    decreases n
  {
    if n > 0 {
      var t := s + seq(n, _ => pad);
      assert t[..|t| - 1] == s + seq(n - 1, _ => pad);
      PaddingIgnored(s, n - 1, alphabet, pad);
    } else {
      assert s + seq(0, _ => pad) == s;
    }
  }

  /** Once a prefix fails, every longer prefix fails with its error. */
  lemma {:induction false} PrefixError(s: string, m: nat, n: nat, alphabet: seq<char>, pad: char)
    requires m <= n <= |s|
    requires ChordValues(s[..m], alphabet, pad).Err?
    ensures ChordValues(s[..n], alphabet, pad) == ChordValues(s[..m], alphabet, pad)
    decreases n
  {
    if m < n {
      PrefixError(s, m, n - 1, alphabet, pad);
      assert s[..n][..n - 1] == s[..n - 1];
    }
  }

  /** The decoders' loop over the chord characters: the padding is
      skipped, any other character appends its index in the alphabet. */
  method DecodeChord(s: string, alphabet: seq<char>, pad: char) returns (r: Result<seq<nat>>)
    ensures r == ChordValues(s, alphabet, pad)
  {
    var list: seq<nat> := [];
    for x := 0 to |s|
      invariant ChordValues(s[..x], alphabet, pad) == Ok(list)
    {
      assert s[..x + 1][..x] == s[..x];
      if s[x] != pad {
        var i := IndexOf(alphabet, s[x]);
        if i.Err? {
          PrefixError(s, x + 1, |s|, alphabet, pad);
          assert s[..|s|] == s;
          return Err(i.error);
        }
        list := list + [i.value];
      }
    }
    assert s[..|s|] == s;
    return Ok(list);
  }
}
