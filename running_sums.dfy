/** The pcode streams store each command's time relative to the previous
    command of the same stream; the decoders turn these into absolute times
    by a running sum. */
module RunningSums {

  /** The sum of ds. */
  function Sum(ds: seq<int>): int
    decreases |ds|
  {
    if |ds| == 0 then 0 else Sum(ds[..|ds| - 1]) + ds[|ds| - 1]
  }

  /** The absolute times: entry i is the sum of the first i + 1 relative
      times. */
  function PrefixSums(ds: seq<int>): (r: seq<int>)
    ensures |r| == |ds|
  {
    seq(|ds|, i requires 0 <= i < |ds| => Sum(ds[..i + 1]))
  }

  /** The relative times of a list of absolute times: the inverse of
      PrefixSums. */
  function Differences(ts: seq<int>): (r: seq<int>)
    ensures |r| == |ts|
  {
    seq(|ts|, i requires 0 <= i < |ts| => if i == 0 then ts[0] else ts[i] - ts[i - 1])
  }

  /** One more relative time adds it to the running total. */
  lemma SumStep(ds: seq<int>, i: nat)
    requires i < |ds|
    ensures Sum(ds[..i + 1]) == Sum(ds[..i]) + ds[i]
  {
    assert ds[..i + 1][..i] == ds[..i];
  }

  /** One more relative time adds one more absolute time, the total so
      far plus it. */
  lemma PrefixSumsAppend(ds: seq<int>, x: int)
    ensures PrefixSums(ds + [x]) == PrefixSums(ds) + [Sum(ds) + x]
  {
    var e := ds + [x];
    forall i | 0 <= i < |ds| ensures PrefixSums(e)[i] == PrefixSums(ds)[i] {
      assert e[..i + 1] == ds[..i + 1];
    }
    assert e[..|e|] == e && e[..|e| - 1] == ds;
  }

  /** Taking differences of the running sums gives the relative times
      back. */
  lemma DifferencesOfSums(ds: seq<int>)
    ensures Differences(PrefixSums(ds)) == ds
  {
    var ts := PrefixSums(ds);
    forall i | 0 <= i < |ds|
      ensures Differences(ts)[i] == ds[i]
    {
      SumStep(ds, i);
      if i == 0 {
        assert ds[..0] == [];
      } else {
        assert ts[i - 1] == Sum(ds[..i]);
      }
    }
  }

  /** Running sums of the differences give the absolute times back. */
  lemma SumsOfDifferences(ts: seq<int>)
    ensures PrefixSums(Differences(ts)) == ts
  {
    var ds := Differences(ts);
    forall i | 0 <= i < |ts|
      ensures PrefixSums(ds)[i] == ts[i]
    {
      SumsOfDifferencesAt(ts, i);
    }
  }

  lemma {:induction false} SumsOfDifferencesAt(ts: seq<int>, i: nat)
    requires i < |ts|
    ensures Sum(Differences(ts)[..i + 1]) == ts[i]
    decreases i
  {
    var ds := Differences(ts);
    SumStep(ds, i);
    if i == 0 {
      assert ds[..0] == [];
    } else {
      SumsOfDifferencesAt(ts, i - 1);
    }
  }

  /** With non-negative relative times the absolute times never decrease. */
  lemma SumsNondecreasing(ds: seq<int>)
    requires forall i :: 0 <= i < |ds| ==> ds[i] >= 0
    ensures forall i, j :: 0 <= i <= j < |ds| ==> PrefixSums(ds)[i] <= PrefixSums(ds)[j]
  {
    forall i, j | 0 <= i <= j < |ds|
      ensures PrefixSums(ds)[i] <= PrefixSums(ds)[j]
    {
      SumsGrow(ds, i, j);
    }
  }

  lemma {:induction false} SumsGrow(ds: seq<int>, i: nat, j: nat)
    requires i <= j < |ds|
    requires forall k :: 0 <= k < |ds| ==> ds[k] >= 0
    ensures Sum(ds[..i + 1]) <= Sum(ds[..j + 1])
    decreases j - i
  {
    if i < j {
      SumsGrow(ds, i, j - 1);
      SumStep(ds, j);
    }
  }
}
