/** Flat batches: ragged rows laid end to end. */
module Flat {

  function Concat<T>(ss: seq<seq<T>>): seq<T> {
    if ss == [] then [] else Concat(ss[..|ss| - 1]) + ss[|ss| - 1]
  }

  lemma ConcatSnoc<T>(ss: seq<seq<T>>, k: nat)
    requires k < |ss|
    ensures Concat(ss[..k + 1]) == Concat(ss[..k]) + ss[k]
  {
    assert ss[..k + 1][..k] == ss[..k];
  }

  /** Where row k starts. */
  function Offset<T>(ss: seq<seq<T>>, k: nat): nat
    requires k <= |ss|
  {
    |Concat(ss[..k])|
  }

  lemma OffsetStep<T>(ss: seq<seq<T>>, k: nat)
    requires k < |ss|
    ensures Offset(ss, k + 1) == Offset(ss, k) + |ss[k]|
  {
    assert ss[..k + 1][..k] == ss[..k];
  }

  lemma {:induction false} OffsetMono<T>(ss: seq<seq<T>>, j: nat, k: nat)
    requires j <= k <= |ss|
    ensures Offset(ss, j) <= Offset(ss, k)
    decreases k
  {
    if j < k {
      OffsetMono(ss, j, k - 1);
      OffsetStep(ss, k - 1);
    }
  }

  lemma {:induction false} ConcatAt<T>(ss: seq<seq<T>>, k: nat, j: nat)
    requires k < |ss| && j < |ss[k]|
    ensures Offset(ss, k) + j < |Concat(ss)|
    ensures Concat(ss)[Offset(ss, k) + j] == ss[k][j]
  {
    var init := ss[..|ss| - 1];
    if k < |ss| - 1 {
      ConcatAt(init, k, j);
      assert init[..k] == ss[..k];
    } else {
      assert ss[..k] == init;
    }
  }

  /** Every flat position is some row's position. */
  lemma {:induction false} Locate<T>(ss: seq<seq<T>>, i: nat) returns (k: nat, j: nat)
    requires i < |Concat(ss)|
    ensures k < |ss| && j < |ss[k]| && i == Offset(ss, k) + j
    ensures Concat(ss)[i] == ss[k][j]
  {
    var init := ss[..|ss| - 1];
    if i < |Concat(init)| {
      k, j := Locate(init, i);
      assert init[..k] == ss[..k];
    } else {
      k, j := |ss| - 1, i - |Concat(init)|;
      assert ss[..k] == init;
    }
  }

  /** Offsets only depend on the rows' lengths. */
  lemma {:induction false} OffsetSame<S, T>(ss: seq<seq<S>>, ts: seq<seq<T>>, k: nat)
    requires |ss| == |ts| && k <= |ss| && forall i :: 0 <= i < |ss| ==> |ss[i]| == |ts[i]|
    ensures Offset(ss, k) == Offset(ts, k)
    decreases k
  {
    if k > 0 {
      OffsetSame(ss, ts, k - 1);
      OffsetStep(ss, k - 1);
      OffsetStep(ts, k - 1);
    }
  }

  lemma ConcatLength<S, T>(ss: seq<seq<S>>, ts: seq<seq<T>>)
    requires |ss| == |ts| && forall i :: 0 <= i < |ss| ==> |ss[i]| == |ts[i]|
    ensures |Concat(ss)| == |Concat(ts)|
  {
    OffsetSame(ss, ts, |ss|);
    assert ss[..|ss|] == ss && ts[..|ts|] == ts;
  }

  lemma ConcatSlice<T>(ss: seq<seq<T>>, k: nat)
    requires k < |ss|
    ensures Offset(ss, k) + |ss[k]| <= |Concat(ss)|
    ensures Concat(ss)[Offset(ss, k)..Offset(ss, k) + |ss[k]|] == ss[k]
  {
    OffsetStep(ss, k);
    OffsetMono(ss, k + 1, |ss|);
    assert ss[..|ss|] == ss;
    forall j | 0 <= j < |ss[k]| ensures Concat(ss)[Offset(ss, k) + j] == ss[k][j] {
      ConcatAt(ss, k, j);
    }
  }
}
