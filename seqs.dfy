/** Sequence helpers: the concatenation of a list of lists. */
module Seqs {

  /**
   * The lists of `xss` concatenated in order. It peels off the LAST list so
   * that the flattening of a prefix `xss[..i + 1]` unfolds to the flattening of
   * `xss[..i]` followed by `xss[i]`, the step of a loop that extends a list.
   */
  function Flatten<T>(xss: seq<seq<T>>): seq<T>
  {
    if xss == [] then [] else Flatten(xss[..|xss| - 1]) + xss[|xss| - 1]
  }

  /** The total number of elements of the lists of `xss`. */
  function TotalLength<T>(xss: seq<seq<T>>): nat
  {
    if xss == [] then 0 else TotalLength(xss[..|xss| - 1]) + |xss[|xss| - 1]|
  }

  lemma {:induction false} FlattenLength<T>(xss: seq<seq<T>>)
    ensures |Flatten(xss)| == TotalLength(xss)
  {
    if xss != [] {
      FlattenLength(xss[..|xss| - 1]);
    }
  }

  lemma {:induction false} FlattenAppend<T>(xss: seq<seq<T>>, yss: seq<seq<T>>)
    ensures Flatten(xss + yss) == Flatten(xss) + Flatten(yss)
    decreases |yss|
  {
    if yss == [] {
      assert xss + yss == xss;
    } else {
      var n := |yss| - 1;
      assert (xss + yss)[..|xss + yss| - 1] == xss + yss[..n];
      FlattenAppend(xss, yss[..n]);
    }
  }

  /** Flattening one more list of a prefix appends that list. */
  lemma FlattenSnoc<T>(xss: seq<seq<T>>, k: nat)
    requires k < |xss|
    ensures Flatten(xss[..k + 1]) == Flatten(xss[..k]) + xss[k]
  {
    assert xss[..k + 1][..k] == xss[..k];
  }

  /**
   * Element `k` of the `i`-th list sits at the total length of the lists
   * before it plus `k`.
   */
  lemma {:induction false} FlattenAt<T>(xss: seq<seq<T>>, i: nat, k: nat)
    requires i < |xss| && k < |xss[i]|
    ensures TotalLength(xss[..i]) + k < |Flatten(xss)|
    ensures Flatten(xss)[TotalLength(xss[..i]) + k] == xss[i][k]
  {
    var n := |xss| - 1;
    FlattenLength(xss);
    FlattenLength(xss[..n]);
    if i < n {
      assert xss[..n][..i] == xss[..i];
      FlattenAt(xss[..n], i, k);
    } else {
      assert xss[..n] == xss[..i];
    }
  }

  /**
   * A prefix of the `i`-th list, after all the lists before it, is a prefix of
   * the whole flattening: the calls a stage made before it stopped.
   */
  lemma FlattenPrefix<T>(xss: seq<seq<T>>, i: nat, k: nat)
    requires i < |xss| && k <= |xss[i]|
    ensures |Flatten(xss[..i]) + xss[i][..k]| <= |Flatten(xss)|
    ensures Flatten(xss[..i]) + xss[i][..k] == Flatten(xss)[..|Flatten(xss[..i]) + xss[i][..k]|]
  {
    assert xss == xss[..i + 1] + xss[i + 1..];
    FlattenAppend(xss[..i + 1], xss[i + 1..]);
    assert xss[..i + 1][..i] == xss[..i];
    var a, b, c := Flatten(xss[..i]), xss[i], Flatten(xss[i + 1..]);
    assert Flatten(xss) == a + b + c;
    assert b == b[..k] + b[k..];
    assert a + b + c == (a + b[..k]) + (b[k..] + c);
  }

  lemma {:induction false} TotalLengthPointwise<T, U>(xss: seq<seq<T>>, yss: seq<seq<U>>)
    requires |xss| == |yss|
    requires forall i :: 0 <= i < |xss| ==> |xss[i]| == |yss[i]|
    ensures TotalLength(xss) == TotalLength(yss)
  {
    if xss != [] {
      TotalLengthPointwise(xss[..|xss| - 1], yss[..|yss| - 1]);
    }
  }

  lemma {:induction false} TotalLengthUniform<T>(xss: seq<seq<T>>, m: nat)
    requires forall i :: 0 <= i < |xss| ==> |xss[i]| == m
    ensures TotalLength(xss) == |xss| * m
  {
    if xss != [] {
      var n := |xss| - 1;
      TotalLengthUniform(xss[..n], m);
      assert TotalLength(xss) == n * m + m;
      assert n * m + m == (n + 1) * m;
    }
  }

  /** Flattening from the front: the first list, then the flattening of the others. */
  lemma FlattenCons<T>(xss: seq<seq<T>>)
    requires xss != []
    ensures Flatten(xss) == xss[0] + Flatten(xss[1..])
  {
    assert xss == [xss[0]] + xss[1..];
    FlattenAppend([xss[0]], xss[1..]);
    assert [xss[0]][..0] == [];
  }
}
