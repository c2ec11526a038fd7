/** Concatenation of a list of lists, used for face indices, the pre-order
    mesh list and the vertices of all meshes. */
module Sequences {

  lemma AppendAssoc<T>(a: seq<T>, b: seq<T>, c: seq<T>)
    ensures (a + b) + c == a + (b + c)
  {
  }

  /** A prefix one element longer. */
  lemma TakeSnoc<T>(s: seq<T>, j: nat)
    requires j < |s|
    ensures s[..j + 1] == s[..j] + [s[j]]
  {
  }

  /** The lists of `xss` one after the other. */
  function Concat<T>(xss: seq<seq<T>>): seq<T>
  {
    if |xss| == 0 then [] else Concat(xss[..|xss| - 1]) + xss[|xss| - 1]
  }

  /** Concatenating a prefix and then the next list. */
  lemma ConcatPrefixStep<T>(xss: seq<seq<T>>, i: nat)
    requires i < |xss|
    ensures Concat(xss[..i + 1]) == Concat(xss[..i]) + xss[i]
  {
    assert xss[..i + 1][..i] == xss[..i];
  }

  /** Concatenation distributes over appending lists of lists. */
  lemma {:induction false} ConcatAppend<T>(a: seq<seq<T>>, b: seq<seq<T>>)
    ensures Concat(a + b) == Concat(a) + Concat(b)
    decreases |b|
  {
    if |b| > 0 {
      var b' := b[..|b| - 1];
      assert (a + b)[..|a + b| - 1] == a + b';
      ConcatAppend(a, b');
    } else {
      assert a + b == a;
    }
  }

  /** The length of a concatenation when every list has length k. */
  lemma {:induction false} ConcatUniformLength<T>(xss: seq<seq<T>>, k: nat)
    requires forall i :: 0 <= i < |xss| ==> |xss[i]| == k
    ensures |Concat(xss)| == k * |xss|
  {
    if |xss| > 0 {
      ConcatUniformLength(xss[..|xss| - 1], k);
    }
  }

  /** Every element of a concatenation comes from one of its lists. */
  lemma {:induction false} ConcatMember<T>(xss: seq<seq<T>>, j: nat)
    requires j < |Concat(xss)|
    ensures exists i, k :: 0 <= i < |xss| && 0 <= k < |xss[i]| && Concat(xss)[j] == xss[i][k]
  {
    var init := xss[..|xss| - 1];
    var last := xss[|xss| - 1];
    if j < |Concat(init)| {
      ConcatMember(init, j);
      var i, k :| 0 <= i < |init| && 0 <= k < |init[i]| && Concat(init)[j] == init[i][k];
      assert xss[i] == init[i];
    } else {
      assert Concat(xss)[j] == last[j - |Concat(init)|];
    }
  }
}
