/** List comprehensions with a filter, `[f(x) for x in xs if keep(x)]`, and what they keep. */
module Selection {

  /** `[f(x) for x in xs if keep(x)]`. */
  function Select<A, B>(xs: seq<A>, keep: A --> bool, f: A --> B): (ys: seq<B>)
    requires forall i :: 0 <= i < |xs| ==> keep.requires(xs[i]) && f.requires(xs[i])
    ensures |ys| <= |xs|
  {
    if xs == [] then []
    else
      var n := |xs| - 1;
      var rest := Select(xs[..n], keep, f);
      if keep(xs[n]) then rest + [f(xs[n])] else rest
  }

  /**
   * A selection keeps exactly the accepted elements, in order: `idx` maps each output to the input
   * it comes from, strictly increasing, and every accepted input is in it.
   */
  lemma {:induction false} SelectInOrder<A, B>(xs: seq<A>, keep: A --> bool, f: A --> B) returns (idx: seq<nat>)
    requires forall i :: 0 <= i < |xs| ==> keep.requires(xs[i]) && f.requires(xs[i])
    ensures |idx| == |Select(xs, keep, f)|
    ensures forall k :: 0 <= k < |idx| ==>
      idx[k] < |xs| && keep(xs[idx[k]]) && Select(xs, keep, f)[k] == f(xs[idx[k]])
    ensures forall k, l :: 0 <= k < l < |idx| ==> idx[k] < idx[l]
    ensures forall i :: 0 <= i < |xs| && keep(xs[i]) ==> i in idx
    decreases |xs|
  {
    if xs == [] {
      idx := [];
    } else {
      var n := |xs| - 1;
      var init := xs[..n];
      var before := SelectInOrder(init, keep, f);
      assert forall i :: 0 <= i < n ==> init[i] == xs[i];
      var rest := Select(init, keep, f);
      if keep(xs[n]) {
        idx := before + [n];
        assert Select(xs, keep, f) == rest + [f(xs[n])];
        forall k | 0 <= k < |idx|
          ensures idx[k] < |xs| && keep(xs[idx[k]]) && Select(xs, keep, f)[k] == f(xs[idx[k]])
        {
          if k < |before| {
            assert idx[k] == before[k] && Select(xs, keep, f)[k] == rest[k];
          }
        }
      } else {
        idx := before;
        assert Select(xs, keep, f) == rest;
      }
    }
  }

  /** An accepted input's image is among the outputs. */
  lemma {:induction false} SelectHas<A, B>(xs: seq<A>, keep: A --> bool, f: A --> B, i: nat)
    requires forall j :: 0 <= j < |xs| ==> keep.requires(xs[j]) && f.requires(xs[j])
    requires i < |xs| && keep(xs[i])
    ensures f(xs[i]) in Select(xs, keep, f)
    decreases |xs|
  {
    var n := |xs| - 1;
    if i < n {
      SelectHas(xs[..n], keep, f, i);
      assert xs[..n][i] == xs[i];
    }
  }

  /** An accepted input among the first `n` has its image among the outputs for those `n`. */
  lemma SelectHasPrefix<A, B>(xs: seq<A>, n: nat, keep: A --> bool, f: A --> B, i: nat)
    requires i < n <= |xs|
    requires forall j :: 0 <= j < n ==> keep.requires(xs[j]) && f.requires(xs[j])
    requires keep(xs[i])
    ensures f(xs[i]) in Select(xs[..n], keep, f)
  {
    assert xs[..n][i] == xs[i];
    SelectHas(xs[..n], keep, f, i);
  }

  /** Every output of a selection has a property that the image of every accepted input has. */
  lemma {:induction false} SelectOnly<A, B>(xs: seq<A>, keep: A --> bool, f: A --> B, p: B -> bool)
    requires forall i :: 0 <= i < |xs| ==> keep.requires(xs[i]) && f.requires(xs[i])
    requires forall i :: 0 <= i < |xs| && keep(xs[i]) ==> p(f(xs[i]))
    ensures forall y :: y in Select(xs, keep, f) ==> p(y)
    decreases |xs|
  {
    if xs != [] {
      SelectOnly(xs[..|xs| - 1], keep, f, p);
    }
  }

  /** Selecting with a test that accepts everything maps every element. */
  lemma {:induction false} SelectAll<A, B>(xs: seq<A>, keep: A --> bool, f: A --> B)
    requires forall i :: 0 <= i < |xs| ==> keep.requires(xs[i]) && f.requires(xs[i]) && keep(xs[i])
    ensures |Select(xs, keep, f)| == |xs|
    ensures forall i :: 0 <= i < |xs| ==> Select(xs, keep, f)[i] == f(xs[i])
    decreases |xs|
  {
    if xs != [] {
      SelectAll(xs[..|xs| - 1], keep, f);
    }
  }

  /** An element of the second part is in the concatenation. */
  lemma InAppend<B>(a: seq<B>, b: seq<B>, x: B)
    requires x in b
    ensures x in a + b
  {
    var k :| 0 <= k < |b| && b[k] == x;
    assert (a + b)[|a| + k] == x;
  }

  /** An element of a prefix is in the whole sequence. */
  lemma InPrefix<B>(a: seq<B>, b: seq<B>, x: B)
    requires a <= b && x in a
    ensures x in b
  {
    var k :| 0 <= k < |a| && a[k] == x;
    assert b[k] == x;
  }
}
