/** Searches and filters over sequences, as `Iterator::find`, `Array.prototype.find`,
    `Vec::retain` and `Array.prototype.filter` perform them. */
module Seqs {
  import opened Wrappers

  /** The index of the first element satisfying `matches`, if any. */
  function FirstIndex<T>(xs: seq<T>, matches: T -> bool): (r: Option<nat>)
    ensures r.Some? ==> r.value < |xs| && matches(xs[r.value])
    ensures r.Some? ==> forall j :: 0 <= j < r.value ==> !matches(xs[j])
    ensures r.None? <==> forall j :: 0 <= j < |xs| ==> !matches(xs[j])
  {
    if |xs| == 0 then None
    else if matches(xs[0]) then Some(0)
    else match FirstIndex(xs[1..], matches)
      case None => None
      case Some(k) => Some(k + 1)
  }

  /** The elements satisfying `keep`, in their original order. */
  function Filter<T(!new)>(xs: seq<T>, keep: T -> bool): (r: seq<T>)
    ensures |r| <= |xs|
    ensures forall x :: x in r <==> x in xs && keep(x)
    ensures |r| == |xs| <==> forall j :: 0 <= j < |xs| ==> keep(xs[j])
  {
    if |xs| == 0 then []
    else if keep(xs[0]) then [xs[0]] + Filter(xs[1..], keep)
    else Filter(xs[1..], keep)
  }

  /** Filtering a concatenation filters each part and keeps them in order:
      the relative order of the kept elements never changes. */
  lemma {:induction false} FilterDistributes<T(!new)>(a: seq<T>, b: seq<T>, keep: T -> bool)
    ensures Filter(a + b, keep) == Filter(a, keep) + Filter(b, keep)
    decreases |a|
  {
    if |a| > 0 {
      assert (a + b)[1..] == a[1..] + b;
      FilterDistributes(a[1..], b, keep);
    } else {
      assert a + b == b;
    }
  }

  /** The indices `i` from `from` on whose elements satisfy `keep`, in increasing order. */
  function KeptIndices<T>(xs: seq<T>, keep: T -> bool, from: nat): seq<nat>
    decreases |xs| - from
  {
    if from >= |xs| then []
    else (if keep(xs[from]) then [from] else []) + KeptIndices(xs, keep, from + 1)
  }

  /** `r` lists the elements of `xs` at the strictly increasing positions `idx`, and the
      positions at or after `from` listed are exactly those whose element satisfies `keep`:
      `r` is the kept elements, each once per occurrence, in their original order. */
  ghost predicate SelectedAt<T>(xs: seq<T>, keep: T -> bool, from: nat, r: seq<T>, idx: seq<nat>) {
    && |idx| == |r|
    && (forall k :: 0 <= k < |idx| ==> from <= idx[k] < |xs| && r[k] == xs[idx[k]])
    && (forall k, l :: 0 <= k < l < |idx| ==> idx[k] < idx[l])
    && (forall i :: from <= i < |xs| ==> (keep(xs[i]) <==> i in idx))
  }

  /** `Filter` keeps every satisfying element, once per occurrence, in its original order,
      and nothing else. */
  lemma FilterKeepsOrder<T(!new)>(xs: seq<T>, keep: T -> bool)
    ensures SelectedAt(xs, keep, 0, Filter(xs, keep), KeptIndices(xs, keep, 0))
  {
    FilterKeepsOrderFrom(xs, keep, 0);
    assert xs[0..] == xs;
  }

  lemma {:induction false} FilterKeepsOrderFrom<T(!new)>(xs: seq<T>, keep: T -> bool, from: nat)
    requires from <= |xs|
    ensures SelectedAt(xs, keep, from, Filter(xs[from..], keep), KeptIndices(xs, keep, from))
    decreases |xs| - from
  {
    if from < |xs| {
      FilterKeepsOrderFrom(xs, keep, from + 1);
      var rest, ri := Filter(xs[from + 1..], keep), KeptIndices(xs, keep, from + 1);
      assert xs[from..][1..] == xs[from + 1..];
      if keep(xs[from]) {
        assert Filter(xs[from..], keep) == [xs[from]] + rest;
        assert KeptIndices(xs, keep, from) == [from] + ri;
        SelectedKeep(xs, keep, from, rest, ri);
      } else {
        assert Filter(xs[from..], keep) == rest;
        assert KeptIndices(xs, keep, from) == ri;
        SelectedDrop(xs, keep, from, rest, ri);
      }
    }
  }

  /** A dropped `xs[from]` leaves the selection from `from + 1` as it is. */
  lemma SelectedDrop<T>(xs: seq<T>, keep: T -> bool, from: nat, rest: seq<T>, ri: seq<nat>)
    requires from < |xs| && !keep(xs[from]) && SelectedAt(xs, keep, from + 1, rest, ri)
    ensures SelectedAt(xs, keep, from, rest, ri)
  {
    assert from !in ri;
  }

  /** A kept `xs[from]` goes in front, with its index in front of the later ones. */
  lemma SelectedKeep<T>(xs: seq<T>, keep: T -> bool, from: nat, rest: seq<T>, ri: seq<nat>)
    requires from < |xs| && keep(xs[from]) && SelectedAt(xs, keep, from + 1, rest, ri)
    ensures SelectedAt(xs, keep, from, [xs[from]] + rest, [from] + ri)
  {
    var r, idx := [xs[from]] + rest, [from] + ri;
    forall k | 1 <= k < |idx|
      ensures from <= idx[k] < |xs| && r[k] == xs[idx[k]]
    {
      assert idx[k] == ri[k - 1] && r[k] == rest[k - 1];
    }
    forall k, l | 0 <= k < l < |idx|
      ensures idx[k] < idx[l]
    {
      assert idx[l] == ri[l - 1];
      if k > 0 {
        assert idx[k] == ri[k - 1];
      }
    }
    forall i | from < i < |xs|
      ensures keep(xs[i]) <==> i in idx
    {
      assert i in idx <==> i in ri;
    }
  }
}
