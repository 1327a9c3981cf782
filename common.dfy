/** Failure-compatible wrappers shared by every module of the model. */
module Common {

  /** A value that may be absent: Python's `None`, JavaScript's `null`/`undefined`. */
  datatype Option<+T> = None | Some(value: T)

  /** The outcome of an operation that may raise: a value, or the error it raised. */
  datatype Result<+T, +E> = Ok(value: T) | Err(error: E)

  /** The values f gives for the elements of xs, in order, skipping those it drops. */
  function Gather<T, U>(xs: seq<T>, f: T -> Option<U>): (kept: seq<U>)
    ensures |kept| <= |xs|
  {
    if xs == [] then []
    else
      var n := |xs| - 1;
      Gather(xs[..n], f) + (if f(xs[n]).Some? then [f(xs[n]).value] else [])
  }

  /** The positions of the elements whose values `Gather` keeps. */
  function GatherIndices<T, U>(xs: seq<T>, f: T -> Option<U>): seq<nat> {
    if xs == [] then []
    else
      var n := |xs| - 1;
      GatherIndices(xs[..n], f) + (if f(xs[n]).Some? then [n] else [])
  }

  /** Looking at one more element keeps what f gives for it, if anything. */
  lemma GatherStep<T, U>(xs: seq<T>, i: nat, f: T -> Option<U>)
    requires i < |xs|
    ensures Gather(xs[..i + 1], f) == Gather(xs[..i], f) + (if f(xs[i]).Some? then [f(xs[i]).value] else [])
  {
    assert xs[..i + 1][..i] == xs[..i];
  }

  /** Nothing is kept when f gives nothing for any element. */
  lemma {:induction false} GatherNone<T, U>(xs: seq<T>, f: T -> Option<U>)
    requires forall i :: 0 <= i < |xs| ==> f(xs[i]).None?
    ensures Gather(xs, f) == []
  {
    if xs != [] {
      GatherNone(xs[..|xs| - 1], f);
    }
  }

  /** `Gather` keeps, in strictly increasing positions, exactly the elements f
      gives a value for, and nothing else. */
  lemma {:induction false} GatherExactly<T, U>(xs: seq<T>, f: T -> Option<U>)
    ensures |GatherIndices(xs, f)| == |Gather(xs, f)|
    ensures forall k, m :: 0 <= k < m < |GatherIndices(xs, f)| ==>
              GatherIndices(xs, f)[k] < GatherIndices(xs, f)[m]
    ensures forall k :: 0 <= k < |GatherIndices(xs, f)| ==>
              GatherIndices(xs, f)[k] < |xs|
              && f(xs[GatherIndices(xs, f)[k]]) == Some(Gather(xs, f)[k])
    ensures forall i :: 0 <= i < |xs| && f(xs[i]).Some? ==> i in GatherIndices(xs, f)
  {
    if xs != [] {
      var n := |xs| - 1;
      var init := xs[..n];
      GatherExactly(init, f);
      var idx0, kept0 := GatherIndices(init, f), Gather(init, f);
      var idx, kept := GatherIndices(xs, f), Gather(xs, f);
      if f(xs[n]).Some? {
        assert idx == idx0 + [n] && kept == kept0 + [f(xs[n]).value];
      } else {
        assert idx == idx0 && kept == kept0;
      }
      forall k | 0 <= k < |idx0|
        ensures idx[k] == idx0[k] && xs[idx0[k]] == init[idx0[k]] && kept[k] == kept0[k]
      {
      }
      forall i | 0 <= i < n && f(xs[i]).Some?
        ensures i in idx
      {
        assert init[i] == xs[i];
        assert i in idx0;
      }
    }
  }

  /** Every element of xs has property P. */
  predicate All<T>(xs: seq<T>, P: T -> bool) {
    forall k :: 0 <= k < |xs| ==> P(xs[k])
  }

  /** A property every element of two sequences has, every element of their
      concatenation has. */
  lemma AllAppend<T>(xs: seq<T>, ys: seq<T>, P: T -> bool)
    requires All(xs, P) && All(ys, P)
    ensures All(xs + ys, P)
  {
    forall k | 0 <= k < |xs + ys|
      ensures P((xs + ys)[k])
    {
      if k < |xs| {
        assert (xs + ys)[k] == xs[k];
      } else {
        assert (xs + ys)[k] == ys[k - |xs|];
      }
    }
  }
}
