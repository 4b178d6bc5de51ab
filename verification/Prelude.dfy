/** Shared vocabulary: optional values, the three ways a remote write can end, and sequence helpers. */
module Prelude {

  datatype Option<+T> = None | Some(value: T)

  /** How a remote write (a produce, an offset commit, a transaction commit) ends for its caller:
      acknowledged; failed without effect; or failed for the caller although the broker applied it. */
  datatype Delivery = Acked | Lost | Landed {
    /** The broker applied the write, whatever the caller was told. */
    predicate Applied() { this != Lost }
  }

  function Max(a: int, b: int): int { if a < b then b else a }

  function Min(a: int, b: int): int { if a < b then a else b }

  /** The elements of `s` that satisfy `keep`, in order. */
  function Filter<T>(keep: T -> bool, s: seq<T>): (r: seq<T>)
    ensures |r| <= |s|
  {
    if s == [] then []
    else
      var n := |s| - 1;
      if keep(s[n]) then Filter(keep, s[..n]) + [s[n]] else Filter(keep, s[..n])
  }

  lemma {:induction false} FilterConcat<T>(keep: T -> bool, a: seq<T>, b: seq<T>)
    ensures Filter(keep, a + b) == Filter(keep, a) + Filter(keep, b)
  {
    if b == [] {
      assert a + b == a;
    } else {
      var n := |b| - 1;
      assert (a + b)[..|a + b| - 1] == a + b[..n];
      FilterConcat(keep, a, b[..n]);
    }
  }

  /** The last `n` elements of `s` (all of them when there are fewer, none when `n` is negative). */
  function LastN<T>(s: seq<T>, n: int): (r: seq<T>)
    ensures |r| == Min(|s|, Max(0, n))
    ensures r == s[|s| - |r|..]
  {
    s[|s| - Min(|s|, Max(0, n))..]
  }
}
