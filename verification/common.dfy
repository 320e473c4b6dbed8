/** Shared vocabulary: an optional value and order-preserving filtering of sequences,
    the two shapes every store of the application is built from. */
module Common {

  /** A value that may be absent (JavaScript `undefined`/`null`). */
  datatype Option<+T> = None | Some(value: T) {
    function GetOr(default: T): T {
      match this
      case Some(v) => v
      case None => default
    }
  }

  /** `sub` can be obtained from `s` by deleting elements, keeping the order of the rest. */
  predicate IsSubsequence<T(==)>(sub: seq<T>, s: seq<T>)
    decreases |s|
  {
    if |sub| == 0 then true
    else if |s| == 0 then false
    else if sub[0] == s[0] then IsSubsequence(sub[1..], s[1..])
    else IsSubsequence(sub, s[1..])
  }

  /** `Array.prototype.filter`: the elements satisfying `keep`, in their original order,
      each as many times as it occurs in `s`. */
  function Filter<T(==,!new)>(keep: T -> bool, s: seq<T>): (r: seq<T>)
    ensures |r| <= |s|
    ensures forall i :: 0 <= i < |r| ==> r[i] in s && keep(r[i])
    ensures forall i :: 0 <= i < |s| && keep(s[i]) ==> s[i] in r
    ensures forall x :: multiset(r)[x] == if keep(x) then multiset(s)[x] else 0
    ensures IsSubsequence(r, s)
  {
    if |s| == 0 then []
    else
      assert s == [s[0]] + s[1..];
      if keep(s[0]) then [s[0]] + Filter(keep, s[1..])
      else Filter(keep, s[1..])
  }

  /** A filter that every element passes returns the sequence itself. */
  lemma {:induction false} FilterKeepsAll<T(!new)>(keep: T -> bool, s: seq<T>)
    requires forall i :: 0 <= i < |s| ==> keep(s[i])
    ensures Filter(keep, s) == s
    decreases |s|
  {
    if |s| > 0 {
      FilterKeepsAll(keep, s[1..]);
    }
  }

  /** Filters whose tests agree on every element of `s` select the same elements. */
  lemma {:induction false} FilterCongruent<T(!new)>(keep: T -> bool, other: T -> bool, s: seq<T>)
    requires forall i :: 0 <= i < |s| ==> keep(s[i]) == other(s[i])
    ensures Filter(keep, s) == Filter(other, s)
    decreases |s|
  {
    if |s| > 0 {
      FilterCongruent(keep, other, s[1..]);
    }
  }

  /** Sum of a sequence of integers. */
  function Sum(s: seq<int>): int
  {
    if |s| == 0 then 0 else s[0] + Sum(s[1..])
  }

  /** Adding `x` to one slot of `s` adds `x` to its sum. */
  lemma {:induction false} SumUpdate(s: seq<int>, k: nat, x: int)
    requires k < |s|
    ensures Sum(s[k := s[k] + x]) == Sum(s) + x
    decreases |s|
  {
    if k > 0 {
      SumUpdate(s[1..], k - 1, x);
      assert s[k := s[k] + x][1..] == s[1..][k - 1 := s[k] + x];
    }
  }
}
