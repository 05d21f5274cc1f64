/** The two JavaScript array operations the pages use: `filter` and `slice`. */
module Seqs {

  /** `Array.prototype.filter`: the elements of `s` that `keep` accepts, in
      their original order. */
  function Filter<T(!new)>(s: seq<T>, keep: T -> bool): (r: seq<T>)
    ensures |r| <= |s|
    ensures forall x :: x in r <==> x in s && keep(x)
  {
    if s == [] then []
    else
      var rest := Filter(s[1..], keep);
      assert s == [s[0]] + s[1..];
      if keep(s[0]) then [s[0]] + rest else rest
  }

  /** Every kept value keeps its number of occurrences; every rejected one
      has none left. */
  lemma {:induction false} FilterCounts<T(!new)>(s: seq<T>, keep: T -> bool, x: T)
    ensures multiset(Filter(s, keep))[x] == if keep(x) then multiset(s)[x] else 0
  {
    if s != [] {
      assert s == [s[0]] + s[1..];
      FilterCounts(s[1..], keep, x);
    }
  }

  /** Filtering commutes with concatenation, so the survivors keep their
      relative order. */
  lemma {:induction false} FilterAppend<T(!new)>(a: seq<T>, b: seq<T>, keep: T -> bool)
    ensures Filter(a + b, keep) == Filter(a, keep) + Filter(b, keep)
  {
    if a == [] {
      assert a + b == b;
    } else {
      assert (a + b)[1..] == a[1..] + b;
      FilterAppend(a[1..], b, keep);
    }
  }

  /** Filtering all of `s` leaves `s` itself when every element is kept. */
  lemma {:induction false} FilterAllKept<T(!new)>(s: seq<T>, keep: T -> bool)
    requires forall i :: 0 <= i < |s| ==> keep(s[i])
    ensures Filter(s, keep) == s
  {
    if s != [] {
      FilterAllKept(s[1..], keep);
    }
  }

  /** The number of elements of `s` that `keep` rejects. */
  function CountRejected<T>(s: seq<T>, keep: T -> bool): (n: nat)
    ensures n <= |s|
    ensures n == 0 <==> forall i :: 0 <= i < |s| ==> keep(s[i])
  {
    if s == [] then 0
    else (if keep(s[0]) then 0 else 1) + CountRejected(s[1..], keep)
  }

  /** What filtering removes is exactly the rejected elements. */
  lemma {:induction false} FilterLength<T(!new)>(s: seq<T>, keep: T -> bool)
    ensures |Filter(s, keep)| == |s| - CountRejected(s, keep)
  {
    if s != [] {
      FilterLength(s[1..], keep);
    }
  }

  /** A relative index of `Array.prototype.slice`: a negative one counts back
      from the end; the result is clamped to `0..n`. */
  function RelativeIndex(i: int, n: nat): (r: nat)
    ensures r <= n
    ensures 0 <= i ==> r == if i <= n then i else n
  {
    if i < 0 then (if n + i < 0 then 0 else n + i)
    else if i <= n then i
    else n
  }

  /** `Array.prototype.slice(start, end)`: the contiguous run of `s` from the
      relative start up to the relative end, empty when the end does not lie
      past the start. */
  function Slice<T>(s: seq<T>, start: int, end: int): (r: seq<T>)
    ensures |r| <= |s|
    ensures var a, b := RelativeIndex(start, |s|), RelativeIndex(end, |s|);
      && |r| == (if a < b then b - a else 0)
      && forall i :: 0 <= i < |r| ==> r[i] == s[a + i]
  {
    var a, b := RelativeIndex(start, |s|), RelativeIndex(end, |s|);
    if a < b then s[a..b] else []
  }
}
