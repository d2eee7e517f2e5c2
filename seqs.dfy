/** Searches and filters over lists, as Kotlin's `lastOrNull { }`,
    `indexOfFirst { }`, `find { }`, `filter { }` and `map { }` do them. */
module Seqs {

  /** The index of the last element satisfying `p`, or -1 when none does. */
  function LastWhere<T>(s: seq<T>, p: T -> bool): (r: int)
    ensures -1 <= r < |s|
    ensures r >= 0 ==> p(s[r]) && forall j :: r < j < |s| ==> !p(s[j])
    ensures r == -1 <==> forall j :: 0 <= j < |s| ==> !p(s[j])
  {
    if |s| == 0 then -1
    else if p(s[|s| - 1]) then |s| - 1
    else LastWhere(s[..|s| - 1], p)
  }

  /** The index of the first element satisfying `p`, or -1 when none does. */
  function FirstWhere<T>(s: seq<T>, p: T -> bool): (r: int)
    ensures -1 <= r < |s|
    ensures r >= 0 ==> p(s[r]) && forall j :: 0 <= j < r ==> !p(s[j])
    ensures r == -1 <==> forall j :: 0 <= j < |s| ==> !p(s[j])
  {
    if |s| == 0 then -1
    else if p(s[0]) then 0
    else
      var k := FirstWhere(s[1..], p);
      if k == -1 then -1 else k + 1
  }

  /** The positions of the elements satisfying `p`: each such position once,
      in increasing order, and no other. */
  function MatchIndices<T>(s: seq<T>, p: T -> bool): (r: seq<int>)
    ensures forall k :: 0 <= k < |r| ==> 0 <= r[k] < |s|
    ensures forall k, l :: 0 <= k < l < |r| ==> r[k] < r[l]
  {
    if |s| == 0 then []
    else if p(s[|s| - 1]) then MatchIndices(s[..|s| - 1], p) + [|s| - 1]
    else MatchIndices(s[..|s| - 1], p)
  }

  /** The positions listed are exactly those where `p` holds. */
  lemma {:induction false} MatchIndicesExact<T>(s: seq<T>, p: T -> bool)
    ensures var at := MatchIndices(s, p);
            && (forall k :: 0 <= k < |at| ==> p(s[at[k]]))
            && (forall i :: 0 <= i < |s| && p(s[i]) ==> i in at)
  {
    if |s| > 0 {
      var init := s[..|s| - 1];
      MatchIndicesExact(init, p);
      var at := MatchIndices(init, p);
      assert forall k :: 0 <= k < |at| ==> s[at[k]] == init[at[k]];
      assert forall i :: 0 <= i < |init| ==> s[i] == init[i];
    }
  }

  /** The elements satisfying `p`, in their order. */
  function Filter<T>(s: seq<T>, p: T -> bool): (r: seq<T>)
    ensures |r| <= |s|
    ensures forall i :: 0 <= i < |r| ==> r[i] in s && p(r[i])
    ensures forall i :: 0 <= i < |s| && p(s[i]) ==> s[i] in r
  {
    if |s| == 0 then []
    else if p(s[|s| - 1]) then Filter(s[..|s| - 1], p) + [s[|s| - 1]]
    else Filter(s[..|s| - 1], p)
  }

  /** The k-th element kept is the element at the k-th matching position, so
      the kept elements keep the order and the repetitions they have in `s`. */
  lemma {:induction false} FilterAt<T>(s: seq<T>, p: T -> bool)
    ensures |Filter(s, p)| == |MatchIndices(s, p)|
    ensures forall k :: 0 <= k < |Filter(s, p)| ==> Filter(s, p)[k] == s[MatchIndices(s, p)[k]]
  {
    if |s| > 0 {
      var init := s[..|s| - 1];
      var last := s[|s| - 1];
      FilterAt(init, p);
      var kept := Filter(init, p);
      var at := MatchIndices(init, p);
      assert forall k :: 0 <= k < |kept| ==> kept[k] == s[at[k]];
      if p(last) {
        FilterAtLast(s, kept, at, last);
      }
    }
  }

  lemma FilterAtLast<T>(s: seq<T>, kept: seq<T>, at: seq<int>, last: T)
    requires |s| > 0 && last == s[|s| - 1] && |kept| == |at|
    requires forall k :: 0 <= k < |at| ==> 0 <= at[k] < |s| && kept[k] == s[at[k]]
    ensures var r := kept + [last];
            forall k :: 0 <= k < |r| ==> r[k] == s[(at + [|s| - 1])[k]]
  {
  }

  /** The last element of `Filter(s, p)` satisfying `q` is the last element
      of `s` satisfying both, where `pq` is that conjunction. */
  lemma {:induction false} LastOfFilter<T>(s: seq<T>, p: T -> bool, q: T -> bool, pq: T -> bool)
    requires forall x :: pq(x) == (p(x) && q(x))
    ensures var f := Filter(s, p);
            var e := LastWhere(f, q);
            var n := LastWhere(s, pq);
            && (e < 0 <==> n < 0)
            && (e >= 0 ==> f[e] == s[n])
  {
    if |s| > 0 {
      var init := s[..|s| - 1];
      var last := s[|s| - 1];
      LastOfFilter(init, p, q, pq);
      var f0 := Filter(init, p);
      var n0 := LastWhere(init, pq);
      assert LastWhere(s, pq) == if pq(last) then |s| - 1 else n0;
      if n0 >= 0 {
        assert s[n0] == init[n0];
      }
      if p(last) {
        assert (f0 + [last])[..|f0|] == f0;
        assert LastWhere(f0 + [last], q) == if q(last) then |f0| else LastWhere(f0, q);
      }
    }
  }

  /** The elements of `s` in order, each replaced by `f` of it. */
  function Map<T, U>(s: seq<T>, f: T -> U): (r: seq<U>)
    ensures |r| == |s|
    ensures forall i :: 0 <= i < |s| ==> r[i] == f(s[i])
  {
    seq(|s|, i requires 0 <= i < |s| => f(s[i]))
  }
}
