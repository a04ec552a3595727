/** `Array.prototype.filter` on immutable snapshots, and what the pages rely
    on it for: the result keeps exactly the elements that pass, in their
    original order, and counting by disjoint tests never exceeds the total. */
module Seqs {

  /** `s.filter(p)`: the passing elements, in order. */
  function Filter<T>(s: seq<T>, p: T -> bool): (r: seq<T>)
    ensures |r| <= |s|
    ensures forall i :: 0 <= i < |r| ==> r[i] in s && p(r[i])
    ensures forall i :: 0 <= i < |s| && p(s[i]) ==> s[i] in r
  {
    if s == [] then []
    else
      var last := s[|s| - 1];
      Filter(s[..|s| - 1], p) + (if p(last) then [last] else [])
  }

  /** The positions of `s` whose element passes `p`, in increasing order. */
  function Kept<T>(s: seq<T>, p: T -> bool): (idx: seq<nat>)
    ensures forall k :: 0 <= k < |idx| ==> idx[k] < |s| && p(s[idx[k]])
    ensures forall k, l :: 0 <= k < l < |idx| ==> idx[k] < idx[l]
    ensures forall i :: 0 <= i < |s| && p(s[i]) ==> i in idx
  {
    if s == [] then []
    else
      var n := |s| - 1;
      var init := s[..n];
      assert forall i :: 0 <= i < n ==> init[i] == s[i];
      Kept(init, p) + (if p(s[n]) then [n] else [])
  }

  /** `sub` is `s` with some elements deleted: `sub[k]` sits at position `idx[k]` of `s`,
      and the positions increase. */
  ghost predicate SubsequenceAt<T>(sub: seq<T>, s: seq<T>, idx: seq<nat>) {
    && |idx| == |sub|
    && (forall k :: 0 <= k < |idx| ==> idx[k] < |s| && sub[k] == s[idx[k]])
    && (forall k, l :: 0 <= k < l < |idx| ==> idx[k] < idx[l])
  }

  /** A filter is a stable selection: it lists exactly the passing positions, in order. */
  lemma {:induction false} FilterIsOrderedSelection<T>(s: seq<T>, p: T -> bool)
    ensures SubsequenceAt(Filter(s, p), s, Kept(s, p))
  {
    if s != [] {
      var n := |s| - 1;
      var init := s[..n];
      FilterIsOrderedSelection(init, p);
      var f, ix := Filter(init, p), Kept(init, p);
      forall k | 0 <= k < |ix|
        ensures f[k] == s[ix[k]]
      {
        assert init[ix[k]] == s[ix[k]];
      }
    }
  }

  /** When every element passes, the filter is the identity. */
  lemma {:induction false} FilterAllPass<T>(s: seq<T>, p: T -> bool)
    requires forall i :: 0 <= i < |s| ==> p(s[i])
    ensures Filter(s, p) == s
  {
    if s != [] {
      var n := |s| - 1;
      FilterAllPass(s[..n], p);
      assert s[..n] + [s[n]] == s;
    }
  }

  /** Two tests that agree on every element select the same elements. */
  lemma {:induction false} FilterSameTest<T>(s: seq<T>, p: T -> bool, q: T -> bool)
    requires forall i :: 0 <= i < |s| ==> p(s[i]) == q(s[i])
    ensures Filter(s, p) == Filter(s, q)
  {
    if s != [] {
      FilterSameTest(s[..|s| - 1], p, q);
    }
  }

  /** Counting by two tests that no element passes together: the counts add up to at most the total;
      when every element passes exactly one of them, to the total. */
  lemma {:induction false} CountSplit<T>(s: seq<T>, p: T -> bool, q: T -> bool)
    requires forall i :: 0 <= i < |s| ==> !(p(s[i]) && q(s[i]))
    ensures |Filter(s, p)| + |Filter(s, q)| <= |s|
    ensures (forall i :: 0 <= i < |s| ==> p(s[i]) || q(s[i])) ==> |Filter(s, p)| + |Filter(s, q)| == |s|
  {
    if s != [] {
      CountSplit(s[..|s| - 1], p, q);
    }
  }

  /** The test `x => key(x) !== id`. */
  function KeyIsNot<T, K(==)>(key: T -> K, id: K): T -> bool {
    (x: T) => key(x) != id
  }

  /** `s.filter(x => x.id !== id)`: the list with the entries carrying that id taken out. */
  function Without<T, K(==)>(s: seq<T>, key: T -> K, id: K): (r: seq<T>)
    ensures forall i :: 0 <= i < |r| ==> key(r[i]) != id
  {
    Filter(s, KeyIsNot(key, id))
  }

  /** Removing by id takes out exactly the entries with that id: every other entry stays, in
      its order, nothing new appears, and a list without that id is left as it was. */
  lemma {:induction false} WithoutRemovesExactly<T, K>(s: seq<T>, key: T -> K, id: K)
    ensures var r := Without(s, key, id);
      && SubsequenceAt(r, s, Kept(s, KeyIsNot(key, id)))
      && (forall i :: 0 <= i < |s| && key(s[i]) != id ==> s[i] in r)
      && (forall i :: 0 <= i < |r| ==> r[i] in s)
      && ((forall i :: 0 <= i < |s| ==> key(s[i]) != id) ==> r == s)
  {
    FilterIsOrderedSelection(s, KeyIsNot(key, id));
    if forall i :: 0 <= i < |s| ==> key(s[i]) != id {
      FilterAllPass(s, KeyIsNot(key, id));
    }
  }
}
