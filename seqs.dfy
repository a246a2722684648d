/** Sequence operations the client code uses through `Array.prototype`:
    `filter`, `find` and the order they preserve. */
module Seqs {
  import opened Wrappers

  /** `r` can be obtained from `s` by deleting elements, keeping the order. */
  ghost predicate IsSubsequence<T>(r: seq<T>, s: seq<T>)
    decreases |s|
  {
    if r == [] then true
    else if s == [] then false
    else (r[0] == s[0] && IsSubsequence(r[1..], s[1..])) || IsSubsequence(r, s[1..])
  }

  /** `s.filter(p)`: the elements satisfying `p`, in their original order. */
  function Filter<T>(s: seq<T>, p: T -> bool): (r: seq<T>)
    ensures |r| <= |s|
    ensures forall i :: 0 <= i < |r| ==> r[i] in s && p(r[i])
    ensures forall i :: 0 <= i < |s| && p(s[i]) ==> s[i] in r
    ensures IsSubsequence(r, s)
    ensures forall i :: 0 <= i < |s| ==> multiset(r)[s[i]] == if p(s[i]) then multiset(s)[s[i]] else 0
  {
    if s == [] then []
    else
      var rest := Filter(s[1..], p);
      var r := if p(s[0]) then [s[0]] + rest else rest;
      FilterMembershipStep(s, rest, r, p);
      FilterMultiplicityStep(s, rest, r, p);
      r
  }

  /** One step of `Filter`'s membership and order clauses. */
  lemma FilterMembershipStep<T>(s: seq<T>, rest: seq<T>, r: seq<T>, p: T -> bool)
    requires s != []
    requires forall i :: 0 <= i < |rest| ==> rest[i] in s[1..] && p(rest[i])
    requires forall i :: 0 <= i < |s| - 1 && p(s[1..][i]) ==> s[1..][i] in rest
    requires IsSubsequence(rest, s[1..])
    requires r == if p(s[0]) then [s[0]] + rest else rest
    ensures forall i :: 0 <= i < |r| ==> r[i] in s && p(r[i])
    ensures forall i :: 0 <= i < |s| && p(s[i]) ==> s[i] in r
    ensures IsSubsequence(r, s)
  {
    forall i | 0 <= i < |s| && p(s[i])
      ensures s[i] in r
    {
      if i > 0 {
        assert s[i] == s[1..][i - 1];
      }
    }
    if p(s[0]) {
      assert r[1..] == rest;
    }
  }

  /** One step of `Filter`'s multiplicity clause: the head is counted once
      when it is kept, and the rest as the tail's filter counts it. */
  lemma FilterMultiplicityStep<T>(s: seq<T>, rest: seq<T>, r: seq<T>, p: T -> bool)
    requires s != []
    requires forall i :: 0 <= i < |s| - 1 ==> multiset(rest)[s[1..][i]] == if p(s[1..][i]) then multiset(s[1..])[s[1..][i]] else 0
    requires forall i :: 0 <= i < |rest| ==> rest[i] in s[1..]
    requires r == if p(s[0]) then [s[0]] + rest else rest
    ensures forall i :: 0 <= i < |s| ==> multiset(r)[s[i]] == if p(s[i]) then multiset(s)[s[i]] else 0
  {
    assert s == [s[0]] + s[1..];
    forall i | 0 <= i < |s|
      ensures multiset(r)[s[i]] == if p(s[i]) then multiset(s)[s[i]] else 0
    {
      var x := s[i];
      if x !in s[1..] {
        assert x == s[0];
        assert x !in multiset(rest);
      } else {
        var j :| 0 <= j < |s| - 1 && s[1..][j] == x;
      }
    }
  }

  /** Filtering a concatenation filters each part. */
  lemma {:induction false} FilterAppend<T>(a: seq<T>, b: seq<T>, p: T -> bool)
    ensures Filter(a + b, p) == Filter(a, p) + Filter(b, p)
  {
    if a == [] {
      assert a + b == b;
    } else {
      var ab := a + b;
      assert ab[0] == a[0] && ab[1..] == a[1..] + b;
      FilterAppend(a[1..], b, p);
      FilterHead(ab, p);
      FilterHead(a, p);
      ConsAppend(if p(a[0]) then [a[0]] else [], Filter(a[1..], p), Filter(b, p), Filter(ab, p), Filter(a, p));
    }
  }

  /** Associativity, on the filtered pieces alone. */
  lemma ConsAppend<T>(h: seq<T>, fa: seq<T>, fb: seq<T>, fab: seq<T>, f: seq<T>)
    requires fab == h + (fa + fb) && f == h + fa
    ensures fab == f + fb
  {
  }

  /** `Filter` unfolded once. */
  lemma FilterHead<T>(s: seq<T>, p: T -> bool)
    requires s != []
    ensures Filter(s, p) == (if p(s[0]) then [s[0]] else []) + Filter(s[1..], p)
  {
  }

  /** The positions of `s` whose elements satisfy `p`. */
  ghost function MatchingIndices<T>(s: seq<T>, p: T -> bool): set<int> {
    set i | 0 <= i < |s| && p(s[i])
  }

  /** `s.filter(p).length` is the number of positions whose element
      satisfies `p`. */
  lemma {:induction false} FilterCount<T>(s: seq<T>, p: T -> bool)
    ensures |Filter(s, p)| == |MatchingIndices(s, p)|
    decreases |s|
  {
    if s != [] {
      var n := |s| - 1;
      assert s == s[..n] + [s[n]];
      FilterAppend(s[..n], [s[n]], p);
      FilterCount(s[..n], p);
      MatchingIndicesSnoc(s, p);
      FilterHead([s[n]], p);
    }
  }

  /** The matching positions of `s` are those of all but its last element,
      plus the last position when its element matches. */
  lemma MatchingIndicesSnoc<T>(s: seq<T>, p: T -> bool)
    requires s != []
    ensures |MatchingIndices(s, p)| == |MatchingIndices(s[..|s| - 1], p)| + if p(s[|s| - 1]) then 1 else 0
  {
    var n := |s| - 1;
    var head := MatchingIndices(s[..n], p);
    var tail: set<int> := if p(s[n]) then {n} else {};
    forall i | 0 <= i < n
      ensures (i in MatchingIndices(s, p)) == (i in head)
    {
      assert s[i] == s[..n][i];
    }
    assert MatchingIndices(s, p) == head + tail;
    assert head !! tail;
  }

  /** Filtering with a predicate every element satisfies keeps the sequence. */
  lemma {:induction false} FilterAll<T>(s: seq<T>, p: T -> bool)
    requires forall i :: 0 <= i < |s| ==> p(s[i])
    ensures Filter(s, p) == s
  {
    if s != [] {
      FilterAll(s[1..], p);
    }
  }

  /** Filtering by two predicates that never hold together splits the count
      of their union. */
  lemma {:induction false} FilterDisjointCount<T>(s: seq<T>, p: T -> bool, q: T -> bool)
    requires forall i :: 0 <= i < |s| ==> !(p(s[i]) && q(s[i]))
    ensures |Filter(s, p)| + |Filter(s, q)| == |Filter(s, x => p(x) || q(x))|
  {
    if s != [] {
      FilterDisjointCount(s[1..], p, q);
    }
  }

  /** The index `s.findIndex(p)` returns: the first element satisfying `p`. */
  function FindIndex<T>(s: seq<T>, p: T -> bool): (r: Option<nat>)
    ensures r.None? <==> forall i :: 0 <= i < |s| ==> !p(s[i])
    ensures r.Some? ==> r.value < |s| && p(s[r.value])
    ensures r.Some? ==> forall j :: 0 <= j < r.value ==> !p(s[j])
  {
    if s == [] then None
    else if p(s[0]) then Some(0)
    else match FindIndex(s[1..], p)
      case None => None
      case Some(i) => Some(i + 1)
  }

  /** `s.find(p)`: the first element satisfying `p`, if any. */
  function Find<T>(s: seq<T>, p: T -> bool): (r: Option<T>)
    ensures r.None? <==> forall i :: 0 <= i < |s| ==> !p(s[i])
    ensures r.Some? ==> r.value in s && p(r.value)
    ensures r.Some? ==> exists i :: 0 <= i < |s| && s[i] == r.value && forall j :: 0 <= j < i ==> !p(s[j])
  {
    match FindIndex(s, p)
    case None => None
    case Some(i) => Some(s[i])
  }

  /** `s.map(x => p(x) ? f(x) : x)`: every matching element is rewritten, the
      others are kept, positions and length are unchanged. */
  function MapWhere<T>(s: seq<T>, p: T -> bool, f: T -> T): (r: seq<T>)
    ensures |r| == |s|
    ensures forall i :: 0 <= i < |s| && !p(s[i]) ==> r[i] == s[i]
    ensures forall i :: 0 <= i < |s| && p(s[i]) ==> r[i] == f(s[i])
  {
    seq(|s|, i requires 0 <= i < |s| => if p(s[i]) then f(s[i]) else s[i])
  }

  /** `s.filter((_, i) => i !== index)`: the element at `index` is dropped
      when there is one, and the rest keep their order. */
  function WithoutIndex<T>(s: seq<T>, index: int): (r: seq<T>)
    ensures 0 <= index < |s| ==> r == s[..index] + s[index + 1..]
    ensures !(0 <= index < |s|) ==> r == s
  {
    if s == [] then []
    else (if index == 0 then [] else [s[0]]) + WithoutIndex(s[1..], index - 1)
  }
}
