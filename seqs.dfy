/** Sequence operations that the pages and reducers use through
    `Array.prototype.filter` and `Array.prototype.find`. */
module Seqs {
  import opened Wrappers

  /** r keeps some elements of s, in their original order. */
  ghost predicate IsSubsequence<T>(r: seq<T>, s: seq<T>)
    decreases |s|
  {
    if r == [] then true
    else if s == [] then false
    else (r[0] == s[0] && IsSubsequence(r[1..], s[1..])) || IsSubsequence(r, s[1..])
  }

  /** `s.filter(keep)`: the elements of s for which keep holds, in order. */
  function Filter<T>(s: seq<T>, keep: T -> bool): (r: seq<T>)
    ensures |r| <= |s|
    ensures forall i :: 0 <= i < |r| ==> r[i] in s && keep(r[i])
    ensures forall i :: 0 <= i < |s| && keep(s[i]) ==> s[i] in r
    ensures IsSubsequence(r, s)
    ensures forall i :: 0 <= i < |s| ==> multiset(r)[s[i]] == if keep(s[i]) then multiset(s)[s[i]] else 0
  {
    if s == [] then []
    else
      var rest := Filter(s[1..], keep);
      FilterCountStep(s, keep, rest);
      if keep(s[0]) then [s[0]] + rest else rest
  }

  /** One step of Filter's count: if rest keeps each element of s[1..] as
      often as s[1..] holds it exactly when keep holds, then adding s[0] in
      front when keep(s[0]) does the same for s. */
  lemma FilterCountStep<T>(s: seq<T>, keep: T -> bool, rest: seq<T>)
    requires s != []
    requires forall j :: 0 <= j < |rest| ==> rest[j] in s[1..]
    requires forall i :: 0 <= i < |s[1..]| ==>
      multiset(rest)[s[1..][i]] == if keep(s[1..][i]) then multiset(s[1..])[s[1..][i]] else 0
    ensures var r := if keep(s[0]) then [s[0]] + rest else rest;
      forall i :: 0 <= i < |s| ==> multiset(r)[s[i]] == if keep(s[i]) then multiset(s)[s[i]] else 0
  {
    var r := if keep(s[0]) then [s[0]] + rest else rest;
    assert multiset(s) == multiset{s[0]} + multiset(s[1..]) by {
      assert s == [s[0]] + s[1..];
    }
    if s[0] !in s[1..] {
      assert s[0] !in multiset(rest);
    }
    forall i | 0 <= i < |s|
      ensures multiset(r)[s[i]] == if keep(s[i]) then multiset(s)[s[i]] else 0
    {
      if i > 0 {
        assert s[i] == s[1..][i - 1];
      } else if s[0] in s[1..] {
        var k :| 0 <= k < |s[1..]| && s[1..][k] == s[0];
      }
    }
  }

  /** A filter whose predicate holds everywhere returns its input unchanged. */
  lemma {:induction false} FilterAll<T>(s: seq<T>, keep: T -> bool)
    requires forall i :: 0 <= i < |s| ==> keep(s[i])
    ensures Filter(s, keep) == s
  {
    if s != [] {
      FilterAll(s[1..], keep);
    }
  }

  /** Filtering twice with the same predicate is filtering once. */
  lemma {:induction false} FilterIdempotent<T>(s: seq<T>, keep: T -> bool)
    ensures Filter(Filter(s, keep), keep) == Filter(s, keep)
  {
    FilterAll(Filter(s, keep), keep);
  }

  /** Filtering distributes over concatenation. */
  lemma {:induction false} FilterAppend<T>(a: seq<T>, b: seq<T>, keep: T -> bool)
    ensures Filter(a + b, keep) == Filter(a, keep) + Filter(b, keep)
  {
    if a == [] {
      assert a + b == b;
    } else {
      assert (a + b)[0] == a[0] && (a + b)[1..] == a[1..] + b;
      FilterAppend(a[1..], b, keep);
    }
  }

  /** `s.filter((_, i) => i !== index)`, written with the running position
      `from` of s[0] in the original array. */
  function FilterOutIndex<T>(s: seq<T>, index: int, from: int): (r: seq<T>)
    ensures r == if from <= index < from + |s| then s[..index - from] + s[index - from + 1..] else s
  {
    if s == [] then []
    else if from == index then FilterOutIndex(s[1..], index, from + 1)
    else [s[0]] + FilterOutIndex(s[1..], index, from + 1)
  }

  /** Removal by index as the tax editors write it: every element whose
      position differs from index survives; an index outside the list
      removes nothing. */
  function RemoveAt<T>(s: seq<T>, index: int): (r: seq<T>)
    ensures 0 <= index < |s| ==> |r| == |s| - 1
    ensures 0 <= index < |s| ==> forall k :: 0 <= k < index ==> r[k] == s[k]
    ensures 0 <= index < |s| ==> forall k :: index <= k < |r| ==> r[k] == s[k + 1]
    ensures !(0 <= index < |s|) ==> r == s
  {
    FilterOutIndex(s, index, 0)
  }

  /** Position of the first element satisfying pred, or |s| when none does. */
  function FirstIndex<T>(s: seq<T>, pred: T -> bool): (i: nat)
    ensures i <= |s|
    ensures forall j :: 0 <= j < i ==> !pred(s[j])
    ensures i < |s| ==> pred(s[i])
  {
    if s == [] then 0
    else if pred(s[0]) then 0
    else 1 + FirstIndex(s[1..], pred)
  }

  /** `s.find(pred)`: the first element satisfying pred, if any. */
  function Find<T>(s: seq<T>, pred: T -> bool): (r: Option<T>)
    ensures r.None? <==> forall j :: 0 <= j < |s| ==> !pred(s[j])
    ensures r.Some? ==> r.value in s && pred(r.value)
    ensures r.Some? ==> r.value == s[FirstIndex(s, pred)]
  {
    var i := FirstIndex(s, pred);
    if i < |s| then Some(s[i]) else None
  }
}
