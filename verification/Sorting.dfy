/** Identity lists in ascending order: the std::sort and std::unique passes over lists of
    identities. A strictly ascending list is determined by its elements. */
module Sorting {
  import opened StrongId

  predicate Ascending(s: seq<U64>) {
    forall i, j :: 0 <= i < j < |s| ==> s[i] < s[j]
  }

  function Insert(s: seq<U64>, v: U64): (r: seq<U64>)
    requires Ascending(s)
    ensures Ascending(r)
    ensures forall x :: x in r <==> x in s || x == v
  {
    if s == [] then [v]
    else if v < s[0] then [v] + s
    else if v == s[0] then s
    else
      assert s == [s[0]] + s[1..];
      var t := Insert(s[1..], v);
      assert forall k :: 0 <= k < |t| ==> t[k] in t;
      [s[0]] + t
  }

  function InsertBefore(s: seq<U64>, v: U64): (r: seq<U64>)
    ensures |r| == |s| + 1 && forall x :: x in r <==> x in s || x == v
  {
    if s == [] || v <= s[0] then [v] + s
    else
      assert s == [s[0]] + s[1..];
      [s[0]] + InsertBefore(s[1..], v)
  }

  /** The elements of s in ascending order, duplicates kept. */
  function Sorted(s: seq<U64>): (r: seq<U64>)
    ensures |r| == |s| && forall x :: x in r <==> x in s
  {
    if s == [] then []
    else
      assert s == [s[0]] + s[1..];
      InsertBefore(Sorted(s[1..]), s[0])
  }

  /** The elements of s, each once, in ascending order. */
  function SortedUnique(s: seq<U64>): (r: seq<U64>)
    ensures Ascending(r)
    ensures forall x :: x in r <==> x in s
  {
    if s == [] then []
    else
      assert s == [s[0]] + s[1..];
      Insert(SortedUnique(s[1..]), s[0])
  }

  lemma {:induction false} AscendingUnique(a: seq<U64>, b: seq<U64>)
    requires Ascending(a) && Ascending(b)
    requires forall x :: x in a <==> x in b
    ensures a == b
  {
    assert a != [] ==> a[0] in a;
    assert b != [] ==> b[0] in b;
    if a != [] && b != [] {
      FirstIsLeast(a, b);
      FirstIsLeast(b, a);
      TailElements(a, b);
      TailElements(b, a);
      AscendingUnique(a[1..], b[1..]);
      assert a == [a[0]] + a[1..] && b == [b[0]] + b[1..];
    }
  }

  lemma FirstIsLeast(a: seq<U64>, b: seq<U64>)
    requires Ascending(a) && a != [] && b != [] && b[0] in a
    ensures a[0] <= b[0]
  {
  }

  lemma TailElements(a: seq<U64>, b: seq<U64>)
    requires Ascending(a) && Ascending(b) && a != [] && b != [] && a[0] == b[0]
    requires forall x :: x in a <==> x in b
    ensures forall x :: x in a[1..] ==> x in b[1..]
  {
    forall x | x in a[1..]
      ensures x in b[1..]
    {
      var i :| 0 <= i < |a[1..]| && a[1..][i] == x;
      assert a[i + 1] == x && a[0] < a[i + 1];
      assert x in a;
      var j :| 0 <= j < |b| && b[j] == x;
      assert b[1..][j - 1] == x;
    }
  }

  /** The elements of out stand at these positions of all, which increase. */
  predicate StandsAt(out: seq<U64>, at: seq<nat>, all: seq<U64>) {
    && |at| == |out|
    && (forall k :: 0 <= k < |at| ==> at[k] < |all| && all[at[k]] == out[k])
    && forall i, j :: 0 <= i < j < |at| ==> at[i] < at[j]
  }

  /** out is what is left of all when some elements are struck out. */
  ghost predicate InOrderOf(out: seq<U64>, all: seq<U64>) {
    exists at :: StandsAt(out, at, all)
  }
}
