/** The JavaScript array operations the stores apply to lists of strings:
    the order the default `sort()` puts strings in, insertion and sorting
    under that order, `indexOf`, and the duplicate-free list that
    `[...new Set(xs)]` builds. */
module StringLists {

  /** Default sort comparison: character by character, and a proper prefix
      before any longer string that extends it. */
  predicate LexLe(a: string, b: string)
    decreases |a|
  {
    if a == [] then true
    else if b == [] then false
    else if a[0] != b[0] then a[0] < b[0]
    else LexLe(a[1..], b[1..])
  }

  lemma {:induction false} LexLeReflexive(a: string)
    ensures LexLe(a, a)
    decreases |a|
  {
    if a != [] { LexLeReflexive(a[1..]); }
  }

  lemma {:induction false} LexLeTotal(a: string, b: string)
    ensures LexLe(a, b) || LexLe(b, a)
    decreases |a|
  {
    if a != [] && b != [] && a[0] == b[0] { LexLeTotal(a[1..], b[1..]); }
  }

  lemma {:induction false} LexLeAntisymmetric(a: string, b: string)
    requires LexLe(a, b) && LexLe(b, a)
    ensures a == b
    decreases |a|
  {
    if a != [] {
      LexLeAntisymmetric(a[1..], b[1..]);
      assert a == [a[0]] + a[1..] && b == [b[0]] + b[1..];
    }
  }

  lemma {:induction false} LexLeTransitive(a: string, b: string, c: string)
    requires LexLe(a, b) && LexLe(b, c)
    ensures LexLe(a, c)
    decreases |a|
  {
    if a != [] && a[0] == b[0] && b[0] == c[0] {
      LexLeTransitive(a[1..], b[1..], c[1..]);
    }
  }

  predicate Sorted(s: seq<string>) {
    forall i, j :: 0 <= i < j < |s| ==> LexLe(s[i], s[j])
  }

  /** `x` placed before the first element it does not follow. */
  function Insert(x: string, s: seq<string>): (r: seq<string>)
    requires Sorted(s)
    ensures Sorted(r)
    ensures multiset(r) == multiset(s) + multiset{x}
    ensures |r| == |s| + 1
    ensures r[0] == x || (s != [] && r[0] == s[0])
  {
    if s == [] then [x]
    else if LexLe(x, s[0]) then
      SortedCons(x, s);
      [x] + s
    else
      LexLeTotal(x, s[0]);
      assert s == [s[0]] + s[1..];
      var tail := Insert(x, s[1..]);
      SortedCons(s[0], tail);
      [s[0]] + tail
  }

  /** An element ordered before the head of a sorted list can go in front
      of it. */
  lemma SortedCons(h: string, s: seq<string>)
    requires Sorted(s)
    requires s == [] || LexLe(h, s[0])
    ensures Sorted([h] + s)
  {
    var r := [h] + s;
    forall i, j | 0 <= i < j < |r| ensures LexLe(r[i], r[j]) {
      if i == 0 {
        if j > 1 {
          LexLeTransitive(h, s[0], s[j - 1]);
        }
      } else {
        assert r[i] == s[i - 1] && r[j] == s[j - 1];
      }
    }
  }

  /** `list.sort()` with the default comparison, as a function of the list. */
  function Sort(s: seq<string>): (r: seq<string>)
    ensures Sorted(r)
    ensures multiset(r) == multiset(s)
  {
    if s == [] then []
    else
      assert s == [s[0]] + s[1..];
      Insert(s[0], Sort(s[1..]))
  }

  lemma SortedHeadFirst(s: seq<string>, x: string)
    requires Sorted(s) && x in s
    ensures LexLe(s[0], x)
  {
    var i :| 0 <= i < |s| && s[i] == x;
    if i == 0 { LexLeReflexive(x); }
  }

  lemma MultisetTails(a: seq<string>, b: seq<string>)
    requires a != [] && b != [] && a[0] == b[0] && multiset(a) == multiset(b)
    ensures multiset(a[1..]) == multiset(b[1..])
  {
    assert a == [a[0]] + a[1..];
    assert b == [b[0]] + b[1..];
    assert multiset(a) == multiset([a[0]]) + multiset(a[1..]);
    assert multiset(b) == multiset([a[0]]) + multiset(b[1..]);
    assert multiset(a[1..]) == multiset(a) - multiset([a[0]]);
  }

  /** A sorted list is determined by its elements: whatever sorting routine
      is used, the sorted result is the same. */
  lemma {:induction false} SortedUnique(a: seq<string>, b: seq<string>)
    requires Sorted(a) && Sorted(b)
    requires multiset(a) == multiset(b)
    ensures a == b
    decreases |a|
  {
    assert |a| == |multiset(a)| == |b|;
    if a != [] {
      assert a[0] in multiset(b) && b[0] in multiset(a);
      SortedHeadFirst(b, a[0]);
      SortedHeadFirst(a, b[0]);
      LexLeAntisymmetric(a[0], b[0]);
      assert a[0] == b[0];
      assert a == [a[0]] + a[1..] && b == [b[0]] + b[1..];
      MultisetTails(a, b);
      SortedUnique(a[1..], b[1..]);
    }
  }

  /** Sorting an already sorted list changes nothing. */
  lemma SortOfSorted(s: seq<string>)
    requires Sorted(s)
    ensures Sort(s) == s
  {
    SortedUnique(Sort(s), s);
  }

  /** Appending to a sorted list and sorting is the same as inserting. */
  lemma SortAppend(s: seq<string>, x: string)
    requires Sorted(s)
    ensures Sort(s + [x]) == Insert(x, s)
  {
    SortedUnique(Sort(s + [x]), Insert(x, s));
  }

  predicate NoDuplicates<T(==)>(s: seq<T>) {
    forall i, j :: 0 <= i < j < |s| ==> s[i] != s[j]
  }

  /** `[...new Set(s)]`: the first occurrence of each element, in order. */
  function Dedup(s: seq<string>): (r: seq<string>)
    ensures NoDuplicates(r)
    ensures forall x :: x in r <==> x in s
    ensures |r| <= |s|
  {
    if s == [] then []
    else
      var init := Dedup(s[..|s| - 1]);
      assert s == s[..|s| - 1] + [s[|s| - 1]];
      if s[|s| - 1] in init then init else init + [s[|s| - 1]]
  }

  /** A list without duplicates is its own `[...new Set(s)]`. */
  lemma {:induction false} DedupOfDistinct(s: seq<string>)
    requires NoDuplicates(s)
    ensures Dedup(s) == s
  {
    if s != [] {
      var init := s[..|s| - 1];
      assert NoDuplicates(init);
      DedupOfDistinct(init);
      assert s[|s| - 1] !in init;
      assert s == init + [s[|s| - 1]];
    }
  }

  /** `s.indexOf(x)`: the first position of x, or -1. */
  function IndexOf(s: seq<string>, x: string): (i: int)
    ensures -1 <= i
    ensures i == -1 <==> x !in s
    ensures 0 <= i ==> i < |s| && s[i] == x && x !in s[..i]
  {
    if s == [] then -1
    else if s[0] == x then 0
    else
      var j := IndexOf(s[1..], x);
      assert s == [s[0]] + s[1..];
      if j == -1 then -1
      else
        assert s[..j + 1] == [s[0]] + s[1..][..j];
        j + 1
  }

  /** `s.splice(i, 1)`. */
  function RemoveAt<T>(s: seq<T>, i: nat): (r: seq<T>)
    requires i < |s|
    ensures |r| == |s| - 1
    ensures forall k :: 0 <= k < i ==> r[k] == s[k]
    ensures forall k :: i <= k < |r| ==> r[k] == s[k + 1]
  {
    s[..i] + s[i + 1..]
  }

  /** Removing the first occurrence of an element from a list without
      duplicates leaves the other elements and nothing else. */
  lemma RemoveFirstOccurrence(s: seq<string>, x: string)
    requires NoDuplicates(s) && x in s
    ensures var r := RemoveAt(s, IndexOf(s, x));
      NoDuplicates(r) && x !in r && forall y :: y in r <==> y in s && y != x
  {
    var i := IndexOf(s, x);
    var r := RemoveAt(s, i);
    forall y | y in s && y != x ensures y in r {
      var k :| 0 <= k < |s| && s[k] == y;
      if k < i { assert r[k] == y; } else { assert k > i; assert r[k - 1] == y; }
    }
  }

  lemma MultisetRemoveAt(s: seq<string>, i: nat)
    requires i < |s|
    ensures multiset(RemoveAt(s, i)) == multiset(s) - multiset{s[i]}
  {
    assert s == s[..i] + [s[i]] + s[i + 1..];
    assert RemoveAt(s, i) == s[..i] + s[i + 1..];
  }

  /** Removing an element keeps a sorted list sorted. */
  lemma RemoveAtSorted(s: seq<string>, i: nat)
    requires i < |s| && Sorted(s)
    ensures Sorted(RemoveAt(s, i))
  {
    var r := RemoveAt(s, i);
    forall j, k | 0 <= j < k < |r| ensures LexLe(r[j], r[k]) {
      var sj := if j < i then j else j + 1;
      var sk := if k < i then k else k + 1;
      assert r[j] == s[sj] && r[k] == s[sk];
    }
  }

  /** Blocking a new date into a sorted list and then unblocking it gives the
      list back. */
  lemma InsertThenRemove(s: seq<string>, x: string)
    requires Sorted(s) && x !in s
    ensures var t := Insert(x, s); 0 <= IndexOf(t, x) && RemoveAt(t, IndexOf(t, x)) == s
  {
    var t := Insert(x, s);
    assert x in multiset(t);
    var i := IndexOf(t, x);
    RemoveAtSorted(t, i);
    MultisetRemoveAt(t, i);
    SortedUnique(RemoveAt(t, i), s);
  }
}
