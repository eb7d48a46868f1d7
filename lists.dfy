/** The two list operations the engines use to retire a direction: Python's
    list.remove in the backend and Array.prototype.filter in the frontend. */
module Lists {

  predicate NoDuplicates<T(==)>(s: seq<T>) {
    forall i, j :: 0 <= i < j < |s| ==> s[i] != s[j]
  }

  /** The index of the first occurrence of x in s. */
  function FirstIndex<T(==)>(s: seq<T>, x: T): (i: nat)
    requires x in s
    ensures i < |s| && s[i] == x && x !in s[..i]
  {
    if s[0] == x then 0
    else
      assert s[1..][..FirstIndex(s[1..], x)] == s[1..FirstIndex(s[1..], x) + 1];
      1 + FirstIndex(s[1..], x)
  }

  /** s.remove(x): drops the first occurrence of x; the elements before it stay where
      they are and the ones after it move up by one. Python raises ValueError when x is
      absent; the backend only calls it after checking membership. */
  function RemoveFirst<T(==)>(s: seq<T>, x: T): (r: seq<T>)
    requires x in s
    ensures |r| == |s| - 1
    ensures forall k :: 0 <= k < FirstIndex(s, x) ==> r[k] == s[k]
    ensures forall k :: FirstIndex(s, x) <= k < |r| ==> r[k] == s[k + 1]
    ensures multiset(r) + multiset{x} == multiset(s)
    ensures NoDuplicates(s) ==> NoDuplicates(r) && x !in r
  {
    var i := FirstIndex(s, x);
    assert s == s[..i] + [x] + s[i + 1..];
    var r := s[..i] + s[i + 1..];
    assert NoDuplicates(s) ==> x !in r by {
      if NoDuplicates(s) {
        forall k | 0 <= k < |r| ensures r[k] != x {
          if k < i { assert r[k] == s[k]; } else { assert r[k] == s[k + 1]; }
        }
      }
    }
    r
  }

  /** s.filter(e => e !== x): keeps every element other than x, as often as it occurs
      and in order (FilterConcat). */
  function Filter<T(==)>(s: seq<T>, x: T): (r: seq<T>)
    ensures multiset(r) == multiset(s)[x := 0]
    ensures x !in r
    ensures forall i :: 0 <= i < |r| ==> r[i] in s
    ensures forall i :: 0 <= i < |s| && s[i] != x ==> s[i] in r
    ensures x !in s ==> r == s
    ensures |r| <= |s|
  {
    if s == [] then []
    else
      assert s == [s[0]] + s[1..];
      assert multiset(s) == multiset{s[0]} + multiset(s[1..]);
      if s[0] == x then Filter(s[1..], x)
      else [s[0]] + Filter(s[1..], x)
  }

  /** The filter keeps the order of the list: filtering a concatenation filters each part
      and puts the results one after the other. */
  lemma {:induction false} FilterConcat<T>(a: seq<T>, b: seq<T>, x: T)
    ensures Filter(a + b, x) == Filter(a, x) + Filter(b, x)
  {
    if a == [] {
      assert a + b == b;
    } else {
      assert (a + b)[0] == a[0] && (a + b)[1..] == a[1..] + b;
      FilterConcat(a[1..], b, x);
    }
  }

  /** On a list without duplicates, removing the first occurrence and filtering agree. */
  lemma {:induction false} RemoveFirstIsFilter<T>(s: seq<T>, x: T)
    requires x in s && NoDuplicates(s)
    ensures RemoveFirst(s, x) == Filter(s, x)
  {
    if s[0] == x {
      assert x !in s[1..] by {
        forall j | 1 <= j < |s| ensures s[j] != x { assert s[0] != s[j]; }
      }
    } else {
      assert NoDuplicates(s[1..]);
      RemoveFirstIsFilter(s[1..], x);
    }
  }

  /** A list without duplicates loses exactly one element to the filter when it holds x. */
  lemma {:induction false} FilterDropsOne<T>(s: seq<T>, x: T)
    requires x in s && NoDuplicates(s)
    ensures |Filter(s, x)| == |s| - 1 && NoDuplicates(Filter(s, x))
  {
    RemoveFirstIsFilter(s, x);
  }
}
