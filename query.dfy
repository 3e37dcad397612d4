// The two query operators the hosted database applies for the client: a
// filter that keeps rows in table order (`.eq(...)` on a select or delete)
// and an ordering by a numeric key (`.order(...)`). Rows with equal keys may
// come back in any order; the model fixes one.

module Query {

  /** Keeps the elements that satisfy `p`, in their order. */
  function Where<T>(s: seq<T>, p: T -> bool): (r: seq<T>)
    ensures |r| <= |s|
    ensures forall i :: 0 <= i < |r| ==> r[i] in s && p(r[i])
    ensures forall i :: 0 <= i < |s| && p(s[i]) ==> s[i] in r
  {
    if s == [] then []
    else if p(s[0]) then [s[0]] + Where(s[1..], p)
    else Where(s[1..], p)
  }

  /** Filtering a concatenation filters each part: what is kept stays in order. */
  lemma {:induction false} WhereAppend<T>(a: seq<T>, b: seq<T>, p: T -> bool)
    ensures Where(a + b, p) == Where(a, p) + Where(b, p)
  {
    if a != [] {
      assert (a + b)[0] == a[0] && (a + b)[1..] == a[1..] + b;
      WhereAppend(a[1..], b, p);
    } else {
      assert a + b == b;
    }
  }

  /** Every element kept is counted as often as in the input. */
  lemma {:induction false} WhereCount<T>(s: seq<T>, p: T -> bool, x: T)
    ensures multiset(Where(s, p))[x] == if p(x) then multiset(s)[x] else 0
  {
    if s != [] {
      WhereCount(s[1..], p, x);
      assert s == [s[0]] + s[1..];
    }
  }

  /** Filtering with a condition every element meets changes nothing. */
  lemma {:induction false} WhereAll<T>(s: seq<T>, p: T -> bool)
    requires forall i :: 0 <= i < |s| ==> p(s[i])
    ensures Where(s, p) == s
  {
    if s != [] {
      WhereAll(s[1..], p);
    }
  }

  /** Filtering with a condition no element meets keeps nothing. */
  lemma {:induction false} WhereNone<T>(s: seq<T>, p: T -> bool)
    requires forall i :: 0 <= i < |s| ==> !p(s[i])
    ensures Where(s, p) == []
  {
    if s != [] {
      WhereNone(s[1..], p);
    }
  }

  predicate SortedBy<T>(s: seq<T>, key: T -> int) {
    forall i, j :: 0 <= i < j < |s| ==> key(s[i]) <= key(s[j])
  }

  /** An element no greater than the head of a sorted sequence can go before it. */
  lemma SortedCons<T>(a: T, s: seq<T>, key: T -> int)
    requires SortedBy(s, key) && (s != [] ==> key(a) <= key(s[0]))
    ensures SortedBy([a] + s, key)
  {
    forall i, j | 0 <= i < j < |[a] + s| ensures key(([a] + s)[i]) <= key(([a] + s)[j]) {
      if i > 0 {
        assert ([a] + s)[i] == s[i - 1];
      }
      assert ([a] + s)[j] == s[j - 1];
    }
  }

  /** `x` placed before the first element with a key not below its own. */
  function Insert<T>(x: T, s: seq<T>, key: T -> int): (r: seq<T>)
    requires SortedBy(s, key)
    ensures SortedBy(r, key)
    ensures multiset(r) == multiset(s) + multiset{x}
    ensures r != [] && (r[0] == x || (s != [] && r[0] == s[0]))
  {
    if s == [] || key(x) <= key(s[0]) then
      SortedCons(x, s, key);
      [x] + s
    else
      var tail := Insert(x, s[1..], key);
      SortedCons(s[0], tail, key);
      assert s == [s[0]] + s[1..];
      [s[0]] + tail
  }

  /** The rows ordered by ascending `key`. */
  function SortBy<T>(s: seq<T>, key: T -> int): (r: seq<T>)
    ensures SortedBy(r, key)
    ensures multiset(r) == multiset(s)
  {
    if s == [] then []
    else
      assert s == [s[0]] + s[1..];
      Insert(s[0], SortBy(s[1..], key), key)
  }

  /** Two sequences with the same elements, counted, have the same members. */
  lemma SameMembers<T>(r: seq<T>, s: seq<T>)
    requires multiset(r) == multiset(s)
    ensures forall i :: 0 <= i < |r| ==> r[i] in s
    ensures forall i :: 0 <= i < |s| ==> s[i] in r
  {
    forall i | 0 <= i < |r| ensures r[i] in s {
      assert r[i] in multiset(r);
    }
    forall i | 0 <= i < |s| ensures s[i] in r {
      assert s[i] in multiset(s);
    }
  }
}
