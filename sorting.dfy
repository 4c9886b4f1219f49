/**
 * Python's `sorted(xs, key=k)`: a stable sort by a real-valued key. Equal
 * keys keep their input order, so `sorted(xs, key=k, reverse=True)` is the
 * same as sorting by `-k`.
 */
module Sorting {

  predicate SortedBy<T>(s: seq<T>, key: T -> real) {
    forall i, j :: 0 <= i < j < |s| ==> key(s[i]) <= key(s[j])
  }

  /** Insert `x` in front of the first element whose key is not smaller. */
  function InsertBy<T>(x: T, s: seq<T>, key: T -> real): (r: seq<T>)
    requires SortedBy(s, key)
    ensures |r| == |s| + 1
    ensures multiset(r) == multiset(s) + multiset{x}
    ensures forall e :: e in r ==> e == x || e in s
    ensures SortedBy(r, key)
  {
    if s == [] || key(x) <= key(s[0]) then [x] + s
    else
      var rest := InsertBy(x, s[1..], key);
      assert s == [s[0]] + s[1..];
      ConsSorted(s, x, rest, key);
      [s[0]] + rest
  }

  lemma ConsSorted<T>(s: seq<T>, x: T, rest: seq<T>, key: T -> real)
    requires s != [] && SortedBy(s, key) && key(s[0]) < key(x) && SortedBy(rest, key)
    requires forall e :: e in rest ==> e == x || e in s[1..]
    ensures SortedBy([s[0]] + rest, key)
  {
    forall k | 0 <= k < |rest| ensures key(s[0]) <= key(rest[k]) {
      assert rest[k] in rest;
      if rest[k] != x {
        assert rest[k] in s[1..];
        var m :| 0 <= m < |s[1..]| && s[1..][m] == rest[k];
        assert s[m + 1] == rest[k];
      }
    }
  }

  /** `sorted(xs, key=key)` */
  function SortBy<T>(xs: seq<T>, key: T -> real): (r: seq<T>)
    ensures |r| == |xs|
    ensures multiset(r) == multiset(xs)
    ensures SortedBy(r, key)
  {
    if xs == [] then []
    else
      assert xs == [xs[0]] + xs[1..];
      InsertBy(xs[0], SortBy(xs[1..], key), key)
  }

  /** In a sorted sequence, everything in the first `n` is no later than everything after. */
  lemma SortedSplit<T>(s: seq<T>, key: T -> real, n: nat)
    requires SortedBy(s, key) && n <= |s|
    ensures forall a, b :: a in s[..n] && b in s[n..] ==> key(a) <= key(b)
  {
    forall a, b | a in s[..n] && b in s[n..] ensures key(a) <= key(b) {
      var i :| 0 <= i < n && s[..n][i] == a;
      var j :| 0 <= j < |s| - n && s[n..][j] == b;
      assert s[i] == a && s[n + j] == b;
    }
  }

  // ---- `sorted(set_of_strings)` ----

  /** Python's `<` on strings: code point by code point, a proper prefix first. */
  predicate Less(a: string, b: string) {
    if a == [] then b != []
    else if b == [] then false
    else if a[0] != b[0] then a[0] < b[0]
    else Less(a[1..], b[1..])
  }

  lemma LessIrreflexive(a: string)
    ensures !Less(a, a)
  {
  }

  lemma LessTotal(a: string, b: string)
    ensures a == b || Less(a, b) || Less(b, a)
    ensures !(Less(a, b) && Less(b, a))
  {
    if a != [] && b != [] && a[0] == b[0] {
      LessTotal(a[1..], b[1..]);
      if a[1..] == b[1..] {
        assert a == [a[0]] + a[1..] && b == [b[0]] + b[1..];
      }
    }
  }

  lemma LessTransitive(a: string, b: string, c: string)
    requires Less(a, b) && Less(b, c)
    ensures Less(a, c)
  {
    if a != [] && a[0] == b[0] && b[0] == c[0] {
      LessTransitive(a[1..], b[1..], c[1..]);
    }
  }

  predicate StrictlySorted(s: seq<string>) {
    forall i, j :: 0 <= i < j < |s| ==> Less(s[i], s[j])
  }

  /** Adds `x` to a strictly sorted sequence unless it is already there. */
  function InsertUnique(x: string, s: seq<string>): (r: seq<string>)
    requires StrictlySorted(s)
    ensures StrictlySorted(r)
    ensures forall e :: e in r <==> e == x || e in s
  {
    if s == [] then [x]
    else if x == s[0] then s
    else if Less(x, s[0]) then
      AllAbove(x, s);
      [x] + s
    else
      LessTotal(x, s[0]);
      var rest := InsertUnique(x, s[1..]);
      HeadBelow(s, x, rest);
      [s[0]] + rest
  }

  lemma AllAbove(x: string, s: seq<string>)
    requires StrictlySorted(s) && s != [] && Less(x, s[0])
    ensures StrictlySorted([x] + s)
  {
    var p := [x] + s;
    forall i, j | 0 <= i < j < |p| ensures Less(p[i], p[j]) {
      assert p[j] == s[j - 1];
      if i > 0 {
        assert p[i] == s[i - 1];
      } else if j > 1 {
        LessTransitive(x, s[0], s[j - 1]);
      }
    }
  }

  lemma HeadBelow(s: seq<string>, x: string, rest: seq<string>)
    requires StrictlySorted(s) && s != [] && Less(s[0], x) && StrictlySorted(rest)
    requires forall e :: e in rest <==> e == x || e in s[1..]
    ensures StrictlySorted([s[0]] + rest)
  {
    forall k | 0 <= k < |rest| ensures Less(s[0], rest[k]) {
      assert rest[k] in rest;
      if rest[k] != x {
        var m :| 0 <= m < |s[1..]| && s[1..][m] == rest[k];
        assert s[m + 1] == rest[k];
      }
    }
    var p := [s[0]] + rest;
    forall i, j | 0 <= i < j < |p| ensures Less(p[i], p[j]) {
      if i > 0 {
        assert p[i] == rest[i - 1] && p[j] == rest[j - 1];
      } else {
        assert p[j] == rest[j - 1];
      }
    }
  }

  /** `sorted(set(xs))`: the distinct elements of `xs` in increasing order. */
  function SortedUnique(xs: seq<string>): (r: seq<string>)
    ensures StrictlySorted(r)
    ensures forall e :: e in r <==> e in xs
  {
    if xs == [] then []
    else InsertUnique(xs[|xs| - 1], SortedUnique(xs[..|xs| - 1]))
  }

  /**
   * A strictly sorted sequence is determined by its elements, so the
   * result does not depend on the order in which the set was filled.
   */
  lemma {:induction false} SortedUniqueCanonical(a: seq<string>, b: seq<string>)
    requires StrictlySorted(a) && StrictlySorted(b)
    requires forall e :: e in a <==> e in b
    ensures a == b
  {
    if a != [] && b != [] {
      HeadIsMin(a, b[0]);
      HeadIsMin(b, a[0]);
      LessTotal(a[0], b[0]);
      assert a[0] == b[0];
      forall e ensures e in a[1..] <==> e in b[1..] {
        TailElements(a, e);
        TailElements(b, e);
      }
      SortedUniqueCanonical(a[1..], b[1..]);
      assert a == [a[0]] + a[1..] && b == [b[0]] + b[1..];
    } else {
      EmptyAlike(a, b);
    }
  }

  lemma EmptyAlike(a: seq<string>, b: seq<string>)
    requires forall e :: e in a <==> e in b
    ensures a == [] <==> b == []
  {
    if a != [] {
      var e := a[0];
      assert e in a;
    }
    if b != [] {
      var e := b[0];
      assert e in b;
    }
  }

  lemma HeadIsMin(s: seq<string>, e: string)
    requires StrictlySorted(s) && s != []
    ensures e in s && e != s[0] ==> Less(s[0], e)
  {
  }

  lemma TailElements(s: seq<string>, e: string)
    requires StrictlySorted(s) && s != []
    ensures e in s[1..] <==> e in s && e != s[0]
  {
    if e in s[1..] {
      var k :| 0 <= k < |s[1..]| && s[1..][k] == e;
      assert Less(s[0], s[k + 1]);
      LessIrreflexive(e);
    }
  }
}
