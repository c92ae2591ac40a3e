/** Facts about filtered sequences without duplicates. */
module Sequences {
  import opened Basics

  lemma {:induction false} FilterFacts<T>(s: seq<T>, p: T -> bool)
    ensures forall x :: x in Filter(s, p) <==> x in s && p(x)
    ensures |Filter(s, p)| <= |s|
  {
    if s != [] {
      FilterFacts(s[1..], p);
      assert s == [s[0]] + s[1..];
    }
  }

  lemma {:induction false} FilterAll<T>(s: seq<T>, p: T -> bool)
    requires forall x :: x in s ==> p(x)
    ensures Filter(s, p) == s
  {
    if s != [] {
      assert s[0] in s && forall x :: x in s[1..] ==> x in s;
      FilterAll(s[1..], p);
    }
  }

  lemma {:induction false} FilterSame<T>(s: seq<T>, p: T -> bool, q: T -> bool)
    requires forall x :: x in s ==> p(x) == q(x)
    ensures Filter(s, p) == Filter(s, q)
  {
    if s != [] {
      assert s[0] in s && forall x :: x in s[1..] ==> x in s;
      FilterSame(s[1..], p, q);
    }
  }

  lemma {:induction false} FilterAppend<T>(a: seq<T>, b: seq<T>, p: T -> bool)
    ensures Filter(a + b, p) == Filter(a, p) + Filter(b, p)
  {
    if a == [] {
      assert a + b == b;
    } else {
      var first := if p(a[0]) then [a[0]] else [];
      calc {
        Filter(a + b, p);
        { assert (a + b)[0] == a[0] && (a + b)[1..] == a[1..] + b; }
        first + Filter(a[1..] + b, p);
        { FilterAppend(a[1..], b, p); }
        first + (Filter(a[1..], p) + Filter(b, p));
        (first + Filter(a[1..], p)) + Filter(b, p);
      }
    }
  }

  lemma {:induction false} FilterNoDuplicates<T>(s: seq<T>, p: T -> bool)
    requires NoDuplicates(s)
    ensures NoDuplicates(Filter(s, p))
  {
    if s != [] {
      var rest := s[1..];
      assert NoDuplicates(rest) && s[0] !in rest by {
        assert forall i :: 0 <= i < |rest| ==> rest[i] == s[i + 1];
      }
      FilterNoDuplicates(rest, p);
      FilterFacts(rest, p);
    }
  }

  lemma OneMoreOf<T>(x: T, s: seq<T>, left: seq<T>, right: seq<T>)
    requires multiset(s) == multiset(left) + multiset(right)
    ensures multiset([x] + s) == multiset([x] + left) + multiset(right) == multiset(left) + multiset([x] + right)
  {
  }

  lemma {:induction false} FilterMultiset<T>(s: seq<T>, p: T -> bool, q: T -> bool)
    requires forall x :: x in s ==> p(x) != q(x)
    ensures multiset(s) == multiset(Filter(s, p)) + multiset(Filter(s, q))
  {
    if s != [] {
      assert s[0] in s && forall x :: x in s[1..] ==> x in s;
      FilterMultiset(s[1..], p, q);
      var left, right := Filter(s[1..], p), Filter(s[1..], q);
      OneMoreOf(s[0], s[1..], left, right);
      assert s == [s[0]] + s[1..] && [] + left == left && [] + right == right;
    }
  }

  lemma NoDuplicatesConcat<T>(a: seq<T>, b: seq<T>)
    requires NoDuplicates(a) && NoDuplicates(b)
    requires forall x :: x in a ==> x !in b
    ensures NoDuplicates(a + b)
  {
    var c := a + b;
    forall i, j | 0 <= i < j < |c| ensures c[i] != c[j] {
      if i < |a| <= j {
        assert c[i] in a && c[j] in b;
      }
    }
  }

  lemma NoDuplicatesSplit<T>(s: seq<T>, n: nat)
    requires NoDuplicates(s) && n <= |s|
    ensures NoDuplicates(s[..n]) && NoDuplicates(s[n..])
    ensures forall x :: x in s[..n] ==> x !in s[n..]
    ensures forall x :: x in s <==> x in s[..n] || x in s[n..]
  {
    assert s == s[..n] + s[n..];
  }

  lemma {:induction false} NoDuplicatesCount<T>(s: seq<T>, members: set<T>)
    requires NoDuplicates(s) && forall x :: x in members <==> x in s
    ensures |members| == |s|
  {
    if s == [] {
      assert members == {};
    } else {
      var init := s[..|s| - 1];
      NoDuplicatesSplit(s, |s| - 1);
      assert s == init + [s[|s| - 1]];
      assert s[|s| - 1] in s[|s| - 1..];
      NoDuplicatesCount(init, members - {s[|s| - 1]});
    }
  }

  lemma SubsetCount<T>(a: set<T>, b: set<T>)
    requires a <= b
    ensures |a| <= |b|
  {
    if a != b {
      assert b == a + (b - a);
    }
  }

  /** Some `x` stands before some `y`. */
  ghost predicate Before<T>(s: seq<T>, x: T, y: T) {
    exists i, j :: 0 <= i < j < |s| && s[i] == x && s[j] == y
  }

  lemma BeforeHead<T>(head: T, rest: seq<T>, x: T, y: T)
    ensures Before([head] + rest, x, y) <==> (head == x && y in rest) || Before(rest, x, y)
  {
    var s := [head] + rest;
    if Before(s, x, y) {
      var i, j :| 0 <= i < j < |s| && s[i] == x && s[j] == y;
      assert rest[j - 1] == y;
      if i > 0 {
        assert rest[i - 1] == x && 0 <= i - 1 < j - 1 < |rest|;
      }
    }
    if head == x && y in rest {
      var j :| 0 <= j < |rest| && rest[j] == y;
      assert s[0] == x && s[j + 1] == y;
    }
    if Before(rest, x, y) {
      var i, j :| 0 <= i < j < |rest| && rest[i] == x && rest[j] == y;
      assert s[i + 1] == x && s[j + 1] == y;
    }
  }

  /** Filtering keeps the order of what it keeps. */
  lemma {:induction false} FilterKeepsOrder<T>(s: seq<T>, p: T -> bool, x: T, y: T)
    requires p(x) && p(y)
    ensures Before(Filter(s, p), x, y) <==> Before(s, x, y)
  {
    if s != [] {
      var rest := s[1..];
      FilterKeepsOrder(rest, p, x, y);
      FilterFacts(rest, p);
      assert s == [s[0]] + rest;
      BeforeHead(s[0], rest, x, y);
      BeforeHead(s[0], Filter(rest, p), x, y);
      assert [] + Filter(rest, p) == Filter(rest, p);
    }
  }

  lemma BeforeLast<T>(s: seq<T>, last: T, x: T, y: T)
    requires last != y
    ensures Before(s + [last], x, y) <==> Before(s, x, y)
  {
    var t := s + [last];
    if Before(t, x, y) {
      var i, j :| 0 <= i < j < |t| && t[i] == x && t[j] == y;
      assert s[i] == x && s[j] == y;
    }
    if Before(s, x, y) {
      var i, j :| 0 <= i < j < |s| && s[i] == x && s[j] == y;
      assert t[i] == x && t[j] == y;
    }
  }
}
