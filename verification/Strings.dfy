/** Strings in byte order, and sorting them. */
module Strings {

  /** The byte order of strings. */
  predicate Less(a: string, b: string) {
    b != [] && (a == [] || a[0] < b[0] || (a[0] == b[0] && Less(a[1..], b[1..])))
  }

  lemma {:induction false} LessTransitive(a: string, b: string, c: string)
    requires Less(a, b) && Less(b, c)
    ensures Less(a, c)
  {
    if a != [] && a[0] == b[0] && b[0] == c[0] { LessTransitive(a[1..], b[1..], c[1..]); }
  }

  lemma {:induction false} LessIrreflexive(a: string)
    ensures !Less(a, a)
  {
    if a != [] { LessIrreflexive(a[1..]); }
  }

  lemma {:induction false} LessTotal(a: string, b: string)
    ensures Less(a, b) || a == b || Less(b, a)
  {
    if a != [] && b != [] && a[0] == b[0] {
      LessTotal(a[1..], b[1..]);
      if a[1..] == b[1..] {
        assert a == [a[0]] + a[1..] && b == [b[0]] + b[1..];
      }
    }
  }

  predicate AtMost(a: string, b: string) { a == b || Less(a, b) }

  lemma AtMostTransitive(a: string, b: string, c: string)
    requires AtMost(a, b) && AtMost(b, c)
    ensures AtMost(a, c)
  {
    if a != b && b != c { LessTransitive(a, b, c); }
  }

  lemma AtMostBoth(a: string, b: string)
    requires AtMost(a, b) && AtMost(b, a)
    ensures a == b
  {
    if a != b {
      LessTransitive(a, b, a);
      LessIrreflexive(a);
    }
  }

  ghost predicate Ordered(s: seq<string>) { forall i, j :: 0 <= i < j < |s| ==> AtMost(s[i], s[j]) }

  function Insert(k: string, s: seq<string>): (r: seq<string>)
    ensures multiset(r) == multiset(s) + multiset{k}
  {
    if s == [] then [k]
    else if AtMost(k, s[0]) then [k] + s
    else
      var r := [s[0]] + Insert(k, s[1..]);
      assert s == [s[0]] + s[1..];
      r
  }

  /** sort.Strings, with repetitions kept. */
  function Sorted(s: seq<string>): (r: seq<string>)
    ensures multiset(r) == multiset(s) && |r| == |s|
  {
    if s == [] then []
    else
      assert s == [s[0]] + s[1..];
      var r := Insert(s[0], Sorted(s[1..]));
      assert |multiset(r)| == |multiset(s)|;
      r
  }

  lemma BelowInserted(x: string, k: string, s: seq<string>)
    requires AtMost(x, k) && forall j :: 0 <= j < |s| ==> AtMost(x, s[j])
    ensures forall j :: 0 <= j < |Insert(k, s)| ==> AtMost(x, Insert(k, s)[j])
  {
    var r := Insert(k, s);
    forall j | 0 <= j < |r| ensures AtMost(x, r[j]) {
      assert r[j] in multiset(r);
      assert r[j] == k || r[j] in s;
    }
  }

  lemma {:induction false} InsertOrdered(k: string, s: seq<string>)
    requires Ordered(s)
    ensures Ordered(Insert(k, s))
  {
    if s != [] && !AtMost(k, s[0]) {
      var r := Insert(k, s[1..]);
      InsertOrdered(k, s[1..]);
      LessTotal(k, s[0]);
      BelowInserted(s[0], k, s[1..]);
      assert Insert(k, s) == [s[0]] + r;
    } else if s != [] {
      forall j | 0 <= j < |s| ensures AtMost(k, s[j]) {
        if j > 0 { AtMostTransitive(k, s[0], s[j]); }
      }
    }
  }

  lemma {:induction false} SortedOrdered(s: seq<string>)
    ensures Ordered(Sorted(s))
  {
    if s != [] {
      SortedOrdered(s[1..]);
      InsertOrdered(s[0], Sorted(s[1..]));
    }
  }

  /** There is one way to put the same strings in order. */
  lemma {:induction false} OneOrder(a: seq<string>, b: seq<string>)
    requires Ordered(a) && Ordered(b) && multiset(a) == multiset(b)
    ensures a == b
  {
    assert |multiset(a)| == |a| && |multiset(b)| == |b|;
    if a != [] {
      assert a[0] in multiset(b) && b[0] in multiset(a);
      Least(a, b[0]);
      Least(b, a[0]);
      AtMostBoth(a[0], b[0]);
      assert a == [a[0]] + a[1..] && b == [b[0]] + b[1..];
      assert multiset(a[1..]) == multiset(a) - multiset{a[0]};
      assert multiset(b[1..]) == multiset(b) - multiset{b[0]};
      OneOrder(a[1..], b[1..]);
    }
  }

  lemma Least(a: seq<string>, k: string)
    requires Ordered(a) && a != [] && k in a
    ensures AtMost(a[0], k)
  {
  }

  lemma SortedSame(s: seq<string>, t: seq<string>)
    ensures Sorted(s) == Sorted(t) <==> multiset(s) == multiset(t)
  {
    SortedOrdered(s);
    SortedOrdered(t);
    if multiset(s) == multiset(t) { OneOrder(Sorted(s), Sorted(t)); }
  }
}
