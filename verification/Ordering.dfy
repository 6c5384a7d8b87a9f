/** The order in which paths are listed: strings compared character by character. */
module Ordering {

  predicate AtMost(a: string, b: string) {
    a == [] || (b != [] && (a[0] < b[0] || (a[0] == b[0] && AtMost(a[1..], b[1..]))))
  }

  lemma AtMostTotal(a: string, b: string)
    ensures AtMost(a, b) || AtMost(b, a)
  {
  }

  lemma AtMostAntisymmetric(a: string, b: string)
    requires AtMost(a, b) && AtMost(b, a)
    ensures a == b
  {
    if a != [] && b != [] {
      AtMostAntisymmetric(a[1..], b[1..]);
      assert a == [a[0]] + a[1..] && b == [b[0]] + b[1..];
    }
  }

  lemma AtMostTransitive(a: string, b: string, c: string)
    requires AtMost(a, b) && AtMost(b, c)
    ensures AtMost(a, c)
  {
  }

  predicate IsLeast(m: string, s: set<string>) {
    m in s && forall x :: x in s ==> AtMost(m, x)
  }

  lemma LeastExists(s: set<string>) returns (m: string)
    requires s != {}
    ensures IsLeast(m, s)
  {
    var x :| x in s;
    if s == {x} {
      AtMostTotal(x, x);
      m := x;
    } else {
      var n := LeastExists(s - {x});
      AtMostTotal(n, x);
      AtMostTotal(x, x);
      m := if AtMost(x, n) then x else n;
      forall y | y in s ensures AtMost(m, y) {
        if y != x && m == x { AtMostTransitive(x, n, y); }
      }
    }
  }

  lemma LeastIsUnique(m: string, n: string, s: set<string>)
    requires IsLeast(m, s) && IsLeast(n, s)
    ensures m == n
  {
    AtMostAntisymmetric(m, n);
  }

  ghost predicate Ascending(l: seq<string>) {
    forall i, j :: 0 <= i < j < |l| ==> l[i] != l[j] && AtMost(l[i], l[j])
  }

  lemma LeastExistsAndIsUnique(s: set<string>)
    requires s != {}
    ensures exists m :: m in s && IsLeast(m, s)
    ensures forall m, n :: m in s && IsLeast(m, s) && n in s && IsLeast(n, s) ==> m == n
  {
    var l := LeastExists(s);
    forall m, n | m in s && IsLeast(m, s) && n in s && IsLeast(n, s) ensures m == n {
      LeastIsUnique(m, n, s);
    }
  }

  /** The members of a set in listing order. */
  function Sorted(s: set<string>): (l: seq<string>)
    ensures forall x :: x in l <==> x in s
    ensures |l| == |s|
  {
    if s == {} then []
    else
      LeastExistsAndIsUnique(s);
      var m :| m in s && IsLeast(m, s);
      [m] + Sorted(s - {m})
  }

  lemma LeastFirst(m: string, rest: seq<string>, s: set<string>)
    requires IsLeast(m, s) && Ascending(rest) && forall x :: x in rest ==> x in s && x != m
    ensures Ascending([m] + rest)
  {
    hide AtMost;
    forall j | 0 <= j < |rest| ensures m != rest[j] && AtMost(m, rest[j]) { assert rest[j] in rest; }
  }

  /** Sorting lists every member once, each no later than its place in the order. */
  lemma {:induction false} SortedAscends(s: set<string>)
    ensures Ascending(Sorted(s))
  {
    if s != {} {
      LeastExistsAndIsUnique(s);
      var m :| m in s && IsLeast(m, s);
      var rest := Sorted(s - {m});
      SortedAscends(s - {m});
      assert Sorted(s) == [m] + rest;
      LeastFirst(m, rest, s);
    }
  }

  /** Strings that share a prefix are contiguous in listing order. */
  lemma {:induction false} PrefixIsConvex(prefix: string, a: string, b: string, c: string)
    requires AtMost(a, b) && AtMost(b, c)
    requires prefix <= a && prefix <= c
    ensures prefix <= b
  {
    if prefix != [] {
      assert a[0] == prefix[0] == c[0] == b[0];
      assert prefix[1..] <= a[1..] && prefix[1..] <= c[1..];
      PrefixIsConvex(prefix[1..], a[1..], b[1..], c[1..]);
      assert prefix == [prefix[0]] + prefix[1..];
      assert b == [b[0]] + b[1..];
    }
  }
}
