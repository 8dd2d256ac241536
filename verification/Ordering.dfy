/** Total orders and the ascending listing of a finite set: the iteration order of an ordered
    map or set, and the effect of sorting and then removing duplicates. */
module Ordering {

  ghost predicate TotalOrder<K(!new)>(le: (K, K) -> bool) {
    && (forall a :: le(a, a))
    && (forall a, b :: le(a, b) || le(b, a))
    && (forall a, b :: le(a, b) && le(b, a) ==> a == b)
    && (forall a, b, c :: le(a, b) && le(b, c) ==> le(a, c))
  }

  ghost predicate Ascending<K>(le: (K, K) -> bool, xs: seq<K>) {
    forall i, j :: 0 <= i < j < |xs| ==> le(xs[i], xs[j]) && xs[i] != xs[j]
  }

  /** Lexicographic order by code point, as for Rust strings. */
  predicate StringLe(a: string, b: string) {
    a == "" || (b != "" && (a[0] < b[0] || (a[0] == b[0] && StringLe(a[1..], b[1..]))))
  }

  lemma {:induction false} StringLeReflexive(a: string)
    ensures StringLe(a, a)
  {
    if a != "" { StringLeReflexive(a[1..]); }
  }

  lemma {:induction false} StringLeConnected(a: string, b: string)
    ensures StringLe(a, b) || StringLe(b, a)
  {
    if a != "" && b != "" { StringLeConnected(a[1..], b[1..]); }
  }

  lemma {:induction false} StringLeAntisymmetric(a: string, b: string)
    requires StringLe(a, b) && StringLe(b, a)
    ensures a == b
  {
    if a != "" && b != "" {
      StringLeAntisymmetric(a[1..], b[1..]);
      assert a == [a[0]] + a[1..] && b == [b[0]] + b[1..];
    }
  }

  lemma {:induction false} StringLeTransitive(a: string, b: string, c: string)
    requires StringLe(a, b) && StringLe(b, c)
    ensures StringLe(a, c)
  {
    if a != "" && b != "" && c != "" && a[0] == b[0] == c[0] {
      StringLeTransitive(a[1..], b[1..], c[1..]);
    }
  }

  lemma StringLeTotal()
    ensures TotalOrder(StringLe)
  {
    forall a ensures StringLe(a, a) { StringLeReflexive(a); }
    forall a, b ensures StringLe(a, b) || StringLe(b, a) { StringLeConnected(a, b); }
    forall a, b | StringLe(a, b) && StringLe(b, a) ensures a == b { StringLeAntisymmetric(a, b); }
    forall a, b, c | StringLe(a, b) && StringLe(b, c) ensures StringLe(a, c) { StringLeTransitive(a, b, c); }
  }

  ghost predicate IsLeast<K>(le: (K, K) -> bool, s: set<K>, m: K) {
    m in s && forall x :: x in s ==> le(m, x)
  }

  lemma {:induction false} LeastExists<K(!new)>(le: (K, K) -> bool, s: set<K>)
    requires TotalOrder(le) && s != {}
    ensures exists m :: IsLeast(le, s, m)
  {
    var x :| x in s;
    var rest := s - {x};
    assert forall z :: z in s ==> z == x || z in rest;
    if rest == {} {
      assert IsLeast(le, s, x);
    } else {
      LeastExists(le, rest);
      var y :| IsLeast(le, rest, y);
      assert IsLeast(le, s, if le(x, y) then x else y);
    }
  }

  function Least<K(==, !new)>(le: (K, K) -> bool, s: set<K>): (m: K)
    requires TotalOrder(le) && s != {}
    ensures IsLeast(le, s, m)
  {
    LeastExists(le, s);
    var m :| m in s && forall x | x in s :: le(m, x);
    m
  }

  /** The elements of a set in ascending order. */
  function Listed<K(==, !new)>(le: (K, K) -> bool, s: set<K>): (xs: seq<K>)
    requires TotalOrder(le)
    ensures forall x :: x in xs <==> x in s
    ensures Ascending(le, xs)
  {
    if s == {} then []
    else
      var m := Least(le, s);
      [m] + Listed(le, s - {m})
  }

  /** Only one ascending sequence lists a given set. */
  lemma {:induction false} ListedIsUnique<K(!new)>(le: (K, K) -> bool, s: set<K>, xs: seq<K>)
    requires TotalOrder(le) && Ascending(le, xs) && forall x :: x in xs <==> x in s
    ensures xs == Listed(le, s)
  {
    if xs == [] {
      assert s == {} by { assert forall x :: x !in s; }
    } else {
      assert xs[0] in s;
      assert IsLeast(le, s, xs[0]);
      var rest := xs[1..];
      assert forall x :: x in rest <==> x in s - {xs[0]} by {
        forall x | x in s - {xs[0]} ensures x in rest {
          var i :| 0 <= i < |xs| && xs[i] == x;
          assert rest[i - 1] == x;
        }
      }
      ListedIsUnique(le, s - {xs[0]}, rest);
    }
  }

  ghost predicate Lists<K(!new)>(le: (K, K) -> bool, s: set<K>, xs: seq<K>) {
    (forall x :: x in xs <==> x in s) && Ascending(le, xs)
  }

  lemma ListingExists<K(!new)>(le: (K, K) -> bool, s: set<K>)
    requires TotalOrder(le)
    ensures exists xs :: Lists(le, s, xs)
  {
    assert Lists(le, s, Listed(le, s));
  }

  /** The ascending sequence of a set, by what it is and not by how it is found. */
  ghost function InOrder<K(!new)>(le: (K, K) -> bool, s: set<K>): (xs: seq<K>)
    requires TotalOrder(le)
    ensures Lists(le, s, xs)
  {
    ListingExists(le, s);
    var xs :| Lists(le, s, xs);
    xs
  }

  /** Strings in ascending order. */
  ghost function Strings(s: set<string>): (xs: seq<string>)
    ensures Lists(StringLe, s, xs)
  {
    StringLeTotal();
    InOrder(StringLe, s)
  }

  method SortStrings(s: set<string>) returns (xs: seq<string>)
    ensures xs == Strings(s)
  {
    StringLeTotal();
    xs := Listed(StringLe, s);
    ListedIsUnique(StringLe, s, Strings(s));
  }
}
