/** Python's order on strings (code point by code point) and its `sorted`. */
module Ordering {

  predicate Leq(a: string, b: string) {
    a == [] || (b != [] && (a[0] < b[0] || (a[0] == b[0] && Leq(a[1..], b[1..]))))
  }

  lemma LeqTotal(a: string, b: string)
    ensures Leq(a, b) || Leq(b, a)
  {}

  lemma {:induction false} LeqAntisymmetric(a: string, b: string)
    requires Leq(a, b) && Leq(b, a)
    ensures a == b
  {
    if a != [] {
      LeqAntisymmetric(a[1..], b[1..]);
      assert a == [a[0]] + a[1..] && b == [b[0]] + b[1..];
    }
  }

  lemma LeqTransitive(a: string, b: string, c: string)
    requires Leq(a, b) && Leq(b, c)
    ensures Leq(a, c)
  {}

  /** Of two texts the one with the smaller code point where they first differ comes first, and a text comes
      before its continuations. */
  lemma {:induction false} FirstDifference(common: string, a: string, b: string)
    requires b != "" && (a == "" || a[0] < b[0])
    ensures Leq(common + a, common + b) && !Leq(common + b, common + a)
  {
    if common == "" {
      assert common + a == a && common + b == b;
    } else {
      FirstDifference(common[1..], a, b);
      assert (common + a)[1..] == common[1..] + a && (common + b)[1..] == common[1..] + b;
    }
  }

  predicate SortedBy<T(!new)>(key: T -> string, s: seq<T>) {
    forall i, j | 0 <= i < j < |s| :: Leq(key(s[i]), key(s[j]))
  }

  /** On the elements of `s` the key tells elements apart. */
  ghost predicate KeyDetermines<T(!new)>(key: T -> string, s: seq<T>) {
    forall x, y | x in s && y in s && key(x) == key(y) :: x == y
  }

  /** In a sorted sequence the head is a least element. */
  lemma HeadLeast<T(!new)>(key: T -> string, s: seq<T>, x: T)
    requires SortedBy(key, s) && x in s
    ensures Leq(key(s[0]), key(x))
  {
    LeqTotal(key(x), key(x));
  }

  lemma PrependLeast<T(!new)>(key: T -> string, x: T, s: seq<T>)
    requires SortedBy(key, s)
    requires forall y | y in s :: Leq(key(x), key(y))
    ensures SortedBy(key, [x] + s)
  {}

  function Insert<T(!new)>(key: T -> string, x: T, s: seq<T>): (r: seq<T>)
    ensures multiset(r) == multiset(s) + multiset{x}
  {
    if s == [] then [x]
    else if Leq(key(x), key(s[0])) then [x] + s
    else
      assert s == [s[0]] + s[1..];
      [s[0]] + Insert(key, x, s[1..])
  }

  lemma {:induction false} InsertKeepsSorted<T(!new)>(key: T -> string, x: T, s: seq<T>)
    requires SortedBy(key, s)
    ensures SortedBy(key, Insert(key, x, s))
  {
    if s != [] {
      if Leq(key(x), key(s[0])) {
        forall y | y in s ensures Leq(key(x), key(y)) {
          HeadLeast(key, s, y);
          LeqTransitive(key(x), key(s[0]), key(y));
        }
        PrependLeast(key, x, s);
      } else {
        var t := Insert(key, x, s[1..]);
        InsertKeepsSorted(key, x, s[1..]);
        LeqTotal(key(x), key(s[0]));
        forall y | y in t ensures Leq(key(s[0]), key(y)) {
          assert y in multiset(t);
          if y != x {
            assert y in multiset(s[1..]);
            HeadLeast(key, s, y);
          }
        }
        PrependLeast(key, s[0], t);
      }
    }
  }

  lemma {:induction false} InsertLast<T(!new)>(key: T -> string, x: T, s: seq<T>)
    requires forall y | y in s :: !Leq(key(x), key(y))
    ensures Insert(key, x, s) == s + [x]
  {
    if s != [] {
      InsertLast(key, x, s[1..]);
      assert s == [s[0]] + s[1..];
    }
  }

  /** `sorted(s, key=key)`. */
  function SortBy<T(!new)>(key: T -> string, s: seq<T>): seq<T> {
    if s == [] then [] else Insert(key, s[0], SortBy(key, s[1..]))
  }

  lemma {:induction false} SortByIsSorted<T(!new)>(key: T -> string, s: seq<T>)
    ensures multiset(SortBy(key, s)) == multiset(s)
    ensures SortedBy(key, SortBy(key, s))
  {
    if s != [] {
      SortByIsSorted(key, s[1..]);
      InsertKeepsSorted(key, s[0], SortBy(key, s[1..]));
      assert s == [s[0]] + s[1..];
    }
  }

  lemma TailMultiset<T>(s: seq<T>)
    requires s != []
    ensures multiset(s[1..]) == multiset(s) - multiset{s[0]}
  {
    assert s == [s[0]] + s[1..];
  }

  /** A sorted sequence is determined by its elements when the key determines them. */
  lemma {:induction false} SortedUnique<T(!new)>(key: T -> string, a: seq<T>, b: seq<T>)
    requires multiset(a) == multiset(b)
    requires SortedBy(key, a) && SortedBy(key, b) && KeyDetermines(key, a)
    ensures a == b
    decreases |a|
  {
    assert |a| == |multiset(a)| && |b| == |multiset(b)|;
    if a != [] {
      assert a[0] == b[0] by {
        assert a[0] in multiset(b) && b[0] in multiset(a);
        HeadLeast(key, a, b[0]);
        HeadLeast(key, b, a[0]);
        LeqAntisymmetric(key(a[0]), key(b[0]));
      }
      TailMultiset(a);
      TailMultiset(b);
      assert KeyDetermines(key, a[1..]) by {
        assert forall x | x in a[1..] :: x in a;
      }
      SortedUnique(key, a[1..], b[1..]);
      assert a == [a[0]] + a[1..] && b == [b[0]] + b[1..];
    }
  }

  /** Sorting forgets the order its input came in. */
  lemma SortForgetsOrder<T(!new)>(key: T -> string, a: seq<T>, b: seq<T>)
    requires multiset(a) == multiset(b)
    requires KeyDetermines(key, a)
    ensures SortBy(key, a) == SortBy(key, b)
  {
    SortByIsSorted(key, a);
    SortByIsSorted(key, b);
    forall x | x in SortBy(key, a) ensures x in a {
      assert x in multiset(SortBy(key, a));
    }
    SortedUnique(key, SortBy(key, a), SortBy(key, b));
  }

  function Identity(s: string): string { s }

  /** `sorted(s)` for a list of strings. */
  function Sorted(s: seq<string>): seq<string> {
    SortBy(Identity, s)
  }

  lemma SortedSize(s: seq<string>)
    ensures |Sorted(s)| == |s|
  {
    SortByIsSorted(Identity, s);
    assert |Sorted(s)| == |multiset(Sorted(s))| == |multiset(s)| == |s|;
  }

  predicate IsLeast(m: string, s: set<string>) {
    m in s && forall x | x in s :: Leq(m, x)
  }

  lemma LeastExists(s: set<string>)
    requires s != {}
    ensures exists m :: IsLeast(m, s)
  {
    var y :| y in s;
    LeqTotal(y, y);
    if s == {y} {
      assert IsLeast(y, s);
    } else {
      LeastExists(s - {y});
      var z :| IsLeast(z, s - {y});
      LeqTotal(y, z);
      var m := if Leq(y, z) then y else z;
      forall x | x in s ensures Leq(m, x) {
        if x != y && m == y { LeqTransitive(y, z, x); }
      }
      assert IsLeast(m, s);
    }
  }

  lemma LeastUnique(s: set<string>)
    ensures forall a, b | IsLeast(a, s) && IsLeast(b, s) :: a == b
  {
    forall a, b | IsLeast(a, s) && IsLeast(b, s) ensures a == b {
      LeqAntisymmetric(a, b);
    }
  }

  /** `sorted(s)` for a set of strings: each element once, in order. */
  function SortedSet(s: set<string>): (r: seq<string>)
    ensures |r| == |s|
    ensures forall x :: x in r <==> x in s
  {
    if s == {} then []
    else
      LeastExists(s);
      LeastUnique(s);
      var m :| IsLeast(m, s);
      [m] + SortedSet(s - {m})
  }

  lemma {:induction false} SortedSetIsSorted(s: set<string>)
    ensures SortedBy(Identity, SortedSet(s))
  {
    if s != {} {
      LeastExists(s);
      LeastUnique(s);
      var m :| IsLeast(m, s);
      SortedSetIsSorted(s - {m});
    }
  }
}
