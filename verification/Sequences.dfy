/** List comprehensions, first-seen de-duplication, and what a permutation leaves alone. */
module Sequences {

  function Filter<A(!new)>(p: A -> bool, s: seq<A>): (r: seq<A>)
    ensures forall x :: x in r <==> x in s && p(x)
  {
    if s == [] then []
    else if p(s[0]) then [s[0]] + Filter(p, s[1..])
    else Filter(p, s[1..])
  }

  /** The concatenation of `f` over the elements, in order. */
  function FlatMap<A, B>(f: A -> seq<B>, s: seq<A>): seq<B> {
    if s == [] then [] else f(s[0]) + FlatMap(f, s[1..])
  }

  ghost predicate NoDuplicates<A>(s: seq<A>) {
    forall i, j | 0 <= i < j < |s| :: s[i] != s[j]
  }

  /** The elements in the order first seen, as the keys of a dict filled by `setdefault`. */
  function Distinct<A(==)>(s: seq<A>): seq<A> {
    if s == [] then []
    else
      var last := |s| - 1;
      var d := Distinct(s[..last]);
      if s[last] in d then d else d + [s[last]]
  }

  lemma {:induction false} DistinctMeans<A>(s: seq<A>)
    ensures NoDuplicates(Distinct(s))
    ensures forall x :: x in Distinct(s) <==> x in s
  {
    if s != [] {
      var last := |s| - 1;
      DistinctMeans(s[..last]);
      assert s == s[..last] + [s[last]];
    }
  }

  lemma DistinctSnoc<A>(s: seq<A>, x: A)
    ensures Distinct(s + [x]) == if x in Distinct(s) then Distinct(s) else Distinct(s) + [x]
  {
    assert (s + [x])[..|s|] == s;
  }

  lemma {:induction false} FlatMapConcat<A, B>(f: A -> seq<B>, s: seq<A>, t: seq<A>)
    ensures FlatMap(f, s + t) == FlatMap(f, s) + FlatMap(f, t)
  {
    if s == [] {
      assert s + t == t;
    } else {
      FlatMapConcat(f, s[1..], t);
      assert (s + t)[0] == s[0] && (s + t)[1..] == s[1..] + t;
    }
  }

  lemma FlatMapOne<A, B>(f: A -> seq<B>, x: A)
    ensures FlatMap(f, [x]) == f(x)
  {
    assert FlatMap(f, [x][1..]) == [];
  }

  lemma FlatMapNext<A, B>(f: A -> seq<B>, s: seq<A>, i: nat)
    requires i < |s|
    ensures FlatMap(f, s[..i + 1]) == FlatMap(f, s[..i]) + f(s[i])
  {
    FlatMapConcat(f, s[..i], [s[i]]);
    FlatMapOne(f, s[i]);
    assert s[..i + 1] == s[..i] + [s[i]];
  }

  lemma {:induction false} FlatMapMember<A, B>(f: A -> seq<B>, s: seq<A>, y: B)
    ensures y in FlatMap(f, s) <==> exists x :: x in s && y in f(x)
  {
    if s != [] {
      FlatMapMember(f, s[1..], y);
      assert forall x :: x in s <==> x == s[0] || x in s[1..];
    }
  }

  lemma RemoveAt<A>(s: seq<A>, i: nat)
    requires i < |s|
    ensures multiset(s[..i] + s[i+1..]) == multiset(s) - multiset{s[i]}
  {
    assert s == s[..i] + [s[i]] + s[i+1..];
  }

  lemma PermutationMembers<A>(s: seq<A>, t: seq<A>)
    requires multiset(s) == multiset(t)
    ensures |s| == |t|
    ensures forall x :: x in s <==> x in t
  {
    assert |s| == |multiset(s)| && |t| == |multiset(t)|;
    forall x ensures x in s <==> x in t {
      assert x in s <==> x in multiset(s);
    }
  }

  /** A permutation of the elements, with results equal up to order, permutes the concatenation. */
  lemma {:induction false} FlatMapPermutation<A, B>(f: A -> seq<B>, g: A -> seq<B>, s: seq<A>, t: seq<A>)
    requires multiset(s) == multiset(t)
    requires forall x | x in s :: multiset(f(x)) == multiset(g(x))
    ensures multiset(FlatMap(f, s)) == multiset(FlatMap(g, t))
    decreases |s|
  {
    PermutationMembers(s, t);
    if s != [] {
      assert s[0] in t;
      var i :| 0 <= i < |t| && t[i] == s[0];
      RemoveAt(t, i);
      RemoveAt(s, 0);
      assert s[..0] + s[1..] == s[1..];
      FlatMapPermutation(f, g, s[1..], t[..i] + t[i+1..]);
      FlatMapWithout(g, t, i);
    }
  }

  lemma FlatMapWithout<A, B>(f: A -> seq<B>, s: seq<A>, i: nat)
    requires i < |s|
    ensures multiset(FlatMap(f, s)) == multiset(f(s[i])) + multiset(FlatMap(f, s[..i] + s[i+1..]))
  {
    FlatMapConcat(f, s[..i], s[i+1..]);
    FlatMapConcat(f, s[..i], s[i..]);
    assert s[..i] + s[i..] == s && s[i..][1..] == s[i+1..];
  }

  lemma {:induction false} FilterPermutation<A(!new)>(p: A -> bool, s: seq<A>, t: seq<A>)
    requires multiset(s) == multiset(t)
    ensures multiset(Filter(p, s)) == multiset(Filter(p, t))
  {
    var f := x => if p(x) then [x] else [];
    FilterIsFlatMap(p, s);
    FilterIsFlatMap(p, t);
    FlatMapPermutation(f, f, s, t);
    FlatMapAgree(f, x => if p(x) then [x] else [], s);
    FlatMapAgree(f, x => if p(x) then [x] else [], t);
  }

  lemma {:induction false} FlatMapAgree<A, B>(f: A -> seq<B>, g: A -> seq<B>, s: seq<A>)
    requires forall x | x in s :: f(x) == g(x)
    ensures FlatMap(f, s) == FlatMap(g, s)
  {
    if s != [] {
      FlatMapAgree(f, g, s[1..]);
    }
  }

  lemma {:induction false} FilterIsFlatMap<A(!new)>(p: A -> bool, s: seq<A>)
    ensures Filter(p, s) == FlatMap(x => if p(x) then [x] else [], s)
  {
    if s != [] {
      FilterIsFlatMap(p, s[1..]);
      FlatMapAgree(x => if p(x) then [x] else [], x => if p(x) then [x] else [], s[1..]);
    }
  }

  lemma {:induction false} CountAtMostOnce<A>(s: seq<A>, x: A)
    requires NoDuplicates(s)
    ensures multiset(s)[x] == if x in s then 1 else 0
  {
    if s != [] {
      CountAtMostOnce(s[1..], x);
      assert s == [s[0]] + s[1..];
    }
  }

  /** Sequences without duplicates that hold the same elements are permutations of each other. */
  lemma SameElements<A>(s: seq<A>, t: seq<A>)
    requires NoDuplicates(s) && NoDuplicates(t)
    requires forall x :: x in s <==> x in t
    ensures multiset(s) == multiset(t)
  {
    forall x ensures multiset(s)[x] == multiset(t)[x] {
      CountAtMostOnce(s, x);
      CountAtMostOnce(t, x);
    }
  }

  /** Without duplicates, as many elements, and every one of them found: a permutation. */
  lemma InclusionIsPermutation<A>(s: seq<A>, t: seq<A>)
    requires NoDuplicates(s) && |s| == |t|
    requires forall x | x in s :: x in t
    ensures multiset(s) == multiset(t)
  {
    var a, b := multiset(s), multiset(t);
    forall x ensures a[x] <= b[x] {
      CountAtMostOnce(s, x);
      assert x in s ==> x in b;
    }
    assert |a| == |s| && |b| == |t|;
    assert b == a + (b - a);
    assert |b - a| == 0;
  }

  /** A weaker test keeps at least as many elements. */
  lemma {:induction false} FilterMonotone<A(!new)>(p: A -> bool, q: A -> bool, s: seq<A>)
    requires forall x | x in s && p(x) :: q(x)
    ensures |Filter(p, s)| <= |Filter(q, s)|
  {
    if s != [] {
      FilterMonotone(p, q, s[1..]);
    }
  }

  /** A test that is weaker on element `j` keeps strictly more. */
  lemma {:induction false} FilterStrict<A(!new)>(p: A -> bool, q: A -> bool, s: seq<A>, j: nat)
    requires forall x | x in s && p(x) :: q(x)
    requires j < |s| && q(s[j]) && !p(s[j])
    ensures |Filter(p, s)| < |Filter(q, s)|
  {
    if j == 0 {
      FilterMonotone(p, q, s[1..]);
    } else {
      FilterStrict(p, q, s[1..], j - 1);
    }
  }

  /** As elements are replaced and added, those kept by a test before are still kept. */
  lemma {:induction false} FilterGrows<A(!new)>(p: A -> bool, s: seq<A>, t: seq<A>)
    requires |s| <= |t| && forall i | 0 <= i < |s| && p(s[i]) :: p(t[i])
    ensures |Filter(p, s)| <= |Filter(p, t)|
  {
    if s != [] {
      FilterGrows(p, s[1..], t[1..]);
    }
  }

  /** And with element `j` kept only now there is at least one more. */
  lemma {:induction false} FilterGains<A(!new)>(p: A -> bool, s: seq<A>, t: seq<A>, j: nat)
    requires j < |s| <= |t| && forall i | 0 <= i < |s| && p(s[i]) :: p(t[i])
    requires !p(s[j]) && p(t[j])
    ensures |Filter(p, s)| + 1 <= |Filter(p, t)|
  {
    if j == 0 {
      FilterGrows(p, s[1..], t[1..]);
    } else {
      FilterGains(p, s[1..], t[1..], j - 1);
    }
  }

  /** If nothing but element `j` is kept now that was not kept before, there is at most one more. */
  lemma {:induction false} FilterGainsAtMostOne<A(!new)>(p: A -> bool, s: seq<A>, t: seq<A>, j: nat)
    requires |s| <= |t| && forall i | 0 <= i < |t| && i != j && p(t[i]) :: i < |s| && p(s[i])
    ensures |Filter(p, t)| <= |Filter(p, s)| + if j < |t| && p(t[j]) then 1 else 0
  {
    if t != [] {
      if s == [] {
        if j == 0 {
          FilterNone(p, t[1..]);
        } else {
          FilterGainsAtMostOne(p, [], t[1..], j - 1);
        }
      } else if j == 0 {
        FilterShrinks(p, s[1..], t[1..]);
      } else {
        FilterGainsAtMostOne(p, s[1..], t[1..], j - 1);
      }
    }
  }

  lemma FilterNone<A(!new)>(p: A -> bool, s: seq<A>)
    requires forall i | 0 <= i < |s| :: !p(s[i])
    ensures Filter(p, s) == []
  {}

  lemma {:induction false} FilterShrinks<A(!new)>(p: A -> bool, s: seq<A>, t: seq<A>)
    requires |s| <= |t| && forall i | 0 <= i < |t| && p(t[i]) :: i < |s| && p(s[i])
    ensures |Filter(p, t)| <= |Filter(p, s)|
  {
    if s == [] {
      FilterNone(p, t);
    } else {
      FilterShrinks(p, s[1..], t[1..]);
    }
  }
}
