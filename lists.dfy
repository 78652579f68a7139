/** The array operations the record store and the views are built from:
    `filter`, a `reduce` that sums, and the by-id `map` and `filter` of the
    store's update and delete. */
module Lists {

  /** `s.filter(p)`: the elements satisfying `p`, in their original order. */
  function Filter<T(!new)>(s: seq<T>, p: T -> bool): (r: seq<T>)
    ensures |r| <= |s|
    ensures forall x :: x in r <==> x in s && p(x)
  {
    if s == [] then [] else (if p(s[0]) then [s[0]] else []) + Filter(s[1..], p)
  }

  /** Filtering keeps each passing element as often as it occurs, and drops
      every other. */
  lemma {:induction false} FilterCount<T(!new)>(s: seq<T>, p: T -> bool)
    ensures forall x :: multiset(Filter(s, p))[x] == if p(x) then multiset(s)[x] else 0
  {
    if s != [] {
      assert s == [s[0]] + s[1..];
      FilterCount(s[1..], p);
    }
  }

  /** Filtering keeps the order: filtering a concatenation is concatenating
      the filtered parts. */
  lemma {:induction false} FilterAppend<T(!new)>(a: seq<T>, b: seq<T>, p: T -> bool)
    ensures Filter(a + b, p) == Filter(a, p) + Filter(b, p)
  {
    if a != [] {
      assert (a + b)[0] == a[0];
      assert (a + b)[1..] == a[1..] + b;
      FilterAppend(a[1..], b, p);
      calc {
        Filter(a + b, p);
        (if p(a[0]) then [a[0]] else []) + Filter(a[1..] + b, p);
        (if p(a[0]) then [a[0]] else []) + (Filter(a[1..], p) + Filter(b, p));
      }
    } else {
      assert a + b == b;
    }
  }

  /** A filter that every element passes changes nothing. */
  lemma {:induction false} FilterAll<T(!new)>(s: seq<T>, p: T -> bool)
    requires forall x :: x in s ==> p(x)
    ensures Filter(s, p) == s
  {
    if s != [] {
      FilterAll(s[1..], p);
    }
  }

  /** Filtering by a weaker test first does not change a filter. */
  lemma {:induction false} FilterNarrow<T(!new)>(s: seq<T>, p: T -> bool, q: T -> bool)
    requires forall x :: q(x) ==> p(x)
    ensures Filter(Filter(s, p), q) == Filter(s, q)
  {
    if s != [] {
      FilterNarrow(s[1..], p, q);
      var fs := Filter(s, p);
      if p(s[0]) {
        assert fs == [s[0]] + Filter(s[1..], p);
        assert fs[0] == s[0] && fs[1..] == Filter(s[1..], p);
        assert Filter(fs, q) == (if q(s[0]) then [s[0]] else []) + Filter(fs[1..], q);
      } else {
        assert !q(s[0]);
        assert fs == Filter(s[1..], p);
        assert Filter(s, q) == Filter(s[1..], q);
      }
    }
  }

  /** Filters by tests that agree on every element agree. */
  lemma {:induction false} FilterSameTest<T(!new)>(s: seq<T>, p: T -> bool, q: T -> bool)
    requires forall x :: p(x) == q(x)
    ensures Filter(s, p) == Filter(s, q)
  {
    if s != [] {
      FilterSameTest(s[1..], p, q);
    }
  }

  /** `s.reduce((sum, x) => sum + f(x), 0)`, folding from the left. */
  function Sum<T>(s: seq<T>, f: T -> real): real
  {
    if s == [] then 0.0 else Sum(s[..|s| - 1], f) + f(s[|s| - 1])
  }

  lemma {:induction false} SumAppend<T>(a: seq<T>, b: seq<T>, f: T -> real)
    ensures Sum(a + b, f) == Sum(a, f) + Sum(b, f)
  {
    if b != [] {
      assert (a + b)[..|a + b| - 1] == a + b[..|b| - 1];
      assert (a + b)[|a + b| - 1] == b[|b| - 1];
      SumAppend(a, b[..|b| - 1], f);
    } else {
      assert a + b == a;
    }
  }

  /** `s.map(x => key(x) === key(u) ? u : x)`: the store's update. Every
      element carrying the id of `u` becomes `u`; every other element and
      every position is kept. */
  function Replace<T>(s: seq<T>, key: T -> int, u: T): (r: seq<T>)
    ensures |r| == |s|
    ensures forall i :: 0 <= i < |s| && key(s[i]) == key(u) ==> r[i] == u
    ensures forall i :: 0 <= i < |s| && key(s[i]) != key(u) ==> r[i] == s[i]
  {
    seq(|s|, i requires 0 <= i < |s| => if key(s[i]) == key(u) then u else s[i])
  }

  /** Updating with an id that no element carries leaves the list as it was. */
  lemma ReplaceAbsent<T>(s: seq<T>, key: T -> int, u: T)
    requires forall x :: x in s ==> key(x) != key(u)
    ensures Replace(s, key, u) == s
  {
  }

  /** Applying the same update twice is applying it once. */
  lemma ReplaceIdempotent<T>(s: seq<T>, key: T -> int, u: T)
    ensures Replace(Replace(s, key, u), key, u) == Replace(s, key, u)
  {
  }

  function KeyIsNot<T>(key: T -> int, id: int): T -> bool {
    x => key(x) != id
  }

  /** `s.filter(x => key(x) !== id)`: the store's delete. The result holds
      every element of `s` whose id is not `id`, as often as `s` does, and no
      element whose id is `id`. */
  function Remove<T(!new)>(s: seq<T>, key: T -> int, id: int): (r: seq<T>)
    ensures forall x :: x in r ==> key(x) != id
    ensures forall x :: multiset(r)[x] == if key(x) == id then 0 else multiset(s)[x]
  {
    FilterCount(s, KeyIsNot(key, id));
    Filter(s, KeyIsNot(key, id))
  }

  /** Deleting an id that no element carries is a no-op. */
  lemma RemoveAbsent<T(!new)>(s: seq<T>, key: T -> int, id: int)
    requires forall x :: x in s ==> key(x) != id
    ensures Remove(s, key, id) == s
  {
    FilterAll(s, KeyIsNot(key, id));
  }

  /** Deleting twice is deleting once. */
  lemma RemoveIdempotent<T(!new)>(s: seq<T>, key: T -> int, id: int)
    ensures Remove(Remove(s, key, id), key, id) == Remove(s, key, id)
  {
    RemoveAbsent(Remove(s, key, id), key, id);
  }

  /** Delete keeps the survivors in their original order. */
  lemma RemoveAppend<T(!new)>(a: seq<T>, b: seq<T>, key: T -> int, id: int)
    ensures Remove(a + b, key, id) == Remove(a, key, id) + Remove(b, key, id)
  {
    FilterAppend(a, b, KeyIsNot(key, id));
  }

  /** Deleting the id of a record just put in front of a list that did not
      carry that id gives the list back. */
  lemma RemoveUndoesPrepend<T(!new)>(x: T, s: seq<T>, key: T -> int)
    requires forall y :: y in s ==> key(y) != key(x)
    ensures Remove([x] + s, key, key(x)) == s
  {
    RemoveAppend([x], s, key, key(x));
    RemoveAbsent(s, key, key(x));
    assert Filter([x], KeyIsNot(key, key(x))) == [];
  }
}
