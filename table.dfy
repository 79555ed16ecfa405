/** The array operations the four entity stores are built from: `findIndex`,
    `find`, `filter`, `splice`, `sort`, `reduce` and the `Math.max` id rule.
    Records are identified through an accessor `idOf` for their `Id` field. */
module Table {
  import opened Base

  /** `s.findIndex(p)`: the first index whose element satisfies `p`. */
  function FindIndex<T>(s: seq<T>, p: T -> bool): (r: Option<nat>)
    ensures r.None? <==> forall i :: 0 <= i < |s| ==> !p(s[i])
    ensures r.Some? ==> r.value < |s| && p(s[r.value])
    ensures r.Some? ==> forall i :: 0 <= i < r.value ==> !p(s[i])
  {
    if s == [] then None
    else if p(s[0]) then Some(0)
    else match FindIndex(s[1..], p)
      case None => None
      case Some(i) => Some(i + 1)
  }

  /** `s.findIndex(x => x.Id === id)`. */
  function IndexOfId<T>(s: seq<T>, idOf: T -> int, id: int): (r: Option<nat>)
    ensures r.None? <==> forall i :: 0 <= i < |s| ==> idOf(s[i]) != id
    ensures r.Some? ==> r.value < |s| && idOf(s[r.value]) == id
    ensures r.Some? ==> forall i :: 0 <= i < r.value ==> idOf(s[i]) != id
  {
    FindIndex(s, x => idOf(x) == id)
  }

  /** No two records share an Id. */
  predicate UniqueIds<T>(s: seq<T>, idOf: T -> int) {
    forall i, j :: 0 <= i < j < |s| ==> idOf(s[i]) != idOf(s[j])
  }

  /** `getById`: a copy of the record with that Id, or `null`. With unique
      Ids the answer is the one record carrying the Id. */
  function FindById<T>(s: seq<T>, idOf: T -> int, id: int): (r: Option<T>)
    ensures r.None? <==> forall i :: 0 <= i < |s| ==> idOf(s[i]) != id
    ensures r.Some? ==> idOf(r.value) == id && r.value in s
    ensures UniqueIds(s, idOf) ==>
              forall i :: 0 <= i < |s| && idOf(s[i]) == id ==> r == Some(s[i])
  {
    match IndexOfId(s, idOf, id)
    case None => None
    case Some(i) => Some(s[i])
  }

  /** The largest Id, `Math.max(...s.map(x => x.Id))` on a non-empty array. */
  function MaxId<T>(s: seq<T>, idOf: T -> int): (m: int)
    requires s != []
    ensures forall i :: 0 <= i < |s| ==> idOf(s[i]) <= m
    ensures exists i :: 0 <= i < |s| && idOf(s[i]) == m
  {
    if |s| == 1 then idOf(s[0])
    else
      var m := MaxId(s[..|s| - 1], idOf);
      assert forall i :: 0 <= i < |s| - 1 ==> s[..|s| - 1][i] == s[i];
      if idOf(s[|s| - 1]) > m then idOf(s[|s| - 1]) else m
  }

  /** A JavaScript number as far as the id rule can produce one. */
  datatype IdValue = NegInfinity | Finite(value: int)

  /** The id rule as the services write it, `Math.max(...ids) + 1`: on an
      empty array `Math.max()` is -Infinity, and so is the new Id. */
  function NextIdAsWritten<T>(s: seq<T>, idOf: T -> int): (r: IdValue)
    ensures r == NegInfinity <==> s == []
    ensures r.Finite? ==> forall i :: 0 <= i < |s| ==> idOf(s[i]) < r.value
  {
    if s == [] then NegInfinity else Finite(MaxId(s, idOf) + 1)
  }

  /** On an empty store the written rule yields no integer Id at all. */
  lemma EmptyStoreHasNoNextId<T>(idOf: T -> int)
    ensures !NextIdAsWritten([], idOf).Finite?
  {
  }

  /** The id rule with the empty store given Id 1: one more than every
      existing Id, and the largest Id plus one whenever there is one. */
  function NextId<T>(s: seq<T>, idOf: T -> int): (r: int)
    ensures forall i :: 0 <= i < |s| ==> idOf(s[i]) < r
    ensures s == [] ==> r == 1
    ensures s != [] ==> exists i :: 0 <= i < |s| && idOf(s[i]) == r - 1
  {
    if s == [] then 1 else MaxId(s, idOf) + 1
  }

  /** The corrected rule agrees with the written one on every non-empty store. */
  lemma NextIdAgreesWhenNonEmpty<T>(s: seq<T>, idOf: T -> int)
    requires s != []
    ensures NextIdAsWritten(s, idOf) == Finite(NextId(s, idOf))
  {
  }

  /** Appending a record whose Id is `NextId` keeps the Ids unique. */
  lemma AppendNextIdKeepsUnique<T>(s: seq<T>, x: T, idOf: T -> int)
    requires UniqueIds(s, idOf)
    requires idOf(x) == NextId(s, idOf)
    ensures UniqueIds(s + [x], idOf)
    ensures FindById(s + [x], idOf, idOf(x)) == Some(x)
  {
    var t := s + [x];
    forall i, j | 0 <= i < j < |t| ensures idOf(t[i]) != idOf(t[j]) {
      if j == |s| {
        assert t[i] == s[i];
      } else {
        assert t[i] == s[i] && t[j] == s[j];
      }
    }
    assert t[|s|] == x;
  }

  /** `splice(i, 1)`: the element at `i` is removed, the rest keep their order. */
  function RemoveAt<T>(s: seq<T>, i: nat): (r: seq<T>)
    requires i < |s|
    ensures |r| == |s| - 1
    ensures forall j :: 0 <= j < i ==> r[j] == s[j]
    ensures forall j :: i <= j < |r| ==> r[j] == s[j + 1]
    ensures multiset(r) + multiset{s[i]} == multiset(s)
  {
    assert s == s[..i] + [s[i]] + s[i + 1..];
    s[..i] + s[i + 1..]
  }

  /** `delete(id)` on the array: the first record with that Id is spliced
      out; when there is none the array is unchanged. */
  function DeleteById<T>(s: seq<T>, idOf: T -> int, id: int): (r: seq<T>)
    ensures IndexOfId(s, idOf, id).None? ==> r == s
    ensures IndexOfId(s, idOf, id).Some? ==> |r| == |s| - 1
    ensures IndexOfId(s, idOf, id).Some? ==>
              r == s[..IndexOfId(s, idOf, id).value] + s[IndexOfId(s, idOf, id).value + 1..]
    ensures forall x :: x in r ==> x in s
    ensures forall i :: 0 <= i < |s| && idOf(s[i]) != id ==> s[i] in r
  {
    match IndexOfId(s, idOf, id)
    case None => s
    case Some(k) =>
      var r := RemoveAt(s, k);
      assert forall i :: 0 <= i < |s| && i != k ==> s[i] == r[if i < k then i else i - 1];
      r
  }

  /** With unique Ids a delete removes exactly the record with that Id and
      keeps the Ids unique. */
  lemma DeleteByIdRemovesOnlyTarget<T>(s: seq<T>, idOf: T -> int, id: int)
    requires UniqueIds(s, idOf)
    ensures UniqueIds(DeleteById(s, idOf, id), idOf)
    ensures forall x :: x in DeleteById(s, idOf, id) ==> idOf(x) != id
  {
    match IndexOfId(s, idOf, id)
    case None =>
    case Some(k) =>
      var r := DeleteById(s, idOf, id);
      assert r == RemoveAt(s, k);
      forall i, j | 0 <= i < j < |r| ensures idOf(r[i]) != idOf(r[j]) {
        var i' := if i < k then i else i + 1;
        var j' := if j < k then j else j + 1;
        assert r[i] == s[i'] && r[j] == s[j'] && i' < j';
      }
      forall x | x in r ensures idOf(x) != id {
        var i :| 0 <= i < |r| && r[i] == x;
        var i' := if i < k then i else i + 1;
        assert r[i] == s[i'] && i' != k;
      }
  }

  /** Replacing a record by one with the same Id keeps the Ids unique. */
  lemma ReplaceKeepingIdKeepsUnique<T>(s: seq<T>, k: nat, x: T, idOf: T -> int)
    requires k < |s| && idOf(x) == idOf(s[k])
    requires UniqueIds(s, idOf)
    ensures UniqueIds(s[k := x], idOf)
  {
    var t := s[k := x];
    forall i, j | 0 <= i < j < |t| ensures idOf(t[i]) != idOf(t[j]) {
      assert idOf(t[i]) == idOf(s[i]) && idOf(t[j]) == idOf(s[j]);
    }
  }

  /** `s.filter(p)`: the elements satisfying `p`, in their order. */
  function Filter<T>(s: seq<T>, p: T -> bool): (r: seq<T>)
    ensures |r| <= |s|
    ensures forall i :: 0 <= i < |r| ==> p(r[i]) && r[i] in s
    ensures forall i :: 0 <= i < |s| && p(s[i]) ==> s[i] in r
  {
    if s == [] then []
    else
      var init := s[..|s| - 1];
      var last := s[|s| - 1];
      assert s == init + [last];
      Filter(init, p) + (if p(last) then [last] else [])
  }

  lemma FilterSnoc<T>(s: seq<T>, x: T, p: T -> bool)
    ensures Filter(s + [x], p) == Filter(s, p) + (if p(x) then [x] else [])
  {
    assert (s + [x])[..|s|] == s;
  }

  /** `filter` distributes over concatenation. */
  lemma {:induction false} FilterConcat<T>(a: seq<T>, b: seq<T>, p: T -> bool)
    ensures Filter(a + b, p) == Filter(a, p) + Filter(b, p)
  {
    if b != [] {
      var b' := b[..|b| - 1];
      FilterConcat(a, b', p);
      assert a + b == (a + b') + [b[|b| - 1]];
      assert b == b' + [b[|b| - 1]];
      FilterSnoc(a + b', b[|b| - 1], p);
      FilterSnoc(b', b[|b| - 1], p);
    } else {
      assert a + b == a;
    }
  }

  /** Filtering by `p` and then by `q` is one filter by their conjunction. */
  lemma {:induction false} FilterTwice<T>(s: seq<T>, p: T -> bool, q: T -> bool, pq: T -> bool)
    requires forall x :: pq(x) == (p(x) && q(x))
    ensures Filter(Filter(s, p), q) == Filter(s, pq)
  {
    if s != [] {
      var init, last := s[..|s| - 1], s[|s| - 1];
      assert s == init + [last];
      FilterTwice(init, p, q, pq);
      FilterSnoc(init, last, p);
      FilterSnoc(init, last, pq);
      if p(last) {
        FilterSnoc(Filter(init, p), last, q);
      } else {
        assert Filter(init, p) + [] == Filter(init, p);
      }
    }
  }

  /** When every element passes, `filter` returns the whole array. */
  lemma {:induction false} FilterKeepsAll<T>(s: seq<T>, p: T -> bool)
    requires forall i :: 0 <= i < |s| ==> p(s[i])
    ensures Filter(s, p) == s
  {
    if s != [] {
      FilterKeepsAll(s[..|s| - 1], p);
      assert s == s[..|s| - 1] + [s[|s| - 1]];
    }
  }

  /** `a` is `b` with some elements left out, the rest in their order. */
  ghost predicate Subsequence<T>(a: seq<T>, b: seq<T>)
    decreases |b|
  {
    a == [] ||
    (b != [] &&
     ((a[|a| - 1] == b[|b| - 1] && Subsequence(a[..|a| - 1], b[..|b| - 1])) ||
      Subsequence(a, b[..|b| - 1])))
  }

  /** `filter` keeps the order of what it keeps. */
  lemma {:induction false} FilterIsSubsequence<T>(s: seq<T>, p: T -> bool)
    ensures Subsequence(Filter(s, p), s)
  {
    if s != [] {
      var init := s[..|s| - 1];
      var f := Filter(init, p);
      FilterIsSubsequence(init, p);
      if p(s[|s| - 1]) {
        assert Filter(s, p) == f + [s[|s| - 1]];
        assert (f + [s[|s| - 1]])[..|f|] == f;
      } else {
        assert Filter(s, p) == f;
      }
    }
  }

  /** Elements in non-decreasing order of `key`. */
  predicate SortedBy<T>(s: seq<T>, key: T -> real) {
    forall i, j :: 0 <= i < j < |s| ==> key(s[i]) <= key(s[j])
  }

  /** Inserts `x` before the first element whose key is not smaller, so that
      among equal keys the earlier input comes first. */
  function InsertBy<T>(x: T, s: seq<T>, key: T -> real): (r: seq<T>)
    requires SortedBy(s, key)
    ensures SortedBy(r, key)
    ensures multiset(r) == multiset(s) + multiset{x}
    ensures forall i :: 0 <= i < |r| ==> key(r[i]) >= key(x) || (s != [] && key(r[i]) >= key(s[0]))
  {
    if s == [] then [x]
    else if key(x) <= key(s[0]) then [x] + s
    else
      var rest := InsertBy(x, s[1..], key);
      assert s == [s[0]] + s[1..];
      [s[0]] + rest
  }

  /** Array `sort` with a comparator on `key`, as an insertion sort. The
      result is ordered by `key` and is a permutation of the input. */
  function SortBy<T>(s: seq<T>, key: T -> real): (r: seq<T>)
    ensures SortedBy(r, key)
    ensures multiset(r) == multiset(s)
  {
    if s == [] then []
    else
      assert s == [s[0]] + s[1..];
      InsertBy(s[0], SortBy(s[1..], key), key)
  }

  /** `s.reduce((sum, x) => sum + f(x), 0)`, summed left to right. */
  function SumBy<T>(s: seq<T>, f: T -> real): real {
    if s == [] then 0.0 else SumBy(s[..|s| - 1], f) + f(s[|s| - 1])
  }

  lemma SumBySnoc<T>(s: seq<T>, x: T, f: T -> real)
    ensures SumBy(s + [x], f) == SumBy(s, f) + f(x)
  {
    assert (s + [x])[..|s|] == s;
  }

  /** Sums add over concatenation. */
  lemma {:induction false} SumByConcat<T>(a: seq<T>, b: seq<T>, f: T -> real)
    ensures SumBy(a + b, f) == SumBy(a, f) + SumBy(b, f)
  {
    if b == [] {
      assert a + b == a;
    } else {
      var b' := b[..|b| - 1];
      var x := b[|b| - 1];
      SumByConcat(a, b', f);
      assert a + b == (a + b') + [x];
      assert b == b' + [x];
      SumBySnoc(a + b', x, f);
      SumBySnoc(b', x, f);
    }
  }

  /** Taking the last element off one ordering and the same element off
      another leaves two orderings of the same elements. */
  lemma RemoveMatching<T>(a: seq<T>, b: seq<T>, k: nat)
    requires multiset(a) == multiset(b) && a != [] && k < |b| && b[k] == a[|a| - 1]
    ensures multiset(a[..|a| - 1]) == multiset(b[..k] + b[k + 1..])
    ensures a == a[..|a| - 1] + [b[k]]
    ensures b == b[..k] + [b[k]] + b[k + 1..]
  {
    var a' := a[..|a| - 1];
    var x := b[k];
    assert a == a' + [x];
    assert b == b[..k] + [x] + b[k + 1..];
    assert multiset(b) == multiset(b[..k]) + multiset{x} + multiset(b[k + 1..]);
    assert multiset(b[..k] + b[k + 1..]) == multiset(b[..k]) + multiset(b[k + 1..]);
    assert multiset(a) == multiset(a') + multiset{x};
    assert multiset(a') == multiset(a) - multiset{x};
    assert multiset(b[..k] + b[k + 1..]) == multiset(b) - multiset{x};
  }

  /** A sum does not depend on the order of its terms. */
  lemma {:induction false} SumByPermutation<T>(a: seq<T>, b: seq<T>, f: T -> real)
    requires multiset(a) == multiset(b)
    ensures SumBy(a, f) == SumBy(b, f)
    decreases |a|
  {
    if a == [] {
      assert |b| == |multiset(b)| == 0;
    } else {
      var a' := a[..|a| - 1];
      var x := a[|a| - 1];
      assert x in multiset(b);
      var k :| 0 <= k < |b| && b[k] == x;
      RemoveMatching(a, b, k);
      var before, after := b[..k], b[k + 1..];
      SumByPermutation(a', before + after, f);
      SumByConcat(before + [x], after, f);
      SumByConcat(before, [x], f);
      SumByConcat(before, after, f);
      SumBySnoc(a', x, f);
    }
  }

  /** Filtering around one element: what it keeps of the element sits
      between what it keeps of the two sides. */
  lemma FilterAround<T>(before: seq<T>, x: T, after: seq<T>, p: T -> bool)
    ensures multiset(Filter(before + [x] + after, p)) ==
            multiset(Filter(before + after, p)) + multiset(if p(x) then [x] else [])
  {
    FilterSnoc(before, x, p);
    FilterConcat(before + [x], after, p);
    FilterConcat(before, after, p);
  }

  /** Filtering two orderings of the same elements keeps the same
      elements. */
  lemma {:induction false} FilterPermutation<T>(a: seq<T>, b: seq<T>, p: T -> bool)
    requires multiset(a) == multiset(b)
    ensures multiset(Filter(a, p)) == multiset(Filter(b, p))
    decreases |a|
  {
    if a == [] {
      assert |b| == |multiset(b)| == 0;
    } else {
      var a' := a[..|a| - 1];
      var x := a[|a| - 1];
      assert x in multiset(b);
      var k :| 0 <= k < |b| && b[k] == x;
      RemoveMatching(a, b, k);
      FilterPermutation(a', b[..k] + b[k + 1..], p);
      FilterAround(b[..k], x, b[k + 1..], p);
      FilterSnoc(a', x, p);
    }
  }

  /** Summing a filter that grows by one element. */
  lemma SumByFilterSnoc<T>(s: seq<T>, x: T, p: T -> bool, f: T -> real)
    ensures SumBy(Filter(s + [x], p), f) == SumBy(Filter(s, p), f) + (if p(x) then f(x) else 0.0)
  {
    FilterSnoc(s, x, p);
    if p(x) {
      SumBySnoc(Filter(s, p), x, f);
    } else {
      assert Filter(s + [x], p) == Filter(s, p) + [];
      assert Filter(s, p) + [] == Filter(s, p);
    }
  }

  /** A sum of non-negative terms is non-negative. */
  lemma {:induction false} SumByNonNegative<T>(s: seq<T>, f: T -> real)
    requires forall i :: 0 <= i < |s| ==> f(s[i]) >= 0.0
    ensures SumBy(s, f) >= 0.0
  {
    if s != [] {
      SumByNonNegative(s[..|s| - 1], f);
    }
  }

  /** A sum of non-positive terms is non-positive, and `g = -f` sums to its
      negation. */
  lemma {:induction false} SumByNonPositive<T>(s: seq<T>, f: T -> real, g: T -> real)
    requires forall i :: 0 <= i < |s| ==> f(s[i]) <= 0.0 && g(s[i]) == -f(s[i])
    ensures SumBy(s, f) <= 0.0
    ensures SumBy(s, g) == -SumBy(s, f)
  {
    if s != [] {
      SumByNonPositive(s[..|s| - 1], f, g);
    }
  }

  /** Sums of two sequences agree when their terms agree pointwise. */
  lemma {:induction false} SumByPointwise<A, B>(a: seq<A>, f: A -> real, b: seq<B>, g: B -> real)
    requires |a| == |b|
    requires forall i :: 0 <= i < |a| ==> f(a[i]) == g(b[i])
    ensures SumBy(a, f) == SumBy(b, g)
  {
    if a != [] {
      SumByPointwise(a[..|a| - 1], f, b[..|b| - 1], g);
    }
  }

  /** Over distinct keys, raising one key's term by `a` raises the sum by
      `a` exactly when that key is among them. */
  lemma {:induction false} SumByBump<K>(ks: seq<K>, f: K -> real, g: K -> real, k0: K, a: real)
    requires forall i, j :: 0 <= i < j < |ks| ==> ks[i] != ks[j]
    requires forall i :: 0 <= i < |ks| ==> g(ks[i]) == f(ks[i]) + (if ks[i] == k0 then a else 0.0)
    ensures SumBy(ks, g) == SumBy(ks, f) + (if k0 in ks then a else 0.0)
  {
    if ks != [] {
      var init := ks[..|ks| - 1];
      SumByBump(init, f, g, k0, a);
      assert ks == init + [ks[|ks| - 1]];
      assert k0 == ks[|ks| - 1] ==> k0 !in init;
    }
  }

  /** Keys listed in the order they first occur in `s`: wherever a later
      key occurs, an earlier one has already occurred before it. */
  predicate InFirstOccurrenceOrder<T, K(==)>(s: seq<T>, key: T -> K, r: seq<K>) {
    forall a, b, j :: 0 <= a < b < |r| && 0 <= j < |s| && key(s[j]) == r[b] ==>
      exists i :: 0 <= i < j && key(s[i]) == r[a]
  }

  /** Appending an element keeps the order when its key is appended only
      if it is new. */
  lemma FirstOccurrenceOrderSnoc<T, K>(init: seq<T>, x: T, key: T -> K, d: seq<K>)
    requires forall i :: 0 <= i < |init| ==> key(init[i]) in d
    requires forall j :: 0 <= j < |d| ==> exists i :: 0 <= i < |init| && key(init[i]) == d[j]
    requires InFirstOccurrenceOrder(init, key, d)
    ensures InFirstOccurrenceOrder(init + [x], key, if key(x) in d then d else d + [key(x)])
  {
    var s := init + [x];
    var r := if key(x) in d then d else d + [key(x)];
    forall a, b, j | 0 <= a < b < |r| && 0 <= j < |s| && key(s[j]) == r[b]
      ensures exists i :: 0 <= i < j && key(s[i]) == r[a]
    {
      assert r[a] == d[a];
      if j < |init| {
        assert s[j] == init[j];
        if b == |d| {
          assert false;
        }
        var i :| 0 <= i < j && key(init[i]) == r[a];
        assert s[i] == init[i];
      } else if b < |d| {
        var j' :| 0 <= j' < |init| && key(init[j']) == d[b];
        var i :| 0 <= i < j' && key(init[i]) == r[a];
        assert s[i] == init[i];
      } else {
        var i :| 0 <= i < |init| && key(init[i]) == d[a];
        assert s[i] == init[i];
      }
    }
    assert InFirstOccurrenceOrder(s, key, r);
  }

  /** `Object.entries` order: the distinct values of `key` in the order of
      their first occurrence. */
  function Distinct<T, K(==)>(s: seq<T>, key: T -> K): (r: seq<K>)
    ensures forall i, j :: 0 <= i < j < |r| ==> r[i] != r[j]
    ensures forall i :: 0 <= i < |s| ==> key(s[i]) in r
    ensures forall j :: 0 <= j < |r| ==> exists i :: 0 <= i < |s| && key(s[i]) == r[j]
  {
    if s == [] then []
    else
      var init := s[..|s| - 1];
      var d := Distinct(init, key);
      assert forall i :: 0 <= i < |init| ==> init[i] == s[i];
      if key(s[|s| - 1]) in d then d else d + [key(s[|s| - 1])]
  }

  /** `Distinct` lists the keys in the order of their first occurrence. */
  lemma {:induction false} DistinctInFirstOccurrenceOrder<T, K>(s: seq<T>, key: T -> K)
    ensures InFirstOccurrenceOrder(s, key, Distinct(s, key))
  {
    if s != [] {
      var init := s[..|s| - 1];
      DistinctInFirstOccurrenceOrder(init, key);
      assert s == init + [s[|s| - 1]];
      FirstOccurrenceOrderSnoc(init, s[|s| - 1], key, Distinct(init, key));
    }
  }

  lemma DistinctSnoc<T, K>(s: seq<T>, x: T, key: T -> K)
    ensures Distinct(s + [x], key) ==
            if key(x) in Distinct(s, key) then Distinct(s, key) else Distinct(s, key) + [key(x)]
  {
    assert (s + [x])[..|s|] == s;
  }
}
