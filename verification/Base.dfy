/** Shared vocabulary: optional values, results, finite sums and the ordered
    dictionaries of lists (`defaultdict(list)`) that most of the tools fill. */
module Base {

  datatype Option<+T> = None | Some(value: T)

  datatype Result<+T, +E> = Ok(value: T) | Err(error: E)

  /** The white space that `strip()` and `split()` know. */
  predicate IsSpace(c: char)
  {
    c == ' ' || '\t' <= c <= '\r' || '\U{1C}' <= c <= '\U{1F}' || c == '\U{85}' || c == '\U{A0}' || c == '\U{1680}' || '\U{2000}' <= c <= '\U{200A}'
    || c == '\U{2028}' || c == '\U{2029}' || c == '\U{202F}' || c == '\U{205F}' || c == '\U{3000}'
  }

  function SumOf<A>(xs: seq<A>, w: A -> int): int
  {
    if xs == [] then 0 else SumOf(xs[..|xs| - 1], w) + w(xs[|xs| - 1])
  }

  lemma {:induction false} SumAppend<A>(xs: seq<A>, x: A, w: A -> int)
    ensures SumOf(xs + [x], w) == SumOf(xs, w) + w(x)
  {
    assert (xs + [x])[..|xs|] == xs;
  }

  function Filter<A(!new)>(p: A -> bool, xs: seq<A>): (r: seq<A>)
    ensures forall x :: x in r <==> x in xs && p(x)
  {
    if xs == [] then []
    else
      var l := |xs| - 1;
      var rest := Filter(p, xs[..l]);
      assert forall x :: x in xs <==> x in xs[..l] || x == xs[l];
      if p(xs[l]) then rest + [xs[l]] else rest
  }

  lemma {:induction false} FilterAppend<A(!new)>(p: A -> bool, xs: seq<A>, x: A)
    ensures Filter(p, xs + [x]) == if p(x) then Filter(p, xs) + [x] else Filter(p, xs)
  {
    assert (xs + [x])[..|xs|] == xs;
  }

  /** `x` stands at place `i` and is the only element with `p`. */
  ghost predicate OnlyAt<A(!new)>(p: A -> bool, xs: seq<A>, x: A, i: nat)
  {
    i < |xs| && xs[i] == x && p(x) && forall j :: 0 <= j < |xs| && p(xs[j]) ==> j == i
  }

  ghost predicate Only<A(!new)>(p: A -> bool, xs: seq<A>, x: A) { exists i :: OnlyAt(p, xs, x, i) }

  lemma {:induction false} FilterNone<A(!new)>(p: A -> bool, xs: seq<A>)
    ensures Filter(p, xs) == [] <==> forall j :: 0 <= j < |xs| ==> !p(xs[j])
  {
    if xs != [] {
      var l := |xs| - 1;
      FilterNone(p, xs[..l]);
      assert forall j :: 0 <= j < l ==> xs[..l][j] == xs[j];
    }
  }

  lemma {:induction false} OnlyLast<A(!new)>(p: A -> bool, xs: seq<A>, x: A)
    requires xs != [] && p(xs[|xs| - 1])
    ensures Only(p, xs, x) <==> Filter(p, xs[..|xs| - 1]) == [] && x == xs[|xs| - 1]
  {
    hide Filter;
    var l := |xs| - 1;
    FilterNone(p, xs[..l]);
    assert forall j :: 0 <= j < l ==> xs[..l][j] == xs[j];
    if Filter(p, xs[..l]) == [] && x == xs[l] { assert OnlyAt(p, xs, x, l); }
  }

  lemma {:induction false} OnlyEarlier<A(!new)>(p: A -> bool, xs: seq<A>, x: A)
    requires xs != [] && !p(xs[|xs| - 1])
    ensures Only(p, xs, x) <==> Only(p, xs[..|xs| - 1], x)
  {
    var l := |xs| - 1;
    assert forall j :: 0 <= j < l ==> xs[..l][j] == xs[j];
    forall i: nat ensures OnlyAt(p, xs, x, i) <==> OnlyAt(p, xs[..l], x, i) {}
  }

  /** A filter keeps one element exactly when it is the only one. */
  lemma {:induction false} FilterOnce<A(!new)>(p: A -> bool, xs: seq<A>, x: A)
    ensures Filter(p, xs) == [x] <==> Only(p, xs, x)
  {
    if xs != [] {
      var l := |xs| - 1;
      FilterOnce(p, xs[..l], x);
      hide Only;
      if p(xs[l]) { OnlyLast(p, xs, x); } else { OnlyEarlier(p, xs, x); }
    }
  }

  lemma {:induction false} FilterDistinct<A(!new)>(p: A -> bool, xs: seq<A>)
    requires Distinct(xs)
    ensures Distinct(Filter(p, xs))
  {
    if xs != [] {
      var l := |xs| - 1;
      FilterDistinct(p, xs[..l]);
      assert xs[l] !in xs[..l];
      assert xs[l] !in Filter(p, xs[..l]);
    }
  }

  predicate Distinct<A(==)>(xs: seq<A>)
  {
    forall i, j :: 0 <= i < j < |xs| ==> xs[i] != xs[j]
  }

  lemma {:induction false} DistinctAppend<A>(xs: seq<A>, x: A)
    ensures Distinct(xs + [x]) <==> Distinct(xs) && x !in xs
  {
    var all := xs + [x];
    assert forall i :: 0 <= i < |xs| ==> all[i] == xs[i];
    assert all[|xs|] == x;
    if Distinct(all) {
      assert forall i, j :: 0 <= i < j < |xs| ==> all[i] != all[j];
    }
  }

  /** The first occurrence of every value. */
  function Unique<T(==,!new)>(xs: seq<T>): (r: seq<T>)
    ensures Distinct(r) && forall x :: x in r <==> x in xs
  {
    if xs == [] then []
    else
      var l := |xs| - 1;
      var rest := Unique(xs[..l]);
      assert forall x :: x in xs <==> x in xs[..l] || x == xs[l];
      DistinctAppend(rest, xs[l]);
      if xs[l] in rest then rest else rest + [xs[l]]
  }

  /** Some element of a non-empty set: the next one an iteration yields. */
  method PickOne<T>(s: set<T>) returns (x: T)
    requires s != {}
    ensures x in s
  {
    x :| x in s;
  }

  lemma {:induction false} SomeElement<T>(s: set<T>) returns (x: T)
    requires s != {}
    ensures x in s
  {
    x :| x in s;
  }

  lemma {:induction false} Singleton<T>(s: set<T>) returns (x: T)
    requires |s| == 1
    ensures s == {x}
  {
    x :| x in s;
    assert |s - {x}| == 0;
  }

  lemma {:induction false} SameSet<T>(a: set<T>, b: set<T>)
    requires forall x :: x in a <==> x in b
    ensures a == b
  {
  }

  lemma {:induction false} NoneIn<T>(a: set<T>, b: set<T>)
    requires forall x :: x in a ==> x !in b
    ensures a !! b
  {
  }

  /** A subset of the same size is the whole set. */
  lemma {:induction false} SameSize<T>(a: set<T>, b: set<T>)
    requires a <= b && |a| == |b|
    ensures a == b
  {
    assert b == a + (b - a);
    assert |b - a| == |b| - |a|;
  }

  lemma {:induction false} SameMap<K, V>(a: map<K, V>, b: map<K, V>)
    requires forall k :: k in a <==> k in b
    requires forall k :: k in a && k in b ==> a[k] == b[k]
    ensures a == b
  {
  }

  /** Sum of all values of a finite map. */
  ghost function Total<K>(m: map<K, int>): int
    decreases |m|
  {
    if m == map[] then 0
    else
      var k :| k in m;
      assert |m - {k}| < |m| by { assert (m - {k}).Keys == m.Keys - {k}; }
      m[k] + Total(m - {k})
  }

  lemma {:induction false} TotalRemove<K>(m: map<K, int>, k: K)
    requires k in m
    ensures Total(m) == m[k] + Total(m - {k})
    decreases |m|
  {
    var j :| j in m && Total(m) == m[j] + Total(m - {j});
    assert (m - {j}).Keys == m.Keys - {j};
    if j != k {
      TotalRemove(m - {j}, k);
      assert (m - {k}).Keys == m.Keys - {k};
      TotalRemove(m - {k}, j);
      assert (m - {j}) - {k} == (m - {k}) - {j};
    }
  }

  lemma {:induction false} TotalInsert<K>(m: map<K, int>, k: K, v: int)
    requires k !in m
    ensures Total(m[k := v]) == Total(m) + v
  {
    TotalRemove(m[k := v], k);
    assert m[k := v] - {k} == m;
  }

  lemma {:induction false} Reinsert<K, V>(a: map<K, V>, b: map<K, V>, k: K)
    requires k in a && k !in b
    ensures ((a - {k}) + b)[k := a[k]] == a + b
  {
    var l, r := ((a - {k}) + b)[k := a[k]], a + b;
    assert l.Keys == r.Keys;
    forall j | j in l.Keys ensures l[j] == r[j] {}
  }

  lemma {:induction false} TotalUnion<K>(a: map<K, int>, b: map<K, int>)
    requires a.Keys !! b.Keys
    ensures Total(a + b) == Total(a) + Total(b)
    decreases a.Keys
  {
    if a == map[] {
      assert a + b == b;
    } else {
      var k :| k in a.Keys;
      var rest := a - {k};
      assert k !in b.Keys;
      TotalUnion(rest, b);
      TotalRemove(a, k);
      TotalInsert(rest + b, k, a[k]);
      Reinsert(a, b, k);
    }
  }

  lemma {:induction false} TotalZero<K>(m: map<K, int>)
    requires forall k :: k in m ==> m[k] == 0
    ensures Total(m) == 0
    decreases |m|
  {
    if m != map[] {
      var k :| k in m;
      TotalRemove(m, k);
      assert (m - {k}).Keys == m.Keys - {k};
      TotalZero(m - {k});
    }
  }

  /** An insertion-ordered dictionary of lists. */
  datatype Index<K(!new,==), V> = Index(keys: seq<K>, at: map<K, seq<V>>) {

    ghost predicate Valid() {
      && Distinct(keys)
      && (forall k :: k in keys <==> k in at)
      && (forall k :: k in at ==> at[k] != [])
    }

    function Get(k: K): seq<V> {
      if k in at then at[k] else []
    }

    function Add(k: K, v: V): (r: Index<K, V>)
      requires Valid()
      ensures r.Valid()
      ensures r.Get(k) == Get(k) + [v] && forall j :: j != k ==> r.Get(j) == Get(j)
    {
      if k in at then Index(keys, at[k := at[k] + [v]])
      else Index(keys + [k], at[k := [v]])
    }
  }

  /** The dictionary a loop `index[key(x)].append(x)` fills. */
  function IndexBy<K(==,!new), V(!new)>(xs: seq<V>, key: V -> K): (r: Index<K, V>)
    ensures r.Valid()
  {
    if xs == [] then Index([], map[])
    else IndexBy(xs[..|xs| - 1], key).Add(key(xs[|xs| - 1]), xs[|xs| - 1])
  }

  /** Every entry lists exactly the elements with that key, in order. */
  lemma {:induction false} IndexHolds<K(!new), V(!new)>(xs: seq<V>, key: V -> K, k: K, p: V -> bool)
    requires forall x :: p(x) == (key(x) == k)
    ensures IndexBy(xs, key).Get(k) == Filter(p, xs)
  {
    if xs != [] {
      IndexHolds(xs[..|xs| - 1], key, k, p);
    }
  }

  /** A group lists each element with its key once, if the input does not repeat any. */
  lemma {:induction false} IndexMembers<K(!new), V(!new)>(xs: seq<V>, key: V -> K, k: K)
    ensures forall x :: x in IndexBy(xs, key).Get(k) <==> x in xs && key(x) == k
    ensures Distinct(xs) ==> Distinct(IndexBy(xs, key).Get(k))
  {
    var p := x => key(x) == k;
    IndexHolds(xs, key, k, p);
    if Distinct(xs) {
      FilterDistinct(p, xs);
    }
  }

  /** The sum over all groups of the weights of their elements. */
  ghost function GroupTotal<K, V>(keys: seq<K>, at: map<K, seq<V>>, w: V -> int): int
    requires forall k :: k in keys ==> k in at
  {
    if keys == [] then 0
    else GroupTotal(keys[..|keys| - 1], at, w) + SumOf(at[keys[|keys| - 1]], w)
  }

  lemma {:induction false} GroupTotalBump<K, V>(keys: seq<K>, at: map<K, seq<V>>, k0: K, x: V, w: V -> int)
    requires forall k :: k in keys ==> k in at
    requires Distinct(keys) && k0 in at
    ensures GroupTotal(keys, at[k0 := at[k0] + [x]], w)
         == GroupTotal(keys, at, w) + if k0 in keys then w(x) else 0
  {
    if keys != [] {
      var l := |keys| - 1;
      GroupTotalBump(keys[..l], at, k0, x, w);
      SumAppend(at[k0], x, w);
    }
  }

  lemma {:induction false} GroupTotalFrame<K, V>(keys: seq<K>, a: map<K, seq<V>>, b: map<K, seq<V>>, w: V -> int)
    requires forall k :: k in keys ==> k in a && k in b && a[k] == b[k]
    ensures GroupTotal(keys, a, w) == GroupTotal(keys, b, w)
  {
    if keys != [] {
      GroupTotalFrame(keys[..|keys| - 1], a, b, w);
    }
  }

  lemma {:induction false} AddConserves<K(!new), V(!new)>(ix: Index<K, V>, k0: K, x: V, w: V -> int)
    requires ix.Valid()
    ensures GroupTotal(ix.Add(k0, x).keys, ix.Add(k0, x).at, w) == GroupTotal(ix.keys, ix.at, w) + w(x)
  {
    if k0 in ix.at {
      GroupTotalBump(ix.keys, ix.at, k0, x, w);
    } else {
      GroupTotalFrame(ix.keys, ix.at, ix.at[k0 := [x]], w);
      assert (ix.keys + [k0])[..|ix.keys|] == ix.keys;
      SumAppend([], x, w);
      assert [] + [x] == [x];
    }
  }

  /** Conservation through grouping: the group sums add up to the whole sum. */
  lemma {:induction false} IndexConserves<K(!new), V(!new)>(xs: seq<V>, key: V -> K, w: V -> int)
    ensures GroupTotal(IndexBy(xs, key).keys, IndexBy(xs, key).at, w) == SumOf(xs, w)
  {
    if xs != [] {
      var l := |xs| - 1;
      IndexConserves(xs[..l], key, w);
      AddConserves(IndexBy(xs[..l], key), key(xs[l]), xs[l], w);
    }
  }
}
