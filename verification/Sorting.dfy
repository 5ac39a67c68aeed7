/** Sorting by a key, as `sorted(values, key=...)` does for values with distinct keys. */
module Sorting {

  datatype Key = Key(number: int, first: string, second: string, third: string)

  predicate TextLess(a: string, b: string)
  {
    b != "" && (a == "" || a[0] < b[0] || (a[0] == b[0] && TextLess(a[1..], b[1..])))
  }

  predicate KeyLess(a: Key, b: Key)
  {
    a.number < b.number || (a.number == b.number &&
      (TextLess(a.first, b.first) || (a.first == b.first &&
        (TextLess(a.second, b.second) || (a.second == b.second && TextLess(a.third, b.third))))))
  }

  lemma {:induction false} TextOrder(a: string, b: string)
    ensures !(TextLess(a, b) && TextLess(b, a))
    ensures TextLess(a, b) || TextLess(b, a) || a == b
    ensures !TextLess(a, a)
    decreases |a|
  {
    if a != "" && b != "" {
      TextOrder(a[1..], b[1..]);
      if a[0] == b[0] && a[1..] == b[1..] {
        assert a == [a[0]] + a[1..] && b == [b[0]] + b[1..];
      }
    }
    if a != "" {
      TextOrder(a[1..], a[1..]);
    }
  }

  lemma {:induction false} TextTransitive(a: string, b: string, c: string)
    requires TextLess(a, b) && TextLess(b, c)
    ensures TextLess(a, c)
    decreases |a|
  {
    if a != "" && a[0] == b[0] == c[0] {
      TextTransitive(a[1..], b[1..], c[1..]);
    }
  }

  lemma {:induction false} KeyOrder(a: Key, b: Key)
    ensures !(KeyLess(a, b) && KeyLess(b, a))
    ensures KeyLess(a, b) || KeyLess(b, a) || a == b
    ensures !KeyLess(a, a)
  {
    TextOrder(a.first, b.first);
    TextOrder(a.second, b.second);
    TextOrder(a.third, b.third);
    TextOrder(a.first, a.first);
    TextOrder(a.second, a.second);
    TextOrder(a.third, a.third);
  }

  lemma {:induction false} KeyTransitive(a: Key, b: Key, c: Key)
    requires KeyLess(a, b) && KeyLess(b, c)
    ensures KeyLess(a, c)
  {
    if TextLess(a.first, b.first) && TextLess(b.first, c.first) { TextTransitive(a.first, b.first, c.first); }
    if TextLess(a.second, b.second) && TextLess(b.second, c.second) { TextTransitive(a.second, b.second, c.second); }
    if TextLess(a.third, b.third) && TextLess(b.third, c.third) { TextTransitive(a.third, b.third, c.third); }
  }

  ghost predicate Sorted<T>(key: T -> Key, xs: seq<T>)
  {
    forall i, j :: 0 <= i < j < |xs| ==> KeyLess(key(xs[i]), key(xs[j]))
  }

  ghost predicate KeysDiffer<T>(key: T -> Key, xs: seq<T>)
  {
    forall i, j :: 0 <= i < j < |xs| ==> key(xs[i]) != key(xs[j])
  }

  function Insert<T>(key: T -> Key, xs: seq<T>, x: T): seq<T>
  {
    if xs == [] then [x]
    else
      var l := |xs| - 1;
      if KeyLess(key(xs[l]), key(x)) then xs + [x] else Insert(key, xs[..l], x) + [xs[l]]
  }

  function Sort<T>(key: T -> Key, xs: seq<T>): seq<T>
  {
    if xs == [] then [] else Insert(key, Sort(key, xs[..|xs| - 1]), xs[|xs| - 1])
  }

  lemma {:induction false} InsertMembers<T(!new)>(key: T -> Key, xs: seq<T>, x: T)
    ensures forall y :: y in Insert(key, xs, x) <==> y in xs || y == x
    ensures multiset(Insert(key, xs, x)) == multiset(xs) + multiset{x}
    ensures |Insert(key, xs, x)| == |xs| + 1
  {
    if xs != [] {
      var l := |xs| - 1;
      assert xs == xs[..l] + [xs[l]];
      if !KeyLess(key(xs[l]), key(x)) {
        InsertMembers(key, xs[..l], x);
      }
    }
  }

  lemma {:induction false} SortedAppend<T>(key: T -> Key, xs: seq<T>, x: T)
    requires Sorted(key, xs) && forall i :: 0 <= i < |xs| ==> KeyLess(key(xs[i]), key(x))
    ensures Sorted(key, xs + [x])
  {
    hide KeyLess;
  }

  lemma {:induction false} InsertSorted<T(!new)>(key: T -> Key, xs: seq<T>, x: T)
    requires Sorted(key, xs) && forall i :: 0 <= i < |xs| ==> key(xs[i]) != key(x)
    ensures Sorted(key, Insert(key, xs, x))
  {
    hide KeyLess;
    if xs != [] {
      var l := |xs| - 1;
      KeyOrder(key(xs[l]), key(x));
      if KeyLess(key(xs[l]), key(x)) {
        forall i | 0 <= i < |xs| ensures KeyLess(key(xs[i]), key(x)) {
          if i < l { KeyTransitive(key(xs[i]), key(xs[l]), key(x)); }
        }
        SortedAppend(key, xs, x);
      } else {
        InsertSorted(key, xs[..l], x);
        InsertMembers(key, xs[..l], x);
        var longer := Insert(key, xs[..l], x);
        forall i | 0 <= i < |longer| ensures KeyLess(key(longer[i]), key(xs[l])) {
          assert longer[i] in longer;
        }
        SortedAppend(key, longer, xs[l]);
      }
    }
  }

  lemma {:induction false} SortMembers<T(!new)>(key: T -> Key, xs: seq<T>)
    ensures forall y :: y in Sort(key, xs) <==> y in xs
    ensures multiset(Sort(key, xs)) == multiset(xs)
  {
    if xs != [] {
      var l := |xs| - 1;
      assert xs == xs[..l] + [xs[l]];
      SortMembers(key, xs[..l]);
      InsertMembers(key, Sort(key, xs[..l]), xs[l]);
    }
  }

  lemma {:induction false} SortSorted<T(!new)>(key: T -> Key, xs: seq<T>)
    requires KeysDiffer(key, xs)
    ensures Sorted(key, Sort(key, xs))
  {
    if xs != [] {
      var l := |xs| - 1;
      SortSorted(key, xs[..l]);
      SortMembers(key, xs[..l]);
      var sorted := Sort(key, xs[..l]);
      forall i | 0 <= i < |sorted| ensures key(sorted[i]) != key(xs[l]) {
        assert sorted[i] in xs[..l];
      }
      InsertSorted(key, sorted, xs[l]);
    }
  }

  lemma {:induction false} LastIsGreatest<T(!new)>(key: T -> Key, a: seq<T>, b: seq<T>)
    requires Sorted(key, a) && Sorted(key, b) && a != [] && b != []
    requires forall x :: x in a <==> x in b
    ensures a[|a| - 1] == b[|b| - 1]
  {
    hide KeyLess;
    var x, y := a[|a| - 1], b[|b| - 1];
    assert x in b && y in a;
    KeyOrder(key(x), key(y));
  }

  lemma {:induction false} LastOnce<T(!new)>(key: T -> Key, a: seq<T>)
    requires Sorted(key, a) && a != []
    ensures forall x :: x in a[..|a| - 1] <==> x in a && x != a[|a| - 1]
    ensures Sorted(key, a[..|a| - 1])
  {
    hide KeyLess;
    var l := |a| - 1;
    assert forall x :: x in a <==> x in a[..l] || x == a[l];
    forall i | 0 <= i < l ensures a[i] != a[l] {
      KeyOrder(key(a[i]), key(a[l]));
      KeyOrder(key(a[l]), key(a[l]));
      assert KeyLess(key(a[i]), key(a[l]));
    }
  }

  /** A sorted sequence is determined by its elements. */
  lemma {:induction false} SortedUnique<T(!new)>(key: T -> Key, a: seq<T>, b: seq<T>)
    requires Sorted(key, a) && Sorted(key, b) && forall x :: x in a <==> x in b
    ensures a == b
    decreases |a|
  {
    hide KeyLess, Sorted;
    if a == [] {
      assert forall i :: 0 <= i < |b| ==> b[i] in b;
      assert |b| == 0;
    } else {
      assert a[0] in b;
      LastIsGreatest(key, a, b);
      LastOnce(key, a);
      LastOnce(key, b);
      var k, m := |a| - 1, |b| - 1;
      forall x ensures x in a[..k] <==> x in b[..m] {
        assert x in a[..k] <==> x in a && x != a[k];
        assert x in b[..m] <==> x in b && x != b[m];
      }
      SortedUnique(key, a[..k], b[..m]);
      assert a == a[..k] + [a[k]] && b == b[..m] + [b[m]];
    }
  }
}
