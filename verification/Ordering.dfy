/** Text order, ordered map keys and sorting, as BTreeMap iteration and sort_by provide them. */
module Ordering {
  import opened OrderedMaps

  // Code-point order, which is the byte order of UTF-8.
  predicate TextLe(a: string, b: string) {
    a == [] || (b != [] && (a[0] < b[0] || (a[0] == b[0] && TextLe(a[1..], b[1..]))))
  }

  lemma {:induction false} TextTotal(a: string, b: string)
    ensures TextLe(a, b) || TextLe(b, a)
    ensures TextLe(a, b) && TextLe(b, a) ==> a == b
  {
    if a != [] && b != [] {
      TextTotal(a[1..], b[1..]);
      assert a == [a[0]] + a[1..] && b == [b[0]] + b[1..];
    }
  }

  lemma {:induction false} TextTransitive(a: string, b: string, c: string)
    requires TextLe(a, b) && TextLe(b, c)
    ensures TextLe(a, c)
  {
    if a != [] && a[0] == b[0] == c[0] {
      TextTransitive(a[1..], b[1..], c[1..]);
    }
  }

  lemma TextIsOrder()
    ensures Order(TextLe)
  {
    forall x, y ensures TextLe(x, y) || TextLe(y, x) {
      TextTotal(x, y);
    }
    forall x, y | TextLe(x, y) && TextLe(y, x) ensures x == y {
      TextTotal(x, y);
    }
    forall x, y, z | TextLe(x, y) && TextLe(y, z) ensures TextLe(x, z) {
      TextTransitive(x, y, z);
    }
  }

  // The keys of a map ordered by text, in iteration order.
  function SortedKeys(s: set<string>): seq<string> {
    TextIsOrder();
    Keys(s, TextLe)
  }

  lemma SortedKeysAre(s: set<string>)
    ensures forall k :: k in SortedKeys(s) <==> k in s
    ensures |SortedKeys(s)| == |s|
    ensures forall i, j :: 0 <= i < j < |SortedKeys(s)| ==> SortedKeys(s)[i] != SortedKeys(s)[j]
  {
    TextIsOrder();
    KeysAre(s, TextLe);
  }

  // The values of a map at some of its keys, in their order.
  function ValuesOf<V>(m: map<string, V>, keys: seq<string>, n: nat): seq<V>
    requires n <= |keys| && forall k <- keys :: k in m
  {
    if n == 0 then [] else ValuesOf(m, keys, n - 1) + [m[keys[n - 1]]]
  }

  lemma {:induction false} ValuesAre<V>(m: map<string, V>, keys: seq<string>, n: nat)
    requires n <= |keys| && forall k <- keys :: k in m
    ensures |ValuesOf(m, keys, n)| == n && forall i :: 0 <= i < n ==> ValuesOf(m, keys, n)[i] == m[keys[i]]
  {
    if n > 0 {
      ValuesAre(m, keys, n - 1);
    }
  }

  // Where every value carries its own key, a listing of the keys gives every value once.
  lemma ValuesHold<V(!new)>(m: map<string, V>, id: V -> string, keys: seq<string>)
    requires forall k :: k in m ==> id(m[k]) == k
    requires (forall k :: k in keys <==> k in m) && Distinct(keys)
    ensures Distinct(ValuesOf(m, keys, |keys|))
    ensures forall x :: x in ValuesOf(m, keys, |keys|) <==> id(x) in m && m[id(x)] == x
  {
    ValuesAre(m, keys, |keys|);
    var values := ValuesOf(m, keys, |keys|);
    forall i, j | 0 <= i < j < |values| ensures values[i] != values[j] {
      assert id(values[i]) == keys[i] && id(values[j]) == keys[j];
    }
    forall x ensures x in values <==> id(x) in m && m[id(x)] == x {
      if id(x) in m && m[id(x)] == x {
        var i :| 0 <= i < |keys| && keys[i] == id(x);
        assert values[i] == x;
      }
    }
  }

  function Insert<T(!new)>(le: (T, T) -> bool, x: T, s: seq<T>): seq<T> {
    if s == [] || le(x, s[0]) then [x] + s else [s[0]] + Insert(le, x, s[1..])
  }

  function Sort<T(!new)>(le: (T, T) -> bool, s: seq<T>): seq<T> {
    if s == [] then [] else Insert(le, s[0], Sort(le, s[1..]))
  }

  ghost predicate Total<T(!new)>(le: (T, T) -> bool) {
    && (forall x, y :: le(x, y) || le(y, x))
    && (forall x, y, z :: le(x, y) && le(y, z) ==> le(x, z))
  }

  ghost predicate Sorted<T(!new)>(le: (T, T) -> bool, s: seq<T>) {
    forall i, j :: 0 <= i < j < |s| ==> le(s[i], s[j])
  }

  // No two different elements tie.
  ghost predicate Strict<T(!new)>(le: (T, T) -> bool, s: seq<T>) {
    forall x, y :: x in s && y in s && le(x, y) && le(y, x) ==> x == y
  }

  lemma {:induction false} InsertSorts<T(!new)>(le: (T, T) -> bool, x: T, s: seq<T>)
    requires Total(le) && Sorted(le, s)
    ensures Sorted(le, Insert(le, x, s)) && multiset(Insert(le, x, s)) == multiset(s) + multiset{x}
  {
    if s != [] {
      var first := s[0];
      assert s == [first] + s[1..];
      if le(x, first) {
        forall i | 0 <= i < |s| ensures le(x, s[i]) {
          assert le(first, s[i]);
        }
      } else {
        InsertSorts(le, x, s[1..]);
        var r := Insert(le, x, s[1..]);
        forall y | y in r ensures le(first, y) {
          assert y in multiset(r);
        }
      }
    }
  }

  lemma {:induction false} SortSorts<T(!new)>(le: (T, T) -> bool, s: seq<T>)
    requires Total(le)
    ensures Sorted(le, Sort(le, s)) && multiset(Sort(le, s)) == multiset(s)
  {
    if s != [] {
      SortSorts(le, s[1..]);
      InsertSorts(le, s[0], Sort(le, s[1..]));
      assert s == [s[0]] + s[1..];
    }
  }

  ghost predicate Distinct<T(!new)>(s: seq<T>) {
    forall i, j :: 0 <= i < j < |s| ==> s[i] != s[j]
  }

  lemma SomeElement<T(!new)>(s: seq<T>)
    requires s != []
    ensures exists x :: x in s
  {
    assert s[0] in s;
  }

  // Sorting by an order without ties has one result, whatever order the elements came in.
  lemma {:induction false} SortedUnique<T(!new)>(le: (T, T) -> bool, a: seq<T>, b: seq<T>)
    requires Sorted(le, a) && Sorted(le, b) && Strict(le, a) && Distinct(a) && Distinct(b)
    requires forall x :: x in a <==> x in b
    ensures a == b
  {
    if a == [] || b == [] {
      if a != [] {
        SomeElement(a);
      }
      if b != [] {
        SomeElement(b);
      }
    } else {
      assert a[0] in b && b[0] in a;
      assert a == [a[0]] + a[1..] && b == [b[0]] + b[1..];
      assert a[0] == b[0];
      forall x ensures x in a[1..] <==> x in b[1..] {
        assert x in a[1..] <==> x in a && x != a[0];
        assert x in b[1..] <==> x in b && x != b[0];
      }
      SortedUnique(le, a[1..], b[1..]);
    }
  }

  function Filter<T>(p: T -> bool, s: seq<T>): seq<T> {
    if s == [] then []
    else (if p(s[0]) then [s[0]] else []) + Filter(p, s[1..])
  }

  lemma {:induction false} FilterIn<T(!new)>(p: T -> bool, s: seq<T>)
    ensures forall x :: x in Filter(p, s) <==> x in s && p(x)
  {
    if s != [] {
      FilterIn(p, s[1..]);
      assert s == [s[0]] + s[1..];
    }
  }

  lemma {:induction false} FilterMore<T(!new)>(p: T -> bool, s: seq<T>, x: T)
    ensures Filter(p, s + [x]) == if p(x) then Filter(p, s) + [x] else Filter(p, s)
  {
    if s == [] {
      assert s + [x] == [x] && [x][1..] == [];
    } else {
      var all := s + [x];
      var head := if p(s[0]) then [s[0]] else [];
      FilterMore(p, s[1..], x);
      assert all[0] == s[0] && all[1..] == s[1..] + [x];
      assert Filter(p, all) == head + Filter(p, s[1..] + [x]);
      assert head + (Filter(p, s[1..]) + [x]) == (head + Filter(p, s[1..])) + [x];
    }
  }

  lemma {:induction false} FilterIs<T(!new)>(p: T -> bool, s: seq<T>)
    ensures forall x :: multiset(Filter(p, s))[x] == if p(x) then multiset(s)[x] else 0
  {
    if s != [] {
      FilterIs(p, s[1..]);
      assert s == [s[0]] + s[1..];
      assert multiset(s) == multiset{s[0]} + multiset(s[1..]);
    }
  }

  lemma {:induction false} FilterSorted<T(!new)>(le: (T, T) -> bool, p: T -> bool, s: seq<T>)
    requires Sorted(le, s)
    ensures Sorted(le, Filter(p, s))
  {
    if s != [] {
      FilterSorted(le, p, s[1..]);
      var r := Filter(p, s[1..]);
      FilterIs(p, s[1..]);
      forall i | 0 <= i < |r| ensures le(s[0], r[i]) {
        assert r[i] in multiset(r);
        assert r[i] in s[1..];
      }
    }
  }

  lemma {:induction false} DistinctCount<T>(s: seq<T>, x: T)
    requires forall i, j :: 0 <= i < j < |s| ==> s[i] != s[j]
    ensures multiset(s)[x] <= 1
  {
    if s != [] {
      assert s == [s[0]] + s[1..];
      DistinctCount(s[1..], x);
      if x == s[0] {
        assert x !in s[1..];
      }
    }
  }

  lemma CountDistinct<T>(s: seq<T>)
    requires forall x :: multiset(s)[x] <= 1
    ensures forall i, j :: 0 <= i < j < |s| ==> s[i] != s[j]
  {
    forall i, j | 0 <= i < j < |s| ensures s[i] != s[j] {
      assert s == s[..i] + [s[i]] + s[i + 1..j] + [s[j]] + s[j + 1..];
      assert multiset(s)[s[i]] >= multiset([s[i]])[s[i]] + multiset([s[j]])[s[i]];
    }
  }

  // Filtering a sorted arrangement of distinct elements leaves those that pass, once each and sorted.
  lemma FilteredSort<T(!new)>(le: (T, T) -> bool, p: T -> bool, s: seq<T>)
    requires Total(le) && Distinct(s)
    ensures var r := Filter(p, Sort(le, s));
      Sorted(le, r) && Distinct(r) && forall x :: x in r <==> x in s && p(x)
  {
    SortSorts(le, s);
    var sorted := Sort(le, s);
    FilterSorted(le, p, sorted);
    FilterIs(p, sorted);
    var r := Filter(p, sorted);
    forall x ensures multiset(r)[x] <= 1 && (x in r <==> x in s && p(x)) {
      DistinctCount(s, x);
      assert x in r <==> multiset(r)[x] > 0;
      assert x in s <==> multiset(s)[x] > 0;
    }
    CountDistinct(r);
  }

  // And sorting those that pass leaves the same elements.
  lemma SortedFilter<T(!new)>(le: (T, T) -> bool, p: T -> bool, s: seq<T>)
    requires Total(le) && Distinct(s)
    ensures var r := Sort(le, Filter(p, s));
      Sorted(le, r) && Distinct(r) && forall x :: x in r <==> x in s && p(x)
  {
    var kept := Filter(p, s);
    FilterIs(p, s);
    SortSorts(le, kept);
    var r := Sort(le, kept);
    forall x ensures multiset(r)[x] <= 1 && (x in r <==> x in s && p(x)) {
      DistinctCount(s, x);
      assert x in r <==> multiset(r)[x] > 0;
      assert x in s <==> multiset(s)[x] > 0;
    }
    CountDistinct(r);
  }
}
