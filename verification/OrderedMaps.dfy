/** The entries of an ordered map in key order, as BTreeMap iterates them. */
module OrderedMaps {
  ghost predicate Order<K(!new)>(le: (K, K) -> bool) {
    && (forall x, y :: le(x, y) || le(y, x))
    && (forall x, y :: le(x, y) && le(y, x) ==> x == y)
    && (forall x, y, z :: le(x, y) && le(y, z) ==> le(x, z))
  }

  ghost predicate Least<K(!new)>(m: K, s: set<K>, le: (K, K) -> bool) {
    m in s && forall y :: y in s ==> le(m, y)
  }

  lemma {:induction false} LeastExists<K(!new)>(s: set<K>, le: (K, K) -> bool) returns (m: K)
    requires s != {} && Order(le)
    ensures Least(m, s, le)
    decreases s
  {
    var x :| x in s;
    if s == {x} {
      m := x;
    } else {
      var n := LeastExists(s - {x}, le);
      m := if le(x, n) then x else n;
    }
  }

  // The keys from the least up.
  function Keys<K(!new)>(s: set<K>, le: (K, K) -> bool): seq<K>
    requires Order(le)
  {
    if s == {} then []
    else
      assert exists m :: m in s && forall y :: y in s ==> le(m, y) by { var m := LeastExists(s, le); }
      var m :| m in s && forall y :: y in s ==> le(m, y);
      [m] + Keys(s - {m}, le)
  }

  lemma {:induction false} KeysAre<K(!new)>(s: set<K>, le: (K, K) -> bool)
    requires Order(le)
    ensures forall k :: k in Keys(s, le) <==> k in s
    ensures |Keys(s, le)| == |s|
    ensures forall i, j :: 0 <= i < j < |Keys(s, le)| ==>
      le(Keys(s, le)[i], Keys(s, le)[j]) && Keys(s, le)[i] != Keys(s, le)[j]
    decreases s
  {
    if s != {} {
      var m := Keys(s, le)[0];
      var rest := Keys(s - {m}, le);
      assert Keys(s, le) == [m] + rest;
      KeysAre(s - {m}, le);
      forall i, j | 0 <= i < j < |rest| + 1 ensures le(([m] + rest)[i], ([m] + rest)[j])
        && ([m] + rest)[i] != ([m] + rest)[j] {
        if i == 0 {
          assert rest[j - 1] in rest;
        }
      }
    }
  }

  predicate NatLe(a: nat, b: nat) {
    a <= b
  }

  lemma NatOrder()
    ensures Order(NatLe)
  {}

  // The values in key order.
  function Values<V>(m: map<nat, V>): (values: seq<V>)
    ensures |values| == |Indexes(m)| && forall n :: 0 <= n < |values| ==> values[n] == m[Indexes(m)[n]]
  {
    var keys := Indexes(m);
    seq(|keys|, n requires 0 <= n < |keys| => m[keys[n]])
  }

  function Indexes<V>(m: map<nat, V>): (keys: seq<nat>)
    ensures forall k :: k in keys <==> k in m
    ensures forall i, j :: 0 <= i < j < |keys| ==> keys[i] < keys[j]
  {
    NatOrder();
    KeysAre(m.Keys, NatLe);
    Keys(m.Keys, NatLe)
  }
}
