/** Sequences of key-value pairs with unique keys, and the maps they stand for. */
module Associations {

  datatype Entry<K, V> = Entry(key: K, value: V)

  predicate HasKey<K(==), V>(es: seq<Entry<K, V>>, key: K) {
    exists i :: 0 <= i < |es| && es[i].key == key
  }

  predicate UniqueKeys<K(==), V>(es: seq<Entry<K, V>>) {
    forall i, j :: 0 <= i < j < |es| ==> es[i].key != es[j].key
  }

  function ToMap<K, V>(es: seq<Entry<K, V>>): map<K, V> {
    if es == [] then map[] else ToMap(es[..|es| - 1])[es[|es| - 1].key := es[|es| - 1].value]
  }

  lemma {:induction false} KeysOfMap<K, V>(es: seq<Entry<K, V>>, key: K)
    ensures key in ToMap(es) <==> HasKey(es, key)
  {
    if es != [] {
      var init, n := es[..|es| - 1], |es| - 1;
      KeysOfMap(init, key);
      if HasKey(init, key) {
        var i :| 0 <= i < |init| && init[i].key == key;
        assert es[i].key == key;
      } else {
        assert forall i :: 0 <= i < n ==> es[i] == init[i];
      }
    }
  }

  lemma {:induction false} ValueInMap<K, V>(es: seq<Entry<K, V>>, i: nat)
    requires UniqueKeys(es) && i < |es|
    ensures es[i].key in ToMap(es) && ToMap(es)[es[i].key] == es[i].value
  {
    if i < |es| - 1 {
      var init := es[..|es| - 1];
      assert init[i] == es[i];
      ValueInMap(init, i);
    }
  }

  lemma {:induction false} SizeOfMap<K, V>(es: seq<Entry<K, V>>)
    requires UniqueKeys(es)
    ensures |ToMap(es)| == |es|
  {
    if es != [] {
      var init, last := es[..|es| - 1], es[|es| - 1];
      SizeOfMap(init);
      KeysOfMap(init, last.key);
    }
  }

  /** A map that has the keys of `es` and gives each its value is the map of `es`. */
  lemma MapOf<K(!new), V>(es: seq<Entry<K, V>>, m: map<K, V>)
    requires UniqueKeys(es)
    requires forall i :: 0 <= i < |es| ==> es[i].key in m && m[es[i].key] == es[i].value
    requires forall key <- m.Keys :: HasKey(es, key)
    ensures ToMap(es) == m
  {
    var a := ToMap(es);
    forall key ensures key in a <==> key in m { KeysOfMap(es, key); }
    forall key | key in m ensures a[key] == m[key] {
      var i :| 0 <= i < |es| && es[i].key == key;
      ValueInMap(es, i);
    }
    assert a.Keys == m.Keys;
  }

  // ---------- replace ----------

  lemma ReplaceIsUpdate<K(!new), V>(es: seq<Entry<K, V>>, i: nat, value: V)
    requires UniqueKeys(es) && i < |es|
    ensures var r := es[i := Entry(es[i].key, value)];
            UniqueKeys(r) && ToMap(r) == ToMap(es)[es[i].key := value]
  {
    var r := es[i := Entry(es[i].key, value)];
    assert forall j :: 0 <= j < |r| ==> r[j].key == es[j].key;
    var m := ToMap(es)[es[i].key := value];
    forall j | 0 <= j < |r| ensures r[j].key in m && m[r[j].key] == r[j].value { ValueInMap(es, j); }
    forall key | key in m ensures HasKey(r, key) {
      KeysOfMap(es, key);
      if key == es[i].key { assert r[i].key == key; }
      else {
        var j :| 0 <= j < |es| && es[j].key == key;
        assert r[j].key == key;
      }
    }
    MapOf(r, m);
  }

  // ---------- insert ----------

  /** `es` with `e` inserted at position `i`. */
  function Insert<K, V>(es: seq<Entry<K, V>>, e: Entry<K, V>, i: nat): (r: seq<Entry<K, V>>)
    requires i <= |es|
    ensures |r| == |es| + 1
  {
    es[..i] + [e] + es[i..]
  }

  lemma InsertAt<K, V>(es: seq<Entry<K, V>>, e: Entry<K, V>, i: nat, j: nat)
    requires i <= |es| && j <= |es|
    ensures Insert(es, e, i)[j] == if j < i then es[j] else if j == i then e else es[j - 1]
  {}

  lemma InsertKeepsUnique<K, V>(es: seq<Entry<K, V>>, e: Entry<K, V>, i: nat)
    requires UniqueKeys(es) && i <= |es| && !HasKey(es, e.key)
    ensures UniqueKeys(Insert(es, e, i))
  {
    var r := Insert(es, e, i);
    forall j, k | 0 <= j < k < |r| ensures r[j].key != r[k].key {
      InsertAt(es, e, i, j);
      InsertAt(es, e, i, k);
      if j == i { assert es[k - 1].key != e.key; }
      else if k == i { assert es[j].key != e.key; }
    }
  }

  lemma InsertAddsKey<K, V>(es: seq<Entry<K, V>>, e: Entry<K, V>, i: nat, key: K)
    requires i <= |es| && (key == e.key || HasKey(es, key))
    ensures HasKey(Insert(es, e, i), key)
  {
    if key == e.key {
      InsertAt(es, e, i, i);
    } else {
      var j :| 0 <= j < |es| && es[j].key == key;
      InsertAt(es, e, i, if j < i then j else j + 1);
    }
  }

  lemma InsertIsUpdate<K(!new), V>(es: seq<Entry<K, V>>, e: Entry<K, V>, i: nat)
    requires UniqueKeys(es) && i <= |es| && !HasKey(es, e.key)
    ensures ToMap(Insert(es, e, i)) == ToMap(es)[e.key := e.value]
  {
    var r, m := Insert(es, e, i), ToMap(es)[e.key := e.value];
    forall j | 0 <= j < |r| ensures r[j].key in m && m[r[j].key] == r[j].value {
      InsertAt(es, e, i, j);
      if j != i { KeptInMap(es, e, if j < i then j else j - 1); }
    }
    forall key | key in m.Keys ensures HasKey(r, key) {
      KeysOfMap(es, key);
      InsertAddsKey(es, e, i, key);
    }
    InsertKeepsUnique(es, e, i);
    MapOf(r, m);
  }

  lemma KeptInMap<K, V>(es: seq<Entry<K, V>>, e: Entry<K, V>, k: nat)
    requires UniqueKeys(es) && k < |es| && !HasKey(es, e.key)
    ensures var m := ToMap(es)[e.key := e.value]; es[k].key in m && m[es[k].key] == es[k].value
  {
    assert es[k].key != e.key;
    ValueInMap(es, k);
  }

  // ---------- filter ----------

  /** The entries whose value is not `value`, in their order. */
  function Without<K, V(==)>(es: seq<Entry<K, V>>, value: V): (r: seq<Entry<K, V>>)
    ensures |r| <= |es|
  {
    if es == [] then []
    else
      var rest := Without(es[..|es| - 1], value);
      if es[|es| - 1].value == value then rest else rest + [es[|es| - 1]]
  }

  /** The filter is a subsequence: positions in it come from positions in `es`, in the same order... */
  lemma {:induction false} WithoutFrom<K, V>(es: seq<Entry<K, V>>, value: V, j: nat, k: nat) returns (a: nat, b: nat)
    requires j <= k < |Without(es, value)|
    ensures a <= b < |es| && (j < k ==> a < b)
    ensures Without(es, value)[j] == es[a] && Without(es, value)[k] == es[b]
    ensures es[a].value != value && es[b].value != value
  {
    var init, n := es[..|es| - 1], |es| - 1;
    if k < |Without(init, value)| {
      a, b := WithoutFrom(init, value, j, k);
    } else if j < k {
      var c;
      a, c := WithoutFrom(init, value, j, j);
      b := n;
    } else {
      a, b := n, n;
    }
  }

  /** ...that keeps every entry with another value. */
  lemma {:induction false} WithoutKeeps<K, V>(es: seq<Entry<K, V>>, value: V, i: nat) returns (j: nat)
    requires i < |es| && es[i].value != value
    ensures j < |Without(es, value)| && Without(es, value)[j] == es[i]
  {
    if i == |es| - 1 {
      j := |Without(es, value)| - 1;
    } else {
      j := WithoutKeeps(es[..|es| - 1], value, i);
    }
  }

  lemma WithoutKeepsUnique<K, V>(es: seq<Entry<K, V>>, value: V)
    requires UniqueKeys(es)
    ensures UniqueKeys(Without(es, value))
  {
    var r := Without(es, value);
    forall j, k | 0 <= j < k < |r| ensures r[j].key != r[k].key {
      var a, b := WithoutFrom(es, value, j, k);
    }
  }

  lemma WithoutIsRestriction<K(!new), V>(es: seq<Entry<K, V>>, value: V)
    requires UniqueKeys(es)
    ensures ToMap(Without(es, value)) == map key | key in ToMap(es) && ToMap(es)[key] != value :: ToMap(es)[key]
  {
    var r := Without(es, value);
    WithoutKeepsUnique(es, value);
    var m := map key | key in ToMap(es) && ToMap(es)[key] != value :: ToMap(es)[key];
    forall j | 0 <= j < |r| ensures r[j].key in m && m[r[j].key] == r[j].value {
      var a, b := WithoutFrom(es, value, j, j);
      ValueInMap(es, a);
    }
    forall key | key in m.Keys ensures HasKey(r, key) {
      KeysOfMap(es, key);
      var i :| 0 <= i < |es| && es[i].key == key;
      ValueInMap(es, i);
      var j := WithoutKeeps(es, value, i);
      assert r[j].key == key;
    }
    MapOf(r, m);
  }
}
