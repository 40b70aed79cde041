/** A table with a surrogate id and one unique column, and the map from that column it stands for. */
module UniqueTable {
  import opened Prelude

  datatype Row<K, V> = Row(key: K, value: V)

  datatype Table<K(==), V> = Table(rows: map<nat, Row<K, V>>, nextId: nat)

  predicate RowOk<K, V(==)>(t: Table<K, V>, m: map<K, V>, id: nat)
    requires id in t.rows
  {
    id < t.nextId && t.rows[id].key in m && m[t.rows[id].key] == t.rows[id].value
  }

  predicate SameKey<K(==), V>(t: Table<K, V>, a: nat, b: nat)
    requires a in t.rows && b in t.rows
  {
    t.rows[a].key == t.rows[b].key
  }

  predicate HasRow<K(==), V>(t: Table<K, V>, k: K) {
    exists id :: id in t.rows && t.rows[id].key == k
  }

  /** One row per key, holding the key's value. */
  ghost predicate Represents<K(!new), V>(t: Table<K, V>, m: map<K, V>) {
    && (forall id {:trigger RowOk(t, m, id)} :: id in t.rows ==> RowOk(t, m, id))
    && (forall a, b {:trigger SameKey(t, a, b)} :: a in t.rows && b in t.rows && SameKey(t, a, b) ==> a == b)
    && (forall k {:trigger HasRow(t, k)} :: k in m ==> HasRow(t, k))
  }

  function Insert<K, V>(t: Table<K, V>, k: K, v: V): Table<K, V> {
    Table(t.rows[t.nextId := Row(k, v)], t.nextId + 1)
  }

  function Update<K, V>(t: Table<K, V>, id: nat, v: V): Table<K, V>
    requires id in t.rows
  {
    t.(rows := t.rows[id := t.rows[id].(value := v)])
  }

  lemma RowIsThere<K(!new), V>(t: Table<K, V>, m: map<K, V>, k: K)
    requires Represents(t, m)
    ensures HasRow(t, k) <==> k in m
  {
    if HasRow(t, k) {
      var id :| id in t.rows && t.rows[id].key == k;
      assert RowOk(t, m, id);
    }
  }

  lemma InsertRepresents<K(!new), V>(t: Table<K, V>, m: map<K, V>, k: K, v: V)
    requires Represents(t, m) && k !in m
    ensures Represents(Insert(t, k, v), m[k := v])
  {
    var t', m' := Insert(t, k, v), m[k := v];
    forall id | id in t'.rows ensures RowOk(t', m', id) {
      if id in t.rows { assert RowOk(t, m, id); }
    }
    forall a, b | a in t'.rows && b in t'.rows && SameKey(t', a, b) ensures a == b {
      if a in t.rows { assert RowOk(t, m, a); }
      if b in t.rows { assert RowOk(t, m, b); }
      if a in t.rows && b in t.rows { assert a != t.nextId && b != t.nextId && SameKey(t, a, b); }
    }
    forall j | j in m' ensures HasRow(t', j) {
      if j == k {
        assert t'.rows[t.nextId].key == k;
      } else {
        assert HasRow(t, j);
        var id :| id in t.rows && t.rows[id].key == j;
        assert RowOk(t, m, id) && t'.rows[id].key == j;
      }
    }
  }

  lemma UpdateRepresents<K(!new), V>(t: Table<K, V>, m: map<K, V>, id: nat, v: V)
    requires Represents(t, m) && id in t.rows
    ensures Represents(Update(t, id, v), m[t.rows[id].key := v])
  {
    var t', m' := Update(t, id, v), m[t.rows[id].key := v];
    assert RowOk(t, m, id);
    forall i | i in t'.rows ensures RowOk(t', m', i) {
      assert RowOk(t, m, i);
      if i != id { assert !SameKey(t, i, id); }
    }
    forall a, b | a in t'.rows && b in t'.rows && SameKey(t', a, b) ensures a == b {
      assert SameKey(t, a, b);
    }
    forall k | k in m' ensures HasRow(t', k) {
      assert HasRow(t, k);
      var i :| i in t.rows && t.rows[i].key == k;
      assert t'.rows[i].key == k;
    }
  }

  /** `SELECT ... WHERE key = k`. */
  method Find<K(!new, ==), V>(t: Table<K, V>, ghost m: map<K, V>, k: K) returns (r: Option<nat>)
    requires Represents(t, m)
    ensures r.None? <==> k !in m
    ensures r.Some? ==> r.value in t.rows && t.rows[r.value].key == k && m[k] == t.rows[r.value].value
  {
    RowIsThere(t, m, k);
    if id :| id in t.rows && t.rows[id].key == k {
      assert RowOk(t, m, id);
      return Some(id);
    }
    return None;
  }
}
