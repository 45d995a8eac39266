/** Insertion-ordered dictionaries: a Python dict keeps a key's place when its value is replaced. */
module Tables {
  import opened Sorting

  type Id = string

  datatype RawTable<V> = Rows(keys: seq<Id>, rows: map<Id, V>)

  ghost predicate WellFormed<V>(t: RawTable<V>) {
    Distinct(t.keys) && forall k :: k in t.keys <==> k in t.rows
  }

  type Table<V> = t: RawTable<V> | WellFormed(t) witness Rows([], map[])

  function Empty<V>(): Table<V> {
    Rows([], map[])
  }

  /** `d[k] = v` */
  function Put<V>(t: Table<V>, k: Id, v: V): (r: Table<V>)
    ensures r.rows == t.rows[k := v]
  {
    if k in t.rows then
      Rows(t.keys, t.rows[k := v])
    else
      var keys := t.keys + [k];
      assert forall x :: x in keys <==> x in t.keys || x == k;
      Rows(keys, t.rows[k := v])
  }

  function KeyTest<V>(rows: map<Id, V>, p: V -> bool): Id -> bool {
    k => k in rows && p(rows[k])
  }

  /** The rows that pass a test, in the order they were inserted. */
  function Where<V>(t: Table<V>, p: V -> bool): (r: Table<V>)
    ensures r.rows == map k | k in t.rows && p(t.rows[k]) :: t.rows[k]
  {
    var keys := Filter(t.keys, KeyTest(t.rows, p));
    FilterDistinct(t.keys, KeyTest(t.rows, p));
    assert forall k :: k in keys <==> k in t.rows && p(t.rows[k]) by {
      forall k ensures k in keys <==> k in t.rows && p(t.rows[k]) {
        FilterIn(t.keys, KeyTest(t.rows, p), k);
      }
    }
    Rows(keys, map k | k in t.rows && p(t.rows[k]) :: t.rows[k])
  }

  function KeyOutside(ids: set<Id>): Id -> bool {
    k => k !in ids
  }

  /** The table after `del d[k]` for every `k` in `ids`. */
  function Without<V>(t: Table<V>, ids: set<Id>): (r: Table<V>)
    ensures r.rows == t.rows - ids
  {
    var keys := Filter(t.keys, KeyOutside(ids));
    FilterDistinct(t.keys, KeyOutside(ids));
    assert forall k :: k in keys <==> k in t.rows && k !in ids by {
      forall k ensures k in keys <==> k in t.rows && k !in ids {
        FilterIn(t.keys, KeyOutside(ids), k);
      }
    }
    Rows(keys, t.rows - ids)
  }

  lemma WithoutMore<V>(t: Table<V>, ids: set<Id>, k: Id)
    ensures Without(Without(t, ids), {k}) == Without(t, ids + {k})
  {
    var test := KeyOutside(ids + {k});
    FilterFilter(t.keys, test, KeyOutside(ids));
    forall x | x in Without(t, ids).keys ensures x !in ids {
      FilterIn(t.keys, KeyOutside(ids), x);
    }
    FilterAgree(Without(t, ids).keys, KeyOutside({k}), test);
  }

  lemma WithoutNone<V>(t: Table<V>)
    ensures Without(t, {}) == t
  {
    FilterAll(t.keys, KeyOutside({}));
  }

  /** Deleting every row that fails a test leaves the rows that pass it. */
  lemma WithoutIsWhere<V>(t: Table<V>, ids: set<Id>, p: V -> bool)
    requires forall k :: k in t.rows ==> (k in ids <==> !p(t.rows[k]))
    ensures Without(t, ids) == Where(t, p)
  {
    FilterAgree(t.keys, KeyOutside(ids), KeyTest(t.rows, p));
  }

  /** Where a key stands. */
  function Place(keys: seq<Id>, id: Id): (i: nat)
    requires id in keys
    ensures i < |keys| && keys[i] == id
  {
    if keys[0] == id then 0 else 1 + Place(keys[1..], id)
  }

  function ValuesOf<V>(keys: seq<Id>, rows: map<Id, V>): (r: seq<V>)
    requires forall k :: k in keys ==> k in rows
    ensures |r| == |keys|
    ensures forall i :: 0 <= i < |keys| ==> r[i] == rows[keys[i]]
  {
    if keys == [] then [] else [rows[keys[0]]] + ValuesOf(keys[1..], rows)
  }

  /** `d.values()` */
  function Values<V>(t: Table<V>): (r: seq<V>)
    ensures |r| == |t.keys| == |t.rows|
    ensures forall i :: 0 <= i < |r| ==> r[i] == t.rows[t.keys[i]]
    ensures forall k :: k in t.rows ==> t.rows[k] in r
    ensures forall v :: v in r ==> exists k :: k in t.rows && t.rows[k] == v
  {
    KeyCount(t);
    assert forall k :: k in t.rows ==> exists i :: 0 <= i < |t.keys| && t.keys[i] == k;
    ValuesOf(t.keys, t.rows)
  }

  lemma AllValues<V>(t: Table<V>, p: V -> bool)
    requires forall k :: k in t.rows ==> p(t.rows[k])
    ensures forall v :: v in Values(t) ==> p(v)
  {
    forall v | v in Values(t) ensures p(v) {
      var k :| k in t.rows && t.rows[k] == v;
    }
  }

  lemma KeyCount<V>(t: Table<V>)
    ensures |t.keys| == |t.rows|
  {
    DistinctCount(t.keys);
    assert (set k | k in t.keys) == t.rows.Keys;
  }

  lemma {:induction false} FilterValues<V>(keys: seq<Id>, rows: map<Id, V>, some: map<Id, V>, p: V -> bool)
    requires forall k :: k in keys ==> k in rows
    requires some == map k | k in rows && p(rows[k]) :: rows[k]
    ensures forall k :: k in Filter(keys, KeyTest(rows, p)) ==> k in some
    ensures ValuesOf(Filter(keys, KeyTest(rows, p)), some) == Filter(ValuesOf(keys, rows), p)
  {
    forall k ensures k in Filter(keys, KeyTest(rows, p)) ==> k in some {
      FilterIn(keys, KeyTest(rows, p), k);
    }
    if keys != [] {
      FilterValues(keys[1..], rows, some, p);
      var rest := Filter(keys[1..], KeyTest(rows, p));
      if p(rows[keys[0]]) {
        assert ([keys[0]] + rest)[1..] == rest;
      }
    }
  }

  lemma ValuesWhere<V>(t: Table<V>, p: V -> bool)
    ensures Values(Where(t, p)) == Filter(Values(t), p)
  {
    FilterValues(t.keys, t.rows, Where(t, p).rows, p);
  }

  lemma WhereRows<V>(t: Table<V>, k: Id, v: V, p: V -> bool)
    requires k in t.rows ==> p(v) == p(t.rows[k])
    ensures Where(Put(t, k, v), p).rows == if p(v) then Where(t, p).rows[k := v] else Where(t, p).rows
  {
  }

  /** A new row lands at the end when it passes the test and is invisible otherwise. */
  lemma WherePutNew<V>(t: Table<V>, k: Id, v: V, p: V -> bool)
    requires k !in t.rows
    ensures Where(Put(t, k, v), p) == if p(v) then Put(Where(t, p), k, v) else Where(t, p)
  {
    WhereRows(t, k, v, p);
    var before, after := KeyTest(t.rows, p), KeyTest(t.rows[k := v], p);
    assert Filter(t.keys + [k], after) == Filter(t.keys, before) + if p(v) then [k] else [] by {
      FilterConcat(t.keys, [k], after);
      FilterAgree(t.keys, after, before);
      assert Filter([k], after) == if p(v) then [k] else [];
    }
  }

  /** Replacing a row keeps its place and, when both versions agree on the test, its visibility. */
  lemma WherePutOld<V>(t: Table<V>, k: Id, v: V, p: V -> bool)
    requires k in t.rows && p(v) == p(t.rows[k])
    ensures Where(Put(t, k, v), p) == if p(v) then Put(Where(t, p), k, v) else Where(t, p)
  {
    WhereRows(t, k, v, p);
    var before, after := KeyTest(t.rows, p), KeyTest(t.rows[k := v], p);
    assert Filter(t.keys, after) == Filter(t.keys, before) by {
      FilterAgree(t.keys, after, before);
    }
  }
}
