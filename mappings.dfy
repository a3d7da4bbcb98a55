/** RandomDict and SomethingElse (datatypes.py:88-99): two dictionaries whose reads
    are not ordinary. Writes are the plain dictionary writes; only the reads are
    overridden. */
module Mappings {
  import opened Results

  /** The bound of the random draw a RandomDict read makes. */
  const EIGHT: nat := 8

  /** `RandomDict[key]`, given the draw `randrange(8)` made for this read: draw 0
      yields None without looking at the data; any other draw is a plain lookup,
      which raises a KeyError when the key is absent. */
  function RandomDictGet<K(==), V>(data: map<K, V>, key: K, draw: int): (r: Result<Option<V>>)
    requires 0 <= draw < EIGHT
    ensures draw == 0 ==> r == Ok(None)
    ensures draw != 0 ==> (r.Ok? <==> key in data)
    ensures draw != 0 && key in data ==> r == Ok(Some(data[key]))
    ensures r.Err? ==> r.error == KeyMissing
  {
    if draw != 0 then
      if key in data then Ok(Some(data[key])) else Err(KeyMissing)
    else Ok(None)
  }

  /** Of the eight equally likely draws, seven give the stored value and one gives
      None; for an absent key, seven raise and one gives None. */
  lemma SevenDrawsInEight<K, V>(data: map<K, V>, key: K)
    ensures key in data ==>
      |set d | 0 <= d < EIGHT && RandomDictGet(data, key, d) == Ok(Some(data[key]))| == 7
    ensures |set d | 0 <= d < EIGHT && RandomDictGet(data, key, d) == Ok(None)| == 1
    ensures key !in data ==>
      |set d | 0 <= d < EIGHT && RandomDictGet(data, key, d) == Err(KeyMissing)| == 7
  {
    var nones := set d | 0 <= d < EIGHT && RandomDictGet(data, key, d) == Ok(None);
    assert nones == {0};
    if key in data {
      var hits := set d | 0 <= d < EIGHT && RandomDictGet(data, key, d) == Ok(Some(data[key]));
      assert hits == {1, 2, 3, 4, 5, 6, 7};
    } else {
      var misses := set d | 0 <= d < EIGHT && RandomDictGet(data, key, d) == Err(KeyMissing);
      assert misses == {1, 2, 3, 4, 5, 6, 7};
    }
  }

  const TOO_FEW_ENTRIES: string := "SomethingElse needs at least two entries"

  /** A dictionary with its keys in insertion order. */
  datatype OrderedDict<K, V> = OrderedDict(keys: seq<K>, values: map<K, V>) {
    /** The order lists each key of the dictionary exactly once. */
    ghost predicate Valid() {
      (forall i, j :: 0 <= i < j < |keys| ==> keys[i] != keys[j])
      && (forall i :: 0 <= i < |keys| ==> keys[i] in values)
      && (forall k :: k in values ==> k in keys)
    }
  }

  function EmptyDict<K, V>(): (d: OrderedDict<K, V>)
    ensures d.Valid() && d.keys == []
  {
    OrderedDict([], map[])
  }

  /** `d[k] = v`: a new key goes to the end of the order; an existing key keeps its place. */
  function Put<K(==), V>(d: OrderedDict<K, V>, k: K, v: V): (r: OrderedDict<K, V>)
    requires d.Valid()
    ensures r.Valid()
    ensures r.values == d.values[k := v]
    ensures r.keys == if k in d.values then d.keys else d.keys + [k]
  {
    if k in d.values then OrderedDict(d.keys, d.values[k := v])
    else OrderedDict(d.keys + [k], d.values[k := v])
  }

  /** The order with `k` taken out, everything else kept in place. */
  function Without<K(==)>(s: seq<K>, k: K): (r: seq<K>)
    ensures forall i :: 0 <= i < |r| ==> r[i] in s && r[i] != k
    ensures forall i :: 0 <= i < |s| && s[i] != k ==> s[i] in r
    ensures (forall i, j :: 0 <= i < j < |s| ==> s[i] != s[j]) ==>
      (forall i, j :: 0 <= i < j < |r| ==> r[i] != r[j])
    ensures k !in s ==> r == s
  {
    if s == [] then []
    else if s[0] == k then Without(s[1..], k)
    else [s[0]] + Without(s[1..], k)
  }

  /** `del d[k]`: a KeyError when `k` is absent. */
  function Remove<K(==), V>(d: OrderedDict<K, V>, k: K): (r: Result<OrderedDict<K, V>>)
    requires d.Valid()
    ensures r.Ok? <==> k in d.values
    ensures r.Ok? ==> r.value.Valid() && r.value.values == d.values - {k}
    ensures r.Ok? && d.keys[0] == k ==> r.value.keys == d.keys[1..]
    ensures r.Err? ==> r.error == KeyMissing
  {
    if k in d.values then
      assert d.keys[0] == k ==> k !in d.keys[1..];
      Ok(OrderedDict(Without(d.keys, k), d.values - {k}))
    else Err(KeyMissing)
  }

  /** `SomethingElse[item]`: with `a` and `b` the first two keys in the current
      order, reading `a` gives the value of `b`, and reading anything else (`b`, or
      a key that is absent) gives the value of `a`; fewer than two keys is a
      ValueError. */
  function SomethingElseGet<K(==), V>(d: OrderedDict<K, V>, item: K): (r: Result<V>)
    requires d.Valid()
    ensures r.Err? <==> |d.keys| < 2
    ensures r.Err? ==> r.error == TooFewEntries(TOO_FEW_ENTRIES)
    ensures r.Ok? && item == d.keys[0] ==> r.value == d.values[d.keys[1]]
    ensures r.Ok? && item != d.keys[0] ==> r.value == d.values[d.keys[0]]
  {
    if |d.keys| < 2 then Err(TooFewEntries(TOO_FEW_ENTRIES))
    else
      var a, b := d.keys[0], d.keys[1];
      if a != item then Ok(d.values[a]) else Ok(d.values[b])
  }

  /** Inserting `a`, `b`, `c` in that order: `a` reads the value of `b`, while `b`,
      `c` and any absent key read the value of `a`; after no insertion or only
      one, every read raises. */
  lemma ThreeInsertions<K, V>(a: K, b: K, c: K, x: K, va: V, vb: V, vc: V)
    requires a != b && b != c && a != c
    requires x != a && x != b && x != c
    ensures var d1 := Put(EmptyDict(), a, va);
      var d3 := Put(Put(d1, b, vb), c, vc);
      SomethingElseGet(EmptyDict<K, V>(), a) == Err(TooFewEntries(TOO_FEW_ENTRIES))
      && SomethingElseGet(d1, a) == Err(TooFewEntries(TOO_FEW_ENTRIES))
      && SomethingElseGet(d1, x) == Err(TooFewEntries(TOO_FEW_ENTRIES))
      && SomethingElseGet(d3, a) == Ok(vb)
      && SomethingElseGet(d3, b) == Ok(va)
      && SomethingElseGet(d3, c) == Ok(va)
      && SomethingElseGet(d3, x) == Ok(va)
  {
    var d1 := Put(EmptyDict(), a, va);
    var d2 := Put(d1, b, vb);
    var d3 := Put(d2, c, vc);
    assert d3.keys == [a, b, c];
  }

  /** The roles are worked out on every read: once the first key is deleted, the
      old second key becomes the first and now reads the value of the old third. */
  lemma RolesFollowRemoval<K, V>(d: OrderedDict<K, V>)
    requires d.Valid() && |d.keys| >= 3
    ensures Remove(d, d.keys[0]).Ok?
    ensures var e := Remove(d, d.keys[0]).value;
      SomethingElseGet(e, d.keys[1]) == Ok(d.values[d.keys[2]])
      && SomethingElseGet(e, d.keys[0]) == Ok(d.values[d.keys[1]])
  {
    var e := Remove(d, d.keys[0]).value;
    assert e.keys[0] == d.keys[1] && e.keys[1] == d.keys[2];
  }
}
