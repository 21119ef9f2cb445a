/** Python's insertion-ordered dict, as far as the reader uses it: literal
    construction, item assignment, lookup and `{k: v for k, v in d.items() if ...}`. */
module PyDict {
  import opened Wrappers

  /** The keys of `ks` whose values under `m` pass `f`, in the order of `ks`. */
  function KeysWhere<K(==,!new), V, W>(ks: seq<K>, m: map<K, V>, f: V -> Option<W>): (r: seq<K>)
    requires forall k :: k in ks ==> k in m
    ensures forall k :: k in r <==> k in ks && f(m[k]).Some?
    ensures (forall i, j :: 0 <= i < j < |ks| ==> ks[i] != ks[j])
            ==> (forall i, j :: 0 <= i < j < |r| ==> r[i] != r[j])
  {
    if ks == [] then []
    else
      var rest := KeysWhere(ks[1..], m, f);
      assert forall k :: k in ks[1..] ==> k in ks;
      if f(m[ks[0]]).Some? then [ks[0]] + rest else rest
  }

  /** `rank` increases along `ks`. */
  ghost predicate Ascending<K>(ks: seq<K>, rank: K -> int) {
    forall i, j :: 0 <= i < j < |ks| ==> rank(ks[i]) < rank(ks[j])
  }

  lemma {:induction false} AscendingTail<K>(ks: seq<K>, rank: K -> int)
    requires ks != [] && Ascending(ks, rank)
    ensures Ascending(ks[1..], rank)
    ensures forall k :: k in ks[1..] ==> rank(ks[0]) < rank(k)
  {
    var tail := ks[1..];
    forall i, j | 0 <= i < j < |tail|
      ensures rank(tail[i]) < rank(tail[j])
    {
      assert tail[i] == ks[i + 1] && tail[j] == ks[j + 1];
    }
    forall k | k in tail
      ensures rank(ks[0]) < rank(k)
    {
      var p :| 0 <= p < |tail| && tail[p] == k;
      assert tail[p] == ks[p + 1];
    }
  }

  lemma {:induction false} AscendingCons<K>(k: K, rest: seq<K>, rank: K -> int)
    requires Ascending(rest, rank)
    requires forall x :: x in rest ==> rank(k) < rank(x)
    ensures Ascending([k] + rest, rank)
  {
    var r := [k] + rest;
    forall i, j | 0 <= i < j < |r|
      ensures rank(r[i]) < rank(r[j])
    {
      assert r[j] == rest[j - 1];
      if i > 0 {
        assert r[i] == rest[i - 1];
      }
    }
  }

  /** `KeysWhere` keeps the order of `ks`: when `rank` increases along `ks`, it
      increases along the keys kept. */
  lemma {:induction false} KeysWhereOrdered<K(!new), V, W>(ks: seq<K>, m: map<K, V>, f: V -> Option<W>, rank: K -> int)
    requires forall k :: k in ks ==> k in m
    requires Ascending(ks, rank)
    ensures Ascending(KeysWhere(ks, m, f), rank)
  {
    if ks != [] {
      var tail := ks[1..];
      assert forall k :: k in tail ==> k in ks;
      AscendingTail(ks, rank);
      KeysWhereOrdered(tail, m, f, rank);
      var rest := KeysWhere(tail, m, f);
      if f(m[ks[0]]).Some? {
        AscendingCons(ks[0], rest, rank);
      }
    }
  }

  /** When `f` keeps exactly the first `n` keys of `ks`, `KeysWhere` is that prefix. */
  lemma {:induction false} KeysWherePrefix<K(!new), V, W>(ks: seq<K>, m: map<K, V>, f: V -> Option<W>, n: nat)
    requires n <= |ks|
    requires forall k :: k in ks ==> k in m
    requires forall i :: 0 <= i < |ks| ==> (f(m[ks[i]]).Some? <==> i < n)
    ensures KeysWhere(ks, m, f) == ks[..n]
  {
    if ks != [] {
      var tail := ks[1..];
      var n' := if n == 0 then 0 else n - 1;
      assert forall k :: k in tail ==> k in ks;
      forall i | 0 <= i < |tail|
        ensures f(m[tail[i]]).Some? <==> i < n'
      {
        assert tail[i] == ks[i + 1];
      }
      KeysWherePrefix(tail, m, f, n');
      if n == 0 {
        assert !f(m[ks[0]]).Some?;
      } else {
        assert f(m[ks[0]]).Some?;
        PrefixCons(ks, n);
      }
    }
  }

  lemma {:induction false} PrefixCons<K>(ks: seq<K>, n: nat)
    requires 1 <= n <= |ks|
    ensures ks[..n] == [ks[0]] + ks[1..][..n - 1]
  {
  }

  /** A dict: its keys in insertion order, and the value stored under each key. */
  datatype Dict<K(==,!new), V> = Dict(order: seq<K>, values: map<K, V>) {

    /** Every key is listed once, and exactly the stored keys are listed. */
    ghost predicate Valid() {
      && (forall i, j :: 0 <= i < j < |order| ==> order[i] != order[j])
      && (forall k :: k in values <==> k in order)
    }

    /** `d.get(k)`. */
    function Get(k: K): Option<V> {
      if k in values then Some(values[k]) else None
    }

    /** `d[k] = v`: a new key goes last; a key already present keeps its place. */
    function Set(k: K, v: V): (d': Dict<K, V>)
      requires Valid()
      ensures d'.Valid()
      ensures d'.values == values[k := v]
      ensures d'.order == if k in values then order else order + [k]
    {
      Dict(if k in values then order else order + [k], values[k := v])
    }

    /** `{k: f(v).value for k, v in d.items() if f(v) is not None}`: the entries `f`
        keeps, in their original order, with the values `f` gives them. */
    function FilterMap<W>(f: V -> Option<W>): (d': Dict<K, W>)
      requires Valid()
      ensures d'.Valid()
      ensures d'.order == KeysWhere(order, values, f)
      ensures forall k :: k in d'.values <==> k in values && f(values[k]).Some?
      ensures forall k :: k in d'.values ==> Some(d'.values[k]) == f(values[k])
    {
      Dict(KeysWhere(order, values, f), map k | k in values && f(values[k]).Some? :: f(values[k]).value)
    }
  }

  /** The dict literal `{k0: v, k1: v, ...}` over distinct keys. */
  function FromKeys<K(==,!new), V>(ks: seq<K>, v: V): (d: Dict<K, V>)
    requires forall i, j :: 0 <= i < j < |ks| ==> ks[i] != ks[j]
    ensures d.Valid() && d.order == ks
    ensures forall k :: k in d.values ==> d.values[k] == v
  {
    Dict(ks, map k | k in ks :: v)
  }

  /** Assigning the next key, one at a time, builds the literal over the keys so far. */
  lemma {:induction false} FromKeysNext<K(!new), V>(ks: seq<K>, v: V, n: nat)
    requires forall i, j :: 0 <= i < j < |ks| ==> ks[i] != ks[j]
    requires n < |ks|
    ensures FromKeys(ks[..n], v).Set(ks[n], v) == FromKeys(ks[..n + 1], v)
  {
    assert ks[n] !in ks[..n];
    assert ks[..n + 1] == ks[..n] + [ks[n]];
  }

  /** The distinct entries of `ks`, in the order of their first occurrence. */
  function Distinct<K(==,!new)>(ks: seq<K>): (r: seq<K>)
    ensures forall k :: k in r <==> k in ks
    ensures forall i, j :: 0 <= i < j < |r| ==> r[i] != r[j]
  {
    if ks == [] then []
    else
      var init := Distinct(ks[..|ks| - 1]);
      var k := ks[|ks| - 1];
      assert forall x :: x in ks <==> x in ks[..|ks| - 1] || x == k;
      if k in init then init else init + [k]
  }

  /** Keys listed once each are their own distinct keys. */
  lemma {:induction false} DistinctOfDistinct<K(!new)>(ks: seq<K>)
    requires forall i, j :: 0 <= i < j < |ks| ==> ks[i] != ks[j]
    ensures Distinct(ks) == ks
  {
    if ks != [] {
      var init := ks[..|ks| - 1];
      DistinctOfDistinct(init);
      assert ks[|ks| - 1] !in init;
      assert init + [ks[|ks| - 1]] == ks;
    }
  }

  /** The dict a loop `for k in ks: d[k] = read(k)` builds from `{}`: each key set to
      what reading it gives, or the first exception raised. */
  function Table<K(==,!new), V>(ks: seq<K>, read: K -> Result<V>): (r: Result<Dict<K, V>>)
    ensures r.Ok? ==> r.value.Valid()
  {
    if ks == [] then Ok(Dict([], map[]))
    else
      var table :- Table(ks[..|ks| - 1], read);
      var k := ks[|ks| - 1];
      var v :- read(k);
      Ok(table.Set(k, v))
  }

  lemma {:induction false} TableNext<K(!new), V>(ks: seq<K>, read: K -> Result<V>, n: nat)
    requires n < |ks|
    ensures Table(ks[..n + 1], read)
         == (var table :- Table(ks[..n], read); var v :- read(ks[n]); Ok(table.Set(ks[n], v)))
  {
    assert ks[..n + 1][..n] == ks[..n];
  }

  /** Once building the table has raised, the remaining keys change nothing. */
  lemma {:induction false} TableRaised<K(!new), V>(ks: seq<K>, read: K -> Result<V>, n: nat)
    requires n <= |ks| && Table(ks[..n], read).Raised?
    ensures Table(ks, read) == Table(ks[..n], read)
    decreases |ks|
  {
    if n == |ks| {
      assert ks[..n] == ks;
    } else {
      var init := ks[..|ks| - 1];
      assert init[..n] == ks[..n];
      TableRaised(init, read, n);
    }
  }

  /** The table is built exactly when every key can be read. */
  lemma {:induction false} TableOk<K(!new), V>(ks: seq<K>, read: K -> Result<V>)
    ensures Table(ks, read).Ok? <==> forall i :: 0 <= i < |ks| ==> read(ks[i]).Ok?
    decreases |ks|
  {
    if ks != [] {
      var init := ks[..|ks| - 1];
      TableOk(init, read);
      assert forall i :: 0 <= i < |init| ==> init[i] == ks[i];
    }
  }

  /** A built table has one entry per distinct key, in the order the keys first come,
      each holding what reading that key gives. */
  lemma {:induction false} TableKeys<K(!new), V>(ks: seq<K>, read: K -> Result<V>)
    requires Table(ks, read).Ok?
    ensures Table(ks, read).value.order == Distinct(ks)
    ensures forall k :: k in Table(ks, read).value.values ==> read(k) == Ok(Table(ks, read).value.values[k])
    decreases |ks|
  {
    if ks != [] {
      TableKeys(ks[..|ks| - 1], read);
    }
  }
}
