/**
 * Python dictionaries as sequences of key/value pairs kept in insertion
 * order (the order `for k in d`, `d.items()` and JSON encoding observe).
 * Assigning to an existing key keeps its position; a new key is appended.
 */
module Dicts {
  import opened Outcomes

  type Dict<V> = seq<(string, V)>

  function Keys<V>(d: Dict<V>): (ks: seq<string>)
    ensures |ks| == |d|
    ensures forall i :: 0 <= i < |d| ==> ks[i] == d[i].0
  {
    if d == [] then [] else [d[0].0] + Keys(d[1..])
  }

  function Values<V>(d: Dict<V>): (vs: seq<V>)
    ensures |vs| == |d|
    ensures forall i :: 0 <= i < |d| ==> vs[i] == d[i].1
  {
    if d == [] then [] else [d[0].1] + Values(d[1..])
  }

  /** Keys are distinct, as in every Python dict. */
  predicate Valid<V>(d: Dict<V>) {
    forall i, j :: 0 <= i < j < |d| ==> d[i].0 != d[j].0
  }

  predicate HasKey<V>(d: Dict<V>, k: string) {
    k in Keys(d)
  }

  /** `d.get(k)`: the value stored under `k`, if any. */
  function Get<V>(d: Dict<V>, k: string): (r: Option<V>)
    ensures r.None? <==> !HasKey(d, k)
    ensures r.Some? ==> (k, r.value) in d
  {
    if d == [] then None
    else if d[0].0 == k then Some(d[0].1)
    else Get(d[1..], k)
  }

  /** `d[k] = v`. */
  function Put<V>(d: Dict<V>, k: string, v: V): (r: Dict<V>)
    ensures HasKey(d, k) ==> Keys(r) == Keys(d)
    ensures !HasKey(d, k) ==> Keys(r) == Keys(d) + [k]
  {
    if d == [] then [(k, v)]
    else if d[0].0 == k then [(k, v)] + d[1..]
    else [d[0]] + Put(d[1..], k, v)
  }

  lemma {:induction false} GetPut<V>(d: Dict<V>, k: string, v: V, k2: string)
    ensures Get(Put(d, k, v), k2) == if k2 == k then Some(v) else Get(d, k2)
  {
    if d != [] && d[0].0 != k {
      GetPut(d[1..], k, v, k2);
    }
  }

  lemma ValidPut<V>(d: Dict<V>, k: string, v: V)
    requires Valid(d)
    ensures Valid(Put(d, k, v))
  {
    var r := Put(d, k, v);
    var ks := Keys(r);
    assert forall i, j :: 0 <= i < j < |r| ==> ks[i] == r[i].0 && ks[j] == r[j].0;
    if HasKey(d, k) {
      assert Keys(r) == Keys(d);
    } else {
      assert Keys(r) == Keys(d) + [k];
    }
  }

  /** `dict(pairs)`: later pairs overwrite earlier ones, first positions are kept. */
  function FromPairs<V>(ps: seq<(string, V)>): (r: Dict<V>)
    ensures Valid(r)
  {
    if ps == [] then []
    else
      var prev := FromPairs(ps[..|ps| - 1]);
      ValidPut(prev, ps[|ps| - 1].0, ps[|ps| - 1].1);
      Put(prev, ps[|ps| - 1].0, ps[|ps| - 1].1)
  }

  /** `{k: v for k, v in d.items() if k in keep}`. */
  function Restrict<V>(d: Dict<V>, keep: seq<string>): (r: Dict<V>)
    ensures |r| <= |d|
  {
    if d == [] then []
    else if d[0].0 in keep then
      var rest := Restrict(d[1..], keep);
      [d[0]] + rest
    else Restrict(d[1..], keep)
  }

  /** The restriction keeps exactly the entries whose key is kept. */
  lemma {:induction false} RestrictGet<V>(d: Dict<V>, keep: seq<string>, k: string)
    ensures Get(Restrict(d, keep), k) == if k in keep then Get(d, k) else None
  {
    if d != [] {
      RestrictGet(d[1..], keep, k);
    }
  }

  /** A new key is appended at the end. */
  lemma {:induction false} PutAbsent<V>(d: Dict<V>, k: string, v: V)
    requires !HasKey(d, k)
    ensures Put(d, k, v) == d + [(k, v)]
  {
    if d != [] {
      assert Keys(d) == [d[0].0] + Keys(d[1..]);
      PutAbsent(d[1..], k, v);
    }
  }

  /** The value the last pair with key `k` carries. */
  function LastValue<V>(ps: seq<(string, V)>, k: string): Option<V> {
    if ps == [] then None
    else if ps[|ps| - 1].0 == k then Some(ps[|ps| - 1].1)
    else LastValue(ps[..|ps| - 1], k)
  }

  /** In `dict(pairs)` the last pair for a key wins. */
  lemma {:induction false} GetFromPairs<V>(ps: seq<(string, V)>, k: string)
    ensures Get(FromPairs(ps), k) == LastValue(ps, k)
  {
    if ps != [] {
      GetFromPairs(ps[..|ps| - 1], k);
      GetPut(FromPairs(ps[..|ps| - 1]), ps[|ps| - 1].0, ps[|ps| - 1].1, k);
    }
  }

  /** `dict(pairs)` of pairs with distinct keys is those pairs, in order. */
  lemma {:induction false} FromPairsDistinct<V>(ps: seq<(string, V)>)
    requires Valid(ps)
    ensures FromPairs(ps) == ps
  {
    if ps != [] {
      var init := ps[..|ps| - 1];
      FromPairsDistinct(init);
      var k := ps[|ps| - 1].0;
      LastKeyFresh(ps);
      PutAbsent(init, k, ps[|ps| - 1].1);
      InitLast(ps);
    }
  }

  /** In a dict with distinct keys, the last key is not among the earlier ones. */
  lemma LastKeyFresh<V>(d: Dict<V>)
    requires Valid(d) && d != []
    ensures Valid(d[..|d| - 1]) && !HasKey(d[..|d| - 1], d[|d| - 1].0)
  {
    var init := d[..|d| - 1];
    forall i | 0 <= i < |init|
      ensures Keys(init)[i] != d[|d| - 1].0
    {
      assert init[i] == d[i];
    }
  }

  /** Looking a key up in a dict with one more pair at the end. */
  lemma {:induction false} GetSnoc<V>(d: Dict<V>, k: string, v: V, k2: string)
    ensures Get(d + [(k, v)], k2) == if HasKey(d, k2) then Get(d, k2) else if k2 == k then Some(v) else None
  {
    if d != [] {
      assert (d + [(k, v)])[1..] == d[1..] + [(k, v)];
      assert Keys(d) == [d[0].0] + Keys(d[1..]);
      GetSnoc(d[1..], k, v, k2);
    }
  }

  /** Every pair of a dict is found by its key. */
  lemma GetUnique<V>(d: Dict<V>, k: string, v: V)
    requires Valid(d) && (k, v) in d
    ensures Get(d, k) == Some(v)
  {
    var i :| 0 <= i < |d| && d[i] == (k, v);
    GetAt(d, i);
  }

  lemma {:induction false} GetAt<V>(d: Dict<V>, i: nat)
    requires Valid(d) && i < |d|
    ensures Get(d, d[i].0) == Some(d[i].1)
  {
    if i > 0 {
      assert d[1..][i - 1] == d[i];
      GetAt(d[1..], i - 1);
    }
  }

  /** `GetPut` for every key at once. */
  lemma GetPutEvery<V>(d: Dict<V>, k: string, v: V)
    ensures forall k2 :: Get(Put(d, k, v), k2) == if k2 == k then Some(v) else Get(d, k2)
  {
    forall k2 {
      GetPut(d, k, v, k2);
    }
  }

  lemma PairKey<V>(d: Dict<V>, e: (string, V))
    requires e in d
    ensures HasKey(d, e.0)
  {
    var i :| 0 <= i < |d| && d[i] == e;
    assert Keys(d)[i] == e.0;
  }
}
