/**
 * JSON values as the client sends and receives them, and the ordered dictionary
 * that Python builds for a request body: a key that is already present is
 * updated where it stands, a new key is appended, so later assignments win
 * while the first-insertion order of keys is kept.
 */
module Json {
  import opened Wrappers

  datatype Value =
    | Null
    | Bool(b: bool)
    | Number(literal: string)
    | Str(s: string)
    | Array(items: seq<Value>)
    | Object(fields: seq<(string, Value)>)

  /** A Python `dict` from strings to JSON values, in insertion order. */
  type Dict = seq<(string, Value)>

  /** `list(d.keys())`. */
  function Keys(d: Dict): (ks: seq<string>)
    ensures |ks| == |d|
    ensures forall i :: 0 <= i < |d| ==> ks[i] == d[i].0
  {
    seq(|d|, i requires 0 <= i < |d| => d[i].0)
  }

  /** No key occurs twice, as in every Python dict. */
  predicate UniqueKeys(d: Dict)
  {
    var ks := Keys(d);
    forall i, j :: 0 <= i < j < |ks| ==> ks[i] != ks[j]
  }

  /** `d.get(k)`: the value stored under `k`, if any. */
  function Get(d: Dict, k: string): (r: Option<Value>)
    ensures r.None? <==> k !in Keys(d)
  {
    if d == [] then None
    else if d[0].0 == k then assert Keys(d)[0] == k; Some(d[0].1)
    else
      assert Keys(d) == [d[0].0] + Keys(d[1..]);
      Get(d[1..], k)
  }

  /** A value found under `k` is one stored under `k`. */
  lemma {:induction false} GetFound(d: Dict, k: string)
    ensures Get(d, k).Some? ==> (k, Get(d, k).value) in d
  {
    if d != [] && d[0].0 != k {
      GetFound(d[1..], k);
    }
  }

  /** `d[k] = v`: updates an existing key in place, appends a new one. */
  function Set(d: Dict, k: string, v: Value): (r: Dict)
    ensures |d| <= |r| <= |d| + 1
  {
    if d == [] then [(k, v)]
    else if d[0].0 == k then [(k, v)] + d[1..]
    else [d[0]] + Set(d[1..], k, v)
  }

  /** After `d[k] = v`, `k` maps to `v` and every other key to what it mapped to before. */
  lemma {:induction false} SetGet(d: Dict, k: string, v: Value, k': string)
    ensures Get(Set(d, k, v), k') == if k' == k then Some(v) else Get(d, k')
  {
    if d != [] && d[0].0 != k {
      SetGet(d[1..], k, v, k');
      assert ([d[0]] + Set(d[1..], k, v))[1..] == Set(d[1..], k, v);
    }
  }

  lemma KeysAppend(a: Dict, b: Dict)
    ensures Keys(a + b) == Keys(a) + Keys(b)
  {
  }

  /** Assigning keeps the key order: an existing key stays where it is, a new key goes last. */
  lemma {:induction false} SetKeys(d: Dict, k: string, v: Value)
    ensures Keys(Set(d, k, v)) == if k in Keys(d) then Keys(d) else Keys(d) + [k]
  {
    if d != [] && d[0].0 != k {
      var tail := Set(d[1..], k, v);
      SetKeys(d[1..], k, v);
      KeysCons(d[0], tail);
      KeysCons(d[0], d[1..]);
      assert d == [d[0]] + d[1..];
      assert k in Keys(d) <==> k in Keys(d[1..]);
    }
  }

  lemma SeqCons(d: Dict, x: (string, Value))
    requires d != []
    ensures [d[0]] + (d[1..] + [x]) == d + [x]
  {
    assert d == [d[0]] + d[1..];
  }

  lemma KeysCons(x: (string, Value), d: Dict)
    ensures Keys([x] + d) == [x.0] + Keys(d)
  {
  }

  /** Assigning a new key appends it. */
  lemma {:induction false} SetFresh(d: Dict, k: string, v: Value)
    requires k !in Keys(d)
    ensures Set(d, k, v) == d + [(k, v)]
  {
    if d != [] {
      assert Keys(d)[0] == d[0].0;
      assert k !in Keys(d[1..]) by {
        assert d == [d[0]] + d[1..];
        KeysCons(d[0], d[1..]);
      }
      SetFresh(d[1..], k, v);
      SeqCons(d, (k, v));
    }
  }

  /** Assigning into a dict keeps its keys distinct. */
  lemma SetUnique(d: Dict, k: string, v: Value)
    requires UniqueKeys(d)
    ensures UniqueKeys(Set(d, k, v))
  {
    SetKeys(d, k, v);
  }

  /**
   * `{**d, **e}`: the entries of `e` assigned into `d` one after another, in
   * order. `e` is itself a dict, so its keys are distinct.
   */
  function Spread(d: Dict, e: Dict): (r: Dict)
    requires UniqueKeys(e)
    ensures |d| <= |r| <= |d| + |e|
    decreases |e|
  {
    if e == [] then d
    else
      UniqueTail(e);
      Spread(Set(d, e[0].0, e[0].1), e[1..])
  }

  /** Later keys win: a key of `e` takes its value from `e`, any other key keeps its value in `d`. */
  lemma {:induction false} SpreadGet(d: Dict, e: Dict, k: string)
    requires UniqueKeys(e)
    ensures Get(Spread(d, e), k) == if k in Keys(e) then Get(e, k) else Get(d, k)
    decreases |e|
  {
    if e != [] {
      UniqueTail(e);
      SpreadGet(Set(d, e[0].0, e[0].1), e[1..], k);
      SetGet(d, e[0].0, e[0].1, k);
    }
  }

  lemma UniqueTail(e: Dict)
    requires UniqueKeys(e) && e != []
    ensures UniqueKeys(e[1..]) && e[0].0 !in Keys(e[1..])
    ensures Keys(e) == [e[0].0] + Keys(e[1..])
  {
    assert Keys(e) == [e[0].0] + Keys(e[1..]);
  }

  /** Spreading keeps the keys of `d` first and in order and adds exactly the keys of `e`. */
  lemma {:induction false} SpreadKeys(d: Dict, e: Dict)
    requires UniqueKeys(e)
    ensures Keys(d) <= Keys(Spread(d, e))
    ensures forall k :: k in Keys(Spread(d, e)) <==> k in Keys(d) || k in Keys(e)
    decreases |e|
  {
    if e != [] {
      var d' := Set(d, e[0].0, e[0].1);
      SetKeys(d, e[0].0, e[0].1);
      UniqueTail(e);
      SpreadKeys(d', e[1..]);
    }
  }

  /** Spreading a dict into a dict gives a dict. */
  lemma {:induction false} SpreadUnique(d: Dict, e: Dict)
    requires UniqueKeys(d) && UniqueKeys(e)
    ensures UniqueKeys(Spread(d, e))
    decreases |e|
  {
    if e != [] {
      SetUnique(d, e[0].0, e[0].1);
      UniqueTail(e);
      SpreadUnique(Set(d, e[0].0, e[0].1), e[1..]);
    }
  }

  lemma SeqSplit(d: Dict, e: Dict)
    requires e != []
    ensures (d + [e[0]]) + e[1..] == d + e
  {
    assert e == [e[0]] + e[1..];
  }

  /** When `d` and `e` share no key, spreading is concatenation. */
  lemma {:induction false} SpreadDisjoint(d: Dict, e: Dict)
    requires UniqueKeys(e)
    requires forall i, j :: 0 <= i < |d| && 0 <= j < |e| ==> d[i].0 != e[j].0
    ensures Spread(d, e) == d + e
    decreases |e|
  {
    if e != [] {
      UniqueTail(e);
      assert e[0].0 !in Keys(d);
      SetFresh(d, e[0].0, e[0].1);
      var d' := d + [e[0]];
      SpreadDisjoint(d', e[1..]);
      SeqSplit(d, e);
    }
  }
}
