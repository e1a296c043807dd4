/**
 * A Python `dict` with string keys, as the training service's `results` uses it: a
 * sequence of (key, value) pairs in insertion order.
 */
module OrderedDict {
  import opened Wrappers

  /** The keys, in insertion order. */
  function Keys<V>(d: seq<(string, V)>): (ks: seq<string>)
    ensures |ks| == |d| && forall i :: 0 <= i < |d| ==> ks[i] == d[i].0
  {
    if |d| == 0 then [] else [d[0].0] + Keys(d[1..])
  }

  /** `d.get(key)`: the value of the first pair with that key. */
  function Lookup<V>(d: seq<(string, V)>, key: string): (r: Option<V>)
    ensures r.None? <==> key !in Keys(d)
  {
    if |d| == 0 then None
    else if d[0].0 == key then Some(d[0].1)
    else
      assert Keys(d[1..]) == Keys(d)[1..];
      Lookup(d[1..], key)
  }

  lemma KeysCons<V>(x: (string, V), rest: seq<(string, V)>)
    ensures Keys([x] + rest) == [x.0] + Keys(rest)
  {
    assert ([x] + rest)[1..] == rest;
  }

  lemma LookupCons<V>(x: (string, V), rest: seq<(string, V)>, k: string)
    ensures Lookup([x] + rest, k) == if k == x.0 then Some(x.1) else Lookup(rest, k)
  {
    assert ([x] + rest)[1..] == rest;
  }

  /** `d[key] = value`: an existing key keeps its position, a new key goes last. */
  function Put<V>(d: seq<(string, V)>, key: string, value: V): (r: seq<(string, V)>)
    ensures forall k :: Lookup(r, k) == if k == key then Some(value) else Lookup(d, k)
    ensures key in Keys(d) ==> Keys(r) == Keys(d)
    ensures key !in Keys(d) ==> Keys(r) == Keys(d) + [key]
  {
    if |d| == 0 then
      assert forall k :: Lookup([(key, value)], k) == if k == key then Some(value) else None by {
        forall k ensures Lookup([(key, value)], k) == if k == key then Some(value) else None {
          LookupCons((key, value), [], k);
        }
      }
      KeysCons((key, value), []);
      [(key, value)]
    else if d[0].0 == key then
      var r := [(key, value)] + d[1..];
      assert d == [d[0]] + d[1..];
      assert forall k :: Lookup(r, k) == if k == key then Some(value) else Lookup(d, k) by {
        forall k ensures Lookup(r, k) == if k == key then Some(value) else Lookup(d, k) {
          LookupCons((key, value), d[1..], k);
          LookupCons(d[0], d[1..], k);
        }
      }
      KeysCons((key, value), d[1..]);
      KeysCons(d[0], d[1..]);
      r
    else
      var rest := Put(d[1..], key, value);
      assert d == [d[0]] + d[1..];
      assert forall k :: Lookup([d[0]] + rest, k) == if k == key then Some(value) else Lookup(d, k) by {
        forall k ensures Lookup([d[0]] + rest, k) == if k == key then Some(value) else Lookup(d, k) {
          LookupCons(d[0], rest, k);
          LookupCons(d[0], d[1..], k);
        }
      }
      KeysCons(d[0], rest);
      KeysCons(d[0], d[1..]);
      [d[0]] + rest
  }

  /** `if value: d[key] = value`: a missing value stores nothing. */
  function Stored<V>(d: seq<(string, V)>, key: string, v: Option<V>): (r: seq<(string, V)>)
    ensures forall k :: Lookup(r, k) == if k == key && v.Some? then v else Lookup(d, k)
  {
    match v
    case None => d
    case Some(x) => Put(d, key, x)
  }

  /** Each key occurs once. */
  predicate DistinctKeys<V>(d: seq<(string, V)>) {
    forall i, j :: 0 <= i < j < |d| ==> d[i].0 != d[j].0
  }

  /** Assignment keeps the keys distinct. */
  lemma PutDistinct<V>(d: seq<(string, V)>, key: string, value: V)
    requires DistinctKeys(d)
    ensures DistinctKeys(Put(d, key, value))
  {
    var r := Put(d, key, value);
    var kd, kr := Keys(d), Keys(r);
    forall i, j | 0 <= i < j < |r| ensures r[i].0 != r[j].0 {
      assert kr[i] == r[i].0 && kr[j] == r[j].0;
      if key in kd {
        assert kr == kd;
        assert d[i].0 == kd[i] && d[j].0 == kd[j];
      } else {
        assert kr == kd + [key];
        if j < |d| {
          assert d[i].0 == kd[i] && d[j].0 == kd[j];
        } else {
          assert kr[i] == kd[i];
        }
      }
    }
  }

  lemma StoredDistinct<V>(d: seq<(string, V)>, key: string, v: Option<V>)
    requires DistinctKeys(d)
    ensures DistinctKeys(Stored(d, key, v))
  {
    if v.Some? {
      PutDistinct(d, key, v.value);
    }
  }

  /** `for key in keys: if (v := value(key)): d[key] = v`, starting from an empty dict. */
  function StoredAll<V>(keys: seq<string>, value: string -> Option<V>): seq<(string, V)> {
    if |keys| == 0 then []
    else Stored(StoredAll(keys[..|keys| - 1], value), keys[|keys| - 1], value(keys[|keys| - 1]))
  }

  /**
   * After the loop, a key is present exactly when it was listed and had a value, holds
   * that value (a repeated key stores the same value again), and occurs once.
   */
  lemma {:induction false} StoredAllLookup<V>(keys: seq<string>, value: string -> Option<V>)
    ensures forall k :: Lookup(StoredAll(keys, value), k) == if k in keys then value(k) else None
    ensures DistinctKeys(StoredAll(keys, value))
  {
    if |keys| > 0 {
      var init, last := keys[..|keys| - 1], keys[|keys| - 1];
      StoredAllLookup(init, value);
      StoredDistinct(StoredAll(init, value), last, value(last));
      assert keys == init + [last];
      forall k ensures k in keys <==> k in init || k == last {
      }
    }
  }
}
