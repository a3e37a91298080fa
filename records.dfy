/**
 * A JavaScript plain object used as a dictionary (`Record<string, V>`): its
 * entries in insertion order. Assigning `obj[k] = v` replaces the value of an
 * existing key in place and appends a new key at the end; `Object.keys`,
 * `Object.entries` and lodash `keys` enumerate in that order.
 */
module Records {
  import opened Wrappers

  type Record<V> = seq<(string, V)>

  function Keys<V>(r: Record<V>): (ks: seq<string>)
    ensures |ks| == |r|
    ensures forall i :: 0 <= i < |r| ==> ks[i] == r[i].0
  {
    if r == [] then [] else [r[0].0] + Keys(r[1..])
  }

  /** No key is listed twice, as in any JavaScript object. */
  predicate DistinctKeys<V>(r: Record<V>) {
    forall i, j :: 0 <= i < j < |r| ==> r[i].0 != r[j].0
  }

  /** `obj[k]`: the value stored under k, or `undefined`. */
  function Get<V>(r: Record<V>, k: string): Option<V> {
    if r == [] then None
    else if r[0].0 == k then Some(r[0].1)
    else Get(r[1..], k)
  }

  /** `obj[k]` is defined exactly for the keys of the record. */
  lemma {:induction false} GetDefined<V>(r: Record<V>, k: string)
    ensures Get(r, k).Some? <==> k in Keys(r)
  {
    if r != [] {
      GetDefined(r[1..], k);
    }
  }

  /** Reading the key of entry i finds that entry or an earlier one with the same key. */
  lemma {:induction false} GetEntry<V>(r: Record<V>, i: nat)
    requires i < |r|
    ensures exists j :: 0 <= j <= i && r[j].0 == r[i].0 && Get(r, r[i].0) == Some(r[j].1)
  {
    if r[0].0 != r[i].0 {
      GetEntry(r[1..], i - 1);
      var j :| 0 <= j <= i - 1 && r[1..][j].0 == r[1..][i - 1].0 && Get(r[1..], r[i].0) == Some(r[1..][j].1);
      assert r[j + 1] == r[1..][j];
    }
  }

  /** `obj[k] = v`. */
  function Put<V>(r: Record<V>, k: string, v: V): Record<V> {
    if r == [] then [(k, v)]
    else if r[0].0 == k then [(k, v)] + r[1..]
    else [r[0]] + Put(r[1..], k, v)
  }

  /** After `obj[k] = v`, `obj[k]` is v and every other key reads as before. */
  lemma {:induction false} PutGet<V>(r: Record<V>, k: string, v: V, k': string)
    ensures Get(Put(r, k, v), k) == Some(v)
    ensures k' != k ==> Get(Put(r, k, v), k') == Get(r, k')
  {
    if r != [] && r[0].0 != k {
      PutGet(r[1..], k, v, k');
    }
  }

  /** A new key goes last and an existing key keeps its place. */
  lemma {:induction false} PutKeys<V>(r: Record<V>, k: string, v: V)
    ensures k in Keys(r) ==> Keys(Put(r, k, v)) == Keys(r)
    ensures k !in Keys(r) ==> Keys(Put(r, k, v)) == Keys(r) + [k]
  {
    if r != [] && r[0].0 != k {
      PutKeys(r[1..], k, v);
      assert Put(r, k, v)[1..] == Put(r[1..], k, v);
    }
  }

  /** Assignment never lists a key twice. */
  lemma PutDistinct<V>(r: Record<V>, k: string, v: V)
    requires DistinctKeys(r)
    ensures DistinctKeys(Put(r, k, v))
  {
    PutKeys(r, k, v);
    var p := Put(r, k, v);
    forall i, j | 0 <= i < j < |p| ensures p[i].0 != p[j].0 {
      assert Keys(p)[i] == p[i].0 && Keys(p)[j] == p[j].0;
      if k !in Keys(r) && j == |r| {
        assert Keys(r)[i] == r[i].0;
      } else {
        assert Keys(r)[i] == r[i].0 && Keys(r)[j] == r[j].0;
      }
    }
  }

  /** The record built by `keys.reduce((acc, key, i) => { acc[key] = vals[i]; return acc; }, {})`. */
  function Assign<V>(keys: seq<string>, vals: seq<V>): Record<V>
    requires |keys| == |vals|
  {
    if keys == [] then []
    else Put(Assign(keys[..|keys| - 1], vals[..|vals| - 1]), keys[|keys| - 1], vals[|vals| - 1])
  }

  /** The last position at which k occurs in keys. */
  function LastIndex(keys: seq<string>, k: string): (i: nat)
    requires k in keys
    ensures i < |keys| && keys[i] == k
    ensures forall j :: i < j < |keys| ==> keys[j] != k
  {
    if keys[|keys| - 1] == k then |keys| - 1 else LastIndex(keys[..|keys| - 1], k)
  }

  /** In the folded record each key holds the value of its LAST occurrence, only listed keys are
      present, and no key is listed twice. */
  lemma {:induction false} AssignSpec<V>(keys: seq<string>, vals: seq<V>, k: string)
    requires |keys| == |vals|
    ensures DistinctKeys(Assign(keys, vals))
    ensures k in keys ==> Get(Assign(keys, vals), k) == Some(vals[LastIndex(keys, k)])
    ensures k !in keys ==> Get(Assign(keys, vals), k) == None
  {
    if keys != [] {
      var ks, vs := keys[..|keys| - 1], vals[..|vals| - 1];
      AssignSpec(ks, vs, k);
      PutGet(Assign(ks, vs), keys[|keys| - 1], vals[|vals| - 1], k);
      PutDistinct(Assign(ks, vs), keys[|keys| - 1], vals[|vals| - 1]);
      if k in keys && keys[|keys| - 1] != k {
        assert k in ks;
      }
    }
  }

  /** The keys of the folded record are the distinct keys in order of first occurrence. */
  lemma {:induction false} AssignKeys<V>(keys: seq<string>, vals: seq<V>)
    requires |keys| == |vals|
    ensures forall k :: k in Keys(Assign(keys, vals)) <==> k in keys
  {
    if keys != [] {
      var ks, vs := keys[..|keys| - 1], vals[..|vals| - 1];
      AssignKeys(ks, vs);
      PutKeys(Assign(ks, vs), keys[|keys| - 1], vals[|vals| - 1]);
      assert keys == ks + [keys[|keys| - 1]];
    }
  }
}
