/**
 * JSON-like values as the builders produce them. A PHP array used as a
 * dictionary keeps its keys in insertion order, so an object is an ordered
 * sequence of (key, value) members rather than a Dafny `map`.
 */
module Json {

  datatype Option<+T> = None | Some(value: T)

  datatype Json =
    | JNull
    | JBool(truth: bool)
    | JStr(str: string)
    | JInt(num: int)
    | JArr(items: seq<Json>)
    | JObj(members: seq<(string, Json)>)

  /** A value PHP accepts for a parameter declared `array`: a list or a dictionary. */
  type PhpArray = j: Json | j.JArr? || j.JObj? witness JArr([])

  /** The keys of an ordered dictionary, in order. */
  function Keys<V>(ms: seq<(string, V)>): seq<string>
  {
    seq(|ms|, i requires 0 <= i < |ms| => ms[i].0)
  }

  /** A PHP array never holds the same key twice. */
  predicate DistinctKeys<V>(ms: seq<(string, V)>)
  {
    forall i, j :: 0 <= i < j < |ms| ==> ms[i].0 != ms[j].0
  }

  /** `$ms[$k]`: the value stored under `k`, if any. */
  function Find<V>(ms: seq<(string, V)>, k: string): Option<V>
  {
    if ms == [] then None
    else if ms[0].0 == k then Some(ms[0].1)
    else Find(ms[1..], k)
  }

  /** A key finds a value exactly when it is one of the keys. */
  lemma {:induction false} FindKeys<V>(ms: seq<(string, V)>, k: string)
    ensures Find(ms, k).None? <==> k !in Keys(ms)
  {
    if ms != [] {
      assert Keys(ms) == [ms[0].0] + Keys(ms[1..]);
      FindKeys(ms[1..], k);
    }
  }

  /**
   * `$ms[$k] = $v`: an existing key keeps its position and gets the new
   * value; a new key is appended at the end.
   */
  function Put<V>(ms: seq<(string, V)>, k: string, v: V): (r: seq<(string, V)>)
    ensures k !in Keys(ms) ==> r == ms + [(k, v)]
    ensures k in Keys(ms) ==> Keys(r) == Keys(ms)
  {
    if ms == [] then [(k, v)]
    else if ms[0].0 == k then
      assert Keys(ms)[0] == k;
      assert Keys([(k, v)] + ms[1..]) == Keys(ms);
      [(k, v)] + ms[1..]
    else
      var rest := Put(ms[1..], k, v);
      assert Keys(ms) == [ms[0].0] + Keys(ms[1..]);
      assert Keys([ms[0]] + rest) == [ms[0].0] + Keys(rest);
      [ms[0]] + rest
  }

  /** After `$ms[$k] = $v`, `k` holds `v` and every other key holds what it held before. */
  lemma {:induction false} FindPut<V>(ms: seq<(string, V)>, k: string, v: V, key: string)
    ensures Find(Put(ms, k, v), key) == if key == k then Some(v) else Find(ms, key)
  {
    if ms != [] && ms[0].0 != k {
      FindPut(ms[1..], k, v, key);
    }
  }

  /** `$j[$k]`: a member of an object; anything else has no members. */
  function Get(j: Json, k: string): Option<Json>
  {
    if j.JObj? then Find(j.members, k) else None
  }

  /** `$j[$p0][$p1]...`: follows a path of keys from `j`. */
  function At(j: Json, path: seq<string>): Option<Json>
    decreases |path|
  {
    if path == [] then Some(j)
    else
      match Get(j, path[0])
      case None => None
      case Some(child) => At(child, path[1..])
  }

  /** A PHP list of strings as JSON. */
  function Strings(ss: seq<string>): (r: seq<Json>)
    ensures |r| == |ss|
    ensures forall i :: 0 <= i < |ss| ==> r[i] == JStr(ss[i])
  {
    seq(|ss|, i requires 0 <= i < |ss| => JStr(ss[i]))
  }

  lemma {:induction false} FindAppend<V>(ms: seq<(string, V)>, k: string, v: V, key: string)
    ensures Find(ms + [(k, v)], key)
         == if key in Keys(ms) then Find(ms, key) else if key == k then Some(v) else None
  {
    FindKeys(ms, key);
    if ms != [] {
      assert (ms + [(k, v)])[1..] == ms[1..] + [(k, v)];
      assert Keys(ms) == [ms[0].0] + Keys(ms[1..]);
      if ms[0].0 != key {
        FindAppend(ms[1..], k, v, key);
      }
    }
  }

  /** In a dictionary with distinct keys, the i-th key finds the i-th value. */
  lemma {:induction false} FindAt<V>(ms: seq<(string, V)>, i: nat)
    requires DistinctKeys(ms)
    requires i < |ms|
    ensures Find(ms, ms[i].0) == Some(ms[i].1)
  {
    if i > 0 {
      assert ms[0].0 != ms[i].0;
      assert ms[1..][i - 1] == ms[i];
      FindAt(ms[1..], i - 1);
    }
  }

  /** Following `p + q` is following `p`, then `q` from where `p` ends. */
  lemma {:induction false} AtConcat(j: Json, p: seq<string>, q: seq<string>)
    ensures At(j, p + q) == match At(j, p) case None => None case Some(c) => At(c, q)
    decreases |p|
  {
    if p != [] {
      assert (p + q)[0] == p[0];
      assert (p + q)[1..] == p[1..] + q;
      match Get(j, p[0])
      case None =>
      case Some(child) => AtConcat(child, p[1..], q);
    } else {
      assert p + q == q;
    }
  }

  lemma KeysAppend<V>(ms: seq<(string, V)>, k: string, v: V)
    ensures Keys(ms + [(k, v)]) == Keys(ms) + [k]
  {
  }

  /** Dropping the last member keeps keys distinct, and the last key is not among the rest. */
  lemma DistinctInit<V>(ms: seq<(string, V)>)
    requires ms != []
    ensures DistinctKeys(ms) ==> DistinctKeys(ms[..|ms| - 1])
    ensures DistinctKeys(ms) ==> ms[|ms| - 1].0 !in Keys(ms[..|ms| - 1])
  {
  }
}
