/**
 * Decoded JSON values, as `response.json()` hands them to the schema
 * validators. Objects are association lists in the order the keys appear.
 */
module JsonValues {
  import opened Wrappers

  datatype Json =
    | JNull
    | JBool(b: bool)
    | JNumber(n: int)
    | JString(s: string)
    | JArray(elems: seq<Json>)
    | JObject(fields: seq<(string, Json)>)

  type Fields = seq<(string, Json)>

  /** The kind of a value as a schema error reports it; KUndefined stands for a missing key. */
  datatype Kind = KUndefined | KNull | KBool | KNumber | KString | KArray | KObject

  function KindOf(j: Json): (k: Kind)
    ensures k != KUndefined
  {
    match j
    case JNull => KNull
    case JBool(_) => KBool
    case JNumber(_) => KNumber
    case JString(_) => KString
    case JArray(_) => KArray
    case JObject(_) => KObject
  }

  /** Does some entry of `fs` carry the key `key`? */
  ghost predicate HasKey(fs: Fields, key: string) {
    exists i :: 0 <= i < |fs| && fs[i].0 == key
  }

  /**
   * The value of `key` in a decoded object. JSON.parse keeps the last of
   * several entries with the same key, so the search runs from the end.
   */
  function Get(fs: Fields, key: string): Option<Json>
    decreases |fs|
  {
    if fs == [] then None
    else if fs[|fs| - 1].0 == key then Some(fs[|fs| - 1].1)
    else Get(fs[..|fs| - 1], key)
  }

  /** A key is found iff some entry carries it. */
  lemma {:induction false} GetFindsKey(fs: Fields, key: string)
    ensures Get(fs, key).None? <==> !HasKey(fs, key)
    decreases |fs|
  {
    if fs != [] && fs[|fs| - 1].0 != key {
      var init := fs[..|fs| - 1];
      GetFindsKey(init, key);
      if HasKey(fs, key) {
        var i :| 0 <= i < |fs| && fs[i].0 == key;
        assert init[i].0 == key;
      }
      if HasKey(init, key) {
        var i :| 0 <= i < |init| && init[i].0 == key;
        assert fs[i].0 == key;
      }
    }
  }

  /** What is found for a key is the value of the last entry carrying it. */
  lemma {:induction false} GetFindsLast(fs: Fields, key: string)
    requires Get(fs, key).Some?
    ensures exists i :: 0 <= i < |fs| && fs[i] == (key, Get(fs, key).value) &&
                        forall j :: i < j < |fs| ==> fs[j].0 != key
    decreases |fs|
  {
    if fs[|fs| - 1].0 != key {
      var init := fs[..|fs| - 1];
      GetFindsLast(init, key);
      var i :| 0 <= i < |init| && init[i] == (key, Get(init, key).value) &&
               forall j :: i < j < |init| ==> init[j].0 != key;
      assert fs[i] == init[i];
      assert forall j :: i < j < |fs| - 1 ==> fs[j] == init[j];
    } else {
      assert fs[|fs| - 1] == (key, Get(fs, key).value);
    }
  }

  /** Looking a key up in a concatenation: the right part wins. */
  lemma {:induction false} GetConcat(a: Fields, b: Fields, key: string)
    ensures Get(a + b, key) == if Get(b, key).Some? then Get(b, key) else Get(a, key)
    decreases |b|
  {
    if b == [] {
      assert a + b == a;
    } else {
      var b' := b[..|b| - 1];
      assert (a + b)[..|a + b| - 1] == a + b';
      assert b[..|b| - 1] == b';
      GetConcat(a, b', key);
    }
  }

  /** An entry for another key does not change a lookup. */
  lemma GetSkip(a: Fields, b: Fields, k: string, v: Json, key: string)
    requires k != key
    ensures Get(a + [(k, v)] + b, key) == Get(a + b, key)
  {
    GetConcat(a + [(k, v)], b, key);
    GetConcat(a, [(k, v)], key);
    GetConcat(a, b, key);
    assert Get([(k, v)], key) == Get([], key);
  }
}
