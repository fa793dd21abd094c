/**
 * An abstract model of the org.json values the SDK builds: an object is a
 * string-keyed map, and `put(key, null)` removes the key.  Java `Double`
 * values are never computed with, only copied, so they are opaque tokens.
 */
module Json {
  import opened Wrappers

  /** An opaque Java `Double`: its bit pattern, never interpreted. */
  datatype Double = Double(bits: int)

  /** A `CurrencyType` constant, known only by its name. */
  datatype Currency = Currency(name: string)

  datatype JsonValue =
    | JString(str: string)
    | JNumber(num: Double)
    | JInt(n: int)
    | JArray(items: seq<JsonValue>)
    | JObject(fields: map<string, JsonValue>)
    | JCurrency(currency: Currency)   // an enum object stored as-is by `put`

  type Object = map<string, JsonValue>

  /** `JSONObject.put(key, value)`: a null value removes the key. */
  function Put(o: Object, key: string, value: Option<JsonValue>): (r: Object)
    ensures value.Some? ==> key in r && r[key] == value.value
    ensures value.None? ==> key !in r
    ensures forall k :: k != key ==> (k in r <==> k in o)
    ensures forall k :: k != key && k in o ==> r[k] == o[k]
  {
    match value
    case Some(v) => o[key := v]
    case None => o - {key}
  }

  /** The JSON array of the given strings, in order. */
  function Strings(ss: seq<string>): (a: seq<JsonValue>)
    ensures |a| == |ss|
    ensures forall i :: 0 <= i < |ss| ==> a[i] == JString(ss[i])
  {
    seq(|ss|, i requires 0 <= i < |ss| => JString(ss[i]))
  }

  /** A run of `put` calls, in order. */
  function PutAll(o: Object, entries: seq<(string, Option<JsonValue>)>): Object
    decreases |entries|
  {
    if |entries| == 0 then o else PutAll(Put(o, entries[0].0, entries[0].1), entries[1..])
  }

  /** No two entries share a key. */
  predicate DistinctKeys(entries: seq<(string, Option<JsonValue>)>) {
    forall i, j :: 0 <= i < j < |entries| ==> entries[i].0 != entries[j].0
  }

  /**
   * With distinct keys, after a run of `put` calls each key is present exactly
   * when its value is non-null, holding that value, and every other key is as
   * it was.
   */
  lemma {:induction false} PutAllDistinct(o: Object, entries: seq<(string, Option<JsonValue>)>)
    requires DistinctKeys(entries)
    ensures forall i :: 0 <= i < |entries| ==>
      (entries[i].0 in PutAll(o, entries) <==> entries[i].1.Some?)
    ensures forall i :: 0 <= i < |entries| && entries[i].1.Some? ==>
      PutAll(o, entries)[entries[i].0] == entries[i].1.value
    ensures forall k :: (forall i :: 0 <= i < |entries| ==> entries[i].0 != k) ==>
      (k in PutAll(o, entries) <==> k in o) && (k in o ==> PutAll(o, entries)[k] == o[k])
    decreases |entries|
  {
    if |entries| > 0 {
      var rest := entries[1..];
      var o1 := Put(o, entries[0].0, entries[0].1);
      assert DistinctKeys(rest) by {
        forall i, j | 0 <= i < j < |rest|
          ensures rest[i].0 != rest[j].0
        {
          assert rest[i] == entries[i + 1] && rest[j] == entries[j + 1];
        }
      }
      PutAllDistinct(o1, rest);
      forall i | 0 <= i < |entries|
        ensures entries[i].0 in PutAll(o, entries) <==> entries[i].1.Some?
        ensures entries[i].1.Some? ==> PutAll(o, entries)[entries[i].0] == entries[i].1.value
      {
        if i == 0 {
          assert forall j :: 0 <= j < |rest| ==> rest[j].0 != entries[0].0 by {
            forall j | 0 <= j < |rest|
              ensures rest[j].0 != entries[0].0
            {
              assert rest[j] == entries[j + 1];
            }
          }
        } else {
          assert entries[i] == rest[i - 1];
        }
      }
      forall k | forall i :: 0 <= i < |entries| ==> entries[i].0 != k
        ensures (k in PutAll(o, entries) <==> k in o) && (k in o ==> PutAll(o, entries)[k] == o[k])
      {
        assert entries[0].0 != k;
        assert forall j :: 0 <= j < |rest| ==> rest[j].0 != k by {
          forall j | 0 <= j < |rest|
            ensures rest[j].0 != k
          {
            assert rest[j] == entries[j + 1];
          }
        }
      }
    }
  }

  /** Two `put` calls on different keys commute; a second `put` on the same key wins. */
  lemma PutPut(o: Object, k1: string, v1: Option<JsonValue>, k2: string, v2: Option<JsonValue>)
    ensures k1 != k2 ==> Put(Put(o, k1, v1), k2, v2) == Put(Put(o, k2, v2), k1, v1)
    ensures k1 == k2 ==> Put(Put(o, k1, v1), k2, v2) == Put(o, k2, v2)
  {
    var a := Put(Put(o, k1, v1), k2, v2);
    if k1 != k2 {
      var b := Put(Put(o, k2, v2), k1, v1);
      assert a.Keys == b.Keys;
    } else {
      assert a.Keys == Put(o, k2, v2).Keys;
    }
  }

  /** A `put` on a key the rest of the run never touches can be done last instead of first. */
  lemma {:induction false} PutAllCommute(o: Object, k: string, v: Option<JsonValue>,
                                         rest: seq<(string, Option<JsonValue>)>)
    requires forall i :: 0 <= i < |rest| ==> rest[i].0 != k
    ensures PutAll(Put(o, k, v), rest) == Put(PutAll(o, rest), k, v)
    decreases |rest|
  {
    if |rest| > 0 {
      PutPut(o, k, v, rest[0].0, rest[0].1);
      assert forall i :: 0 <= i < |rest| - 1 ==> rest[1..][i] == rest[i + 1];
      PutAllCommute(Put(o, rest[0].0, rest[0].1), k, v, rest[1..]);
    }
  }

  /**
   * With distinct keys, changing the value of one entry in a run of `put`
   * calls is one more `put` of the new value at the end.
   */
  lemma {:induction false} PutAllUpdate(o: Object, entries: seq<(string, Option<JsonValue>)>, j: nat,
                                        v: Option<JsonValue>)
    requires DistinctKeys(entries)
    requires j < |entries|
    ensures PutAll(o, entries[j := (entries[j].0, v)]) == Put(PutAll(o, entries), entries[j].0, v)
    decreases |entries|
  {
    var k := entries[j].0;
    var rest := entries[1..];
    var changed := entries[j := (k, v)];
    assert forall i :: 0 <= i < |rest| ==> rest[i] == entries[i + 1];
    if j == 0 {
      assert changed[1..] == rest;
      PutAllCommute(o, k, v, rest);
      PutAllCommute(o, k, entries[0].1, rest);
      PutPut(PutAll(o, rest), k, entries[0].1, k, v);
    } else {
      assert DistinctKeys(rest);
      assert changed[1..] == rest[j - 1 := (k, v)];
      PutAllUpdate(Put(o, entries[0].0, entries[0].1), rest, j - 1, v);
    }
  }

  /** The keys a run of `put` calls names. */
  function EntryKeys(entries: seq<(string, Option<JsonValue>)>): set<string> {
    set i | 0 <= i < |entries| :: entries[i].0
  }

  /** A run of `put` calls adds no key it does not name. */
  lemma {:induction false} PutAllKeys(o: Object, entries: seq<(string, Option<JsonValue>)>)
    ensures PutAll(o, entries).Keys <= o.Keys + EntryKeys(entries)
    decreases |entries|
  {
    if |entries| > 0 {
      PutAllKeys(Put(o, entries[0].0, entries[0].1), entries[1..]);
      assert EntryKeys(entries[1..]) <= EntryKeys(entries) by {
        forall i | 0 <= i < |entries| - 1
          ensures entries[1..][i].0 in EntryKeys(entries)
        {
          assert entries[1..][i] == entries[i + 1];
        }
      }
      assert entries[0].0 in EntryKeys(entries);
    }
  }
}
