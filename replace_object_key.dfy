/** Renaming one key in every object of a list
    (src/utils/servicesUtils/replaceObjectKey.ts). */
module ReplaceObjectKey {
  import opened Wrappers
  import opened Json

  /** One object of the map: the value under `oldKey` moves to `newKey`;
      an object without `oldKey` is returned as it is. */
  function ReplaceKey(obj: Object, oldKey: string, newKey: string): (r: Object)
    ensures oldKey !in obj ==> r == obj
    ensures oldKey in obj ==>
              && newKey in r && r[newKey] == obj[oldKey]
              && (oldKey in r <==> oldKey == newKey)
              && r.Keys == obj.Keys - {oldKey} + {newKey}
              && forall k :: k in obj && k != oldKey && k != newKey ==> r[k] == obj[k]
  {
    if oldKey in obj then (obj - {oldKey})[newKey := obj[oldKey]] else obj
  }

  /** Renaming back undoes a renaming onto a key the object did not have. */
  lemma ReplaceKeyRoundTrip(obj: Object, oldKey: string, newKey: string)
    requires oldKey in obj && newKey !in obj
    ensures ReplaceKey(ReplaceKey(obj, oldKey, newKey), newKey, oldKey) == obj
  {
    var r := ReplaceKey(obj, oldKey, newKey);
    var back := ReplaceKey(r, newKey, oldKey);
    assert back.Keys == obj.Keys;
  }

  /** `replaceKeyInObjects`: `None` is a `null`, `undefined` or non-array
      input; it and an empty array give `[]`, and otherwise every object is
      renamed in order. */
  function ReplaceKeyInObjects(arr: Option<seq<Object>>, oldKey: string, newKey: string): (r: seq<Object>)
    ensures arr.None? ==> r == []
    ensures arr.Some? ==> |r| == |arr.value|
    ensures arr.Some? ==> forall i :: 0 <= i < |r| ==> r[i] == ReplaceKey(arr.value[i], oldKey, newKey)
  {
    if arr.None? || |arr.value| == 0 then []
    else seq(|arr.value|, i requires 0 <= i < |arr.value| => ReplaceKey(arr.value[i], oldKey, newKey))
  }

  /** Renaming a key onto itself changes no object. */
  lemma ReplaceSameKeyIsIdentity(arr: seq<Object>, key: string)
    ensures ReplaceKeyInObjects(Some(arr), key, key) == arr
  {
    var r := ReplaceKeyInObjects(Some(arr), key, key);
    forall i | 0 <= i < |arr| ensures r[i] == arr[i] {
      var obj := arr[i];
      if key in obj {
        assert ReplaceKey(obj, key, key).Keys == obj.Keys;
      }
    }
  }
}
