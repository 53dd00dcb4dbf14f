/**
 * The `newErrors` objects the form validators build: a map from the field a message
 * belongs to (the object's key) to the message.
 */
module ErrorMaps {

  /** `if (fails) newErrors[key] = message`: one rule of a validator. */
  function AddIf<K(!new)>(errors: map<K, string>, fails: bool, key: K, message: string): (r: map<K, string>)
    ensures key in r <==> fails || key in errors
    ensures fails ==> r[key] == message
    ensures !fails ==> r == errors
    ensures forall k :: k != key ==> (k in r <==> k in errors)
    ensures forall k :: k != key && k in errors ==> r[k] == errors[k]
  {
    if fails then errors[key := message] else errors
  }

  /** `Object.keys(m).length === 0` says the map is empty. */
  lemma EmptyMapSize<K>(m: map<K, string>)
    ensures |m| == 0 <==> m == map[]
  {
    if m != map[] {
      var k :| k in m;
      assert k in m.Keys;
    }
  }
}
