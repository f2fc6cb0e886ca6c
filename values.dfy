/** Python runtime notions shared by the API server and the demo tool server:
    the values that flow through a request, the exceptions a call can raise,
    and the outcome of a call that either returns or raises. */
module Values {

  datatype Option<+T> = None | Some(value: T)

  /** A Python value, as far as this model looks into it. Dictionaries keep
      their insertion order and are written with distinct keys. */
  datatype Value =
    | Str(s: string)
    | Dict(entries: seq<(string, Value)>)
    | Opaque(token: nat)  // any other value; passed through, never inspected

  /** A raised exception, grouped by the `except` clause that catches it:
      an instance of ValueError (or a subclass), else of ConnectionError (or
      a subclass), else any other Exception. `msg` is what `str(e)` yields. */
  datatype Exception =
    | ValueError(msg: string)
    | ConnectionError(msg: string)
    | OtherException(msg: string)

  /** What a call did: returned a value or raised an exception. */
  datatype Outcome<+T> = Returned(value: T) | Raised(error: Exception)

  /** `d[key]` on a dictionary given by its entries: the value stored under the
      first entry with that key, or None when the key is absent. */
  function Lookup(entries: seq<(string, Value)>, key: string): (r: Option<Value>)
    ensures r.None? <==> forall i :: 0 <= i < |entries| ==> entries[i].0 != key
    ensures r.Some? ==> exists i :: 0 <= i < |entries| && entries[i] == (key, r.value) &&
                                    forall j :: 0 <= j < i ==> entries[j].0 != key
  {
    if entries == [] then None
    else if entries[0].0 == key then Some(entries[0].1)
    else
      var r := Lookup(entries[1..], key);
      assert r.Some? ==> exists i :: 1 <= i < |entries| && entries[i] == (key, r.value) &&
                                     forall j :: 0 <= j < i ==> entries[j].0 != key by {
        if r.Some? {
          var i :| 0 <= i < |entries[1..]| && entries[1..][i] == (key, r.value) &&
                   forall j :: 0 <= j < i ==> entries[1..][j].0 != key;
          assert entries[i + 1] == (key, r.value);
          assert forall j :: 1 <= j < i + 1 ==> entries[j] == entries[1..][j - 1];
        }
      }
      r
  }

  /** `str(x)` applied to the outcome of a call: a returned string becomes a
      string value, an exception passes through unchanged. */
  function AsStr(call: Outcome<string>): Outcome<Value>
  {
    match call
    case Returned(s) => Returned(Str(s))
    case Raised(e) => Raised(e)
  }
}
