/**
 * The loosely typed value carried by XML-RPC requests and responses (BDE),
 * and the response shape the method layer produces.
 */
module Bde {
  import opened Wrappers

  /**
   * A struct is an association list in its iteration order; the source keeps
   * structs in an ordered map, so iteration is by ascending key.
   */
  datatype Value =
    | Null
    | Int(i: int)
    | Str(s: string)
    | List(items: seq<Value>)
    | Dict(entries: seq<(string, Value)>)

  /** The value stored under `key`: the first entry with that key. */
  function Lookup(entries: seq<(string, Value)>, key: string): (r: Option<Value>)
    ensures r.None? <==> forall k :: 0 <= k < |entries| ==> entries[k].0 != key
    ensures r.Some? ==> exists k :: 0 <= k < |entries| && entries[k] == (key, r.value)
                                   && forall j :: 0 <= j < k ==> entries[j].0 != key
  {
    if entries == [] then None
    else if entries[0].0 == key then Some(entries[0].1)
    else
      var r := Lookup(entries[1..], key);
      assert r.Some? ==> exists k :: 0 <= k < |entries| && entries[k] == (key, r.value)
                                     && forall j :: 0 <= j < k ==> entries[j].0 != key by {
        if r.Some? {
          var i :| 0 <= i < |entries[1..]| && entries[1..][i] == (key, r.value)
                   && forall j :: 0 <= j < i ==> entries[1..][j].0 != key;
          assert entries[i + 1] == (key, r.value);
          assert forall j :: 0 <= j < i + 1 ==> entries[j].0 != key by {
            forall j | 0 <= j < i + 1
              ensures entries[j].0 != key
            {
              if j > 0 {
                assert entries[j] == entries[1..][j - 1];
              }
            }
          }
        }
      }
      r
  }

  const FAULT_CODE := "faultCode"
  const FAULT_STRING := "faultString"

  /** The fault struct: `faultCode` 1 and a message. */
  function Fault(msg: string): Value {
    Dict([(FAULT_CODE, Int(1)), (FAULT_STRING, Str(msg))])
  }

  predicate IsFault(v: Value) {
    v.Dict? && Lookup(v.entries, FAULT_CODE) == Some(Int(1))
  }

  /** The message of a fault struct. */
  function FaultString(v: Value): Option<string> {
    if v.Dict? then
      match Lookup(v.entries, FAULT_STRING)
      case Some(Str(m)) => Some(m)
      case _ => None
    else None
  }

  /** A fault struct reads back as a fault carrying its message. */
  lemma FaultShape(msg: string)
    ensures IsFault(Fault(msg)) && FaultString(Fault(msg)) == Some(msg)
  {
    var es := Fault(msg).entries;
    assert FAULT_CODE[5] != FAULT_STRING[5];
    assert es[1..] == [(FAULT_STRING, Str(msg))];
    assert Lookup(es[1..], FAULT_STRING) == Some(Str(msg));
    assert Lookup(es, FAULT_STRING) == Some(Str(msg));
  }

  /** An XML-RPC response: code 0 with a payload, or code 1 with a fault struct. */
  datatype Response = Response(code: int, param: Value)

  function Success(v: Value): Response {
    Response(0, v)
  }

  function Failure(msg: string): Response {
    Response(1, Fault(msg))
  }
}
