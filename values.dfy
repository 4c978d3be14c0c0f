/** The dynamically typed values that flow through cache entries, job data,
    parsed arguments and option documents, with Python's truth test. */
module Values {

  datatype Value =
    | VNone
    | VBool(b: bool)
    | VInt(i: int)
    | VStr(s: string)
    | VList(items: seq<Value>)
    | VDict(entries: map<string, Value>)

  /** Python's `bool(v)`: None, False, 0 and empty containers are false. */
  predicate Truthy(v: Value) {
    match v
    case VNone => false
    case VBool(b) => b
    case VInt(i) => i != 0
    case VStr(s) => s != ""
    case VList(items) => items != []
    case VDict(entries) => entries != map[]
  }

  /** `d.get(k)` / `d.pop(k, None)`: the stored value, or None when absent. */
  function Lookup(d: map<string, Value>, k: string): (v: Value)
    ensures k !in d ==> v == VNone
    ensures k in d ==> v == d[k]
  {
    if k in d then d[k] else VNone
  }

  /** A list of strings as a Value. */
  function StrList(ss: seq<string>): (v: Value)
    ensures v.VList? && |v.items| == |ss|
    ensures forall i :: 0 <= i < |ss| ==> v.items[i] == VStr(ss[i])
  {
    VList(seq(|ss|, i requires 0 <= i < |ss| => VStr(ss[i])))
  }
}
