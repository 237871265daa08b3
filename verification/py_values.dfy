/**
 Python values as the webhook handlers see them: what the collaborator
 services return and what ends up in a JSON response. Only the shapes the
 handlers inspect are distinguished; the decisions they make depend on
 Python truthiness and on dictionary lookups with a default.
 */
module PyValues {

  datatype PyValue =
    | PNone
    | PBool(b: bool)
    | PInt(i: int)
    | PStr(s: string)
    | PList(items: seq<PyValue>)
    | PDict(entries: map<string, PyValue>)

  /** A Python dict with string keys, such as a service's result record. */
  type Dict = map<string, PyValue>

  /** Python's `bool(v)`: None, False, zero and empty containers are false. */
  predicate Truthy(v: PyValue) {
    match v
    case PNone => false
    case PBool(b) => b
    case PInt(i) => i != 0
    case PStr(s) => |s| > 0
    case PList(items) => |items| > 0
    case PDict(entries) => |entries| > 0
  }

  /** The six falsy values, written out one by one. */
  const FalsyValues: set<PyValue> :=
    {PNone, PBool(false), PInt(0), PStr(""), PList([]), PDict(map[])}

  /** Python's `d.get(key, default)`. */
  function Get(d: Dict, key: string, default: PyValue): PyValue
  {
    if key in d then d[key] else default
  }

  /** Truthiness fails exactly on the six falsy values and on nothing else. */
  lemma FalsyIffListed(v: PyValue)
    ensures !Truthy(v) <==> v in FalsyValues
  {
    match v
    case PNone =>
    case PBool(b) =>
    case PInt(i) =>
    case PStr(s) =>
      if |s| == 0 { assert s == ""; }
    case PList(items) =>
      if |items| == 0 { assert items == []; }
    case PDict(entries) =>
      if |entries| == 0 { assert entries == map[]; }
  }
}
