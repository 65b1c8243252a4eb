/** Decoded JSON values as Python holds them after `json.loads`, and Python's truthiness of them. */
module JsonValues {
  import opened Dicts
  import opened Text
  import opened Options

  /** A JSON value; numbers are integers (fractional numbers are not modelled). */
  datatype Json =
    | JNull
    | JBool(b: bool)
    | JNum(n: int)
    | JStr(s: string)
    | JArr(items: seq<Json>)
    | JObj(fields: Dict<Json>)

  /** Python's `bool(v)`: None, False, 0 and empty strings, lists and dicts are false. */
  predicate Truthy(v: Json) {
    match v
    case JNull => false
    case JBool(b) => b
    case JNum(n) => n != 0
    case JStr(s) => s != ""
    case JArr(items) => |items| > 0
    case JObj(fields) => |fields| > 0
  }

  /**
   * Python's `str(v)` as used in an f-string. Scalars are spelled out; lists and dicts are printed
   * with `repr` of their elements, which is left to `showContainer`.
   */
  function PyStr(v: Json, showContainer: Json -> string): (r: string)
    ensures v.JStr? ==> r == v.s
  {
    match v
    case JNull => "None"
    case JBool(b) => if b then "True" else "False"
    case JNum(n) => Decimal(n)
    case JStr(s) => s
    case _ => showContainer(v)
  }

  /** A list of strings as a JSON array. */
  function StrArray(xs: seq<string>): (r: Json)
    ensures r.JArr? && |r.items| == |xs|
    ensures forall i :: 0 <= i < |xs| ==> r.items[i] == JStr(xs[i])
  {
    JArr(seq(|xs|, i requires 0 <= i < |xs| => JStr(xs[i])))
  }

  /** A dictionary of strings as a JSON object, keys and order kept. */
  function StrObject(d: Dict<string>): (r: Json)
    ensures r.JObj? && Keys(r.fields) == Keys(d)
    ensures forall i :: 0 <= i < |d| ==> r.fields[i].1 == JStr(d[i].1)
  {
    var f := seq(|d|, i requires 0 <= i < |d| => (d[i].0, JStr(d[i].1)));
    assert Keys(f) == Keys(d);
    JObj(f)
  }

  /** Python's `d.get(k, default)`. */
  function Field(d: Dict<Json>, k: string, default: Json): (r: Json)
    ensures k in Keys(d) ==> Get(d, k) == Some(r)
    ensures k !in Keys(d) ==> r == default
  {
    Get(d, k).GetOr(default)
  }

  /**
   * What a `for` loop over the value visits: the items of a list, the one-character strings of a
   * string, the keys of a dict; None for a value Python cannot iterate.
   */
  function Iter(v: Json): (r: Option<seq<Json>>)
    ensures r.Some? <==> v.JArr? || v.JStr? || v.JObj?
    ensures v.JArr? ==> r == Some(v.items)
    ensures r.Some? ==> (|r.value| == 0 <==> !Truthy(v))
  {
    match v
    case JArr(items) => Some(items)
    case JStr(s) => Some(seq(|s|, i requires 0 <= i < |s| => JStr([s[i]])))
    case JObj(fields) => Some(seq(|fields|, i requires 0 <= i < |fields| => JStr(fields[i].0)))
    case _ => None
  }

  /** The elements a slice `v[:n]` and `len(v)` work on: a list or a string; None for a value that cannot be sliced. */
  function Sliceable(v: Json): (r: Option<seq<Json>>)
    ensures r.Some? <==> v.JArr? || v.JStr?
    ensures r.Some? ==> r == Iter(v)
  {
    if v.JArr? || v.JStr? then Iter(v) else None
  }
}
