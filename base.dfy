/**
 * Values shared by every part of the Cyphon model: Python's `None`, the
 * JSON documents that flow through the sifting pipeline, and the names of
 * the collaborators (data sieves, dictionary lookups) whose own code is not
 * part of this model and therefore enters as function-typed parameters.
 */
module Base {

  /** Python's optional value: `None` or a present value. */
  datatype Option<T> = None | Some(value: T)

  /** A decoded JSON value (floating point numbers are not modelled). */
  datatype Json =
    | JNull
    | JBool(b: bool)
    | JInt(i: int)
    | JStr(s: string)
    | JList(items: seq<Json>)
    | JObject(fields: map<string, Json>)

  /** A document: a JSON object, i.e. a Python dict with string keys. */
  type Doc = map<string, Json>

  /** `dict.get(key)`: the value stored under `key`, or `None`. */
  function Get(d: Doc, key: string): (r: Option<Json>)
    ensures r.Some? <==> key in d
    ensures r.Some? ==> r.value == d[key]
  {
    if key in d then Some(d[key]) else None
  }

  /** A DataSieve, identified by its (unique) name. */
  datatype Sieve = Sieve(name: string)

  /** `DataSieve.is_match(data)`; the sieve's rule engine is not part of this model. */
  type SieveMatch = (Sieve, Doc) -> bool

  /** `get_dict_value(field_name, data)`: the value at a dotted field path, or `None`. */
  type DictLookup = (string, Doc) -> Option<Json>

  /** Number of elements of `s` that satisfy `p`. */
  function CountIf<T>(s: seq<T>, p: T -> bool): (n: nat)
    ensures n <= |s|
  {
    if s == [] then 0 else CountIf(s[..|s| - 1], p) + (if p(s[|s| - 1]) then 1 else 0)
  }
}
