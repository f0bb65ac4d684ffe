/**
  Plain JavaScript data as it flows through the wizard: what a YAML parse
  yields, what the form hands to its watch callback and what zod parses.
  `undefined` is not a value here: an absent object key stands for it.
  Numbers are exact rationals (IEEE-754 is not modelled).
 */
module Json {
  datatype Json =
    | JNull
    | JBool(b: bool)
    | JNum(num: real)
    | JStr(str: string)
    | JArr(items: seq<Json>)
    | JObj(fields: map<string, Json>)

  /** The own properties a JavaScript property read can see: none for a primitive or an array. */
  function Props(v: Json): map<string, Json> {
    if v.JObj? then v.fields else map[]
  }

  /** The object holding those own properties of `v` whose keys are in `keep`. */
  function Restrict(v: Json, keep: set<string>): (r: Json)
    ensures r.JObj? && r.fields.Keys == Props(v).Keys * keep
    ensures forall k :: k in r.fields ==> r.fields[k] == Props(v)[k]
  {
    JObj(map k | k in Props(v) && k in keep :: Props(v)[k])
  }

  /** JavaScript truthiness (NaN is not representable). */
  predicate Truthy(v: Json) {
    !(v == JNull || v == JBool(false) || v == JNum(0.0) || v == JStr(""))
  }
}

/** Behaviour supplied by the browser and by libraries, kept as parameters. */
module Runtime {
  import opened Json

  /**
    - isUrl: whether `new URL(s)` succeeds (WHATWG URL parsing), used by `z.string().url()`;
    - numberText: `Number.prototype.toString`;
    - yamlText: the text the `yaml` library renders for a value, before line endings are rewritten;
    - jsonText: `JSON.stringify`.
   */
  datatype Host = Host(
    isUrl: string -> bool,
    numberText: real -> string,
    yamlText: Json -> string,
    jsonText: Json -> string)
}
