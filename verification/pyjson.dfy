/** The values the HTTP client hands to the commands (decoded JSON, that is
    Python's None, bool, int, str, list and dict) and the few pieces of
    Python semantics the commands rely on: truthiness, `d[key]`,
    `d[key] = v` and `for x in v`. */
module PyJson {
  import opened Wrappers

  datatype Json =
    | JNull
    | JBool(b: bool)
    | JInt(i: int)
    | JStr(s: string)
    | JList(items: seq<Json>)
    | JObject(fields: map<string, Json>)

  /** What a step can raise: the two built-in exceptions a subscript or an
      iteration raises on a value of the wrong shape, and an error reported
      by the remote service, passed on verbatim. */
  datatype Error =
    | KeyError(key: string)
    | TypeError
    | Remote(reason: string)

  /** Python's `bool(v)`. */
  predicate Truthy(v: Json) {
    match v
    case JNull => false
    case JBool(b) => b
    case JInt(i) => i != 0
    case JStr(s) => s != ""
    case JList(xs) => xs != []
    case JObject(m) => m != map[]
  }

  /** An optional command-line string, as argparse leaves it: `None` when the
      option is absent. `if opt:` holds exactly when it is present and
      non-empty. */
  predicate Supplied(o: Option<string>) {
    o.Some? && o.value != ""
  }

  /** The option's value as it is put into a keyword argument: `None` or the
      string itself. */
  function OptJson(o: Option<string>): Json {
    match o
    case None => JNull
    case Some(s) => JStr(s)
  }

  /** `v[key]` with a string key: only a dict can answer; a dict without the
      key raises KeyError, any other value raises TypeError. */
  function Subscript(v: Json, key: string): Result<Json, Error> {
    match v
    case JObject(m) => if key in m then Ok(m[key]) else Err(KeyError(key))
    case _ => Err(TypeError)
  }

  /** `v[key] = x` with a string key: only a dict supports it. */
  function Store(v: Json, key: string, x: Json): Result<Json, Error> {
    match v
    case JObject(m) => Ok(JObject(m[key := x]))
    case _ => Err(TypeError)
  }

  /** The elements `for x in v` visits. A list yields its items and a string
      its one-character strings; None, bools and ints are not iterable. A
      dict yields its keys, which are strings, and every loop in this model
      subscripts the first element with a string key, which raises TypeError
      on a string: so a non-empty dict is reported as TypeError here and an
      empty one as no elements. */
  function Iterate(v: Json): Result<seq<Json>, Error> {
    match v
    case JList(xs) => Ok(xs)
    case JStr(s) => Ok(seq(|s|, i requires 0 <= i < |s| => JStr([s[i]])))
    case JObject(m) => if m == map[] then Ok([]) else Err(TypeError)
    case _ => Err(TypeError)
  }
}
