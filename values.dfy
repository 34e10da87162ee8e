/**
 JavaScript values as the proxy and the conversation manager see them: an
 optional value (a missing property or `null` is `None`), a JSON value as it
 arrives in a parsed request body, and the truthiness tests that the source's
 `if (!x)` guards and `x ? … : …` expressions perform.
 */
module Values {

  datatype Option<+T> = None | Some(value: T)

  /** A value decoded from a JSON request body. JSON has no NaN and no
      `undefined`, so a number is falsy exactly when it is zero. */
  datatype Json =
    | JNull
    | JBool(b: bool)
    | JNumber(n: real)
    | JString(s: string)
    | JArray(items: seq<Json>)
    | JObject(fields: seq<(string, Json)>)

  /** JavaScript truthiness of a possibly missing JSON value. */
  predicate Truthy(v: Option<Json>)
  {
    match v
    case None => false
    case Some(JNull) => false
    case Some(JBool(b)) => b
    case Some(JNumber(n)) => n != 0.0
    case Some(JString(s)) => s != ""
    case Some(JArray(_)) => true
    case Some(JObject(_)) => true
  }

  /** JavaScript truthiness of a possibly missing string: `!s` is false
      exactly when `s` is present and not the empty string. */
  predicate Present(s: Option<string>)
  {
    s.Some? && s.value != ""
  }

  /** The names an object literal inherits from `Object.prototype`. Looking
      one of them up on a plain object (`table[key]`) yields a truthy value
      that is not the object's own entry. */
  const ObjectPrototypeKeys: set<string> := {
    "constructor", "__proto__", "hasOwnProperty", "isPrototypeOf",
    "propertyIsEnumerable", "toLocaleString", "toString", "valueOf",
    "__defineGetter__", "__defineSetter__", "__lookupGetter__", "__lookupSetter__"
  }

  /** How `table[key] || table[fallbackKey]` resolves on an object literal
      `table`: an own entry, an inherited `Object.prototype` member (truthy,
      so the default is not taken), or nothing (the default is taken). */
  datatype Lookup<+T> = Own(entry: T) | Inherited | Missing

  function LookupOwn<T>(table: map<string, T>, key: string): (r: Lookup<T>)
    ensures r.Own? <==> key in table
    ensures r.Inherited? <==> key !in table && key in ObjectPrototypeKeys
    ensures r.Own? ==> r.entry == table[key]
  {
    if key in table then Own(table[key])
    else if key in ObjectPrototypeKeys then Inherited
    else Missing
  }
}
