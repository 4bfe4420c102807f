/** The option checks `create` makes before building a handler
    (handler.js:12-23). */
module Options {
  import opened Wrappers
  import opened JsValues

  /** The options a handler keeps: the endpoint path and the PEM public key. */
  datatype Config = Config(path: string, publicKey: string)

  const NoOptions: string := "must provide an options object"
  const NoPath: string := "must provide a 'path' option"
  const NoPublicKey: string := "must provide a 'public_key' option"

  /** True when `options.name` is an own string property of a plain object. */
  predicate HasString(options: Value, name: string)
  {
    options.Object? && name in options.properties && options.properties[name].Str?
  }

  /** The checks of `create`, in their order: the options value itself, then
      `path`, then `public_key`. `typeof null` is "object", so `null` passes
      the first check and the read of `null.path` throws. */
  function CheckOptions(options: Value): (r: Result<Config, Thrown>)
    ensures r.Ok? <==> HasString(options, "path") && HasString(options, "public_key")
    ensures r.Ok? ==> r.value == Config(options.properties["path"].s, options.properties["public_key"].s)
    ensures !(options.Null? || options.Array? || options.Object?) ==> r == Err(TypeError(NoOptions))
    ensures options.Null? ==> r == Err(NullishPropertyRead("path"))
    ensures (options.Array? || options.Object?) && !HasString(options, "path") ==> r == Err(TypeError(NoPath))
    ensures HasString(options, "path") && !HasString(options, "public_key") ==> r == Err(TypeError(NoPublicKey))
  {
    if TypeOf(options) != "object" then Err(TypeError(NoOptions))
    else match GetProperty(options, "path")
      case Err(t) => Err(t)
      case Ok(path) =>
        if TypeOf(path) != "string" then Err(TypeError(NoPath))
        else match GetProperty(options, "public_key")
          case Err(t) => Err(t)
          case Ok(key) =>
            if TypeOf(key) != "string" then Err(TypeError(NoPublicKey))
            else Ok(Config(path.s, key.s))
  }

  /** The construction cases exercised by test.js:35-41. Without a public key
      the message names `public_key`, not `token`. */
  lemma CheckOptionsExamples()
    ensures CheckOptions(Undefined) == Err(TypeError(NoOptions))
    ensures CheckOptions(Object(map[])) == Err(TypeError(NoPath))
    ensures CheckOptions(Object(map["path" := Str("/")])) == Err(TypeError(NoPublicKey))
    ensures CheckOptions(Object(map["path" := Str("/"), "token" := Str("bogus")])) == Err(TypeError(NoPublicKey))
    ensures CheckOptions(Object(map["path" := Str("/"), "public_key" := Str("k")])) == Ok(Config("/", "k"))
  {
  }
}
