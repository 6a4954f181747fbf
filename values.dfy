/**
 * The Ruby values the plugin passes around: configuration hashes with string
 * keys, whose values are strings, integers or `nil`, and the way ERB prints
 * them (`<%= v %>` is `v.to_s`).
 */
module Values {
  import Text

  datatype Option<+T> = None | Some(value: T)

  /** A configuration or credentials value as far as this plugin can tell them apart. */
  datatype Value = Nil | Str(s: string) | Int(i: int)

  /** A Ruby `Hash`; its insertion order plays no part in what the plugin produces. */
  type Hash = map<string, Value>

  /** `Hash#[]`: the value under `key`, or `nil` when the key is absent. */
  function Fetch(h: Hash, key: string): Value
  {
    if key in h then h[key] else Nil
  }

  /** `Object#to_s` as ERB's `<%= %>` applies it: `nil` prints as nothing. */
  function ToS(v: Value): string
  {
    match v
    case Nil => ""
    case Str(s) => s
    case Int(i) => Text.IntToString(i)
  }

  /** A printed integer determines the integer: `to_s` loses nothing. */
  lemma IntToSInjective(a: int, b: int)
    requires ToS(Int(a)) == ToS(Int(b))
    ensures a == b
  {
    Text.IntToStringRoundTrip(a);
    Text.IntToStringRoundTrip(b);
  }
}
