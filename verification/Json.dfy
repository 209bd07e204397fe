/** The part of a JSON object that the service looks at. Parsing and printing belong to a library
    and enter as a Codec. */
module Json {
  import opened Wrappers

  const INT64_MAX: int := 0x7fff_ffff_ffff_ffff
  const INT64_MIN: int := -0x8000_0000_0000_0000
  const INT32_MAX: int := 0x7fff_ffff
  const INT32_MIN: int := -0x8000_0000

  type Int32 = n: int | INT32_MIN <= n <= INT32_MAX

  predicate IsInt32(n: int) {
    INT32_MIN <= n <= INT32_MAX
  }

  type Int64 = n: int | INT64_MIN <= n <= INT64_MAX

  /** List is an array of strings. Other stands for null, other arrays, objects and floating-point
      numbers; nothing looks inside them, so they are only told apart. */
  datatype Value =
    | Number(n: Int64) | Text(s: string) | Boolean(b: bool) | List(items: seq<string>) | Other(which: nat)

  type Object = map<string, Value>

  datatype Codec = Codec(dump: Object -> string, parse: string -> Option<Object>)

  /** get<int> of a value, which truncates to 32 bits; None when it throws. */
  function AsInt(v: Value): Option<int> {
    match v
    case Number(n) => Some((n + 0x8000_0000) % 0x1_0000_0000 - 0x8000_0000)
    case Boolean(b) => Some(if b then 1 else 0)
    case _ => None
  }

  /** A number is read modulo 2^32, as the one signed 32-bit number in its class; a boolean as 0 or 1. */
  lemma AsIntExactly(v: Value, n: int)
    ensures AsInt(v) == Some(n) <==>
            (v.Number? && IsInt32(n) && (n - v.n) % 0x1_0000_0000 == 0) ||
            (v.Boolean? && n == if v.b then 1 else 0)
  {
  }

  /** The member is present and get<int> of it gives n. */
  predicate HasInt(js: Object, key: string, n: int) {
    key in js && AsInt(js[key]) == Some(n)
  }

  /** The member is present and a string. */
  predicate HasText(js: Object, key: string) {
    key in js && js[key].Text?
  }

  /** What is taken from the JSON library: printing is undone by parsing, and a compact dump is never
      empty, has no raw newline and does not end in a carriage return. */
  ghost predicate Faithful(k: Codec) {
    forall js: Object {:trigger k.dump(js)} ::
      k.parse(k.dump(js)) == Some(js) && k.dump(js) != "" && '\n' !in k.dump(js) &&
      k.dump(js)[|k.dump(js)| - 1] != '\r'
  }
}
