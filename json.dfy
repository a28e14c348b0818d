/**
 * The JavaScript values the service handles: the scalar JSON values that
 * appear in record-store cells and request bodies, their truthiness, their
 * conversion inside a template literal, and plain objects read as their
 * list of entries.
 */
module Json {

  datatype Option<+T> = None | Some(value: T)

  /** A JSON scalar. Numbers are integers, taken exactly. JavaScript's
      doubles hold integers exactly up to magnitude 2^53, and in that range
      Dafny's `==` on these values coincides with strict equality `===`. */
  datatype Value = Null | Bool(b: bool) | Num(n: int) | Str(s: string)

  /** Any JSON value, for the parts of an answer that are passed on unread. */
  datatype Json = Scalar(v: Value) | Array(items: seq<Json>) | Object(members: seq<(string, Json)>)

  /** JavaScript truthiness: `null`, `false`, `0` and `""` are falsy. */
  predicate Truthy(v: Value)
  {
    match v
    case Null => false
    case Bool(b) => b
    case Num(n) => n != 0
    case Str(s) => s != ""
  }

  function DigitChar(d: nat): (c: char)
    requires d < 10
    ensures '0' <= c <= '9'
  {
    "0123456789"[d]
  }

  /** Decimal notation of a natural number, most significant digit first. */
  function Decimal(n: nat): (s: string)
    ensures |s| > 0
    ensures forall i :: 0 <= i < |s| ==> '0' <= s[i] <= '9'
    decreases n
  {
    if n < 10 then [DigitChar(n)] else Decimal(n / 10) + [DigitChar(n % 10)]
  }

  /** The text a value becomes when interpolated into a template literal.
      JavaScript writes integers in plain decimal below magnitude 10^21. */
  function Show(v: Value): string
  {
    match v
    case Null => "null"
    case Bool(b) => if b then "true" else "false"
    case Num(n) => if n < 0 then "-" + Decimal(-n) else Decimal(n)
    case Str(s) => s
  }

  /** A plain object as `Object.entries` lists it: key/value pairs in
      insertion order. */
  type Entries = seq<(string, Value)>

  /** The value an object holds under `key`; a later entry shadows an earlier one. */
  function Get(e: Entries, key: string): Option<Value>
    decreases |e|
  {
    if e == [] then None
    else if e[|e| - 1].0 == key then Some(e[|e| - 1].1)
    else Get(e[..|e| - 1], key)
  }

  /** Appending an entry sets its key and leaves every other key as it was. */
  lemma GetAppend(e: Entries, key: string, value: Value, other: string)
    ensures Get(e + [(key, value)], other) == if other == key then Some(value) else Get(e, other)
  {
    assert (e + [(key, value)])[..|e|] == e;
  }
}
