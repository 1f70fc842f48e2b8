/** Values, records and the two wrapper types shared by the server and the dashboard. */
module Json {

  datatype Option<+T> = None | Some(value: T)

  datatype Result<+T, +E> = Ok(value: T) | Err(error: E)

  /** A paging result with elements already accumulated in front of it. */
  function Prefixed<T, E>(prefix: seq<T>, r: Result<seq<T>, E>): Result<seq<T>, E>
  {
    match r
    case Ok(rest) => Ok(prefix + rest)
    case Err(e) => Err(e)
  }

  lemma PrefixedNothing<T, E>(r: Result<seq<T>, E>)
    ensures Prefixed([], r) == r
  {
    if r.Ok? {
      assert [] + r.value == r.value;
    }
  }

  lemma PrefixedTwice<T, E>(a: seq<T>, b: seq<T>, r: Result<seq<T>, E>)
    ensures Prefixed(a, Prefixed(b, r)) == Prefixed(a + b, r)
  {
    if r.Ok? {
      assert a + (b + r.value) == (a + b) + r.value;
    }
  }

  /** A field value as the data service returns it: a number, a string or null. */
  datatype Value = Null | Num(n: real) | Str(s: string)

  /** JavaScript truthiness of a field value (0, the empty string and null are falsy). */
  predicate Truthy(v: Value)
  {
    match v
    case Null => false
    case Num(n) => n != 0.0
    case Str(s) => s != ""
  }

  /** One row of the data service: an identifier and its fields by column name. */
  datatype Record = Record(id: string, fields: map<string, Value>)

  /** `record.fields[name] ?? null`: a missing field reads as null. */
  function FieldOrNull(r: Record, name: string): Value
  {
    if name in r.fields then r.fields[name] else Null
  }

  /** `record.fields[name]`: a missing field is undefined. */
  function FieldOf(r: Record, name: string): Option<Value>
  {
    if name in r.fields then Some(r.fields[name]) else None
  }
}
