/**
 * Shared vocabulary of the key model: optional values, the opaque types the
 * key records carry but never look into, and an abstract JSON value that the
 * write views of `Key`, `KeyBuilder` and `KeysQuery` produce.
 */
module Wire {

  /** Rust's `Option`: `None` or `Some(value)`. */
  datatype Option<+T> = None | Some(value: T)

  /**
   * A point in time with a UTC offset. The key records only store and copy
   * timestamps; the model never inspects one, so the type stays abstract.
   */
  type OffsetDateTime(==)

  /** The HTTP client a `KeysQuery` borrows; nothing about it is modelled. */
  type Client

  /** Rust's `usize` on a 64-bit target. */
  newtype Usize = x: int | 0 <= x < 0x1_0000_0000_0000_0000

  /**
   * A JSON value as the serializer writes it. A timestamp is written as its
   * RFC 3339 text; that text is kept abstract as `JTimestamp(at)`.
   */
  datatype Json =
    | JNull
    | JNumber(n: int)
    | JString(str: string)
    | JArray(items: seq<Json>)
    | JTimestamp(at: OffsetDateTime)

  /** How an `Option<String>` field without a skip rule is written. */
  function OptionalString(o: Option<string>): Json
  {
    match o
    case None => JNull
    case Some(s) => JString(s)
  }

  /** How an `Option<OffsetDateTime>` field in RFC 3339 form is written. */
  function OptionalTimestamp(o: Option<OffsetDateTime>): Json
  {
    match o
    case None => JNull
    case Some(t) => JTimestamp(t)
  }

  /** How a `Vec<String>` is written: an array of strings, in order. */
  function StringArray(xs: seq<string>): Json
  {
    JArray(seq(|xs|, i requires 0 <= i < |xs| => JString(xs[i])))
  }
}
