/** Values shared by every component of the producer: the exceptions it
    raises or forwards, optional values and results, the primitive values a
    job payload is made of, and instants on the wall clock. */
module Types {

  /** The exceptions the producer raises or forwards. */
  datatype Error =
    | ConnectionError(message: string)  // the connector's state checks
    | TypeError(message: string)        // a call whose arguments do not bind
    | Raised(message: string)           // any other exception, e.g. one in flight inside a `with` block

  datatype Option<+T> = None | Some(value: T)

  /** A value, or the exception that replaced it. */
  datatype Result<+T> = Ok(value: T) | Err(error: Error)

  /** A call that returns nothing, or the exception it raised. */
  datatype Outcome = Pass | Fail(error: Error)

  /** A primitive job argument or payload field (`str`, `int`, `float`, `bool`). */
  datatype Primitive = Str(s: string) | Int(i: int) | Float(x: real) | Bool(b: bool)

  /** A payload field value: a primitive or a list of primitives (the `args` field). */
  datatype Value = Prim(p: Primitive) | List(items: seq<Primitive>)

  /** A job payload: field name to value. */
  type Payload = map<string, Value>

  /** An instant on the wall clock, in microseconds since the epoch
      (the resolution of a `datetime`). A delay is a difference of instants. */
  type Instant = int

  /** The epoch-seconds reading of an instant, as `datetime.timestamp()` gives it. */
  function EpochSeconds(t: Instant): real
  {
    t as real / 1000000.0
  }

  /** The payload value under which a timestamp is stored. */
  function Timestamp(t: Instant): Value
  {
    Prim(Float(EpochSeconds(t)))
  }

  /** Timestamps are exact: two instants store the same value only if they are equal,
      and the stored seconds of a shifted instant are shifted by the delay's seconds. */
  lemma TimestampFaithful(t: Instant, u: Instant, delay: Instant)
    ensures Timestamp(t) == Timestamp(u) <==> t == u
    ensures EpochSeconds(t + delay) == EpochSeconds(t) + EpochSeconds(delay)
  {
  }
}
