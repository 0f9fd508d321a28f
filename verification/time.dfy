/** Protobuf `Timestamp` and Python `datetime`, and the two conversions the
    servicer uses between them (`Timestamp.ToDatetime` and
    `Timestamp.FromDatetime` of the protobuf runtime).

    A `Timestamp` counts seconds and nanoseconds since the Unix epoch; a
    naive UTC `datetime` only has microsecond resolution, so a round trip
    through `datetime` truncates a timestamp to the microsecond. */
module Time {

  const NanosPerMicrosecond: int := 1000
  const MicrosPerSecond: int := 1_000_000
  const NanosPerSecond: int := 1_000_000_000

  /** `google.protobuf.Timestamp`. The wire does not enforce the documented
      range of `nanos`, so any integers are admitted here. */
  datatype Timestamp = Timestamp(seconds: int, nanos: int)

  /** A naive UTC `datetime`, as microseconds since 1970-01-01T00:00:00. */
  datatype Datetime = Datetime(micros: int)

  /** The protobuf default instance: what reading an unset field yields. */
  const Epoch: Timestamp := Timestamp(0, 0)

  /** A timestamp whose `nanos` lies in the range protobuf documents. */
  predicate Normalized(t: Timestamp) {
    0 <= t.nanos < NanosPerSecond
  }

  /** The protobuf runtime's `_RoundTowardZero`: Python's floor division,
      corrected upwards for an inexact negative quotient. */
  function RoundTowardZero(value: int, divider: int): (q: int)
    requires divider > 0
    ensures 0 <= value ==> 0 <= q * divider <= value < q * divider + divider
    ensures value < 0 ==> q * divider - divider < value <= q * divider <= 0
  {
    var floor := value / divider;
    if floor < 0 && floor * divider != value then floor + 1 else floor
  }

  /** `Timestamp.ToDatetime()`: the epoch plus `seconds` seconds and the
      nanoseconds rounded toward zero to whole microseconds. */
  function ToDatetime(t: Timestamp): (d: Datetime)
    ensures Normalized(t) ==>
      t.seconds * MicrosPerSecond * NanosPerMicrosecond + t.nanos - NanosPerMicrosecond
        < d.micros * NanosPerMicrosecond
        <= t.seconds * MicrosPerSecond * NanosPerMicrosecond + t.nanos
  {
    Datetime(t.seconds * MicrosPerSecond + RoundTowardZero(t.nanos, NanosPerMicrosecond))
  }

  /** `Timestamp.FromDatetime(dt)`: the `timedelta` from the epoch, normalised
      so that its seconds are whole and its microseconds are in [0, 10^6). */
  function FromDatetime(d: Datetime): (t: Timestamp)
    ensures Normalized(t) && t.nanos % NanosPerMicrosecond == 0
    ensures t.seconds * MicrosPerSecond + t.nanos / NanosPerMicrosecond == d.micros
  {
    Timestamp(d.micros / MicrosPerSecond, (d.micros % MicrosPerSecond) * NanosPerMicrosecond)
  }

  /** A timestamp truncated to the microsecond: what survives a trip
      through `datetime`. */
  function TruncateToMicros(t: Timestamp): Timestamp {
    Timestamp(t.seconds, t.nanos - t.nanos % NanosPerMicrosecond)
  }

  /** Going to `datetime` and back loses nothing: the microsecond count is
      recovered exactly. */
  lemma DatetimeRoundTrip(d: Datetime)
    ensures ToDatetime(FromDatetime(d)) == d
  {
  }

  /** Going to `datetime` and back truncates a normalised timestamp to the
      microsecond, and is the identity exactly on whole-microsecond ones. */
  lemma TimestampRoundTrip(t: Timestamp)
    requires Normalized(t)
    ensures FromDatetime(ToDatetime(t)) == TruncateToMicros(t)
    ensures FromDatetime(ToDatetime(t)) == t <==> t.nanos % NanosPerMicrosecond == 0
  {
  }

  /** Truncation through `datetime` is idempotent: a re-emitted timestamp
      is a fixed point of another round trip, whatever its `nanos`. */
  lemma RoundTripIdempotent(t: Timestamp)
    ensures FromDatetime(ToDatetime(FromDatetime(ToDatetime(t)))) == FromDatetime(ToDatetime(t))
  {
  }
}
