/** The records that cross the servicer: the protobuf messages of the
    `udfunction` service (wire side) and the `pynumaflow.function` types a
    user handler sees and returns (in-process side). */
module Records {
  import opened Wrappers
  import opened Time

  /** One octet of an opaque payload. */
  newtype byte = x: int | 0 <= x < 256

  // ----- wire side: udfunction_pb2 -----

  /** `udfunction_pb2.EventTime`, a message wrapping one timestamp. */
  datatype EventTime = EventTime(eventTime: Timestamp)

  /** `udfunction_pb2.Watermark`, a message wrapping one timestamp. */
  datatype Watermark = Watermark(watermark: Timestamp)

  /** `udfunction_pb2.Datum`. Its two time fields are sub-messages and may be
      unset (`None`). */
  datatype WireDatum = WireDatum(
    keys: seq<string>,
    value: seq<byte>,
    eventTime: Option<EventTime>,
    watermark: Option<Watermark>)

  /** `udfunction_pb2.DatumList`, the reply of the map operations. */
  datatype DatumList = DatumList(elements: seq<WireDatum>)

  /** `udfunction_pb2.ReadyResponse`, the reply of the readiness probe. */
  datatype ReadyResponse = ReadyResponse(ready: bool)

  /** `google.protobuf.Empty`, the request of the readiness probe. */
  datatype Empty = Empty

  /** `request.event_time.event_time`: protobuf answers an unset sub-message
      with its default instance, so an unset time reads as the epoch. */
  function EventTimeOf(w: WireDatum): Timestamp {
    match w.eventTime
    case Some(e) => e.eventTime
    case None => Epoch
  }

  /** `request.watermark.watermark`, with the same default rule. */
  function WatermarkOf(w: WireDatum): Timestamp {
    match w.watermark
    case Some(m) => m.watermark
    case None => Epoch
  }

  // ----- in-process side: pynumaflow.function -----

  /** The `Datum` a handler receives: keys, payload and both times. */
  datatype Datum = Datum(keys: seq<string>, value: seq<byte>, eventTime: Datetime, watermark: Datetime)

  /** One output of a plain map handler (an element of `Messages`). */
  datatype Message = Message(keys: seq<string>, value: seq<byte>)

  /** One output of a time-remapping handler (an element of `MessageTs`);
      its new event time cannot be omitted. */
  datatype MessageT = MessageT(keys: seq<string>, value: seq<byte>, eventTime: Datetime)

  /** The half-open window `[start, end)` a reduce invocation covers. */
  datatype IntervalWindow = IntervalWindow(start: Datetime, end: Datetime)

  /** Windowing context of a reduce invocation. */
  datatype Metadata = Metadata(intervalWindow: IntervalWindow)
}
