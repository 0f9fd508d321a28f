/** Conversion between wire records and the records a handler sees, as the
    servicer performs it around each handler call. */
module Marshal {
  import opened Wrappers
  import opened Time
  import opened Records

  /** The `Datum` handed to a handler: the request's keys in their order,
      its payload, and both times converted to `datetime`. */
  function DecodeDatum(request: WireDatum): (d: Datum)
    ensures d.keys == request.keys && d.value == request.value
    ensures request.eventTime.Some? ==> d.eventTime == ToDatetime(request.eventTime.value.eventTime)
    ensures request.watermark.Some? ==> d.watermark == ToDatetime(request.watermark.value.watermark)
    ensures request.eventTime.None? ==> d.eventTime == Datetime(0)
    ensures request.watermark.None? ==> d.watermark == Datetime(0)
  {
    Datum(request.keys, request.value, ToDatetime(EventTimeOf(request)), ToDatetime(WatermarkOf(request)))
  }

  /** The wire record an engine sends for `d`, with both times set. */
  function WireOf(d: Datum): (w: WireDatum)
    ensures w.eventTime.Some? && w.watermark.Some?
    ensures Normalized(EventTimeOf(w)) && Normalized(WatermarkOf(w))
  {
    WireDatum(d.keys, d.value, Some(EventTime(FromDatetime(d.eventTime))), Some(Watermark(FromDatetime(d.watermark))))
  }

  /** Decoding what an engine encodes gives back the record exactly. */
  lemma DecodeRoundTrip(d: Datum)
    ensures DecodeDatum(WireOf(d)) == d
  {
  }

  /** A plain map output on the wire: keys and payload, no time fields. */
  function EncodeMessage(m: Message): WireDatum {
    WireDatum(m.keys, m.value, None, None)
  }

  /** The reply elements of a plain map: one wire record per message, in
      the handler's order, each without time fields. */
  function EncodeMessages(msgs: seq<Message>): (r: seq<WireDatum>)
    ensures |r| == |msgs|
    ensures forall i :: 0 <= i < |msgs| ==>
      r[i].keys == msgs[i].keys && r[i].value == msgs[i].value
    ensures forall i :: 0 <= i < |r| ==> r[i].eventTime.None? && r[i].watermark.None?
  {
    if msgs == [] then [] else [EncodeMessage(msgs[0])] + EncodeMessages(msgs[1..])
  }

  /** The messages a plain map reply carries, read back off the wire. */
  function MessagesOf(elements: seq<WireDatum>): (r: seq<Message>)
    ensures |r| == |elements|
  {
    if elements == [] then [] else [Message(elements[0].keys, elements[0].value)] + MessagesOf(elements[1..])
  }

  /** Plain map encoding loses nothing the handler returned: reading the
      reply back gives exactly the handler's messages, in order. */
  lemma {:induction false} EncodeMessagesRoundTrip(msgs: seq<Message>)
    ensures MessagesOf(EncodeMessages(msgs)) == msgs
  {
    if msgs != [] {
      EncodeMessagesRoundTrip(msgs[1..]);
      assert EncodeMessages(msgs)[1..] == EncodeMessages(msgs[1..]);
    }
  }

  /** A time-remapped output on the wire: the handler's keys, payload and
      new event time, and the inbound watermark re-emitted through
      `datetime`. */
  function EncodeMessageT(m: MessageT, inboundWatermark: Timestamp): WireDatum {
    WireDatum(
      m.keys, m.value,
      Some(EventTime(FromDatetime(m.eventTime))),
      Some(Watermark(FromDatetime(ToDatetime(inboundWatermark)))))
  }

  /** The reply elements of a time-remapping map: one wire record per
      message, in order, each with the message's event time and every one
      with the same watermark taken from the inbound request. */
  function EncodeMessageTs(msgts: seq<MessageT>, inboundWatermark: Timestamp): (r: seq<WireDatum>)
    ensures |r| == |msgts|
    ensures forall i :: 0 <= i < |msgts| ==>
      && r[i].keys == msgts[i].keys
      && r[i].value == msgts[i].value
      && r[i].eventTime == Some(EventTime(FromDatetime(msgts[i].eventTime)))
    ensures forall i :: 0 <= i < |r| ==>
      r[i].watermark == Some(Watermark(FromDatetime(ToDatetime(inboundWatermark))))
  {
    if msgts == [] then []
    else [EncodeMessageT(msgts[0], inboundWatermark)] + EncodeMessageTs(msgts[1..], inboundWatermark)
  }

  /** Every time-remapped reply element decodes to the handler's keys,
      payload and event time, with the inbound watermark at `datetime`
      precision: the watermark is never the handler's to choose. */
  lemma EncodeMessageTsReadsBack(msgts: seq<MessageT>, inboundWatermark: Timestamp, i: int)
    requires 0 <= i < |msgts|
    ensures DecodeDatum(EncodeMessageTs(msgts, inboundWatermark)[i])
      == Datum(msgts[i].keys, msgts[i].value, msgts[i].eventTime, ToDatetime(inboundWatermark))
  {
  }
}
