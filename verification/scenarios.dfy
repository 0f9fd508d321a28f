/** Two worked calls: a value-doubling map and a time-remapping map that
    stamps a fixed event time. */
module Scenarios {
  import opened Wrappers
  import opened Time
  import opened Records
  import opened Marshal
  import opened SyncServer

  /** A map handler that repeats each payload once, keeping the keys. */
  function Doubler(): MapHandler {
    (keys: seq<string>, d: Datum) => Success([Message(keys, d.value + d.value)])
  }

  /** A time-remapping handler that stamps every output with `t2`. */
  function Stamper(t2: Datetime): MapTHandler {
    (keys: seq<string>, d: Datum) => Success([MessageT(keys, d.value, t2)])
  }

  /** Keys `["a"]`, payload `b"1"`, doubling handler: one reply element with
      keys `["a"]`, payload `b"11"` and no time fields. */
  lemma DoublingScenario(request: WireDatum)
    requires request.keys == ["a"] && request.value == [49]
    ensures
      var s := New(Some(Doubler()), None, None, "/var/run/numaflow/function.sock", 4 * 1024 * 1024, 8);
      && s.Success?
      && MapFn(s.value, request) == Success(DatumList([WireDatum(["a"], [49, 49], None, None)]))
  {
    var s := New(Some(Doubler()), None, None, "/var/run/numaflow/function.sock", 4 * 1024 * 1024, 8);
    var msgs := [Message(["a"], [49, 49])];
    assert DecodeDatum(request).value + DecodeDatum(request).value == [49, 49];
    assert Doubler()(request.keys, DecodeDatum(request)) == Success(msgs);
    assert s.Success? && s.value.mapHandler == Some(Doubler());
    assert MapFn(s.value, request) == Success(DatumList(EncodeMessages(msgs)));
    assert EncodeMessages(msgs) == [EncodeMessage(msgs[0])] + EncodeMessages([]);
    assert EncodeMessages(msgs) == [WireDatum(["a"], [49, 49], None, None)];
  }

  /** A fixed new event time `t2` on an input with a whole-microsecond
      watermark `w`: the reply carries `t2` as its event time and `w`
      exactly as its watermark. */
  lemma FixedEventTimeScenario(request: WireDatum, t2: Datetime, w: Timestamp)
    requires request.watermark == Some(Watermark(w))
    requires Normalized(w) && w.nanos % NanosPerMicrosecond == 0
    ensures
      var s := New(None, Some(Stamper(t2)), None, "/var/run/numaflow/function.sock", 4 * 1024 * 1024, 8);
      && s.Success?
      && MapTFn(s.value, request)
           == Success(DatumList([WireDatum(request.keys, request.value, Some(EventTime(FromDatetime(t2))), Some(Watermark(w)))]))
  {
    var s := New(None, Some(Stamper(t2)), None, "/var/run/numaflow/function.sock", 4 * 1024 * 1024, 8);
    var msgts := [MessageT(request.keys, request.value, t2)];
    assert Stamper(t2)(request.keys, DecodeDatum(request)) == Success(msgts);
    assert WatermarkOf(request) == w;
    assert s.Success? && s.value.maptHandler == Some(Stamper(t2));
    assert MapTFn(s.value, request) == Success(DatumList(EncodeMessageTs(msgts, w)));
    TimestampRoundTrip(w);
    assert EncodeMessageTs(msgts, w) == [EncodeMessageT(msgts[0], w)] + EncodeMessageTs([], w);
    assert EncodeMessageTs(msgts, w)
      == [WireDatum(request.keys, request.value, Some(EventTime(FromDatetime(t2))), Some(Watermark(w)))];
  }
}
