/** Properties of the servicer that relate several calls, or a call and an
    independent reading of its reply. */
module SyncServerProperties {
  import opened Wrappers
  import opened Time
  import opened Records
  import opened Marshal
  import opened SyncServer

  /** Construction succeeds with any single handler, whichever it is. */
  lemma AnyHandlerSuffices(
    mh: MapHandler, th: MapTHandler, rh: ReduceHandler,
    sockPath: string, maxMessageSize: int, maxThreads: int)
    ensures New(Some(mh), None, None, sockPath, maxMessageSize, maxThreads).Success?
    ensures New(None, Some(th), None, sockPath, maxMessageSize, maxThreads).Success?
    ensures New(None, None, Some(rh), sockPath, maxMessageSize, maxThreads).Success?
  {
  }

  /** A servicer that construction produced answers the heartbeat with
      ready, and only construction with at least one handler produces one. */
  lemma ReadyOnceConstructed(
    mh: Option<MapHandler>, th: Option<MapTHandler>, rh: Option<ReduceHandler>,
    sockPath: string, maxMessageSize: int, maxThreads: int, probe: Empty)
    requires New(mh, th, rh, sockPath, maxMessageSize, maxThreads).Success?
    ensures mh.Some? || th.Some? || rh.Some?
    ensures IsReady(New(mh, th, rh, sockPath, maxMessageSize, maxThreads).value, probe).ready
  {
  }

  /** The endpoint is the `unix://` scheme followed by the socket path. */
  lemma EndpointIsUnixSocket(
    mh: Option<MapHandler>, th: Option<MapTHandler>, rh: Option<ReduceHandler>,
    sockPath: string, maxMessageSize: int, maxThreads: int)
    requires New(mh, th, rh, sockPath, maxMessageSize, maxThreads).Success?
    ensures New(mh, th, rh, sockPath, maxMessageSize, maxThreads).value.sockPath == UnixScheme + sockPath
  {
  }

  /** A servicer built with the `MAX_THREADS` default keeps it as its pool
      size; with at least one CPU that size is nonzero, and it is positive
      unless the environment names a negative count. */
  lemma NewWithDefaultMaxThreads(
    mh: Option<MapHandler>, th: Option<MapTHandler>, rh: Option<ReduceHandler>,
    sockPath: string, maxMessageSize: int, envMaxThreads: int, cpuCount: nat)
    requires New(mh, th, rh, sockPath, maxMessageSize, DefaultMaxThreads(envMaxThreads, cpuCount)).Success?
    ensures
      var s := New(mh, th, rh, sockPath, maxMessageSize, DefaultMaxThreads(envMaxThreads, cpuCount)).value;
      && (envMaxThreads != 0 ==> s.maxThreads == envMaxThreads)
      && (envMaxThreads == 0 ==> s.maxThreads == 4 * cpuCount)
      && (cpuCount > 0 ==> s.maxThreads != 0)
      && (envMaxThreads >= 0 && cpuCount > 0 ==> s.maxThreads > 0)
  {
  }

  /** A plain map reply, read back, is exactly the handler's messages in
      the handler's order: nothing is dropped, added or reordered. */
  lemma MapFnPreservesMessages(s: Servicer, request: WireDatum)
    requires s.mapHandler.Some?
    requires s.mapHandler.value(request.keys, DecodeDatum(request)).Success?
    ensures MapFn(s, request).Success?
    ensures MessagesOf(MapFn(s, request).value.elements)
      == s.mapHandler.value(request.keys, DecodeDatum(request)).value
  {
    EncodeMessagesRoundTrip(s.mapHandler.value(request.keys, DecodeDatum(request)).value);
  }

  /** A handler that drops its input yields an empty reply, not an error. */
  lemma MapFnDropIsEmpty(s: Servicer, request: WireDatum)
    requires s.mapHandler.Some?
    requires s.mapHandler.value(request.keys, DecodeDatum(request)) == Success([])
    ensures MapFn(s, request) == Success(DatumList([]))
  {
  }

  /** `MapFn` observes its handler only at the request's keys and decoded
      datum: two handlers that agree there give the same reply. */
  lemma MapFnDependsOnlyOnHandlerAtRequest(s1: Servicer, s2: Servicer, request: WireDatum)
    requires s1.mapHandler.Some? && s2.mapHandler.Some?
    requires s1.mapHandler.value(request.keys, DecodeDatum(request))
          == s2.mapHandler.value(request.keys, DecodeDatum(request))
    ensures MapFn(s1, request) == MapFn(s2, request)
  {
  }

  /** `MapTFn` observes its handler only at the request's keys and decoded
      datum, like `MapFn`. */
  lemma MapTFnDependsOnlyOnHandlerAtRequest(s1: Servicer, s2: Servicer, request: WireDatum)
    requires s1.maptHandler.Some? && s2.maptHandler.Some?
    requires s1.maptHandler.value(request.keys, DecodeDatum(request))
          == s2.maptHandler.value(request.keys, DecodeDatum(request))
    ensures MapTFn(s1, request) == MapTFn(s2, request)
  {
  }

  /** Every element of a time-remapping reply decodes to its message's keys,
      payload and event time, with the request's watermark. */
  lemma MapTFnReadsBack(s: Servicer, request: WireDatum, i: int)
    requires s.maptHandler.Some?
    requires s.maptHandler.value(request.keys, DecodeDatum(request)).Success?
    requires 0 <= i < |s.maptHandler.value(request.keys, DecodeDatum(request)).value|
    ensures MapTFn(s, request).Success?
    ensures
      var m := s.maptHandler.value(request.keys, DecodeDatum(request)).value[i];
      DecodeDatum(MapTFn(s, request).value.elements[i])
        == Datum(m.keys, m.value, m.eventTime, DecodeDatum(request).watermark)
  {
  }

  /** The re-emitted watermark is the request's, truncated to the
      microsecond; it is bit-for-bit the request's exactly when that is set
      and a whole number of microseconds. */
  lemma MapTFnWatermarkFromRequest(s: Servicer, request: WireDatum, i: int)
    requires request.watermark.Some? && Normalized(request.watermark.value.watermark)
    requires MapTFn(s, request).Success? && 0 <= i < |MapTFn(s, request).value.elements|
    ensures MapTFn(s, request).value.elements[i].watermark
      == Some(Watermark(TruncateToMicros(request.watermark.value.watermark)))
    ensures MapTFn(s, request).value.elements[i].watermark == request.watermark
      <==> request.watermark.value.watermark.nanos % NanosPerMicrosecond == 0
  {
  }

  /** The watermark does not depend on the handler: any two successful
      time-remapping replies to one request, from any handlers, carry the
      same watermark on every element. */
  lemma MapTFnWatermarkIndependentOfHandler(s1: Servicer, s2: Servicer, request: WireDatum, i: int, j: int)
    requires MapTFn(s1, request).Success? && MapTFn(s2, request).Success?
    requires 0 <= i < |MapTFn(s1, request).value.elements|
    requires 0 <= j < |MapTFn(s2, request).value.elements|
    ensures MapTFn(s1, request).value.elements[i].watermark == MapTFn(s2, request).value.elements[j].watermark
  {
  }

  /** Reduce fails identically whatever the servicer and the data sent. */
  lemma ReduceFnIgnoresInput(s1: Servicer, s2: Servicer, requests1: seq<WireDatum>, requests2: seq<WireDatum>)
    ensures ReduceFn(s1, requests1) == ReduceFn(s2, requests2)
  {
  }
}
