/** `SyncServerServicer`: construction of the servicer and the four calls
    it answers. A raised exception is a `Failure`; the caller's gRPC
    context is not consulted by any call and is left out. */
module SyncServer {
  import opened Wrappers
  import opened Time
  import opened Records
  import opened Marshal

  /** The Python exceptions the servicer raises or passes on. The servicer
      itself only raises `ValueError` and `TypeError`; `Raised` carries an
      exception of any other class a user handler raises, by class name.
      A handler raising a `ValueError` or `TypeError` is written with those
      constructors, so each exception has one representation. */
  datatype Exception =
    | ValueError(message: string)
    | TypeError(message: string)
    | Raised(className: string, message: string)

  const NoHandlerMessage: string := "Require a valid map/mapt handler and/or a valid reduce handler."
  const ReduceNotSupportedMessage: string := "Reduce Not supported on sync"
  /** What Python raises when an unset (`None`) handler is called. */
  const NotCallable: Exception := TypeError("'NoneType' object is not callable")

  const UnixScheme: string := "unix://"
  const MaxSendOption: string := "grpc.max_send_message_length"
  const MaxReceiveOption: string := "grpc.max_receive_message_length"

  /** `UDFMapCallable`: keys and datum to messages, or an exception. */
  type MapHandler = (seq<string>, Datum) -> Result<seq<Message>, Exception>
  /** `UDFMapTCallable`: keys and datum to time-stamped messages. */
  type MapTHandler = (seq<string>, Datum) -> Result<seq<MessageT>, Exception>
  /** `UDFReduceCallable`: keys, the window's data and its metadata. */
  type ReduceHandler = (seq<string>, seq<Datum>, Metadata) -> Result<seq<Message>, Exception>

  /** One gRPC server option: a channel argument name and its value. */
  datatype ServerOption = ServerOption(name: string, value: int)

  /** The state a constructed servicer holds. `sockPath` is the endpoint,
      already prefixed with the `unix://` scheme. */
  datatype Servicer = Servicer(
    mapHandler: Option<MapHandler>,
    maptHandler: Option<MapTHandler>,
    reduceHandler: Option<ReduceHandler>,
    sockPath: string,
    maxMessageSize: int,
    maxThreads: int,
    serverOptions: seq<ServerOption>)

  /** The value of the first option named `name`, if any. */
  function OptionValue(options: seq<ServerOption>, name: string): Option<int> {
    if options == [] then None
    else if options[0].name == name then Some(options[0].value)
    else OptionValue(options[1..], name)
  }

  predicate HasHandler(s: Servicer) {
    s.mapHandler.Some? || s.maptHandler.Some? || s.reduceHandler.Some?
  }

  /** The module-level `MAX_THREADS` default: a nonzero `MAX_THREADS`
      environment value (0 when unset) wins, else four threads per CPU. */
  function DefaultMaxThreads(envMaxThreads: int, cpuCount: nat): (n: int)
    ensures envMaxThreads != 0 ==> n == envMaxThreads
    ensures envMaxThreads == 0 ==> n == 4 * cpuCount
    ensures cpuCount > 0 ==> n != 0
    ensures envMaxThreads >= 0 && cpuCount > 0 ==> n > 0
  {
    if envMaxThreads != 0 then envMaxThreads else 4 * cpuCount
  }

  /** `SyncServerServicer.__init__`: refuses to build a servicer with no
      handler at all; otherwise records the handlers, the `unix://`
      endpoint and the message-size limit for both directions. */
  function New(
    mapHandler: Option<MapHandler>,
    maptHandler: Option<MapTHandler>,
    reduceHandler: Option<ReduceHandler>,
    sockPath: string,
    maxMessageSize: int,
    maxThreads: int): (r: Result<Servicer, Exception>)
    ensures r.Failure? <==> mapHandler.None? && maptHandler.None? && reduceHandler.None?
    ensures r.Failure? ==> r.error == ValueError(NoHandlerMessage)
    ensures r.Success? ==> HasHandler(r.value)
    ensures r.Success? ==>
      && r.value.mapHandler == mapHandler
      && r.value.maptHandler == maptHandler
      && r.value.reduceHandler == reduceHandler
      && r.value.maxThreads == maxThreads
    ensures r.Success? ==>
      && |UnixScheme| <= |r.value.sockPath|
      && r.value.sockPath[..|UnixScheme|] == UnixScheme
      && r.value.sockPath[|UnixScheme|..] == sockPath
    ensures r.Success? ==>
      && OptionValue(r.value.serverOptions, MaxSendOption) == Some(maxMessageSize)
      && OptionValue(r.value.serverOptions, MaxReceiveOption) == Some(maxMessageSize)
  {
    if mapHandler.None? && maptHandler.None? && reduceHandler.None? then
      Failure(ValueError(NoHandlerMessage))
    else
      Success(Servicer(
        mapHandler, maptHandler, reduceHandler,
        UnixScheme + sockPath,
        maxMessageSize,
        maxThreads,
        [ServerOption(MaxSendOption, maxMessageSize), ServerOption(MaxReceiveOption, maxMessageSize)]))
  }

  /** `MapFn`: the map handler is called once, on the request's keys and the
      decoded datum; its exception (or the `TypeError` of calling an unset
      handler) is re-raised unchanged; otherwise each returned message
      becomes one reply element carrying only keys and payload. */
  function MapFn(s: Servicer, request: WireDatum): (r: Result<DatumList, Exception>)
    ensures s.mapHandler.None? ==> r == Failure(NotCallable)
    ensures s.mapHandler.Some? ==>
      var out := s.mapHandler.value(
        request.keys,
        Datum(request.keys, request.value, ToDatetime(EventTimeOf(request)), ToDatetime(WatermarkOf(request))));
      && (r.Failure? <==> out.Failure?)
      && (out.Failure? ==> r.error == out.error)
      && (out.Success? ==>
            && |r.value.elements| == |out.value|
            && forall i :: 0 <= i < |out.value| ==>
                 r.value.elements[i].keys == out.value[i].keys && r.value.elements[i].value == out.value[i].value)
    ensures r.Success? ==>
      forall i :: 0 <= i < |r.value.elements| ==>
        r.value.elements[i].eventTime.None? && r.value.elements[i].watermark.None?
  {
    match s.mapHandler
    case None => Failure(NotCallable)
    case Some(handler) =>
      var msgs :- handler(request.keys, DecodeDatum(request));
      Success(DatumList(EncodeMessages(msgs)))
  }

  /** `MapTFn`: as `MapFn` with the time-remapping handler; each reply
      element carries its message's event time, and every element carries
      the request's watermark, whatever the handler returned. */
  function MapTFn(s: Servicer, request: WireDatum): (r: Result<DatumList, Exception>)
    ensures s.maptHandler.None? ==> r == Failure(NotCallable)
    ensures s.maptHandler.Some? ==>
      var out := s.maptHandler.value(
        request.keys,
        Datum(request.keys, request.value, ToDatetime(EventTimeOf(request)), ToDatetime(WatermarkOf(request))));
      && (r.Failure? <==> out.Failure?)
      && (out.Failure? ==> r.error == out.error)
      && (out.Success? ==>
            && |r.value.elements| == |out.value|
            && forall i :: 0 <= i < |out.value| ==>
                 && r.value.elements[i].keys == out.value[i].keys
                 && r.value.elements[i].value == out.value[i].value
                 && r.value.elements[i].eventTime == Some(EventTime(FromDatetime(out.value[i].eventTime))))
    ensures r.Success? ==>
      forall i :: 0 <= i < |r.value.elements| ==>
        r.value.elements[i].watermark == Some(Watermark(FromDatetime(ToDatetime(WatermarkOf(request)))))
  {
    match s.maptHandler
    case None => Failure(NotCallable)
    case Some(handler) =>
      var msgts :- handler(request.keys, DecodeDatum(request));
      Success(DatumList(EncodeMessageTs(msgts, WatermarkOf(request))))
  }

  /** `ReduceFn`: reduce is not served by this servicer; every call fails
      with the same `ValueError`. */
  function ReduceFn(s: Servicer, requests: seq<WireDatum>): (r: Result<DatumList, Exception>)
    ensures r.Failure? && r.error == ValueError(ReduceNotSupportedMessage)
  {
    Failure(ValueError(ReduceNotSupportedMessage))
  }

  /** `IsReady`: the heartbeat always answers ready. */
  function IsReady(s: Servicer, request: Empty): (r: ReadyResponse)
    ensures r.ready
  {
    ReadyResponse(true)
  }
}
