# Sync UDF servicer of numaflow-python, in Dafny

This project models `SyncServerServicer`, the synchronous gRPC servicer that
hosts user-defined functions (UDFs) for the Numaflow stream-processing
platform. The engine sends one `Datum` per call. The servicer turns it into a
`pynumaflow.function.Datum`, calls the user's map handler or time-remapping
("mapt") handler, and encodes the returned `Messages` / `MessageTs` as a
`DatumList`. Reduce is refused. The heartbeat always answers ready.

Layout:

- `wrappers.dfy`: `Option` (Python `None`, an unset protobuf field) and `Result` (return or raise).
- `time.dfy`: protobuf `Timestamp` (seconds, nanos) and naive UTC `datetime` (microseconds), with the
  protobuf runtime's `ToDatetime` / `FromDatetime` conversions and their round-trip laws.
- `records.dfy`: the wire messages (`Datum`, `EventTime`, `Watermark`, `DatumList`, `ReadyResponse`)
  and the in-process records (`Datum`, `Message`, `MessageT`, `Metadata`).
- `marshal.dfy`: decoding a request into the handler's `Datum`, and encoding handler output.
- `servicer.dfy`: construction (`New`), `MapFn`, `MapTFn`, `ReduceFn`, `IsReady`, the `MAX_THREADS` default.
- `properties.dfy`: lemmas relating calls to each other and to an independent reading of the reply.
- `scenarios.dfy`: two worked calls (a value-doubling map, a fixed-event-time remap).

User handlers are total Dafny functions returning `Result`. An exception is a
`Failure` carrying it. An unconfigured handler is `None`. Calling it gives
Python's `TypeError("'NoneType' object is not callable")`. That error is
raised inside the `try`, so it is re-raised like any handler error.

Behaviour of the code worth noting:

- An unset `event_time` / `watermark` sub-message is not a decode error. Protobuf reads it as its
  default instance, so it decodes as the epoch (`EventTimeOf`, `WatermarkOf`, `DecodeDatum`).
- Reduce fails with `ValueError("Reduce Not supported on sync")`, not an UNIMPLEMENTED status.
  The lines that would set that status (196-198) are commented out.
- `IsReady` does not inspect the servicer. It answers ready whenever a servicer exists. Only a
  construction with at least one handler produces one (`ReadyOnceConstructed`).

## Model

| member | source | states |
|---|---|---|
| Time.RoundTowardZero | pynumaflow/function/sync_server.py:131-132 | the nanosecond-to-microsecond rounding is truncation toward zero: the result times the divider lies within one divider of the value, on the value's side of zero |
| Time.ToDatetime | pynumaflow/function/sync_server.py:131-132 | for a normalised timestamp, the datetime lies within one microsecond below the timestamp, never above it |
| Time.FromDatetime | pynumaflow/function/sync_server.py:172-175 | the produced timestamp is normalised, has whole-microsecond nanos, and counts exactly the datetime's microseconds |
| Time.DatetimeRoundTrip | pynumaflow/function/sync_server.py:172-175 | datetime to timestamp and back is the identity |
| Time.TimestampRoundTrip | pynumaflow/function/sync_server.py:174-175 | timestamp to datetime and back truncates to the microsecond, and is the identity exactly when nanos is a multiple of 1000 |
| Time.RoundTripIdempotent | pynumaflow/function/sync_server.py:174-175 | a timestamp re-emitted through datetime is a fixed point of a second trip |
| Marshal.DecodeDatum | pynumaflow/function/sync_server.py:127-133 | the handler's datum has the request's keys in order, its value, and both times converted, with unset times as the epoch |
| Marshal.DecodeRoundTrip | pynumaflow/function/sync_server.py:128-133 | decoding the wire record an engine sends for a datum gives that datum back exactly |
| Marshal.EncodeMessages | pynumaflow/function/sync_server.py:139-144 | one wire record per message, same count and order, with each message's keys and value and no time field set |
| Marshal.EncodeMessagesRoundTrip | pynumaflow/function/sync_server.py:139-144 | reading keys and values back off a plain-map reply gives exactly the handler's messages |
| Marshal.EncodeMessageTs | pynumaflow/function/sync_server.py:170-184 | one wire record per message, in order, with its keys, value and event time, and every record with the inbound watermark passed through datetime |
| Marshal.EncodeMessageTsReadsBack | pynumaflow/function/sync_server.py:170-184 | each time-remapped record decodes to the message's keys, value and event time and to the inbound watermark |
| SyncServer.DefaultMaxThreads | pynumaflow/function/sync_server.py:30-31 | a nonzero environment value wins, else four threads per CPU; the result is nonzero whenever there is a CPU |
| SyncServerProperties.NewWithDefaultMaxThreads | pynumaflow/function/sync_server.py:31 | a servicer built with the MAX_THREADS default keeps it: the nonzero environment value, else four per CPU, nonzero whenever there is a CPU |
| SyncServer.New | pynumaflow/function/sync_server.py:87-114 | construction fails with the ValueError exactly when all three handlers are missing; on success the handlers are kept, the endpoint is `unix://` followed by the socket path, and both size options equal the max message size |
| SyncServer.MapFn | pynumaflow/function/sync_server.py:116-144 | the map handler is called on the request's keys and a datum built from the request; its error, or the TypeError of a missing handler, is returned unchanged; otherwise the reply has one element per message, in order, with its keys and value and no time fields |
| SyncServer.MapTFn | pynumaflow/function/sync_server.py:146-184 | as MapFn with the mapt handler; element i carries message i's keys, value and event time, and every element carries the request's watermark |
| SyncServer.ReduceFn | pynumaflow/function/sync_server.py:186-200 | every call fails with ValueError "Reduce Not supported on sync" |
| SyncServer.IsReady | pynumaflow/function/sync_server.py:202-209 | the heartbeat always answers ready |
| SyncServerProperties.AnyHandlerSuffices | pynumaflow/function/sync_server.py:96-97 | any single supplied handler, whichever it is, lets construction succeed |
| SyncServerProperties.ReadyOnceConstructed | pynumaflow/function/sync_server.py:96-97 | a constructed servicer had at least one handler and answers the heartbeat with ready |
| SyncServerProperties.EndpointIsUnixSocket | pynumaflow/function/sync_server.py:102 | the endpoint equals `unix://` concatenated with the socket path |
| SyncServerProperties.MapFnPreservesMessages | pynumaflow/function/sync_server.py:139-144 | a successful plain-map reply, read back, is the handler's message sequence: no drop, duplication or reordering |
| SyncServerProperties.MapFnDropIsEmpty | pynumaflow/function/sync_server.py:139-144 | a handler returning no messages yields an empty reply, not an error |
| SyncServerProperties.MapFnDependsOnlyOnHandlerAtRequest | pynumaflow/function/sync_server.py:125-134 | two map handlers that agree on the request's keys and decoded datum give the same reply |
| SyncServerProperties.MapTFnDependsOnlyOnHandlerAtRequest | pynumaflow/function/sync_server.py:156-165 | two mapt handlers that agree on the request's keys and decoded datum give the same reply |
| SyncServerProperties.MapTFnReadsBack | pynumaflow/function/sync_server.py:170-183 | element i of a time-remapping reply decodes to message i's keys, value and event time with the request's decoded watermark |
| SyncServerProperties.MapTFnWatermarkFromRequest | pynumaflow/function/sync_server.py:174-181 | the re-emitted watermark is the request's truncated to the microsecond, and equals it exactly when its nanos are whole microseconds |
| SyncServerProperties.MapTFnWatermarkIndependentOfHandler | pynumaflow/function/sync_server.py:174-181 | every element of every successful time-remapping reply to one request, from any handler, carries the same watermark |
| SyncServerProperties.ReduceFnIgnoresInput | pynumaflow/function/sync_server.py:186-199 | the reduce reply is the same for every servicer and every request stream |
| Scenarios.DoublingScenario | pynumaflow/function/sync_server.py:116-144 | keys `["a"]` and value `b"1"` with a doubling handler give one element with keys `["a"]`, value `b"11"` and no time fields |
| Scenarios.FixedEventTimeScenario | pynumaflow/function/sync_server.py:146-184 | a handler stamping a fixed time T2 on a request with whole-microsecond watermark W gives one element with event time T2 and watermark exactly W |

## Left out

- `start()` (lines 211-228) is left out. It covers gRPC server creation, the thread pool, socket binding and waiting for termination, which are I/O and concurrency.
- Logging is left out: the `_LOGGER.critical` before a re-raise, the `PYTHONDEBUG` level switch (lines 23-25), the `_LOGGER.error` in `ReduceFn`, and the unreachable line 200 after its `raise`.
- The gRPC `context` argument of every call is not used by the code, so it is not modelled.
- `cleanup_coroutines` and `background_tasks` (lines 105-109) are left out. They are empty collections that this servicer never uses.
- SyncServer.DefaultMaxThreads: takes the `MAX_THREADS` environment value already parsed as an integer (0 when unset). The `ValueError` of `int()` on a non-numeric string is not modelled, and the CPU count is a parameter.
- SyncServer.New: the keyword defaults of `__init__` (lines 92-94) are not modelled; every argument is passed explicitly. `FUNCTION_SOCK_PATH` and `MAX_MESSAGE_SIZE` live in `pynumaflow._constants`, which is not part of this model. The `MAX_THREADS` default is `DefaultMaxThreads`, and `NewWithDefaultMaxThreads` states what a servicer built with it keeps.
- SyncServer.New: a supplied handler counts as truthy. A callable object whose `__bool__` is false would also be refused by the code, and the model does not cover that case.
- Time.ToDatetime: Python `datetime` only covers years 1 to 9999. The `OverflowError` for timestamps outside that range is not modelled, and the int64/int32 widths of `seconds` and `nanos` are not either.
- Time.ToDatetime: `RoundTowardZero`, `ToDatetime` and `FromDatetime` restate the protobuf runtime's `_RoundTowardZero`, `Timestamp.ToDatetime` and `Timestamp.FromDatetime` for naive UTC datetimes. That runtime's source is not part of this model. Its timezone-aware conversions and any range validation it performs are not modelled.
- The reduce handler shape and its asynchronous request stream are not modelled beyond their types. `ReduceFn` never calls the handler or reads the stream.
- The `Messages` / `MessageTs` classes are not part of this model beyond their element sequences (`items()`).
- tests/test_info_server.py is not modelled. It tests writing a server-info file, which is not part of this servicer.
