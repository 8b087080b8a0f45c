# bluest core, modelled in Dafny

This project models three parts of the `bluest` Bluetooth Low Energy library.

**The CoreFoundation stream bridge** (`futures_channel.rs`, `cf_stream.rs`). An L2CAP channel on Apple platforms is a pair of CoreFoundation streams. The library turns them into one async byte stream:

- A background thread registers a callback on both streams, schedules them on its run loop, opens them and runs the loop.
- The callbacks OR the event bits into a shared context, wake the one stored waker and stop the run loop on end or error.
- `poll_read` and `poll_write` either complete with the native I/O result or store the caller's waker and return `Pending`.
- The `CFStream` wrapper remembers whether it scheduled and opened its stream. Its destructor undoes exactly those two things.

The context is a class whose methods are proved to perform pure step functions (`SetWakerStep`, `PollStep`, `CallbackStep`, `RetainStep`, `ReleaseStep`). Properties of runs of steps are lemmas about those functions. Every native call the wrappers and the run-loop thread make is appended to the log of a `CoreFoundation` object. `InRunloop` is proved to produce exactly the trace `RunloopTrace`, and lemmas state what that trace guarantees.

**The Android error tables** (`android/mod.rs`, `android.rs`). These are total conversions from the platform's GATT, Java, scan and pairing errors to the crate's `ErrorKind`. Each table is stated as one "if and only if" per kind. A lemma shows that the newer GATT table extends the older one.

**The Android data transforms** (`android/adapter.rs`, `android/characteristic.rs`):

- scan filters;
- connection events;
- the connected-device filter, which is a loop proved against a recursive specification;
- advertisement records with per-field fallbacks;
- the order of `discover_devices`;
- the property-flag conversion;
- the notification bit of the Client Characteristic Configuration descriptor;
- the maximum write length.

## Model

| member | source | states |
|---|---|---|
| CfStream.Flag | src/corebluetooth/l2cap_channel/futures_channel.rs:96-100 | each stream event flag is a single bit: 1, 2, 4, 8 or 16 |
| CfStream.MaskOf | src/corebluetooth/l2cap_channel/futures_channel.rs:96-100 | the bitmask of a set of flags is below 32: only the five flag bits can be set |
| CfStream.MaskTestsMembership | src/corebluetooth/l2cap_channel/futures_channel.rs:218-224 | `mask & flag != 0` holds iff the flag is in the mask's set |
| CfStream.MaskOfUnion | src/corebluetooth/l2cap_channel/futures_channel.rs:211 | OR-ing two masks gives the mask of the union of their sets, so `fetch_or` is set union |
| CfStream.MaskDeterminesFlags | src/corebluetooth/l2cap_channel/futures_channel.rs:96-100 | two masks are equal iff their sets of flags are equal, so the set model loses nothing |
| CfStream.DropCalls | src/corebluetooth/l2cap_channel/futures_channel/cf_stream.rs:129-138 | the destructor only closes or unschedules its own stream; it closes iff the stream is open; it unschedules iff it was scheduled, using the recorded loop and mode; close comes before unschedule |
| CfStream.FailedOpenIsOnlyUnscheduled | src/corebluetooth/l2cap_channel/futures_channel/cf_stream.rs:129-138 | a scheduled stream whose open failed is not closed but is unscheduled |
| CfStream.CFStream.constructor | src/corebluetooth/l2cap_channel/futures_channel/cf_stream.rs:94-101 | a new wrapper is neither scheduled nor open |
| CfStream.CFStream.Schedule | src/corebluetooth/l2cap_channel/futures_channel/cf_stream.rs:103-106 | records exactly `(run_loop, mode)`, leaves `open` unchanged, makes one native schedule call |
| CfStream.CFStream.Open | src/corebluetooth/l2cap_channel/futures_channel/cf_stream.rs:108-117 | returns true and sets `open` iff the native call returns 1; on 0 the flag is unchanged; other values are excluded (`unreachable!`) |
| CfStream.CFStream.SetClient | src/corebluetooth/l2cap_channel/futures_channel/cf_stream.rs:119-126 | changes no wrapper state and forwards the native return value |
| CfStream.CFStream.Drop | src/corebluetooth/l2cap_channel/futures_channel/cf_stream.rs:129-138 | makes exactly the calls `DropCalls` gives for the wrapper's state |
| FuturesChannel.SetWakerStep | src/corebluetooth/l2cap_channel/futures_channel.rs:78-82 | needs an empty slot (the assert); afterwards the slot holds the caller's waker and nothing else changed |
| FuturesChannel.PollStep | src/corebluetooth/l2cap_channel/futures_channel.rs:141-172 | Ready iff the stream is ready, carrying the native count and leaving the state untouched; otherwise it stores the waker and returns Pending; a negative native result is excluded (`todo!`/`unreachable!`) |
| FuturesChannel.StopsFor | src/corebluetooth/l2cap_channel/futures_channel.rs:218-224 | a callback requests a run-loop stop iff the event has EndEncountered or ErrorOccurred; at most two stops |
| FuturesChannel.CallbackStep | src/corebluetooth/l2cap_channel/futures_channel.rs:201-225 | the mask becomes old OR event with no other bits; the slot is emptied and a stored waker is woken once; stops are requested iff the event is terminal; the strong count is unchanged |
| FuturesChannel.RetainStep | src/corebluetooth/l2cap_channel/futures_channel.rs:227-231 | the strong count goes up by one and nothing else changes |
| FuturesChannel.ReleaseStep | src/corebluetooth/l2cap_channel/futures_channel.rs:233-236 | the strong count goes down by one and nothing else changes |
| FuturesChannel.ReadyPollKeepsWaker | src/corebluetooth/l2cap_channel/futures_channel.rs:141-153 | a poll that completes returns Ready(n) and leaves the waker slot untouched |
| FuturesChannel.SecondPendingPollPanics | src/corebluetooth/l2cap_channel/futures_channel.rs:78-82 | read and write share one slot, so a second suspending poll with no callback between fails the assert, whatever its direction |
| FuturesChannel.CallbackRearmsPoll | src/corebluetooth/l2cap_channel/futures_channel.rs:211-216 | a callback between two suspending polls empties the slot, so the second poll may suspend; the first poll's waker has been woken |
| FuturesChannel.RetainThenRelease | src/corebluetooth/l2cap_channel/futures_channel.rs:227-236 | retain then release leaves the context unchanged |
| FuturesChannel.CallbacksAccumulate | src/corebluetooth/l2cap_channel/futures_channel.rs:211 | after any run of callbacks the mask is the old mask OR every delivered event: no bit is ever cleared |
| FuturesChannel.CallbacksWakeOnce | src/corebluetooth/l2cap_channel/futures_channel.rs:213-216 | after a non-empty run of callbacks the slot is empty and the previously stored waker was woken exactly once, with no other waker woken |
| FuturesChannel.CallbacksStopIffTerminal | src/corebluetooth/l2cap_channel/futures_channel.rs:218-224 | a run of callbacks requests a stop iff one of its events is terminal |
| FuturesChannel.Retains | src/corebluetooth/l2cap_channel/futures_channel.rs:227-231 | n retains add n to the count and change nothing else |
| FuturesChannel.Releases | src/corebluetooth/l2cap_channel/futures_channel.rs:233-236 | n releases need n references, take n from the count and change nothing else |
| FuturesChannel.BalancedRetainsAndReleases | src/corebluetooth/l2cap_channel/futures_channel.rs:227-236 | n retains followed by n releases restore the context, and the count never drops below its start on the way |
| FuturesChannel.AsyncStreamContext.constructor | src/corebluetooth/l2cap_channel/futures_channel.rs:55-59 | a new context has no events, no waker and one strong reference |
| FuturesChannel.FuturesCFStream.FromStreams | src/corebluetooth/l2cap_channel/futures_channel.rs:50-76 | the stream gets a fresh context with two strong references, one of them for the run-loop thread |
| FuturesChannel.FuturesCFStream.SetWaker | src/corebluetooth/l2cap_channel/futures_channel.rs:78-82 | performs `SetWakerStep` on the shared context |
| FuturesChannel.FuturesCFStream.PollRead | src/corebluetooth/l2cap_channel/futures_channel.rs:141-153 | performs `PollStep` with `has_bytes_available` and the native read |
| FuturesChannel.FuturesCFStream.PollWrite | src/corebluetooth/l2cap_channel/futures_channel.rs:157-172 | performs `PollStep` with `has_space_available` and the native write |
| FuturesChannel.FuturesCFStream.PollFlush | src/corebluetooth/l2cap_channel/futures_channel.rs:174-180 | flush and close complete at once |
| FuturesChannel.Callback | src/corebluetooth/l2cap_channel/futures_channel.rs:201-225 | performs `CallbackStep`; a null context is excluded (the panic) |
| FuturesChannel.ContextRetain | src/corebluetooth/l2cap_channel/futures_channel.rs:227-231 | returns the same context and performs `RetainStep` |
| FuturesChannel.ContextRelease | src/corebluetooth/l2cap_channel/futures_channel.rs:233-236 | performs `ReleaseStep` |
| FuturesChannel.RunloopTrace | src/corebluetooth/l2cap_channel/futures_channel.rs:85-138 | the read stream's client, schedule and open always come first |
| FuturesChannel.Setup | src/corebluetooth/l2cap_channel/futures_channel.rs:103-113 | one stream's set-up is three calls on that stream, none of which closes or unschedules it |
| FuturesChannel.RunloopRunsOnlyAfterBothOpens | src/corebluetooth/l2cap_channel/futures_channel.rs:114-137 | the loop runs iff both opens succeed, and only after both open calls |
| FuturesChannel.FailedReadOpenSparesWriteStream | src/corebluetooth/l2cap_channel/futures_channel.rs:114-117 | when the read open fails, the write stream is never given a client, scheduled, opened, closed or unscheduled |
| FuturesChannel.RunloopUndoesWhatItDid | src/corebluetooth/l2cap_channel/futures_channel.rs:85-138 | each stream is closed iff its open succeeded, and every scheduled stream is unscheduled from the same loop and mode |
| FuturesChannel.WriteTrace | src/corebluetooth/l2cap_channel/futures_channel.rs:119-137 | once the read stream is open, the rest of the trace is the write set-up, the run when the write open succeeded, then both drops |
| FuturesChannel.OpenWriteAndRun | src/corebluetooth/l2cap_channel/futures_channel.rs:119-137 | with the read stream open, makes exactly the calls of `WriteTrace`, ending with the write stream dropped before the read stream |
| FuturesChannel.OpenStreamsAndRun | src/corebluetooth/l2cap_channel/futures_channel.rs:102-137 | makes exactly the calls of `RunloopTrace`, stopping at the first failed open, with the matching outcome |
| FuturesChannel.SetUpStream | src/corebluetooth/l2cap_channel/futures_channel.rs:103-113 | set_client must return 1 (`assert_eq!`); the new stream is scheduled, and open iff the native open returned 1 |
| FuturesChannel.InRunloop | src/corebluetooth/l2cap_channel/futures_channel.rs:85-138 | makes exactly the calls of `RunloopTrace`, with the matching outcome, and leaves the context's strong count where it found it |
| AndroidErrors.FromGattError | src/android/mod.rs:24-64 | the GATT error is kept as the source and its text is the message; never a scanning, readiness or connection-failure kind |
| AndroidErrors.GattNotAuthorizedCases | src/android/mod.rs:30-36 | NotAuthorized iff the error is one of the five permission or security errors, or the NotAllowed or GattWriteNotAllowed status |
| AndroidErrors.GattNotSupportedCases | src/android/mod.rs:37-39 | NotSupported iff the request is unsupported or the status is NotBonded |
| AndroidErrors.GattInvalidParameterCases | src/android/mod.rs:40 | InvalidParameter iff the offset or the attribute length is invalid |
| AndroidErrors.GattTimeoutCases | src/android/mod.rs:41-43 | Timeout iff the connection is congested or timed out, or the status is GattWriteBusy |
| AndroidErrors.GattOtherCases | src/android/mod.rs:44-47 | Other iff the error is GattFailure or the status is ProfileServiceNotBound, FeatureNotSupported or FeatureNotConfigured |
| AndroidErrors.GattInternalCases | src/android/mod.rs:48-53 | Internal iff the error is unknown, a Java error, a CCC descriptor write or not executed, or the status is Unknown or an unknown code |
| AndroidErrors.GattAdapterUnavailableCases | src/android/mod.rs:54-57 | AdapterUnavailable iff the status is NotEnabled or MissingBluetoothConnectPermission |
| AndroidErrors.GattNotConnectedCases | src/android/mod.rs:58 | NotConnected iff the error is NotConnected |
| AndroidErrors.FromJavaError | src/android/mod.rs:66-71 | Internal, with no source, and the debug text as the message |
| AndroidErrors.FromScanError | src/android/mod.rs:73-92 | the scan error is kept as the source and its text is the message; never an access, parameter, connection or pairing kind |
| AndroidErrors.ScanErrorCases | src/android/mod.rs:79-87 | the scan table kind by kind, each as an iff |
| AndroidErrors.FromPairingError | src/android/mod.rs:94-110 | the pairing error is kept as the source and its text is the message; the kind is ConnectionFailed, NotConnected or Other |
| AndroidErrors.PairingErrorCases | src/android/mod.rs:101-105 | the pairing table kind by kind, each as an iff |
| AndroidLegacy.FromLegacyGattError | src/android.rs:22-45 | the error is kept as the source and its text is the message; only the six kinds of the older table occur |
| AndroidLegacy.LegacyGattErrorCases | src/android.rs:27-40 | the older table kind by kind, each as an iff |
| AndroidLegacy.NewTableExtendsLegacy | src/android.rs:27-40 | on every variant both enums share, the older and newer tables choose the same kind |
| AndroidAdapter.GetFilters | src/android/adapter.rs:207-218 | one filter per service, in order, each matching exactly that uuid with no mask |
| AndroidAdapter.FilterUuidsOfGetFilters | src/android/adapter.rs:207-218 | the filters ask for exactly the given services in the given order |
| AndroidAdapter.ConnectionEventOf | src/android/adapter.rs:199-203 | a state is dropped iff it is Connecting or Disconnecting |
| AndroidAdapter.ConnectionEventOfStateOf | src/android/adapter.rs:199-203 | Connected becomes Connected and Disconnected becomes Disconnected, and no other state gives either event |
| AndroidAdapter.ConnectionEvents | src/android/adapter.rs:195-203 | the event stream is never longer than the state stream |
| AndroidAdapter.ConnectionEventsDropOnlyTransitions | src/android/adapter.rs:199-203 | the event stream is as long as the state stream iff no state is Connecting or Disconnecting |
| AndroidAdapter.ConnectionEventsAppend | src/android/adapter.rs:199-203 | the mapping is applied state by state, in order |
| AndroidAdapter.ConnectionEventsOfStates | src/android/adapter.rs:199-203 | the events of the settled states are those events themselves |
| AndroidAdapter.ConnectedDevicesWithServices | src/android/adapter.rs:59-74 | an empty service list is excluded (the assert); a failed device listing is passed on; otherwise the loop computes `DevicesWithServices` |
| AndroidAdapter.DevicesWithServicesSucceeds | src/android/adapter.rs:64-73 | the search succeeds iff every device's service discovery succeeds |
| AndroidAdapter.DevicesWithServicesFirstError | src/android/adapter.rs:64-72 | a failed search reports the error of the first device whose discovery failed |
| AndroidAdapter.DevicesWithServicesMembers | src/android/adapter.rs:64-72 | a successful search keeps a device iff it is connected and offers one of the services |
| AndroidAdapter.DevicesWithServicesAppend | src/android/adapter.rs:64-73 | the kept devices follow the connected list's order, and earlier errors take precedence |
| AndroidAdapter.MapOf | src/android/adapter.rs:122-125 | the service-data map has exactly the keys of the pairs |
| AndroidAdapter.MapOfLastWins | src/android/adapter.rs:124 | each key maps to the data of the last pair with that key |
| AndroidAdapter.ManufacturerDataOf | src/android/adapter.rs:104-117 | no manufacturer data iff there is no entry; otherwise the first entry, with its company id as a u16 |
| AndroidAdapter.AdvertisingDeviceOf | src/android/adapter.rs:90-150 | a field the platform cannot read falls back to None, the empty list, the empty map, None, false or None; a readable field is taken as read, the service data as the map `MapOf` builds from its pairs; the panicking cases are excluded |
| AndroidAdapter.AdvertisingDevicesOf | src/android/adapter.rs:90-151 | each scan record gives one advertising device, in order |
| AndroidAdapter.Scan | src/android/adapter.rs:84-152 | a failure to start the scan is passed on; otherwise the result is `AdvertisingDevicesOf` the records: one `AdvertisingDeviceOf` per record, in order, for the record's device |
| AndroidAdapter.DiscoverDevices | src/android/adapter.rs:160-175 | a failed device listing is passed on; the other two `?` exits are stated by `DiscoverDevicesSkipsScanOnError` and `DiscoverDevicesScanError` |
| AndroidAdapter.DiscoverDevicesScanError | src/android/adapter.rs:164-165 | when the connected devices are found but the scan cannot be started, the result is the scan's error |
| AndroidAdapter.DiscoverDevicesOrder | src/android/adapter.rs:167-174 | every matching connected device comes first, in order, then every scanned device, each wrapped in Ok |
| AndroidAdapter.DiscoverDevicesSkipsScanOnError | src/android/adapter.rs:164-165 | when finding the connected devices fails, the result is the failed service discovery's error and does not depend on the scan |
| AndroidCharacteristic.PropertiesFrom | src/android/characteristic.rs:78-94 | `reliable_write` and `writable_auxiliaries` are always false |
| AndroidCharacteristic.PropertiesRoundTrip | src/android/characteristic.rs:80-92 | no platform flag is lost; a crate value is reached iff its two unreported flags are false |
| AndroidCharacteristic.RenamedFlags | src/android/characteristic.rs:83-88 | write-no-response, signed-write and extended-props become write-without-response, authenticated-signed-writes and extended-properties |
| AndroidCharacteristic.IsNotifying | src/android/characteristic.rs:56-62 | needs the descriptor to be present (`unwrap`) and a read value to be two bytes (`assert_eq!`); a failed lookup or read gives that error, otherwise the answer is the parity of the first byte; its meaning is given by `IsNotifyingDecodesCcc`, `IsNotifyingReadsOnlyBitZero` and `IsNotifyingPassesErrors` |
| AndroidCharacteristic.IsNotifyingDecodesCcc | src/android/characteristic.rs:56-62 | for a stored configuration value the answer is its notification flag, whatever its indication flag |
| AndroidCharacteristic.IsNotifyingReadsOnlyBitZero | src/android/characteristic.rs:61 | the answer is bit 0 of the first byte |
| AndroidCharacteristic.IsNotifyingPassesErrors | src/android/characteristic.rs:58-59 | a failed lookup or read is passed on |
| AndroidCharacteristic.MaxWriteLen | src/android/characteristic.rs:44-50 | always succeeds with a `usize` that no other `usize` exceeds, which is `usize::MAX` |

## Left out

- Threads are not modelled: the spawned run-loop thread, `spawn_blocking`, the blocking `CFRunLoopRun`, atomics and the mutex. Each poll, callback, retain and release is one atomic step on the context.
- The native CoreFoundation functions are not modelled; each is only an entry in a call log.
  - Their return values are parameters: open, set-client, the native read and write, and the readiness predicates.
  - The current run loop and the common-modes constant are parameters.
- The bytes moved by `poll_read` and `poll_write` are not modelled, only the count. The `_stream` field kept alive by the context is left out, and so is `cfstream_context_description`, which returns null.
- `CFStreamEventType` is modelled as the set of its five flags. Bits outside those flags are not represented.
- Panics become preconditions: `assert!`, `assert_eq!`, `unwrap`, `expect`, `todo!`, `unreachable!` and the null-context panic. The model does not describe what happens after a panic.
- CoreFoundation's own retain and release of the client context, made through the registered callbacks, are not modelled. `InRunloop` only accounts for the thread's reference and the one moved into the client context by `Arc::into_raw`. That moved reference is not given back anywhere in `in_runloop`; whether the framework releases it is outside this model.
- Error messages are symbolic. `DisplayOf(err)` and `DebugOf(err)` stand for the platform crate's `Display` and `Debug` texts, which are not part of this model.
- `ErrorKind` holds only the variants these conversions produce.
- The `From<JavaError>` of src/android.rs:47-52 is the same conversion as src/android/mod.rs:66-71 and is modelled by `AndroidErrors.FromJavaError`.
- Platform errors reach the adapter through `?`. There the error type is a parameter, and the conversion step is not repeated.
- `connected_devices` (src/android/adapter.rs:39-52) wraps each platform device together with a clone of the adapter. Its result is an input, and the adapter handle inside `Device` is not modelled.
- Streams produced by `scan`, `discover_devices` and `device_connection_events` are modelled as the finite part consumed so far.
- The `ScanFilter` record keeps only its service criterion. `get_filters` leaves every other criterion at the platform default.
- The logging calls made on each fallback are left out.
- The platform's types for the company id and the transmit power are not part of this model; both are taken as integers. `rssi` is taken as already widened to `i16`.
- `MaxWriteLen`: `usize::MAX` depends on the target, so the pointer width (32 or 64 bits) is a parameter. `max_write_len` and `max_write_len_async` are the same function.
- `FuturesChannel.FuturesCFStream.PollFlush` models both `poll_flush` and `poll_close`, which are identical.
- There is one waker slot, shared by reads and writes, and any callback wakes it whatever its bits.
- A native read or write result of -1 is a `todo!` panic; there is no "would block" fallback.
- `poll_read` has no zero-length-buffer shortcut and no end-of-stream special case.
- No error is recorded when an open fails: `in_runloop` just returns.
- `discover_devices` starts the platform scan before returning its stream, so before any connected device is consumed. It is modelled that way, not as the doc comment's "scanning will begin" once the connected devices are consumed.
