# node-webrtc bridging core: a Dafny model

This project models two pieces of the layer that binds a native WebRTC engine
to a single-threaded script runtime.

- **Conversion adapters** (`napi.dfy`, module `NapiConverters`, on top of
  `functional.dfy`, module `Functional`). These generic rules turn a script
  value into a native `Maybe<T>` or vector, and back. Every result is a
  `Validation`: `Valid(v)` or `Invalid(errors)` with a non-empty error list.
  The element converter is a function parameter. An array read that leaves an
  exception pending is a `Slot` that `Throws(message)`. An exception pending
  after a store is a parameter `pendingAfterSet`. The two vector adapters are
  loops, as in the source. Each is proved equal to a specification function
  built on one fail-fast combinator, `Collect`. `Collect`'s contract gives the
  success case (same length, element `i` is element `i` converted) and the
  failure case (exactly the errors of the first failing position).
- **Data channel wrapper** (`data_channel.dfy`, module `DataChannel`). The
  wrapper `RTCDataChannel` is either attached to a native handle
  (`NativeDataChannel`, whose fields the engine may change at any time) or
  detached. When detached it answers from a `cached` snapshot of the handle's
  attributes. The pre-wrapper observer's queue and the wrapper's queue are
  `seq<Event>`. Script callbacks and loop stops are appended to an output
  `log`, and `stopped` records a `Stop`. `RunEvent` is what one queued closure
  does when the wrapper's loop runs it.

Four behaviours of the code are easy to miss:

- A round trip of an absent optional does not give back `Nothing`.
  `Nothing` becomes `null`, and `null` is not treated as absent: it goes to
  the element converter (`NothingDoesNotRoundTrip`).
- A closed state change can stop the wrapper without first taking the
  snapshot. This happens when the observer captured the closed state before
  the wrapper existed. That event runs `HandleStateChange`, which calls `Stop`
  and not `CleanupInternals`, so the wrapper stops while still attached
  (`ClosedBeforeWrappingScenario`). When the wrapper itself sees the close
  (`OnStateChange`, `OnPeerConnectionClosed`), it detaches first.
- `HandleMessage` never looks at `binaryType`. A binary buffer is always
  delivered as an ArrayBuffer.
- `send` of a string sends only the bytes before the string's first 0 byte.
  The UTF-8 bytes are copied into a `std::string` from a C string, which stops
  at the first 0 (`UpToNul`, `NulCutsString`; see "## Findings").

Strings are modelled by their UTF-8 bytes. A sent string keeps the bytes before its first 0 byte. A delivered string keeps all of its bytes.
`HandleStateChange` is a static function in the source that takes the channel;
here it is a method of the channel.

## Model

| member | source | states |
|---|---|---|
| `NapiConverters.MaybeFromValue` | src/converters/napi.h:46-53 | `undefined` gives `Valid(Nothing)` whatever the element converter is. The result is `Valid(Nothing)` exactly when the value is `undefined`. For any other value, `null` included, the result is valid exactly when `from` is: `Valid(Just(x))` for `from`'s `Valid(x)`, and otherwise `from`'s errors unchanged. |
| `NapiConverters.MaybeToValue` | src/converters/napi.h:55-62 | `Nothing` gives `Valid(Null)`. `Just(x)` gives exactly what the element converter gives for `x`. |
| `NapiConverters.NothingDoesNotRoundTrip` | src/converters/napi.h:49-60 | `Nothing` goes out as `null`, and converting that `null` back never gives `Valid(Nothing)`, for every pair of element converters. |
| `NapiConverters.JustRoundTrip` | src/converters/napi.h:49-60 | `Just(x)` comes back as `Valid(Just(x))` when the element converters round-trip on `x` and `x` does not become `undefined`. |
| `NapiConverters.ValueToArray` | src/converters/napi.h:64-71 | Succeeds exactly for array values, with their elements. Anything else gives `Invalid(["Expected an array"])`. |
| `NapiConverters.Collect` | src/converters/napi.h:78-89 | The fail-fast rule that both vector loops follow. The result is valid exactly when every position is valid; then it has the same length and holds position `i`'s value at index `i`. Otherwise it holds exactly the errors of the first invalid position. |
| `NapiConverters.CollectIgnoresSuffix` | src/converters/napi.h:80-86 | When position `k` is the first invalid one, the result is `k`'s errors, and replacing everything after `k` does not change it. |
| `NapiConverters.ArrayToVector` | src/converters/napi.h:73-91 | The loop reads positions in index order. It returns a pending exception's message or the converter's errors at the first failing position, and otherwise the converted elements in order. The result equals `VectorFromArray`, that is, `Collect` of the per-position reads. |
| `NapiConverters.ArrayFailFast` | src/converters/napi.h:78-86 | If element `k` is the first whose read throws or whose conversion fails, converting the array gives exactly that element's errors. The elements after `k` do not affect the result. |
| `NapiConverters.VectorToArray` | src/converters/napi.h:93-111 | The loop fills a preallocated array of the vector's length. It aborts with the first conversion error, or with the message of an exception pending after a `Set`. On success every position `i` holds element `i` converted. The result equals `ArrayFromVector`. |
| `NapiConverters.VectorRoundTrip` | src/converters/napi.h:73-111 | When the element converters round-trip and no store throws, a vector converted to an array and back is the same vector. |
| `DataChannel.DataChannelObserver.constructor` | src/interfaces/rtc_data_channel.cc:28-33 | The observer holds the handle, has an empty queue, and is the handle's registered observer. |
| `DataChannel.DataChannelObserver.OnStateChange` | src/interfaces/rtc_data_channel.cc:35-40 | Appends a state-change event carrying the handle's state at the time of the callback. |
| `DataChannel.DataChannelObserver.OnMessage` | src/interfaces/rtc_data_channel.cc:42-46 | Appends a message event carrying the buffer. |
| `DataChannel.Requeue` | src/interfaces/rtc_data_channel.cc:48-52 | Afterwards the channel's queue is its old queue followed by the observer's old queue, in the original order. The observer's queue is empty, so nothing is lost or duplicated. |
| `DataChannel.RTCDataChannel.constructor` | src/interfaces/rtc_data_channel.cc:54-73 | The new wrapper is attached to the observer's handle and is its registered observer. Its queue holds the observer's pending events in order, and the observer's queue is empty. `binaryType` is ArrayBuffer, the cache is all zero, false and empty, the log is empty, and the wrapper is not stopped. |
| `DataChannel.RTCDataChannel.CleanupInternals` | src/interfaces/rtc_data_channel.cc:79-93 | When attached: the cache becomes the handle's current attributes, the handle has no observer, and the wrapper is detached. When already detached: nothing changes. Either way every attribute getter other than `readyState` reports what it reported before, and `readyState` is `closed` afterwards. |
| `DataChannel.RTCDataChannel.OnPeerConnectionClosed` | src/interfaces/rtc_data_channel.cc:95-100 | When attached: it detaches with the snapshot and then appends a single `Stop`. When detached: the cache, log and stopped flag are unchanged, so a second call does nothing. |
| `DataChannel.RTCDataChannel.OnStateChange` | src/interfaces/rtc_data_channel.cc:116-124 | The state read from the handle is queued. If that state is `closed`, the wrapper detaches, with the snapshot, before queuing. Any other state leaves the handle and cache as they were. |
| `DataChannel.RTCDataChannel.HandleStateChange` | src/interfaces/rtc_data_channel.cc:126-139 | `closed` emits `onstatechange("closed")` and then `Stop`. `open` emits `onstatechange("open")` and does not stop. `connecting` and `closing` emit nothing. |
| `DataChannel.RTCDataChannel.OnMessage` | src/interfaces/rtc_data_channel.cc:141-145 | Appends a message event carrying the buffer to the wrapper's queue. |
| `DataChannel.RTCDataChannel.HandleMessage` | src/interfaces/rtc_data_channel.cc:147-167 | Emits one `onmessage` call, whose payload is the buffer's bytes. A binary buffer arrives as an ArrayBuffer, any other buffer as a string. |
| `DataChannel.RTCDataChannel.RunEvent` | src/interfaces/rtc_data_channel.cc:116-145 | A queued state change behaves as `HandleStateChange` of its captured state. A queued message behaves as `HandleMessage` of its buffer. |
| `DataChannel.UpToNul` | src/interfaces/rtc_data_channel.cc:178-180 | The bytes kept when a `std::string` is built from a C string: a prefix of the input with no 0 byte in it. It is followed in the input by a 0 byte, or it is the whole input. The whole input is kept exactly when it holds no 0 byte. |
| `DataChannel.Payload` | src/interfaces/rtc_data_channel.cc:176-206 | A string is sent as a non-binary buffer of its bytes up to its first 0 byte (`UpToNul`). A view is sent as exactly bytes `[offset, offset+length)` of its buffer, as binary. A whole ArrayBuffer is sent as all its bytes, as binary. Any other value gives `TypeError("Expected a Blob or ArrayBuffer")`. |
| `DataChannel.RTCDataChannel.Send` | src/interfaces/rtc_data_channel.cc:169-210 | A detached channel, or one whose handle is not `open`, gives `InvalidStateError("RTCDataChannel.readyState is not 'open'")` and sends nothing. An open channel gives `Payload(data)` and appends its buffer to what the handle sent. It appends nothing on a type error. |
| `DataChannel.SentPayloadIsDelivered` | src/interfaces/rtc_data_channel.cc:147-206 | What `send` puts on the wire reaches `onmessage` unchanged. A string arrives as its bytes up to the first 0 byte, and as exactly its bytes when it holds no 0 byte. A view arrives as exactly its byte range and a buffer as all its bytes, both as ArrayBuffers. |
| `DataChannel.NulCutsString` | src/interfaces/rtc_data_channel.cc:178-181 | Sending the string "a", NUL, "b" sends the non-binary buffer "a" alone, which is not what `IntendedPayload` sends. |
| `DataChannel.IntendedPayload` | src/interfaces/rtc_data_channel.cc:176-206 | The payload `send` is evidently meant to build: a string goes whole as a non-binary buffer, 0 bytes included. Every other argument is treated as in `Payload`. |
| `DataChannel.IntendedStringIsDelivered` | src/interfaces/rtc_data_channel.cc:147-181 | With the intended payload, every string reaches `onmessage` as exactly the bytes sent. |
| `DataChannel.PayloadAgreesWithIntended` | src/interfaces/rtc_data_channel.cc:176-206 | `send` as written and as intended build the same payload exactly when the argument is not a string holding a 0 byte. |
| `DataChannel.RTCDataChannel.Close` | src/interfaces/rtc_data_channel.cc:212-218 | An attached channel asks its handle to close. A detached channel changes nothing. |
| `DataChannel.RTCDataChannel.BufferedAmount` | src/interfaces/rtc_data_channel.cc:220-230 | Gives the live handle value while attached and the cached value once detached. |
| `DataChannel.RTCDataChannel.Id` | src/interfaces/rtc_data_channel.cc:232-242 | Gives the live handle value while attached and the cached value once detached. |
| `DataChannel.RTCDataChannel.Label` | src/interfaces/rtc_data_channel.cc:244-254 | Gives the live handle value while attached and the cached value once detached. |
| `DataChannel.RTCDataChannel.MaxPacketLifeTime` | src/interfaces/rtc_data_channel.cc:256-266 | Gives the handle's `maxRetransmitTime` while attached and the cached value once detached. |
| `DataChannel.RTCDataChannel.MaxRetransmits` | src/interfaces/rtc_data_channel.cc:268-278 | Gives the live handle value while attached and the cached value once detached. |
| `DataChannel.RTCDataChannel.Negotiated` | src/interfaces/rtc_data_channel.cc:280-290 | Gives the live handle value while attached and the cached value once detached. |
| `DataChannel.RTCDataChannel.Ordered` | src/interfaces/rtc_data_channel.cc:292-302 | Gives the live handle value while attached and the cached value once detached. |
| `DataChannel.RTCDataChannel.Priority` | src/interfaces/rtc_data_channel.cc:304-308 | Always `"high"`. |
| `DataChannel.RTCDataChannel.Protocol` | src/interfaces/rtc_data_channel.cc:310-320 | Gives the live handle value while attached and the cached value once detached. |
| `DataChannel.RTCDataChannel.ReadyState` | src/interfaces/rtc_data_channel.cc:322-334 | Gives the handle's state while attached and `closed` once detached. |
| `DataChannel.RTCDataChannel.SetBinaryType` | src/interfaces/rtc_data_channel.cc:346-354 | A value that converts sets `binaryType`. A value that fails to convert leaves it unchanged and reports the conversion errors. |
| `DataChannel.OpenMessageCloseScenario` | src/interfaces/rtc_data_channel.cc:54-139 | The observer catches `open` and the message "hi". The wrapper is created, and then it sees `closed` itself. Running the queue emits `onstatechange("open")`, `onmessage("hi")`, `onstatechange("closed")` and `Stop`, in that order. Afterwards the wrapper is stopped and detached, and its label is still the handle's label. |
| `DataChannel.ClosedBeforeWrappingScenario` | src/interfaces/rtc_data_channel.cc:35-139 | When the observer catches `closed` before the wrapper exists, running that event emits `onstatechange("closed")` and `Stop`. The wrapper is then stopped but still attached. |

## Left out

- Script-engine plumbing is not modelled: handle scopes, `Escape`, `Nan::New`, the internals of `MakeCallback`, `Init` with its accessor registration, the persistent `constructor()`, and the construct-call check in `New`.
- `wrap()`, `Create` and the destructor's `Release` are not modelled. The wrap registry and `AsyncObjectWrapWithLoop` are not part of this model. `Dispatch` appends to `queue`, and `Stop` appends to `log` and sets `stopped`. The loop that drains the queue and decides when to run events is not modelled. A client runs events through `RunEvent` in queue order.
- `Enqueue` and `Dequeue` are safe to call from engine threads. The model has no concurrency; both queues are sequential FIFO `seq<Event>`. The observer's `Enqueue` is the append in its `OnStateChange` and `OnMessage`, and `DataChannelObserver.Dequeue` takes the oldest event or gives `Nothing` when the queue is empty.
- The scalar converters declared at src/converters/napi.h:30-44 are not modelled. Their bodies are not part of this model, and `double` is floating point.
- `Validation`'s combination of several results is not modelled. src/functional/validation.h is not part of this model, and the adapters here never combine results.
- The composition of `Value` to `Napi::Array` to vector is defined elsewhere. `VectorRoundTrip` composes `ValueToArray` and `VectorFromArray` itself.
- A pending exception after a store is reported at napi.h:106 as the exception object, not as its `.Message()`. Both this case and the read case at napi.h:81 are modelled as a message string.
- The `uint32_t` index of the vector loops and the JavaScript Number returned by the getters are not modelled. Arrays longer than 2^32 elements are out of scope. Buffered amounts above 2^53 would lose precision in the source.
- `HandleMessage`'s raw copy into an internalized ArrayBuffer is not modelled. Only the delivered bytes and the choice between ArrayBuffer and string are. UTF-8 encoding and decoding of strings are not modelled.
- `_factory` (the shared peer-connection factory) is not modelled, because no modelled operation uses it. `delete observer` in the constructor is not modelled either. The observer is left with an empty queue.
- The native handle's `RegisterObserver`, `UnregisterObserver`, `Send` and `Close` are engine code. They are modelled as setting `observer`, appending to `sent`, and setting `closeRequested`.
- `GetBinaryType` is the `binaryType` field itself. Converting `binaryType` and `readyState` to script strings is not modelled, and neither is converting a script value to `BinaryType`. `SetBinaryType` takes that conversion's result as its argument. The enum converters are not part of this model.
- `NapiConverters.ArrayToVector`: the engine array is read as a fixed sequence of slots. The source re-reads `Length()` on every iteration (napi.h:78). A getter run by `Get(i)` could grow, shrink or rewrite the array during the loop, and that is not modelled.
- `NapiConverters.VectorToArray`: a store into the fresh array is assumed to land. A setter on the array's prototype that intercepts `Set(i, …)` (napi.h:104) and does not store the value is not modelled. Only an exception it leaves pending is modelled, as `pendingAfterSet`.
- `DataChannel.RTCDataChannel.Send` models the code as written and cuts strings at their first 0 byte. The whole-string send is `IntendedPayload`, and `PayloadAgreesWithIntended` states where the two differ.
- `DataChannel.RTCDataChannel.OnStateChange` requires an attached wrapper that is the handle's registered observer (`Valid()`). The source dereferences the handle there without a check, and the engine only calls its registered observer.

## Findings

| source | as written | input that shows it | evidently intended | confidence | as-written member | corrected member |
|---|---|---|---|---|---|---|
| src/interfaces/rtc_data_channel.cc:178-180 | the string's UTF-8 bytes become a `std::string` through a C string pointer, so `send` keeps only the bytes before the first 0 byte | `send("a\u0000b")`, UTF-8 bytes `[97, 0, 98]`, sends the text buffer `[97]` | the whole string is sent, 0 bytes included | high; not executed | `DataChannel.NulCutsString` | `DataChannel.IntendedPayload` |

`IntendedStringIsDelivered` proves that the intended payload delivers every string whole. `PayloadAgreesWithIntended` proves that the two payloads differ exactly on strings that hold a 0 byte.
