/**
 * The script-side data channel wrapper. A wrapper is either attached to a
 * native channel handle, whose attributes it reads live, or detached, in which
 * case it answers from a snapshot taken when it let go of the handle. Engine
 * callbacks become events on the wrapper's queue; running an event calls the
 * script's `onstatechange` / `onmessage` handlers, recorded here as an output
 * log, and a closed state stops the wrapper's event loop.
 */
module DataChannel {
  import opened Functional

  type byte = x: int | 0 <= x < 0x100
  type int32 = x: int | -0x8000_0000 <= x < 0x8000_0000
  type uint16 = x: int | 0 <= x < 0x1_0000
  type uint64 = x: int | 0 <= x < 0x1_0000_0000_0000_0000

  /** The native channel's ready state. */
  datatype DataState = Connecting | Open | Closing | Closed

  /** A message handed to or received from the native channel. */
  datatype DataBuffer = DataBuffer(data: seq<byte>, binary: bool)

  /** How the script asked binary messages to be presented. */
  datatype BinaryType = Blob | ArrayBuffer

  /** Every attribute the wrapper still promises to expose after detaching. */
  datatype Attributes = Attributes(
    id: int32,
    channelLabel: string,
    maxPacketLifeTime: uint16,
    maxRetransmits: uint16,
    negotiated: bool,
    ordered: bool,
    protocol: string,
    bufferedAmount: uint64)

  /** The cache a fresh wrapper starts with: zero, false and empty strings. */
  const InitialCache: Attributes := Attributes(0, "", 0, 0, false, false, "", 0)

  /** A deferred callback: handle a state change, or deliver a message. */
  datatype Event = StateChangeEvent(state: DataState) | MessageEvent(buffer: DataBuffer)

  /** The argument `onmessage` receives: a string (given by its UTF-8 bytes) or an ArrayBuffer. */
  datatype MessageData = TextMessage(utf8: seq<byte>) | BinaryMessage(bytes: seq<byte>)

  /** What the wrapper does that the script can observe, in order. */
  datatype Output = StateChangeCallback(state: string) | MessageCallback(data: MessageData) | StopCalled

  /** The argument of `send`; a string is given by its UTF-8 bytes. */
  datatype SendData =
    | SendString(utf8: seq<byte>)
    | SendArrayBufferView(buffer: seq<byte>, byteOffset: nat, byteLength: nat)
    | SendArrayBuffer(contents: seq<byte>)
    | SendOther

  /** The errors `send` throws. */
  datatype ScriptError = InvalidStateError(message: string) | TypeError(message: string)

  /** What `send` hands to the native channel, or what it throws. */
  datatype SendResult = Sent(buffer: DataBuffer) | Thrown(error: ScriptError)

  const NotOpen: string := "RTCDataChannel.readyState is not 'open'"
  const ExpectedBlobOrArrayBuffer: string := "Expected a Blob or ArrayBuffer"

  /** The engine guarantees that a view lies inside its buffer. */
  predicate WellFormed(data: SendData)
  {
    data.SendArrayBufferView? ==> data.byteOffset + data.byteLength <= |data.buffer|
  }

  /**
   * The bytes a native string built from a C string keeps: everything before
   * the first 0 byte, or all of them when there is none.
   */
  function UpToNul(s: seq<byte>): (r: seq<byte>)
    ensures r <= s
    ensures 0 !in r
    ensures |r| < |s| ==> s[|r|] == 0
    ensures 0 !in s ==> r == s
  {
    if s == [] || s[0] == 0 then [] else [s[0]] + UpToNul(s[1..])
  }

  /**
   * The buffer `send` builds from its argument once the channel is open:
   * strings go as text, cut at their first 0 byte, views as exactly their
   * byte range, whole buffers as all their bytes, and anything else is a
   * type error.
   */
  function Payload(data: SendData): (r: SendResult)
    requires WellFormed(data)
    ensures r.Sent? <==> !data.SendOther?
    ensures data.SendString? ==> r == Sent(DataBuffer(UpToNul(data.utf8), false))
    ensures data.SendArrayBufferView? ==>
      r == Sent(DataBuffer(data.buffer[data.byteOffset..data.byteOffset + data.byteLength], true))
    ensures data.SendArrayBuffer? ==> r == Sent(DataBuffer(data.contents, true))
    ensures data.SendOther? ==> r == Thrown(TypeError(ExpectedBlobOrArrayBuffer))
  {
    match data
    case SendString(utf8) => Sent(DataBuffer(UpToNul(utf8), false))
    case SendArrayBufferView(buffer, offset, length) => Sent(DataBuffer(buffer[offset..offset + length], true))
    case SendArrayBuffer(contents) => Sent(DataBuffer(contents, true))
    case SendOther => Thrown(TypeError(ExpectedBlobOrArrayBuffer))
  }

  /** The argument `onmessage` receives for a buffer: binary buffers as ArrayBuffers, others as strings. */
  function Delivered(buffer: DataBuffer): MessageData
  {
    if buffer.binary then BinaryMessage(buffer.data) else TextMessage(buffer.data)
  }

  /**
   * What one side sends is what the other side's `onmessage` receives:
   * a string arrives as its bytes up to the first 0 byte (all of them when it
   * holds none), a view or buffer as exactly its bytes.
   */
  lemma SentPayloadIsDelivered(data: SendData)
    requires WellFormed(data) && !data.SendOther?
    ensures Payload(data).Sent?
    ensures data.SendString? ==> Delivered(Payload(data).buffer) == TextMessage(UpToNul(data.utf8))
    ensures data.SendString? && 0 !in data.utf8 ==> Delivered(Payload(data).buffer) == TextMessage(data.utf8)
    ensures data.SendArrayBufferView? ==>
      Delivered(Payload(data).buffer) == BinaryMessage(data.buffer[data.byteOffset..data.byteOffset + data.byteLength])
    ensures data.SendArrayBuffer? ==> Delivered(Payload(data).buffer) == BinaryMessage(data.contents)
  {
  }

  /** The payload `send` is evidently meant to build: a string goes whole, 0 bytes included. */
  function IntendedPayload(data: SendData): (r: SendResult)
    requires WellFormed(data)
    ensures data.SendString? ==> r == Sent(DataBuffer(data.utf8, false))
    ensures !data.SendString? ==> r == Payload(data)
  {
    if data.SendString? then Sent(DataBuffer(data.utf8, false)) else Payload(data)
  }

  /** With the intended payload, every string arrives as exactly the string sent. */
  lemma IntendedStringIsDelivered(utf8: seq<byte>)
    ensures IntendedPayload(SendString(utf8)).Sent?
    ensures Delivered(IntendedPayload(SendString(utf8)).buffer) == TextMessage(utf8)
  {
  }

  /**
   * `send` as written and as intended differ exactly on strings that hold a
   * 0 byte.
   */
  lemma PayloadAgreesWithIntended(data: SendData)
    requires WellFormed(data)
    ensures Payload(data) == IntendedPayload(data) <==> !(data.SendString? && 0 in data.utf8)
  {
    if data.SendString? && 0 in data.utf8 {
      assert UpToNul(data.utf8) != data.utf8;
    }
  }

  /** The string "a", NUL, "b" is sent as "a" alone. */
  lemma NulCutsString()
    ensures Payload(SendString([97, 0, 98])) == Sent(DataBuffer([97], false))
    ensures Payload(SendString([97, 0, 98])) != IntendedPayload(SendString([97, 0, 98]))
  {
    assert UpToNul([0, 98]) == [];
  }

  /** The engine's channel handle. The engine updates its attributes and state at will. */
  class NativeDataChannel {
    var id: int32
    var channelLabel: string
    var maxRetransmitTime: uint16
    var maxRetransmits: uint16
    var negotiated: bool
    var ordered: bool
    var protocol: string
    var bufferedAmount: uint64
    var state: DataState
    /** The observer the engine calls back; only a wrapper or its observer sets it. */
    var observer: object?
    /** The buffers handed to the engine for sending, oldest first. */
    var sent: seq<DataBuffer>
    var closeRequested: bool

    /** The attributes as they are now. */
    function Snapshot(): Attributes
      reads this
    {
      Attributes(id, channelLabel, maxRetransmitTime, maxRetransmits, negotiated, ordered, protocol, bufferedAmount)
    }

    method RegisterObserver(o: object)
      modifies this`observer
      ensures observer == o
    {
      observer := o;
    }

    method UnregisterObserver()
      modifies this`observer
      ensures observer == null
    {
      observer := null;
    }

    method Send(buffer: DataBuffer)
      modifies this`sent
      ensures sent == old(sent) + [buffer]
    {
      sent := sent + [buffer];
    }

    method Close()
      modifies this`closeRequested
      ensures closeRequested
    {
      closeRequested := true;
    }
  }

  /**
   * Watches a native channel before its wrapper exists and keeps the
   * callbacks it receives, in arrival order, for the wrapper to take over.
   */
  class DataChannelObserver {
    const jingleDataChannel: NativeDataChannel
    var queue: seq<Event>

    constructor (jingleDataChannel: NativeDataChannel)
      modifies jingleDataChannel`observer
      ensures this.jingleDataChannel == jingleDataChannel && queue == []
      ensures jingleDataChannel.observer == this
    {
      this.jingleDataChannel := jingleDataChannel;
      queue := [];
      new;
      jingleDataChannel.RegisterObserver(this);
    }

    /** Captures the handle's state now and queues its handling. */
    method OnStateChange()
      modifies this`queue
      ensures queue == old(queue) + [StateChangeEvent(jingleDataChannel.state)]
    {
      var state := jingleDataChannel.state;
      queue := queue + [StateChangeEvent(state)];
    }

    /** Queues the delivery of `buffer`. */
    method OnMessage(buffer: DataBuffer)
      modifies this`queue
      ensures queue == old(queue) + [MessageEvent(buffer)]
    {
      queue := queue + [MessageEvent(buffer)];
    }

    /** Takes the oldest queued event, if there is one. */
    method Dequeue() returns (event: Maybe<Event>)
      modifies this`queue
      ensures old(queue) == [] ==> event == Nothing && queue == []
      ensures old(queue) != [] ==> event == Just(old(queue)[0]) && queue == old(queue)[1..]
    {
      if queue == [] {
        event := Nothing;
      } else {
        event := Just(queue[0]);
        queue := queue[1..];
      }
    }
  }

  /**
   * Moves every event the observer holds onto the channel's queue, behind
   * what the channel already has, keeping their order.
   */
  method Requeue(observer: DataChannelObserver, channel: RTCDataChannel)
    modifies observer`queue, channel`queue
    ensures channel.queue == old(channel.queue) + old(observer.queue)
    ensures observer.queue == []
  {
    var event := observer.Dequeue();
    while event.Just?
      invariant event.Nothing? ==> observer.queue == []
      invariant channel.queue + (if event.Just? then [event.value] else []) + observer.queue
             == old(channel.queue) + old(observer.queue)
      decreases |observer.queue| + (if event.Just? then 1 else 0)
    {
      channel.Dispatch(event.value);
      event := observer.Dequeue();
    }
  }

  /** The script-visible data channel. */
  class RTCDataChannel {
    var binaryType: BinaryType
    /** The native handle while attached; null once detached. */
    var jingleDataChannel: NativeDataChannel?
    /** The snapshot answered from once detached. */
    var cached: Attributes
    /** Events waiting for the wrapper's loop, oldest first. */
    var queue: seq<Event>
    /** Callbacks made into the script and loop stops, in order. */
    var log: seq<Output>
    var stopped: bool

    /** While attached, the wrapper is the handle's registered observer. */
    ghost predicate Valid()
      reads this, jingleDataChannel
    {
      jingleDataChannel != null ==> jingleDataChannel.observer == this
    }

    /** The handle, as a frame: empty once detached. */
    ghost function Handle(): set<NativeDataChannel>
      reads this
    {
      if jingleDataChannel == null then {} else {jingleDataChannel}
    }

    /**
     * Takes over the observer's handle and its pending events, in their
     * order, and starts with the ArrayBuffer binary type and a zero cache.
     */
    constructor (observer: DataChannelObserver)
      modifies observer`queue, observer.jingleDataChannel`observer
      ensures Valid()
      ensures jingleDataChannel == observer.jingleDataChannel
      ensures binaryType == ArrayBuffer && cached == InitialCache
      ensures queue == old(observer.queue) && observer.queue == []
      ensures log == [] && !stopped
    {
      binaryType := ArrayBuffer;
      jingleDataChannel := observer.jingleDataChannel;
      queue := [];
      log := [];
      stopped := false;
      cached := InitialCache;
      new;
      observer.jingleDataChannel.RegisterObserver(this);
      Requeue(observer, this);
    }

    /** Queues an event for the wrapper's loop. */
    method Dispatch(event: Event)
      modifies this`queue
      ensures queue == old(queue) + [event]
    {
      queue := queue + [event];
    }

    /** Stops the wrapper's loop. */
    method Stop()
      modifies this`log, this`stopped
      ensures stopped && log == old(log) + [StopCalled]
    {
      log := log + [StopCalled];
      stopped := true;
    }

    // -------------------------------------------------------------------------
    // Attribute getters
    // -------------------------------------------------------------------------

    function BufferedAmount(): (r: uint64)
      reads this, jingleDataChannel
      ensures jingleDataChannel != null ==> r == jingleDataChannel.bufferedAmount
      ensures jingleDataChannel == null ==> r == cached.bufferedAmount
    {
      if jingleDataChannel != null then jingleDataChannel.bufferedAmount else cached.bufferedAmount
    }

    function Id(): (r: int32)
      reads this, jingleDataChannel
      ensures jingleDataChannel != null ==> r == jingleDataChannel.id
      ensures jingleDataChannel == null ==> r == cached.id
    {
      if jingleDataChannel != null then jingleDataChannel.id else cached.id
    }

    function Label(): (r: string)
      reads this, jingleDataChannel
      ensures jingleDataChannel != null ==> r == jingleDataChannel.channelLabel
      ensures jingleDataChannel == null ==> r == cached.channelLabel
    {
      if jingleDataChannel != null then jingleDataChannel.channelLabel else cached.channelLabel
    }

    function MaxPacketLifeTime(): (r: uint16)
      reads this, jingleDataChannel
      ensures jingleDataChannel != null ==> r == jingleDataChannel.maxRetransmitTime
      ensures jingleDataChannel == null ==> r == cached.maxPacketLifeTime
    {
      if jingleDataChannel != null then jingleDataChannel.maxRetransmitTime else cached.maxPacketLifeTime
    }

    function MaxRetransmits(): (r: uint16)
      reads this, jingleDataChannel
      ensures jingleDataChannel != null ==> r == jingleDataChannel.maxRetransmits
      ensures jingleDataChannel == null ==> r == cached.maxRetransmits
    {
      if jingleDataChannel != null then jingleDataChannel.maxRetransmits else cached.maxRetransmits
    }

    function Negotiated(): (r: bool)
      reads this, jingleDataChannel
      ensures jingleDataChannel != null ==> r == jingleDataChannel.negotiated
      ensures jingleDataChannel == null ==> r == cached.negotiated
    {
      if jingleDataChannel != null then jingleDataChannel.negotiated else cached.negotiated
    }

    function Ordered(): (r: bool)
      reads this, jingleDataChannel
      ensures jingleDataChannel != null ==> r == jingleDataChannel.ordered
      ensures jingleDataChannel == null ==> r == cached.ordered
    {
      if jingleDataChannel != null then jingleDataChannel.ordered else cached.ordered
    }

    /** Every channel reports the same priority. */
    function Priority(): (r: string)
      ensures r == "high"
    {
      "high"
    }

    function Protocol(): (r: string)
      reads this, jingleDataChannel
      ensures jingleDataChannel != null ==> r == jingleDataChannel.protocol
      ensures jingleDataChannel == null ==> r == cached.protocol
    {
      if jingleDataChannel != null then jingleDataChannel.protocol else cached.protocol
    }

    /** A detached wrapper is always closed. */
    function ReadyState(): (r: DataState)
      reads this, jingleDataChannel
      ensures jingleDataChannel != null ==> r == jingleDataChannel.state
      ensures jingleDataChannel == null ==> r == Closed
    {
      if jingleDataChannel != null then jingleDataChannel.state else Closed
    }

    /** All attributes as the getters report them. */
    function Observed(): Attributes
      reads this, jingleDataChannel
    {
      Attributes(Id(), Label(), MaxPacketLifeTime(), MaxRetransmits(), Negotiated(), Ordered(),
                 Protocol(), BufferedAmount())
    }

    /** Sets the binary type when the script value converted; otherwise reports the errors. */
    method SetBinaryType(converted: Validation<BinaryType>) returns (error: Maybe<Errors>)
      modifies this`binaryType
      ensures converted.Valid? ==> binaryType == converted.value && error == Nothing
      ensures converted.Invalid? ==> binaryType == old(binaryType) && error == Just(converted.errors)
    {
      if converted.Invalid? {
        return Just(converted.errors);
      }
      binaryType := converted.value;
      error := Nothing;
    }

    // -------------------------------------------------------------------------
    // Lifecycle
    // -------------------------------------------------------------------------

    /**
     * Detaches: copies every attribute of the handle into the cache and lets
     * go of it. Every attribute getter other than `readyState` reports what it
     * reported before, and `readyState` is then `closed`. Once detached,
     * nothing happens.
     */
    method CleanupInternals()
      modifies this`jingleDataChannel, this`cached, Handle()`observer
      ensures jingleDataChannel == null && Valid()
      ensures old(jingleDataChannel) != null ==>
        cached == old(jingleDataChannel.Snapshot()) && old(jingleDataChannel).observer == null
      ensures old(jingleDataChannel) == null ==> cached == old(cached)
      ensures Observed() == old(Observed())
      ensures ReadyState() == Closed
    {
      if jingleDataChannel == null {
        return;
      }
      jingleDataChannel.UnregisterObserver();
      cached := jingleDataChannel.Snapshot();
      jingleDataChannel := null;
    }

    /** The peer connection closed: detach and stop, unless already detached. */
    method OnPeerConnectionClosed()
      modifies this`jingleDataChannel, this`cached, this`log, this`stopped, Handle()`observer
      ensures jingleDataChannel == null && Valid()
      ensures Observed() == old(Observed())
      ensures old(jingleDataChannel) != null ==>
        && cached == old(jingleDataChannel.Snapshot())
        && old(jingleDataChannel).observer == null
        && stopped && log == old(log) + [StopCalled]
      ensures old(jingleDataChannel) == null ==>
        cached == old(cached) && stopped == old(stopped) && log == old(log)
    {
      if jingleDataChannel != null {
        CleanupInternals();
        Stop();
      }
    }

    /**
     * The engine reports a state change to its registered observer: a closed
     * channel is detached at once, and the state is queued for handling.
     */
    method OnStateChange()
      requires jingleDataChannel != null && Valid()
      modifies this`jingleDataChannel, this`cached, this`queue, Handle()`observer
      ensures Valid()
      ensures queue == old(queue) + [StateChangeEvent(old(jingleDataChannel.state))]
      ensures Observed() == old(Observed())
      ensures old(jingleDataChannel.state) == Closed ==>
        && jingleDataChannel == null
        && cached == old(jingleDataChannel.Snapshot())
        && old(jingleDataChannel).observer == null
      ensures old(jingleDataChannel.state) != Closed ==>
        jingleDataChannel == old(jingleDataChannel) && cached == old(cached)
    {
      var state := jingleDataChannel.state;
      if state == Closed {
        CleanupInternals();
      }
      Dispatch(StateChangeEvent(state));
    }

    /**
     * Handling a state change: `open` and `closed` are reported to
     * `onstatechange`, and `closed` then stops the loop; the other states
     * produce nothing.
     */
    method HandleStateChange(state: DataState)
      modifies this`log, this`stopped
      ensures state == Closed ==> log == old(log) + [StateChangeCallback("closed"), StopCalled] && stopped
      ensures state == Open ==> log == old(log) + [StateChangeCallback("open")] && stopped == old(stopped)
      ensures state == Connecting || state == Closing ==> log == old(log) && stopped == old(stopped)
    {
      if state == Closed {
        log := log + [StateChangeCallback("closed")];
      } else if state == Open {
        log := log + [StateChangeCallback("open")];
      }
      if state == Closed {
        Stop();
      }
    }

    /** The engine delivers a message: its handling is queued. */
    method OnMessage(buffer: DataBuffer)
      modifies this`queue
      ensures queue == old(queue) + [MessageEvent(buffer)]
    {
      Dispatch(MessageEvent(buffer));
    }

    /** Handling a message: `onmessage` receives the buffer's bytes as an ArrayBuffer or a string. */
    method HandleMessage(buffer: DataBuffer)
      modifies this`log
      ensures log == old(log) + [MessageCallback(Delivered(buffer))]
    {
      var message := buffer.data;
      if buffer.binary {
        log := log + [MessageCallback(BinaryMessage(message))];
      } else {
        log := log + [MessageCallback(TextMessage(message))];
      }
    }

    /** Runs one queued event on the wrapper. */
    method RunEvent(event: Event)
      modifies this`log, this`stopped
      ensures event.StateChangeEvent? && event.state == Closed ==>
        log == old(log) + [StateChangeCallback("closed"), StopCalled] && stopped
      ensures event.StateChangeEvent? && event.state == Open ==>
        log == old(log) + [StateChangeCallback("open")] && stopped == old(stopped)
      ensures event.StateChangeEvent? && (event.state == Connecting || event.state == Closing) ==>
        log == old(log) && stopped == old(stopped)
      ensures event.MessageEvent? ==>
        log == old(log) + [MessageCallback(Delivered(event.buffer))] && stopped == old(stopped)
    {
      match event
      case StateChangeEvent(state) => HandleStateChange(state);
      case MessageEvent(buffer) => HandleMessage(buffer);
    }

    /**
     * `send`: only an attached, open channel sends; what it sends is the
     * argument's payload, and a type error sends nothing.
     */
    method Send(data: SendData) returns (r: SendResult)
      requires WellFormed(data)
      modifies Handle()`sent
      ensures jingleDataChannel == null ==> r == Thrown(InvalidStateError(NotOpen))
      ensures jingleDataChannel != null && jingleDataChannel.state != Open ==>
        r == Thrown(InvalidStateError(NotOpen)) && jingleDataChannel.sent == old(jingleDataChannel.sent)
      ensures jingleDataChannel != null && jingleDataChannel.state == Open ==>
        && r == Payload(data)
        && jingleDataChannel.sent == old(jingleDataChannel.sent) + (if r.Sent? then [r.buffer] else [])
    {
      if jingleDataChannel != null {
        if jingleDataChannel.state != Open {
          return Thrown(InvalidStateError(NotOpen));
        }
        if data.SendString? {
          var buffer := DataBuffer(UpToNul(data.utf8), false);
          jingleDataChannel.Send(buffer);
          r := Sent(buffer);
        } else {
          var arraybuffer: seq<byte>;
          var byteOffset: nat := 0;
          var byteLength: nat := 0;
          if data.SendArrayBufferView? {
            arraybuffer := data.buffer;
            byteOffset := data.byteOffset;
            byteLength := data.byteLength;
          } else if data.SendArrayBuffer? {
            arraybuffer := data.contents;
            byteLength := |arraybuffer|;
          } else {
            return Thrown(TypeError(ExpectedBlobOrArrayBuffer));
          }
          var buffer := DataBuffer(arraybuffer[byteOffset..byteOffset + byteLength], true);
          assert data.SendArrayBuffer? ==> arraybuffer[byteOffset..byteOffset + byteLength] == data.contents;
          jingleDataChannel.Send(buffer);
          r := Sent(buffer);
        }
      } else {
        r := Thrown(InvalidStateError(NotOpen));
      }
    }

    /** `close`: asks the engine to close an attached channel; a detached one is left alone. */
    method Close()
      modifies Handle()`closeRequested
      ensures jingleDataChannel != null ==> jingleDataChannel.closeRequested
    {
      if jingleDataChannel != null {
        jingleDataChannel.Close();
      }
    }
  }

  /**
   * Events an observer caught before the wrapper existed are handled first,
   * in order; a close the wrapper itself observes detaches it, and handling
   * that close reports it and stops the loop, with the snapshot in place.
   */
  method OpenMessageCloseScenario(handle: NativeDataChannel)
    returns (outputs: seq<Output>, stopped: bool, attached: bool, channelLabel: string)
    modifies handle
    ensures outputs == [StateChangeCallback("open"), MessageCallback(TextMessage([104, 105])),
                        StateChangeCallback("closed"), StopCalled]
    ensures stopped && !attached
    ensures channelLabel == old(handle.channelLabel)
  {
    var observer := new DataChannelObserver(handle);
    handle.state := Open;
    observer.OnStateChange();
    observer.OnMessage(DataBuffer([104, 105], false));
    assert observer.queue == [StateChangeEvent(Open), MessageEvent(DataBuffer([104, 105], false))];
    var channel := new RTCDataChannel(observer);
    assert channel.jingleDataChannel == handle && handle.observer == channel;
    assert channel.log == [] && !channel.stopped;
    ghost var handleLabel := handle.channelLabel;
    handle.state := Closed;
    channel.OnStateChange();
    assert channel.jingleDataChannel == null && channel.log == [] && !channel.stopped;
    assert channel.cached.channelLabel == handleLabel;
    assert channel.queue == [StateChangeEvent(Open), MessageEvent(DataBuffer([104, 105], false)),
                             StateChangeEvent(Closed)];
    channel.RunEvent(channel.queue[0]);
    assert channel.log == [StateChangeCallback("open")];
    channel.RunEvent(channel.queue[1]);
    assert channel.log == [StateChangeCallback("open"), MessageCallback(TextMessage([104, 105]))];
    channel.RunEvent(channel.queue[2]);
    outputs, stopped, attached, channelLabel := channel.log, channel.stopped, channel.jingleDataChannel != null, channel.Label();
  }

  /**
   * A close the observer caught before the wrapper existed is handled
   * without detaching: the wrapper stops while still attached to the handle.
   */
  method ClosedBeforeWrappingScenario(handle: NativeDataChannel)
    returns (outputs: seq<Output>, stopped: bool, attached: bool)
    modifies handle
    ensures outputs == [StateChangeCallback("closed"), StopCalled]
    ensures stopped && attached
  {
    var observer := new DataChannelObserver(handle);
    handle.state := Closed;
    observer.OnStateChange();
    var channel := new RTCDataChannel(observer);
    channel.RunEvent(channel.queue[0]);
    outputs, stopped, attached := channel.log, channel.stopped, channel.jingleDataChannel != null;
  }
}
