/**
 * services/xbee_service.py: the radio service. It keeps a bounded queue of
 * received messages (dropping the oldest when full), drains the queue into an
 * optional custom handler, renders the sender's 64-bit address in hex, builds
 * the compact JSON envelope for outgoing data, and guards sending on an open
 * device.
 *
 * The receive thread and the queue thread are modelled as sequential calls;
 * the radio itself is reduced to whether the device is open and to the
 * outcome of each transmission, given as a parameter.
 */
module XbeeService {
  import opened Wrappers
  import opened Text
  import Json

  newtype byte = x: int | 0 <= x < 256

  /** `int.from_bytes(bytes, "big")`. */
  function BigEndian(bytes: seq<byte>): (n: nat)
    ensures n < Pow(256, |bytes|)
    decreases |bytes|
  {
    if |bytes| == 0 then 0
    else BigEndian(bytes[..|bytes| - 1]) * 256 + bytes[|bytes| - 1] as nat
  }

  lemma {:induction false} PowSquare(k: nat)
    ensures Pow(256, k) == Pow(16, 2 * k)
  {
    if k > 0 {
      PowSquare(k - 1);
      assert Pow(16, 2 * k) == 16 * (16 * Pow(16, 2 * (k - 1)));
    }
  }

  /** The `sender` field: `f"{address:016X}"` of the big-endian address. */
  function SenderHex(address: seq<byte>): (s: string)
    ensures forall i :: 0 <= i < |s| ==> IsUpperHex(s[i])
  {
    FormatHex(BigEndian(address), 16)
  }

  /**
   * A 64-bit address renders as exactly 16 upper-case hex digits, and those
   * digits read back as the address.
   */
  lemma SenderHexOf64BitAddress(address: seq<byte>)
    requires |address| == 8
    ensures |SenderHex(address)| == 16
    ensures HexValue(SenderHex(address)) == BigEndian(address)
  {
    PowSquare(8);
    FormatHexWidth(BigEndian(address), 16);
    FormatHexRoundTrip(BigEndian(address), 16);
  }

  // ---------------------------------------------------------------------
  // Message dictionaries
  // ---------------------------------------------------------------------

  /** The values the message dictionaries hold. */
  datatype Field = Text(s: string) | Flag(b: bool) | Time(t: real)

  type MessageDict = map<string, Field>

  /**
   * What the XBee library hands to the receive callback: the payload's UTF-8
   * decoding (`None` when the bytes are not valid UTF-8), the sender's 64-bit
   * address, the broadcast flag and the reception time.
   */
  datatype Received = Received(decoded: Option<string>, remoteAddress: seq<byte>, isBroadcast: bool, timestamp: real)

  /** The dictionary the receive callback queues for a decoded message. */
  function MessageFull(m: Received, data: string): (d: MessageDict)
    ensures d.Keys == {"sender", "isBroadcast", "data", "timestamp"}
    ensures d["sender"] == Text(SenderHex(m.remoteAddress)) && d["data"] == Text(data)
    ensures d["isBroadcast"] == Flag(m.isBroadcast) && d["timestamp"] == Time(m.timestamp)
  {
    map["sender" := Text(SenderHex(m.remoteAddress)), "isBroadcast" := Flag(m.isBroadcast),
        "data" := Text(data), "timestamp" := Time(m.timestamp)]
  }

  /** `dict.get(key, default)`. */
  function Get(d: MessageDict, key: string, default: Field): (f: Field)
    ensures key in d ==> f == d[key]
    ensures key !in d ==> f == default
  {
    if key in d then d[key] else default
  }

  /** The four values `handle_processed_message` logs. */
  datatype Summary = Summary(sender: Field, isBroadcast: Field, data: Field, timestamp: Field)

  /** The summary with its defaults: "Unknown", `False`, "" and 0. */
  function Summarize(d: MessageDict): (r: Summary)
    ensures "sender" !in d ==> r.sender == Text("Unknown")
    ensures "isBroadcast" !in d ==> r.isBroadcast == Flag(false)
    ensures "data" !in d ==> r.data == Text("")
    ensures "timestamp" !in d ==> r.timestamp == Time(0.0)
  {
    Summary(Get(d, "sender", Text("Unknown")), Get(d, "isBroadcast", Flag(false)),
            Get(d, "data", Text("")), Get(d, "timestamp", Time(0.0)))
  }

  /** A queued message never falls back on a default: every logged value is the received one. */
  lemma SummaryOfReceived(m: Received, data: string)
    ensures Summarize(MessageFull(m, data))
         == Summary(Text(SenderHex(m.remoteAddress)), Flag(m.isBroadcast), Text(data), Time(m.timestamp))
  {
  }

  // ---------------------------------------------------------------------
  // The bounded queue (`Queue(maxsize=...)`, `put_nowait`, `get_nowait`)
  // ---------------------------------------------------------------------

  /** `Queue(maxsize)` is bounded only for a positive `maxsize`. */
  predicate Fits(q: seq<MessageDict>, maxSize: int)
  {
    maxSize > 0 ==> |q| <= maxSize
  }

  /**
   * The receive callback's enqueue: `put_nowait`, and when that raises
   * `Full`, `get_nowait` (drop the oldest) then `put_nowait` again.
   * The queue becomes the newest messages of `q + [m]` that fit.
   */
  function Enqueue(q: seq<MessageDict>, maxSize: int, m: MessageDict): (r: seq<MessageDict>)
    requires Fits(q, maxSize)
    ensures Fits(r, maxSize) && |r| >= 1 && r[|r| - 1] == m
    ensures |r| == if maxSize > 0 && |q| + 1 > maxSize then maxSize else |q| + 1
    ensures r == (q + [m])[|q| + 1 - |r|..]
  {
    if maxSize > 0 && |q| >= maxSize then q[1..] + [m] else q + [m]
  }

  /** Into a queue with room the message goes at the back and nothing else moves. */
  lemma EnqueueWithRoom(q: seq<MessageDict>, maxSize: int, m: MessageDict)
    requires Fits(q, maxSize) && (maxSize <= 0 || |q| < maxSize)
    ensures Enqueue(q, maxSize, m) == q + [m]
  {
  }

  /** Into a full queue exactly the oldest message is dropped. */
  lemma EnqueueWhenFull(q: seq<MessageDict>, maxSize: int, m: MessageDict)
    requires maxSize > 0 && |q| == maxSize
    ensures Enqueue(q, maxSize, m) == q[1..] + [m]
    ensures |Enqueue(q, maxSize, m)| == maxSize
  {
  }

  /** The state of `queue_thread`. */
  datatype ThreadState = NotStarted | Alive | Finished

  /** The destination of a transmission. */
  datatype Destination = Broadcast | Unicast(receiver: seq<byte>)

  datatype Transmission = Transmission(destination: Destination, payload: string)

  /** What the radio does with a frame handed to it: send it or raise an XBee or other exception. */
  datatype LinkOutcome = Accepted | XBeeFailure | OtherFailure

  /** What a guarded send call produces: `None` from the guard, a returned flag, or an exception. */
  datatype Reply = Skipped | Returned(ok: bool) | Raised

  // ---------------------------------------------------------------------
  // The outgoing JSON envelope
  // ---------------------------------------------------------------------

  /**
   * `construct_message`: `json.dumps` of `{"i": address, "d": data, "t": nowMs}`
   * with every newline and then every space removed (the UTF-8 encoding is
   * left to the radio). `nowMs` is `int(time.time()*1000)`.
   */
  function ConstructMessage(address: Json.Value, data: string, nowMs: int): (r: string)
    ensures ' ' !in r && '\n' !in r
  {
    Json.Squeeze(Json.Object3("i", Json.Render(address), "d", Json.Render(Json.Str(data)), "t", IntToString(nowMs)))
  }

  /**
   * The envelope `construct_message` sends is the compact dictionary with
   * keys `i`, `d` and `t`: the data lose their spaces (and only their
   * spaces), a JSON decoder reads the `d` field back as exactly those data,
   * and the timestamp is written out in full.
   */
  lemma ConstructMessageIsCompact(address: Json.Value, data: string, nowMs: int)
    ensures ConstructMessage(address, data, nowMs)
         == Json.CompactObject3("i", Json.Squeeze(Json.Render(address)),
                                "d", Json.Render(Json.Str(Json.Remove(data, ' '))),
                                "t", IntToString(nowMs))
    ensures Json.Unescape(Json.Escape(Json.Remove(data, ' '))) == Some(Json.Remove(data, ' '))
  {
    assert Json.Render(Json.Str("i")) == "\"i\"" by { assert Json.Escape("i") == "i"; }
    assert Json.Render(Json.Str("d")) == "\"d\"" by { assert Json.Escape("d") == "d"; }
    assert Json.Render(Json.Str("t")) == "\"t\"" by { assert Json.Escape("t") == "t"; }
    Json.SqueezeObject3("i", Json.Render(address), "d", Json.Render(Json.Str(data)), "t", IntToString(nowMs));
    Json.SqueezeRenderedString(data);
    var t := IntToString(nowMs);
    IntToStringPlain(nowMs);
    assert '\n' !in t && ' ' !in t by { assert IsSpace('\n') && IsSpace(' ') && NoSpace(t); }
    Json.SqueezeBlankFree(t);
    Json.UnescapeEscape(Json.Remove(data, ' '));
  }

  // ---------------------------------------------------------------------
  // The service
  // ---------------------------------------------------------------------

  class Service {
    const port: string
    const baudrate: int
    /** What `get_16bit_addr()` returned when the service was built. */
    const address: Json.Value
    /** Whether a (truthy) `message_received_callback` was given. */
    const hasCallback: bool
    const maxQueueSize: int
    var deviceOpen: bool
    var listening: bool
    var recentMessages: seq<MessageDict>
    var stopEvent: bool
    var queueThread: ThreadState
    /** Whether `custom_message_handler` is set to something callable. */
    var customHandler: bool
    /** Every dictionary handed to the custom handler, oldest first. */
    var delivered: seq<MessageDict>
    /** Every frame the radio accepted, oldest first. */
    var transmitted: seq<Transmission>

    ghost predicate Valid()
      reads this
    {
      Fits(recentMessages, maxQueueSize)
    }

    /**
     * `__init__`: the device is created closed, the queue is empty, and the
     * queue thread is started only when a callback was given.
     */
    constructor(port: string, baudrate: int, address: Json.Value, hasCallback: bool, maxQueueSize: int)
      ensures Valid()
      ensures this.port == port && this.baudrate == baudrate && this.address == address
      ensures this.hasCallback == hasCallback && this.maxQueueSize == maxQueueSize
      ensures !deviceOpen && !listening && recentMessages == [] && !stopEvent
      ensures queueThread == (if hasCallback then Alive else NotStarted)
      ensures !customHandler && delivered == [] && transmitted == []
    {
      this.port := port;
      this.baudrate := baudrate;
      this.address := address;
      this.hasCallback := hasCallback;
      this.maxQueueSize := maxQueueSize;
      deviceOpen := false;
      listening := false;
      recentMessages := [];
      stopEvent := false;
      queueThread := if hasCallback then Alive else NotStarted;
      customHandler := false;
      delivered := [];
      transmitted := [];
    }

    /** `set_custom_message_handler`: the handler is called later only if it is callable. */
    method SetCustomMessageHandler(callable: bool)
      modifies this
      ensures customHandler == callable
      ensures recentMessages == old(recentMessages) && delivered == old(delivered)
      ensures deviceOpen == old(deviceOpen) && stopEvent == old(stopEvent) && queueThread == old(queueThread)
      ensures listening == old(listening) && transmitted == old(transmitted)
    {
      customHandler := callable;
    }

    /**
     * `handle_processed_message`: the summary is only logged; the custom
     * handler, when set, receives the dictionary itself. Its exceptions are
     * caught, so the call always completes.
     */
    method HandleProcessedMessage(d: MessageDict) returns (logged: Summary)
      modifies this`delivered
      ensures logged == Summarize(d)
      ensures delivered == old(delivered) + (if customHandler then [d] else [])
    {
      logged := Summarize(d);
      if customHandler {
        delivered := delivered + [d];
      }
    }

    /**
     * `queue_processor`, run for `rounds` passes of its loop. Once the stop
     * event is set the loop ends and the thread finishes; otherwise each pass
     * takes the oldest message and hands it on, or sleeps on an empty queue.
     */
    method QueueProcessor(rounds: nat) returns (handled: nat)
      requires Valid() && queueThread == Alive
      modifies this`recentMessages, this`delivered, this`queueThread
      ensures Valid()
      ensures old(stopEvent) ==> handled == 0 && recentMessages == old(recentMessages)
                                 && delivered == old(delivered) && queueThread == Finished
      ensures !old(stopEvent) ==> handled == (if rounds < |old(recentMessages)| then rounds else |old(recentMessages)|)
                                  && queueThread == Alive
      ensures recentMessages == old(recentMessages)[handled..]
      ensures delivered == old(delivered) + (if customHandler then old(recentMessages)[..handled] else [])
    {
      handled := 0;
      var pass := 0;
      while pass < rounds && !stopEvent
        invariant 0 <= pass <= rounds
        invariant handled <= pass && handled <= |old(recentMessages)|
        invariant handled == (if pass < |old(recentMessages)| then pass else |old(recentMessages)|)
        invariant recentMessages == old(recentMessages)[handled..]
        invariant delivered == old(delivered) + (if customHandler then old(recentMessages)[..handled] else [])
        invariant stopEvent == old(stopEvent) && queueThread == Alive
        invariant old(stopEvent) ==> pass == 0
        invariant Valid()
      {
        if |recentMessages| > 0 {
          var message := recentMessages[0];
          recentMessages := recentMessages[1..];
          var _ := HandleProcessedMessage(message);
          assert old(recentMessages)[..handled + 1] == old(recentMessages)[..handled] + [message];
          handled := handled + 1;
        }
        pass := pass + 1;
      }
      if stopEvent {
        queueThread := Finished;
      }
    }

    /**
     * `default_message_received_callback`. It first starts the queue thread
     * if a callback was given and the thread is not running; starting a
     * thread that already finished raises, and like an undecodable payload
     * that is caught and the message is lost. Otherwise the message is
     * queued, dropping the oldest one when the queue is full.
     */
    method DefaultMessageReceivedCallback(m: Received)
      requires Valid()
      modifies this`recentMessages, this`queueThread
      ensures Valid()
      ensures queueThread == (if old(queueThread) == NotStarted && hasCallback then Alive else old(queueThread))
      ensures var lost := (old(queueThread) == Finished && hasCallback) || m.decoded.None?;
              recentMessages == if lost then old(recentMessages)
                                else Enqueue(old(recentMessages), maxQueueSize, MessageFull(m, m.decoded.value))
    {
      if queueThread != Alive && hasCallback {
        if queueThread == Finished {
          return;
        }
        queueThread := Alive;
      }
      if m.decoded.None? {
        return;
      }
      var messageFull := MessageFull(m, m.decoded.value);
      if maxQueueSize > 0 && |recentMessages| >= maxQueueSize {
        recentMessages := recentMessages[1..];
      }
      recentMessages := recentMessages + [messageFull];
    }

    /** `listen`: opens a closed device (an error opening it propagates) and registers the callback. */
    method Listen(openFails: bool) returns (raised: bool)
      modifies this`deviceOpen, this`listening
      ensures raised <==> !old(deviceOpen) && openFails
      ensures deviceOpen == (old(deviceOpen) || !openFails)
      ensures listening == (old(listening) || !raised)
    {
      raised := false;
      if !deviceOpen {
        if openFails {
          raised := true;
          return;
        }
        deviceOpen := true;
      }
      listening := true;
    }

    /**
     * `send_broadcast_message`, guarded by `check_connected`: nothing happens
     * on a closed device; otherwise the raw data or, when `construct` is set,
     * the JSON envelope goes to the radio. XBee errors return `False`, other
     * errors propagate.
     */
    method SendBroadcastMessage(data: string, construct: bool, nowMs: int, outcome: LinkOutcome)
      returns (reply: Reply)
      modifies this`transmitted
      ensures !deviceOpen ==> reply == Skipped && transmitted == old(transmitted)
      ensures deviceOpen ==> reply == (match outcome
                                       case Accepted => Returned(true)
                                       case XBeeFailure => Returned(false)
                                       case OtherFailure => Raised)
      ensures deviceOpen && outcome == Accepted ==>
                transmitted == old(transmitted)
                  + [Transmission(Broadcast, if construct then ConstructMessage(address, data, nowMs) else data)]
      ensures !(deviceOpen && outcome == Accepted) ==> transmitted == old(transmitted)
    {
      if !deviceOpen {
        return Skipped;
      }
      var message := if construct then ConstructMessage(address, data, nowMs) else data;
      match outcome
      case Accepted =>
        transmitted := transmitted + [Transmission(Broadcast, message)];
        reply := Returned(true);
      case XBeeFailure =>
        reply := Returned(false);
      case OtherFailure =>
        reply := Raised;
    }

    /**
     * `send_private_message`, guarded by `check_connected`: always the JSON
     * envelope, and any error returns `False`.
     */
    method SendPrivateMessage(receiver: seq<byte>, data: string, nowMs: int, outcome: LinkOutcome)
      returns (reply: Reply)
      modifies this`transmitted
      ensures !deviceOpen ==> reply == Skipped && transmitted == old(transmitted)
      ensures deviceOpen ==> reply == Returned(outcome == Accepted)
      ensures deviceOpen && outcome == Accepted ==>
                transmitted == old(transmitted) + [Transmission(Unicast(receiver), ConstructMessage(address, data, nowMs))]
      ensures !(deviceOpen && outcome == Accepted) ==> transmitted == old(transmitted)
    {
      if !deviceOpen {
        return Skipped;
      }
      var message := ConstructMessage(address, data, nowMs);
      if outcome == Accepted {
        transmitted := transmitted + [Transmission(Unicast(receiver), message)];
        reply := Returned(true);
      } else {
        reply := Returned(false);
      }
    }

    /** `close`: an open device is closed and the stop event set; a closed one is left alone. */
    method Close()
      modifies this`deviceOpen, this`stopEvent
      ensures !deviceOpen
      ensures stopEvent == (old(stopEvent) || old(deviceOpen))
    {
      if deviceOpen {
        deviceOpen := false;
        stopEvent := true;
      }
    }
  }
}
