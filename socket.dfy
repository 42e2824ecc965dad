/** The connection to the Stream Deck software: the address, the three-stage connect future
    that registers the plugin, and the socket that filters incoming frames and encodes
    outgoing messages. The network, the web socket handshake and the message (de)serialiser
    are abstract: each poll of a lower layer is given as its outcome. */
module Socket {
  import opened Wrappers
  import opened Ints
  import opened JsonText

  // ---------------------------------------------------------------------------------------
  // Addresses

  /** The parts of a URL the connection looks at. The port is absent when it is the scheme's
      default, as the URL library stores it. */
  datatype Url = Url(scheme: string, host: string, port: Option<uint16>)

  /** The default ports the URL library knows. */
  function KnownDefaultPort(scheme: string): Option<uint16> {
    match scheme
    case "http" => Some(80)
    case "ws" => Some(80)
    case "https" => Some(443)
    case "wss" => Some(443)
    case "ftp" => Some(21)
    case _ => None
  }

  /** The port a connection to `u` uses. */
  function PortOrKnownDefault(u: Url): Option<uint16> {
    if u.port.Some? then u.port else KnownDefaultPort(u.scheme)
  }

  /** Sets the port; the scheme's default port is stored as no port at all. */
  function SetPort(u: Url, p: Option<uint16>): (v: Url)
    ensures v.scheme == u.scheme && v.host == u.host
    ensures p.Some? ==> PortOrKnownDefault(v) == p
  {
    u.(port := if p.Some? && KnownDefaultPort(u.scheme) == p then None else p)
  }

  /** The address of the local software for a port number. */
  function AddressFromPort(p: uint16): Url {
    SetPort(Url("ws", "localhost", None), Some(p))
  }

  /** A port number gives a web socket URL on the local host that connects to that port;
      only port 80 leaves the port out. */
  lemma AddressFromPortSpec(p: uint16)
    ensures AddressFromPort(p).scheme == "ws" && AddressFromPort(p).host == "localhost"
    ensures PortOrKnownDefault(AddressFromPort(p)) == Some(p)
    ensures AddressFromPort(p).port.None? <==> p == 80
  {
  }

  /** Different ports give different addresses. */
  lemma AddressFromPortInjective(p: uint16, q: uint16)
    ensures AddressFromPort(p) == AddressFromPort(q) <==> p == q
  {
    AddressFromPortSpec(p);
    AddressFromPortSpec(q);
  }

  // ---------------------------------------------------------------------------------------
  // The registration frame

  const FRAME_HEAD := "{\"event\":\""
  const FRAME_MIDDLE := "\",\"uuid\":\""
  const FRAME_TAIL := "\"}"

  /** The text of the frame that registers the plugin: an object with the string `event`
      and then the string `uuid`, with no white space. */
  function RegistrationFrame(event: string, uuid: string): string {
    FRAME_HEAD + Escape(event) + FRAME_MIDDLE + Escape(uuid) + FRAME_TAIL
  }

  /** Reads a registration frame back: the event and the uuid it carries. */
  function ParseRegistrationFrame(t: string): Option<(string, string)> {
    if |t| < |FRAME_HEAD| || t[..|FRAME_HEAD|] != FRAME_HEAD then None
    else match ReadString(t[|FRAME_HEAD|..])
      case None => None
      case Some((event, r)) =>
        if |r| < |FRAME_MIDDLE| - 1 || r[..|FRAME_MIDDLE| - 1] != FRAME_MIDDLE[1..] then None
        else match ReadString(r[|FRAME_MIDDLE| - 1..])
          case None => None
          case Some((uuid, tail)) => if tail == "}" then Some((event, uuid)) else None
  }

  /** Splitting a concatenation where its first part ends. */
  lemma SplitAt(p: string, q: string)
    ensures (p + q)[..|p|] == p && (p + q)[|p|..] == q
  {
  }

  /** The frame as the reader sees it: the head, the first string up to its closing quote,
      the rest of the middle, the second string up to its closing quote, and the brace. */
  lemma FrameShape(e: string, u: string)
    ensures FRAME_HEAD + e + FRAME_MIDDLE + u + FRAME_TAIL ==
      FRAME_HEAD + (e + "\"" + (FRAME_MIDDLE[1..] + (u + "\"" + "}")))
  {
    assert FRAME_MIDDLE == "\"" + FRAME_MIDDLE[1..];
    assert FRAME_TAIL == "\"" + "}";
  }

  /** The frame carries exactly the event and uuid given to `connect`, whatever characters
      they contain. */
  lemma RegistrationFrameRoundTrip(event: string, uuid: string)
    ensures ParseRegistrationFrame(RegistrationFrame(event, uuid)) == Some((event, uuid))
  {
    var m := FRAME_MIDDLE[1..];
    var r2 := Escape(uuid) + "\"" + "}";
    var r := m + r2;
    FrameShape(Escape(event), Escape(uuid));
    SplitAt(FRAME_HEAD, Escape(event) + "\"" + r);
    ReadEscape(event, r);
    SplitAt(m, r2);
    ReadEscape(uuid, "}");
  }

  // ---------------------------------------------------------------------------------------
  // Connecting

  /** The outcome of polling a lower-level future once. */
  datatype Step = Ready | NotReady | Error(cause: string)

  /** The outcome of each of the three lower-level futures, should this poll reach it. */
  datatype Steps = Steps(connect: Step, handshake: Step, send: Step)

  datatype ConnectError =
    | UnsupportedScheme(scheme: string)
    | ConnectionError(cause: string)
    | ProtocolError(cause: string)
    | SendError(cause: string)

  /** Where the connection stands: the scheme was refused, the TCP connection is being made,
      the web socket handshake is running, or the registration frame is being sent. */
  datatype ConnectState =
    | Unsupported(scheme: string)
    | Connecting(url: Url, event: string, uuid: string)
    | Negotiating(event: string, uuid: string)
    | Registering(frame: string)

  datatype ConnectPoll = Connected | Pending | Failed(error: ConnectError)

  /** What one poll does: its result, the state it leaves (none once the future has
      completed), and the frames it hands to the web socket. */
  datatype Transition = Transition(result: ConnectPoll, next: Option<ConnectState>, sent: seq<string>)

  /** The state `connect` starts in: only the `ws` scheme is accepted. */
  function InitialState(address: Url, event: string, uuid: string): ConnectState {
    if address.scheme == "ws" then Connecting(address, event, uuid) else Unsupported(address.scheme)
  }

  function Stage(s: ConnectState): nat {
    match s
    case Connecting(_, _, _) => 0
    case Negotiating(_, _) => 1
    case Registering(_) => 2
    case Unsupported(_) => 3
  }

  /** One poll of the connect future: each stage that finishes hands over to the next one in
      the same poll; the first stage that is not ready keeps its state. */
  function Advance(s: ConnectState, steps: Steps): Transition
    decreases 3 - Stage(s)
  {
    match s
    case Unsupported(scheme) => Transition(Failed(UnsupportedScheme(scheme)), None, [])
    case Connecting(url, event, uuid) =>
      (match steps.connect
       case Ready => Advance(Negotiating(event, uuid), steps)
       case NotReady => Transition(Pending, Some(s), [])
       case Error(c) => Transition(Failed(ConnectionError(c)), None, []))
    case Negotiating(event, uuid) =>
      (match steps.handshake
       case Ready =>
         var frame := RegistrationFrame(event, uuid);
         var t := Advance(Registering(frame), steps);
         t.(sent := [frame] + t.sent)
       case NotReady => Transition(Pending, Some(s), [])
       case Error(c) => Transition(Failed(ProtocolError(c)), None, []))
    case Registering(_) =>
      match steps.send
      case Ready => Transition(Connected, None, [])
      case NotReady => Transition(Pending, Some(s), [])
      case Error(c) => Transition(Failed(SendError(c)), None, [])
  }

  /** How a state agrees with the arguments of `connect` and the frames sent so far: nothing
      is sent before the handshake, and then only the registration frame. */
  predicate Consistent(s: ConnectState, event: string, uuid: string, outbox: seq<string>) {
    match s
    case Unsupported(_) => outbox == []
    case Connecting(url, e, u) => url.scheme == "ws" && e == event && u == uuid && outbox == []
    case Negotiating(e, u) => e == event && u == uuid && outbox == []
    case Registering(f) => f == RegistrationFrame(event, uuid) && outbox == [f]
  }

  /** A poll keeps the connection consistent, and it connects only once the one registration
      frame has been sent. */
  lemma {:induction false} AdvanceConsistent(s: ConnectState, steps: Steps, event: string, uuid: string, outbox: seq<string>)
    requires Consistent(s, event, uuid, outbox)
    ensures var t := Advance(s, steps);
      t.next.Some? ==> Consistent(t.next.value, event, uuid, outbox + t.sent)
    ensures Advance(s, steps).result.Connected? ==>
      outbox + Advance(s, steps).sent == [RegistrationFrame(event, uuid)]
    decreases 3 - Stage(s)
  {
    match s
    case Unsupported(_) =>
    case Connecting(_, e, u) =>
      if steps.connect.Ready? {
        AdvanceConsistent(Negotiating(e, u), steps, event, uuid, outbox);
      }
    case Negotiating(e, u) =>
      if steps.handshake.Ready? {
        var frame := RegistrationFrame(e, u);
        AdvanceConsistent(Registering(frame), steps, event, uuid, outbox + [frame]);
        assert outbox + ([frame] + Advance(Registering(frame), steps).sent) ==
          (outbox + [frame]) + Advance(Registering(frame), steps).sent;
      }
    case Registering(_) =>
  }

  /** A poll ends the future exactly when it does not return `Pending`; a pending poll keeps
      the state of the first stage that was not ready, and the stages only move forward. */
  lemma {:induction false} AdvanceShape(s: ConnectState, steps: Steps)
    ensures Advance(s, steps).next.Some? <==> Advance(s, steps).result.Pending?
    ensures Advance(s, steps).next.Some? ==> Stage(Advance(s, steps).next.value) >= Stage(s)
    ensures Advance(s, steps).next == Some(s) <==> (Advance(s, steps).result.Pending? &&
      match s
       case Connecting(_, _, _) => steps.connect.NotReady?
       case Negotiating(_, _) => steps.handshake.NotReady?
       case Registering(_) => steps.send.NotReady?
       case Unsupported(_) => false)
    decreases 3 - Stage(s)
  {
    match s
    case Unsupported(_) =>
    case Connecting(_, e, u) =>
      if steps.connect.Ready? {
        AdvanceShape(Negotiating(e, u), steps);
      }
    case Negotiating(e, u) =>
      if steps.handshake.Ready? {
        AdvanceShape(Registering(RegistrationFrame(e, u)), steps);
      }
    case Registering(_) =>
  }

  /** Each stage fails with its own error: the TCP connection with `ConnectionError`, the
      handshake with `ProtocolError` and the registration with `SendError`, each carrying
      the cause its stage reported; and connecting needs every remaining stage ready. */
  lemma {:induction false} AdvanceErrors(s: ConnectState, steps: Steps)
    ensures var r := Advance(s, steps).result;
      (r.Failed? && r.error.ConnectionError? ==> s.Connecting? && steps.connect == Error(r.error.cause)) &&
      (r.Failed? && r.error.ProtocolError? ==>
        (s.Negotiating? || (s.Connecting? && steps.connect.Ready?)) && steps.handshake == Error(r.error.cause)) &&
      (r.Failed? && r.error.SendError? ==> Stage(s) <= 2 && steps.send == Error(r.error.cause)) &&
      (r.Failed? && r.error.UnsupportedScheme? <==> s.Unsupported?)
    ensures Advance(s, steps).result.Connected? <==>
      (match s
       case Connecting(_, _, _) => steps.connect.Ready? && steps.handshake.Ready? && steps.send.Ready?
       case Negotiating(_, _) => steps.handshake.Ready? && steps.send.Ready?
       case Registering(_) => steps.send.Ready?
       case Unsupported(_) => false)
    decreases 3 - Stage(s)
  {
    match s
    case Unsupported(_) =>
    case Connecting(_, e, u) =>
      if steps.connect.Ready? {
        AdvanceErrors(Negotiating(e, u), steps);
      }
    case Negotiating(e, u) =>
      if steps.handshake.Ready? {
        AdvanceErrors(Registering(RegistrationFrame(e, u)), steps);
      }
    case Registering(_) =>
  }

  /** Any scheme but `ws`, `wss` included, fails on the first poll without consulting the
      network or sending anything. */
  lemma SchemeChecked(address: Url, event: string, uuid: string, steps: Steps)
    requires address.scheme != "ws"
    ensures Advance(InitialState(address, event, uuid), steps) ==
      Transition(Failed(UnsupportedScheme(address.scheme)), None, [])
  {
  }

  /** A `ws` address starts connecting to that address, and when every stage is ready at
      once a single poll connects, having sent only the registration frame. */
  lemma WsConnects(address: Url, event: string, uuid: string)
    requires address.scheme == "ws"
    ensures InitialState(address, event, uuid) == Connecting(address, event, uuid)
    ensures Advance(InitialState(address, event, uuid), Steps(Ready, Ready, Ready)) ==
      Transition(Connected, None, [RegistrationFrame(event, uuid)])
  {
    var steps := Steps(Ready, Ready, Ready);
    var frame := RegistrationFrame(event, uuid);
    assert Advance(Registering(frame), steps) == Transition(Connected, None, []);
    assert Advance(Negotiating(event, uuid), steps) == Transition(Connected, None, [frame]);
  }

  /** An in-progress connection to the Stream Deck software. */
  class Connect {
    /** The current stage; none once the future has completed. */
    var state: Option<ConnectState>
    /** The frames handed to the web socket so far. */
    var outbox: seq<string>
    ghost const event: string
    ghost const uuid: string

    ghost predicate Valid()
      reads this
    {
      state.Some? ==> Consistent(state.value, event, uuid, outbox)
    }

    /** Begins connecting to `address`, registering with `event` and `uuid`. */
    constructor(address: Url, event: string, uuid: string)
      ensures state == Some(InitialState(address, event, uuid)) && outbox == []
      ensures this.event == event && this.uuid == uuid
      ensures Valid()
    {
      this.event := event;
      this.uuid := uuid;
      state := Some(InitialState(address, event, uuid));
      outbox := [];
    }

    /** Polls the connection once. Polling a completed connection is a programming error. */
    method Poll(steps: Steps) returns (r: ConnectPoll)
      requires state.Some? && Valid()
      modifies this
      ensures var t := Advance(old(state.value), steps);
        r == t.result && state == t.next && outbox == old(outbox) + t.sent
      ensures Valid()
      ensures r.Connected? ==> outbox == [RegistrationFrame(event, uuid)]
    {
      var cur := state.value;
      ghost var t0 := Advance(cur, steps);
      ghost var start := outbox;
      AdvanceConsistent(cur, steps, event, uuid, outbox);
      state := None;
      var done: Option<ConnectPoll> := None;
      while done.None?
        invariant done.None? ==>
          state == None && Advance(cur, steps).result == t0.result && Advance(cur, steps).next == t0.next &&
          outbox + Advance(cur, steps).sent == start + t0.sent
        invariant done.Some? ==> done.value == t0.result && state == t0.next && outbox == start + t0.sent
        decreases done.None?, 3 - Stage(cur)
      {
        match cur {
          case Unsupported(scheme) =>
            done := Some(Failed(UnsupportedScheme(scheme)));
          case Connecting(url, e, u) =>
            match steps.connect {
              case Ready =>
                cur := Negotiating(e, u);
              case NotReady =>
                state := Some(cur);
                done := Some(Pending);
              case Error(c) =>
                done := Some(Failed(ConnectionError(c)));
            }
          case Negotiating(e, u) =>
            match steps.handshake {
              case Ready =>
                var frame := RegistrationFrame(e, u);
                outbox := outbox + [frame];
                cur := Registering(frame);
                assert outbox + Advance(cur, steps).sent == start + t0.sent;
              case NotReady =>
                state := Some(cur);
                done := Some(Pending);
              case Error(c) =>
                done := Some(Failed(ProtocolError(c)));
            }
          case Registering(_) =>
            match steps.send {
              case Ready =>
                done := Some(Connected);
              case NotReady =>
                state := Some(cur);
                done := Some(Pending);
              case Error(c) =>
                done := Some(Failed(SendError(c)));
            }
        }
      }
      r := done.value;
    }
  }

  // ---------------------------------------------------------------------------------------
  // The open socket

  /** What one poll of the web socket yields. */
  datatype Incoming =
    | TextFrame(text: string)
    | OtherFrame
    | Closed
    | Waiting
    | Broken(cause: string)

  datatype SocketError = WebSocketError(cause: string) | BadMessage(cause: string)

  datatype StreamPoll<T> = Item(value: T) | Ended | NotYet | StreamFailed(error: SocketError)

  /** One poll of the message stream over the web socket's upcoming outcomes: the result and
      the outcomes left. Frames that are not text are skipped. When the given outcomes run out
      the web socket has nothing yet, so the poll is `NotYet` (`Async::NotReady`). */
  function NextItem<T>(incoming: seq<Incoming>, decode: string -> Result<T, string>): (StreamPoll<T>, seq<Incoming>)
    decreases |incoming|
  {
    if incoming == [] then (NotYet, [])
    else
      match incoming[0]
      case TextFrame(t) =>
        (match decode(t)
         case Success(m) => Item(m)
         case Failure(e) => StreamFailed(BadMessage(e)), incoming[1..])
      case OtherFrame => NextItem(incoming[1..], decode)
      case Closed => (Ended, incoming[1..])
      case Waiting => (NotYet, incoming[1..])
      case Broken(c) => (StreamFailed(WebSocketError(c)), incoming[1..])
  }

  /** The position of the first outcome that is not a skipped frame. */
  function FirstSignificant(incoming: seq<Incoming>): (k: nat)
    ensures k <= |incoming|
    ensures forall i :: 0 <= i < k ==> incoming[i].OtherFrame?
    ensures k < |incoming| ==> !incoming[k].OtherFrame?
    decreases |incoming|
  {
    if incoming == [] || !incoming[0].OtherFrame? then 0 else 1 + FirstSignificant(incoming[1..])
  }

  /** The result of a poll as a function of the first outcome that is not skipped alone, and
      nothing after it is consumed. */
  lemma {:induction false} NextItemSignificant<T>(incoming: seq<Incoming>, decode: string -> Result<T, string>)
    ensures var k := FirstSignificant(incoming);
      NextItem(incoming, decode) ==
        if k == |incoming| then (NotYet, [])
        else
          (match incoming[k]
           case TextFrame(t) =>
             (if decode(t).Success? then Item(decode(t).value) else StreamFailed(BadMessage(decode(t).error)))
           case Closed => Ended
           case Waiting => NotYet
           case Broken(c) => StreamFailed(WebSocketError(c))
           case OtherFrame => NotYet,
           incoming[k + 1..])
    decreases |incoming|
  {
    if incoming != [] && incoming[0].OtherFrame? {
      NextItemSignificant(incoming[1..], decode);
      var k := FirstSignificant(incoming[1..]);
      if k < |incoming[1..]| {
        assert incoming[1..][k + 1..] == incoming[k + 2..];
      }
    }
  }

  /** Non-text frames in front of the rest change nothing. */
  lemma {:induction false} OtherFramesSkipped<T>(others: seq<Incoming>, rest: seq<Incoming>, decode: string -> Result<T, string>)
    requires forall i :: 0 <= i < |others| ==> others[i] == OtherFrame
    ensures NextItem(others + rest, decode) == NextItem(rest, decode)
    decreases |others|
  {
    if others != [] {
      assert (others + rest)[1..] == others[1..] + rest;
      OtherFramesSkipped(others[1..], rest, decode);
    } else {
      assert others + rest == rest;
    }
  }

  /** What one send does with the web socket: it accepts the frame, is full, or has failed. */
  datatype SinkStep = Accepted | Full | SinkBroken(cause: string)

  datatype SendResult<U> = Sent | Rejected(item: U) | SendFailed(error: SocketError)

  /** Encodes `item` and offers the frame to the web socket; the frame the socket accepts,
      if any, is the second component. */
  function StartSendSpec<U>(item: U, encode: U -> Result<string, string>, sink: SinkStep): (SendResult<U>, seq<string>) {
    match encode(item)
    case Failure(e) => (SendFailed(BadMessage(e)), [])
    case Success(text) =>
      match sink
      case Accepted => (Sent, [text])
      case Full => (Rejected(item), [])
      case SinkBroken(c) => (SendFailed(WebSocketError(c)), [])
  }

  /** An encoding failure never reaches the web socket; a full socket hands the very item
      back; and a frame is accepted only as the item's encoding. */
  lemma StartSendSpecProperties<U>(item: U, encode: U -> Result<string, string>, sink: SinkStep)
    ensures encode(item).Failure? ==>
      StartSendSpec(item, encode, sink) == (SendFailed(BadMessage(encode(item).error)), [])
    ensures StartSendSpec(item, encode, sink).0.Rejected? ==>
      StartSendSpec(item, encode, sink).0.item == item && sink.Full?
    ensures |StartSendSpec(item, encode, sink).1| <= 1
    ensures StartSendSpec(item, encode, sink).1 != [] <==> StartSendSpec(item, encode, sink).0.Sent?
    ensures StartSendSpec(item, encode, sink).0.Sent? ==>
      encode(item).Success? && StartSendSpec(item, encode, sink).1 == [encode(item).value]
  {
  }

  /** The socket over an established web socket connection. */
  class StreamDeckSocket {
    /** The outcomes the web socket's upcoming polls yield. */
    var incoming: seq<Incoming>
    /** The frames the web socket has accepted. */
    var outgoing: seq<string>

    constructor(incoming: seq<Incoming>)
      ensures this.incoming == incoming && outgoing == []
    {
      this.incoming := incoming;
      outgoing := [];
    }

    /** Polls for the next message: skips frames that are not text and decodes the first
        text frame. */
    method Poll<T>(decode: string -> Result<T, string>) returns (r: StreamPoll<T>)
      modifies this
      ensures (r, incoming) == NextItem(old(incoming), decode)
      ensures outgoing == old(outgoing)
    {
      while incoming != [] && incoming[0].OtherFrame?
        invariant NextItem(incoming, decode) == NextItem(old(incoming), decode)
        invariant outgoing == old(outgoing)
        decreases |incoming|
      {
        incoming := incoming[1..];
      }
      if incoming == [] {
        return NotYet;
      }
      var head := incoming[0];
      incoming := incoming[1..];
      if head.TextFrame? {
        var m := decode(head.text);
        if m.Success? {
          r := Item(m.value);
        } else {
          r := StreamFailed(BadMessage(m.error));
        }
      } else if head.Closed? {
        r := Ended;
      } else if head.Waiting? {
        r := NotYet;
      } else {
        r := StreamFailed(WebSocketError(head.cause));
      }
    }

    /** Begins sending a message: encodes it first, then offers it to the web socket. */
    method StartSend<U>(item: U, encode: U -> Result<string, string>, sink: SinkStep) returns (r: SendResult<U>)
      modifies this
      ensures r == StartSendSpec(item, encode, sink).0
      ensures outgoing == old(outgoing) + StartSendSpec(item, encode, sink).1
      ensures incoming == old(incoming)
    {
      var message := encode(item);
      if message.Failure? {
        return SendFailed(BadMessage(message.error));
      }
      match sink
      case Accepted =>
        outgoing := outgoing + [message.value];
        r := Sent;
      case Full =>
        r := Rejected(item);
      case SinkBroken(c) =>
        r := SendFailed(WebSocketError(c));
    }
  }
}
