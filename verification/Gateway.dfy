/** The client gateway of front/src/assets/three/network/WebSocketManager.ts:
    one browser WebSocket, the list of registered message handlers, and the
    frames it has put on the wire. Sending is gated on the socket being OPEN
    and nothing is queued; every parsed inbound message goes to every handler
    in registration order. */
module Gateway {
  import opened Protocol

  /** `WebSocket.readyState`. */
  datatype ReadyState = Connecting | Open | Closing | Closed

  /** The gateway: the socket's state, the handlers in the order they were
      registered (`H` names whoever registered each one), and every frame
      actually handed to `ws.send`, oldest first. */
  datatype Gateway<H> = Gateway(readyState: ReadyState, handlers: seq<H>, wire: seq<Envelope>)

  /** The constructor opens the socket; it starts CONNECTING with no handler. */
  function New<H>(): (g: Gateway<H>)
    ensures g.readyState == Connecting && g.handlers == [] && g.wire == []
  {
    Gateway(Connecting, [], [])
  }

  /** The browser's `open` event. */
  function OpenEvent<H>(g: Gateway<H>): (r: Gateway<H>)
    ensures r.readyState == Open && r.handlers == g.handlers && r.wire == g.wire
  {
    g.(readyState := Open)
  }

  /** `close()` (and the server going away): the socket is no longer OPEN. */
  function CloseSocket<H>(g: Gateway<H>): (r: Gateway<H>)
    ensures r.readyState != Open && r.handlers == g.handlers && r.wire == g.wire
  {
    if g.readyState == Closed then g else g.(readyState := Closing)
  }

  /** `send(message)`: only an OPEN socket transmits; otherwise the message is
      dropped without a trace. */
  function Send<H>(g: Gateway<H>, msg: Envelope): (r: Gateway<H>)
    ensures r.readyState == g.readyState && r.handlers == g.handlers
    ensures g.readyState == Open ==> r.wire == g.wire + [msg]
    ensures g.readyState != Open ==> r == g
  {
    if g.readyState == Open then g.(wire := g.wire + [msg]) else g
  }

  /** Several `send` calls in a row. */
  function SendAll<H>(g: Gateway<H>, msgs: seq<Envelope>): Gateway<H>
    decreases |msgs|
  {
    if |msgs| == 0 then g else SendAll(Send(g, msgs[0]), msgs[1..])
  }

  /** A run of sends leaves the socket and the handlers alone, and appends the
      whole run in order when the socket is OPEN and nothing at all when it is
      not: there is no outbound queue to flush later. */
  lemma {:induction false} SendAllWire<H>(g: Gateway<H>, msgs: seq<Envelope>)
    ensures SendAll(g, msgs).readyState == g.readyState
    ensures SendAll(g, msgs).handlers == g.handlers
    ensures SendAll(g, msgs).wire == if g.readyState == Open then g.wire + msgs else g.wire
    decreases |msgs|
  {
    if |msgs| > 0 {
      SendAllWire(Send(g, msgs[0]), msgs[1..]);
      if g.readyState == Open {
        assert g.wire + [msgs[0]] + msgs[1..] == g.wire + msgs;
      }
    }
  }

  /** After `close()` nothing reaches the wire any more, however many sends
      follow. */
  lemma SendAfterCloseIsDropped<H>(g: Gateway<H>, msgs: seq<Envelope>)
    ensures SendAll(CloseSocket(g), msgs).wire == g.wire
  {
    SendAllWire(CloseSocket(g), msgs);
  }

  /** Messages sent before the socket opens are lost for good: opening
      afterwards transmits none of them. */
  lemma SendBeforeOpenIsLost<H>(msgs: seq<Envelope>)
    ensures OpenEvent(SendAll(New<H>(), msgs)).wire == []
  {
    SendAllWire(New<H>(), msgs);
  }

  /** `connect(gameCode, localId, isHost)`: one `host` or `join` frame carrying
      the code and the id, subject to the same OPEN gate. */
  function Connect<H>(g: Gateway<H>, gameCode: string, localId: string, isHost: bool): (r: Gateway<H>)
    ensures r.handlers == g.handlers && r.readyState == g.readyState
    ensures g.readyState == Open ==>
              |r.wire| == |g.wire| + 1 && r.wire[..|g.wire|] == g.wire
              && r.wire[|g.wire|].kind == (if isHost then Host else Join)
              && r.wire[|g.wire|].gameCode == gameCode && r.wire[|g.wire|].id == localId
    ensures g.readyState != Open ==> r.wire == g.wire
  {
    Send(g, HostOrJoinMsg(isHost, gameCode, localId))
  }

  /** `onMessage(handler)`: the handler goes last; there is no way to remove
      one, and nothing is returned to unsubscribe with. */
  function Register<H>(g: Gateway<H>, h: H): (r: Gateway<H>)
    ensures r.handlers == g.handlers + [h]
    ensures r.readyState == g.readyState && r.wire == g.wire
  {
    g.(handlers := g.handlers + [h])
  }

  /** One call `handler(msg)`. */
  datatype Delivery<H> = Delivery(handler: H, msg: Envelope)

  /** The `onmessage` callback: a frame that parsed (`parsed` is `None` when
      `JSON.parse` throws, which aborts the callback) is handed to each handler
      in registration order; a handler registered twice is called twice. */
  function Dispatch<H>(handlers: seq<H>, parsed: Option<Envelope>): (r: seq<Delivery<H>>)
    ensures parsed.None? ==> r == []
    ensures parsed.Some? ==> |r| == |handlers|
    ensures parsed.Some? ==> forall i | 0 <= i < |r| :: r[i] == Delivery(handlers[i], parsed.value)
  {
    if parsed.None? || |handlers| == 0 then []
    else [Delivery(handlers[0], parsed.value)] + Dispatch(handlers[1..], parsed)
  }

  /** Registering a handler adds exactly one delivery per message, after all
      the earlier handlers' deliveries. */
  lemma RegisterThenDispatch<H>(g: Gateway<H>, h: H, msg: Envelope)
    ensures Dispatch(Register(g, h).handlers, Some(msg))
         == Dispatch(g.handlers, Some(msg)) + [Delivery(h, msg)]
  {
    var lhs := Dispatch(Register(g, h).handlers, Some(msg));
    var rhs := Dispatch(g.handlers, Some(msg)) + [Delivery(h, msg)];
    assert |lhs| == |rhs|;
    forall i | 0 <= i < |lhs| ensures lhs[i] == rhs[i] {
    }
  }
}
