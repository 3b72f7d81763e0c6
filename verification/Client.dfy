/** How front/src/assets/three/scene/GameScene.ts wires one browser client
    together: the gateway is opened, the local player is built (which calls
    `connect` and registers its handler), then the ten instruments (each
    registering a note handler), then the scene's roster handler. An inbound
    frame runs these handlers in that order, and a handler that throws stops
    the ones after it. */
module Client {
  import opened Protocol
  import G = Gateway
  import P = Player
  import I = Instrument
  import S = Scene
  import R = Relay

  /** Who registered a handler: the local player, the instrument at an index
      of the scene's list, or the scene itself. */
  datatype Handler = PlayerHandler | InstrumentHandler(index: nat) | SceneHandler

  datatype Client = Client(
    gateway: G.Gateway<Handler>,
    player: P.Player,
    instruments: seq<I.Instrument>,
    roster: S.Roster)

  /** One note handler per instrument index below `n`, in index order. */
  function InstrumentHandlers(n: nat): (r: seq<Handler>)
    ensures |r| == n && forall i | 0 <= i < n :: r[i] == InstrumentHandler(i)
  {
    seq(n, i requires 0 <= i < n => InstrumentHandler(i))
  }

  /** `setupInstruments()` constructing the first `n` instruments, each of
      which registers its note handler as it is built. */
  function RegisterInstruments(g: G.Gateway<Handler>, n: nat): (r: G.Gateway<Handler>)
    ensures r.handlers == g.handlers + InstrumentHandlers(n)
    ensures r.readyState == g.readyState && r.wire == g.wire
    decreases n
  {
    if n == 0 then g
    else
      var before := RegisterInstruments(g, n - 1);
      assert InstrumentHandlers(n - 1) + [InstrumentHandler(n - 1)] == InstrumentHandlers(n);
      G.Register(before, InstrumentHandler(n - 1))
  }

  /** The handler list every client ends up with. */
  function StandardHandlers(): seq<Handler> {
    [PlayerHandler] + InstrumentHandlers(10) + [SceneHandler]
  }

  /** The constructor of `GameScene` up to `setupWebSocketHandlers`. The
      player's `connect` runs while the socket just created is still
      CONNECTING, so its `join` is dropped. */
  function Construct(localId: string, gameCode: string): (c: Client)
    ensures c.gateway.readyState == G.Connecting && c.gateway.wire == []
    ensures c.gateway.handlers == StandardHandlers()
    ensures c.player == P.New(localId, gameCode, true)
    ensures c.instruments == S.SetupInstruments(gameCode) && c.roster == map[]
  {
    var g := G.Connect(G.New<Handler>(), gameCode, localId, false);
    var g := G.Register(g, PlayerHandler);
    var g := RegisterInstruments(g, 10);
    var g := G.Register(g, SceneHandler);
    Client(g, P.New(localId, gameCode, true), S.SetupInstruments(gameCode), map[])
  }

  /** As written, nothing the constructor did reaches the wire, even once the
      socket opens: the server never hears this client's `join`. */
  lemma JoinIsDropped(localId: string, gameCode: string)
    ensures G.OpenEvent(Construct(localId, gameCode).gateway).wire == []
    ensures G.OpenEvent(Construct(localId, gameCode).gateway).readyState == G.Open
  {
  }

  /** The evident intent: send the `join` once the socket is OPEN, as the
      earlier single-file client does in its `onopen`. */
  function OpenAndJoin(c: Client): (r: Client)
    ensures r.gateway.readyState == G.Open && r.gateway.handlers == c.gateway.handlers
    ensures r.gateway.wire == c.gateway.wire + [HostOrJoinMsg(false, c.player.gameCode, c.player.id)]
    ensures r.player == c.player && r.instruments == c.instruments && r.roster == c.roster
  {
    var g := G.OpenEvent(c.gateway);
    var g := G.Connect(g, c.player.gameCode, c.player.id, false);
    c.(gateway := g)
  }

  /** With the join sent on open, the only frame on the wire is that join. */
  lemma OpenAndJoinSendsJoin(localId: string, gameCode: string)
    ensures OpenAndJoin(Construct(localId, gameCode)).gateway.wire == [HostOrJoinMsg(false, gameCode, localId)]
  {
  }

  /** Why it matters at the relay: a connection whose `join` never arrived
      stays unjoined, and every `state` and `instrument_note` it sends is
      dropped without a trace. The intended `join` (with a non-empty code and
      id) makes the connection a member of the room. */
  lemma UnjoinedClientIsIgnored(s: R.Server, ws: R.Conn, msg: Envelope, gameCode: string, localId: string)
    requires R.IsFresh(s, ws)
    requires msg.kind in {State, InstrumentNote}
    requires Truthy(gameCode) && Truthy(localId)
    ensures var s1 := R.OnConnection(s, ws);
            R.OnMessage(s1, ws, Some(msg)) == R.Idle(s1)
    ensures var s1 := R.OnConnection(s, ws);
            var joined := R.OnMessage(s1, ws, Some(HostOrJoinMsg(false, gameCode, localId))).server;
            ws in R.ConnsOf(joined.games[gameCode])
  {
    var s1 := R.OnConnection(s, ws);
    assert R.SessionOf(s1, ws) == R.Unjoined;
    assert R.IsHostJoin(HostOrJoinMsg(false, gameCode, localId));
  }

  // ---------------------------------------------------------------------------
  // Inbound frames

  /** What one inbound frame did: the client afterwards, the (instrument id,
      note id) pairs handed to the audio manager in order, and whether a
      handler threw. */
  datatype Receipt = Receipt(client: Client, played: seq<(string, int)>, threw: bool)

  /** One handler call. The player's handler throws on a `state` from
      another id without a position. An instrument's handler hands the note
      to the audio manager and then throws when the note's particle count is
      negative. A handler registered for an index with no instrument does
      nothing, and the roster's handler never throws. */
  function Deliver(c: Client, d: G.Delivery<Handler>): (r: Receipt)
    ensures r.threw <==>
              || (d.handler.PlayerHandler? && P.HandleMessage(c.player, d.msg).None?)
              || (d.handler.InstrumentHandler? && d.handler.index < |c.instruments|
                  && I.OnNoteThrows(c.instruments[d.handler.index], d.msg))
    ensures r.client.gateway == c.gateway && r.client.instruments == c.instruments
    ensures d.handler.InstrumentHandler? ==> r.client == c
    ensures d.handler.InstrumentHandler? && d.handler.index < |c.instruments| ==>
              r.played == HeardBy(c.instruments, d.msg, d.handler.index)
  {
    match d.handler
    case PlayerHandler =>
      (match P.HandleMessage(c.player, d.msg)
       case None => Receipt(c, [], true)
       case Some(p) => Receipt(c.(player := p), [], false))
    case InstrumentHandler(i) =>
      if i < |c.instruments| then
        match I.OnNote(c.instruments[i], d.msg)
        case None => Receipt(c, [], false)
        case Some(n) => Receipt(c, [(c.instruments[i].id, n)], I.ParticleCount(n) < 0)
      else Receipt(c, [], false)
    case SceneHandler =>
      Receipt(c.(roster := S.OnMessage(c.roster, c.player.id, d.msg)), [], false)
  }

  /** `messageHandlers.forEach(handler => handler(msg))`: the calls in order,
      stopping at the first that throws, whose effects up to the throw are
      kept. */
  function DeliverAll(c: Client, ds: seq<G.Delivery<Handler>>): (r: Receipt)
    ensures r.client.gateway == c.gateway && r.client.instruments == c.instruments
    decreases |ds|
  {
    if |ds| == 0 then Receipt(c, [], false)
    else
      var first := Deliver(c, ds[0]);
      if first.threw then first
      else
        var rest := DeliverAll(first.client, ds[1..]);
        Receipt(rest.client, first.played + rest.played, rest.threw)
  }

  /** The gateway's `onmessage` on this client: a frame that does not parse
      reaches no handler. */
  function Receive(c: Client, parsed: Option<Envelope>): (r: Receipt)
    ensures parsed.None? ==> r == Receipt(c, [], false)
    ensures r.client.gateway == c.gateway && r.client.instruments == c.instruments
  {
    DeliverAll(c, G.Dispatch(c.gateway.handlers, parsed))
  }

  /** What instrument `i` plays for `msg`. */
  function HeardBy(instruments: seq<I.Instrument>, msg: Envelope, i: nat): seq<(string, int)>
    requires i < |instruments|
  {
    if I.OnNote(instruments[i], msg).Some? then [(instruments[i].id, msg.noteId.value)] else []
  }

  /** The notes the instruments at indices `lo` up to `hi` play for `msg`, in
      index order: an independent reading of what the note handlers do. */
  function Heard(instruments: seq<I.Instrument>, msg: Envelope, lo: nat, hi: nat): seq<(string, int)>
    requires hi <= |instruments|
    decreases hi - lo
  {
    if lo >= hi then [] else HeardBy(instruments, msg, lo) + Heard(instruments, msg, lo + 1, hi)
  }

  /** The note handlers' calls for indices `lo` up to `hi`, in order. */
  function NoteDeliveries(lo: nat, hi: nat, msg: Envelope): (r: seq<G.Delivery<Handler>>)
    ensures lo <= hi ==> |r| == hi - lo
    ensures forall j | 0 <= j < |r| :: r[j] == G.Delivery(InstrumentHandler(lo + j), msg)
    decreases hi - lo
  {
    if lo >= hi then [] else [G.Delivery(InstrumentHandler(lo), msg)] + NoteDeliveries(lo + 1, hi, msg)
  }

  /** One note handler in front of `rest`: it changes nothing and
      contributes what instrument `i` hears; it stops the run when it throws. */
  lemma OneNoteHandler(c: Client, msg: Envelope, i: nat, rest: seq<G.Delivery<Handler>>)
    requires i < |c.instruments|
    ensures var t := DeliverAll(c, rest);
            DeliverAll(c, [G.Delivery(InstrumentHandler(i), msg)] + rest)
            == if I.OnNoteThrows(c.instruments[i], msg) then Receipt(c, HeardBy(c.instruments, msg, i), true)
               else Receipt(t.client, HeardBy(c.instruments, msg, i) + t.played, t.threw)
  {
    var ds := [G.Delivery(InstrumentHandler(i), msg)] + rest;
    assert ds[0] == G.Delivery(InstrumentHandler(i), msg) && ds[1..] == rest;
  }

  /** Running note handlers `lo .. hi-1` none of which throws changes
      nothing and plays what `Heard` says those instruments hear. */
  lemma {:induction false} InstrumentRun(c: Client, msg: Envelope, lo: nat, hi: nat, tail: seq<G.Delivery<Handler>>)
    requires lo <= hi <= |c.instruments|
    requires forall i | lo <= i < hi :: !I.OnNoteThrows(c.instruments[i], msg)
    ensures var r := DeliverAll(c, NoteDeliveries(lo, hi, msg) + tail);
            var t := DeliverAll(c, tail);
            && r.client == t.client && r.threw == t.threw
            && r.played == Heard(c.instruments, msg, lo, hi) + t.played
    decreases hi - lo
  {
    if lo < hi {
      var rest := NoteDeliveries(lo + 1, hi, msg) + tail;
      assert NoteDeliveries(lo, hi, msg) + tail == [G.Delivery(InstrumentHandler(lo), msg)] + rest;
      OneNoteHandler(c, msg, lo, rest);
      InstrumentRun(c, msg, lo + 1, hi, tail);
      var here := HeardBy(c.instruments, msg, lo);
      var t := DeliverAll(c, tail).played;
      assert here + (Heard(c.instruments, msg, lo + 1, hi) + t) == (here + Heard(c.instruments, msg, lo + 1, hi)) + t;
    } else {
      assert NoteDeliveries(lo, hi, msg) + tail == tail;
    }
  }

  /** When note handler `k` is the first of `lo .. hi-1` to throw, the run
      ends there: the instruments up to and including `k` have played, the
      handlers after `k` and `tail` never run, and nothing changes. */
  lemma {:induction false} InstrumentRunThrows(c: Client, msg: Envelope, lo: nat, k: nat, hi: nat, tail: seq<G.Delivery<Handler>>)
    requires lo <= k < hi <= |c.instruments|
    requires forall i | lo <= i < k :: !I.OnNoteThrows(c.instruments[i], msg)
    requires I.OnNoteThrows(c.instruments[k], msg)
    ensures DeliverAll(c, NoteDeliveries(lo, hi, msg) + tail) == Receipt(c, Heard(c.instruments, msg, lo, k + 1), true)
    decreases k - lo
  {
    var rest := NoteDeliveries(lo + 1, hi, msg) + tail;
    assert NoteDeliveries(lo, hi, msg) + tail == [G.Delivery(InstrumentHandler(lo), msg)] + rest;
    OneNoteHandler(c, msg, lo, rest);
    if lo < k {
      InstrumentRunThrows(c, msg, lo + 1, k, hi, tail);
    } else {
      assert Heard(c.instruments, msg, lo + 1, k + 1) == [];
    }
  }

  /** A frame that parses, that the player's handler accepts and that no
      instrument's handler throws on runs every handler of a constructed
      client: the player's, then the ten instruments' in list order, then the
      roster's, exactly as if each had run on its own. */
  lemma {:induction false} ReceiveRunsEveryHandler(c: Client, msg: Envelope)
    requires c.gateway.handlers == StandardHandlers() && |c.instruments| == 10
    requires P.HandleMessage(c.player, msg).Some?
    requires forall i | 0 <= i < 10 :: !I.OnNoteThrows(c.instruments[i], msg)
    ensures var r := Receive(c, Some(msg));
            && !r.threw
            && r.client.player == P.HandleMessage(c.player, msg).value
            && r.client.roster == S.OnMessage(c.roster, c.player.id, msg)
            && r.client.instruments == c.instruments && r.client.gateway == c.gateway
            && r.played == Heard(c.instruments, msg, 0, 10)
  {
    var ds := G.Dispatch(c.gateway.handlers, Some(msg));
    var c1 := c.(player := P.HandleMessage(c.player, msg).value);
    var mid := NoteDeliveries(0, 10, msg);
    var tail := [G.Delivery(SceneHandler, msg)];
    assert ds == [G.Delivery(PlayerHandler, msg)] + (mid + tail);
    assert ds[1..] == mid + tail;
    assert Deliver(c, ds[0]) == Receipt(c1, [], false);
    InstrumentRun(c1, msg, 0, 10, tail);
    var c2 := c1.(roster := S.OnMessage(c1.roster, c1.player.id, msg));
    assert Deliver(c1, tail[0]) == Receipt(c2, [], false);
    assert tail[1..] == [];
    assert DeliverAll(c1, tail) == Receipt(c2, [], false);
  }

  /** When instrument `k` is the first whose handler throws, the frame ends
      there: the player's handler has run, the instruments up to `k` have
      played, and neither the later instruments nor the roster see it. */
  lemma {:induction false} ReceiveStopsAtThrowingNote(c: Client, msg: Envelope, k: nat)
    requires c.gateway.handlers == StandardHandlers() && |c.instruments| == 10
    requires P.HandleMessage(c.player, msg).Some?
    requires k < 10 && I.OnNoteThrows(c.instruments[k], msg)
    requires forall i | 0 <= i < k :: !I.OnNoteThrows(c.instruments[i], msg)
    ensures var r := Receive(c, Some(msg));
            && r.threw
            && r.client == c.(player := P.HandleMessage(c.player, msg).value)
            && r.played == Heard(c.instruments, msg, 0, k + 1)
  {
    var ds := G.Dispatch(c.gateway.handlers, Some(msg));
    var c1 := c.(player := P.HandleMessage(c.player, msg).value);
    var mid := NoteDeliveries(0, 10, msg);
    var tail := [G.Delivery(SceneHandler, msg)];
    assert ds == [G.Delivery(PlayerHandler, msg)] + (mid + tail);
    assert ds[1..] == mid + tail;
    assert Deliver(c, ds[0]) == Receipt(c1, [], false);
    InstrumentRunThrows(c1, msg, 0, k, 10, tail);
  }

  /** If exactly index `k` of `lo .. hi-1` hears `msg`, exactly that one note
      is played. */
  lemma {:induction false} HeardSingle(instruments: seq<I.Instrument>, msg: Envelope, lo: nat, hi: nat, k: nat)
    requires lo <= k < hi <= |instruments| && msg.noteId.Some?
    requires forall i | lo <= i < hi :: I.OnNote(instruments[i], msg).Some? <==> i == k
    ensures Heard(instruments, msg, lo, hi) == [(instruments[k].id, msg.noteId.value)]
    decreases hi - lo
  {
    if lo < k {
      HeardSingle(instruments, msg, lo + 1, hi, k);
    } else {
      HeardNone(instruments, msg, k + 1, hi);
    }
  }

  lemma {:induction false} HeardNone(instruments: seq<I.Instrument>, msg: Envelope, lo: nat, hi: nat)
    requires hi <= |instruments|
    requires forall i | lo <= i < hi :: I.OnNote(instruments[i], msg).None?
    ensures Heard(instruments, msg, lo, hi) == []
    decreases hi - lo
  {
    if lo < hi {
      HeardNone(instruments, msg, lo + 1, hi);
    }
  }

  /** A note for `instrument_k` reaching a freshly built client is handed
      to the audio manager once, by that instrument, and changes no state:
      neither the roster nor the player nor any instrument. The frame throws
      exactly when the note id is -50 or below, after the note was played,
      and then the roster's handler never sees it. */
  lemma NoteOnFreshClient(localId: string, gameCode: string, msg: Envelope, k: nat)
    requires k < 10 && msg.kind == InstrumentNote && msg.instrumentId == S.InstrumentId(k) && msg.noteId.Some?
    ensures var c := Construct(localId, gameCode);
            var r := Receive(c, Some(msg));
            && r.client == c
            && r.played == [(S.InstrumentId(k), msg.noteId.value)]
            && (r.threw <==> msg.noteId.value <= -50)
  {
    var c := Construct(localId, gameCode);
    S.NoteReachesOneInstrument(gameCode, msg, k);
    I.ParticlesThrowExactly(msg.noteId.value);
    var h := S.Hearers(c.instruments, msg);
    assert forall i | 0 <= i < 10 :: I.OnNote(c.instruments[i], msg).Some? <==> i in h;
    if msg.noteId.value <= -50 {
      ReceiveStopsAtThrowingNote(c, msg, k);
      HeardSingle(c.instruments, msg, 0, k + 1, k);
    } else {
      ReceiveRunsEveryHandler(c, msg);
      HeardSingle(c.instruments, msg, 0, 10, k);
    }
  }

  /** A `state` from another id without a position makes the player's
      handler throw first, so no instrument and not the roster ever sees it. */
  lemma PositionlessStateStopsDelivery(c: Client, msg: Envelope)
    requires c.gateway.handlers == StandardHandlers()
    requires msg.kind == State && msg.id != c.player.id && msg.position.None?
    ensures var r := Receive(c, Some(msg));
            r.threw && r.client == c && r.played == []
  {
    assert G.Dispatch(c.gateway.handlers, Some(msg))[0] == G.Delivery(PlayerHandler, msg);
  }

  /** `instrument.cleanup()` for the instrument at index `k`. */
  function CleanupInstrument(c: Client, k: nat): (r: Client)
    requires k < |c.instruments|
    ensures r.gateway == c.gateway
    ensures r.instruments == c.instruments[k := I.Cleanup(c.instruments[k])]
  {
    c.(instruments := c.instruments[k := I.Cleanup(c.instruments[k])])
  }

  /** `onMessage` returns nothing, so the instrument's `unsubscribe` is never
      set and `cleanup` cannot unregister: a cleaned-up instrument keeps its
      handler and still plays every note addressed to it. */
  lemma CleanedUpInstrumentStillPlays(c: Client, k: nat, msg: Envelope)
    requires k < |c.instruments|
    requires InstrumentHandler(k) in c.gateway.handlers
    requires msg.kind == InstrumentNote && msg.instrumentId == c.instruments[k].id && msg.noteId.Some?
    ensures var r := CleanupInstrument(c, k);
            && InstrumentHandler(k) in r.gateway.handlers
            && Deliver(r, G.Delivery(InstrumentHandler(k), msg)).client == r
            && Deliver(r, G.Delivery(InstrumentHandler(k), msg)).played == [(c.instruments[k].id, msg.noteId.value)]
  {
  }
}
