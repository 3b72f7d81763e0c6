/** The relay server of back/start/websocket.ts: a map from game code to room,
    the per-connection `joinedGame`/`clientId` closure state, the `message`
    handler and the `close` handler. Each handler runs to completion on the
    Node event loop, so each is one pure step from a server state to the next
    state plus the sends it performs, in the order it performs them. */
module Relay {
  import opened Protocol

  /** The identity of one `ws` connection object. */
  type Conn = nat

  /** One entry of a room: a connection and the player record stored for it. */
  datatype Member = Member(conn: Conn, player: PlayerSnapshot)

  /** A room is a JavaScript `Map<WebSocket, Player>`, whose keys iterate in
      insertion order; it is kept as the sequence of its entries. */
  type Room = seq<Member>

  /** The closure variables `joinedGame` and `clientId` of one connection. */
  datatype Session = Session(joinedGame: Option<string>, clientId: Option<string>)

  const Unjoined := Session(None, None)

  /** `games`, every connection's closure state, and the connections whose
      `readyState` is OPEN. */
  datatype Server = Server(games: map<string, Room>, sessions: map<Conn, Session>, open: set<Conn>)

  /** One `otherWs.send(...)`. */
  datatype Send = Send(target: Conn, msg: Envelope)

  /** The state after a handler, the reply it sent back on the sender's own
      socket (`ws.send`, only ever `player_info`), then its fan-out sends in
      order. */
  datatype Step = Step(server: Server, reply: Option<Envelope>, outbox: seq<Send>)

  const EmptyServer := Server(map[], map[], {})

  /** The step that changes nothing and sends nothing. */
  function Idle(s: Server): Step {
    Step(s, None, [])
  }

  // ---------------------------------------------------------------------------
  // Rooms as insertion-ordered maps

  function ConnsOf(room: Room): set<Conn> {
    if |room| == 0 then {} else {room[0].conn} + ConnsOf(room[1..])
  }

  /** No connection is a key twice (true of every JavaScript `Map`). */
  predicate NoDup(room: Room) {
    |room| == 0 || (room[0].conn !in ConnsOf(room[1..]) && NoDup(room[1..]))
  }

  lemma {:induction false} NoDupSize(room: Room)
    requires NoDup(room)
    ensures |ConnsOf(room)| == |room|
  {
    if |room| > 0 {
      NoDupSize(room[1..]);
    }
  }

  /** `room.get(c)`. */
  function Find(room: Room, c: Conn): (r: Option<PlayerSnapshot>)
    ensures r.Some? <==> c in ConnsOf(room)
  {
    if |room| == 0 then None
    else if room[0].conn == c then Some(room[0].player)
    else Find(room[1..], c)
  }

  /** `room.set(c, p)`: an existing key keeps its place, a new key goes last. */
  function Put(room: Room, c: Conn, p: PlayerSnapshot): (r: Room)
    ensures ConnsOf(r) == ConnsOf(room) + {c}
    ensures Find(r, c) == Some(p)
    ensures forall d | d != c :: Find(r, d) == Find(room, d)
    ensures c !in ConnsOf(room) ==> r == room + [Member(c, p)]
    ensures c in ConnsOf(room) ==> |r| == |room| && forall i | 0 <= i < |room| :: r[i].conn == room[i].conn
    ensures NoDup(room) ==> NoDup(r)
  {
    if |room| == 0 then [Member(c, p)]
    else if room[0].conn == c then [Member(c, p)] + room[1..]
    else
      var r := [room[0]] + Put(room[1..], c, p);
      assert r[1..] == Put(room[1..], c, p);
      assert c !in ConnsOf(room) ==> r == room + [Member(c, p)] by {
        if c !in ConnsOf(room) {
          assert room == [room[0]] + room[1..];
        }
      }
      r
  }

  /** `room.delete(c)`. */
  function Delete(room: Room, c: Conn): (r: Room)
    ensures ConnsOf(r) == ConnsOf(room) - {c}
    ensures forall d | d != c :: Find(r, d) == Find(room, d)
    ensures NoDup(room) ==> NoDup(r)
  {
    if |room| == 0 then []
    else if room[0].conn == c then Delete(room[1..], c)
    else
      var r := [room[0]] + Delete(room[1..], c);
      assert r[1..] == Delete(room[1..], c);
      r
  }

  /** `playerData.position = pos` on the entry of `c`, if there is one. */
  function SetPosition(room: Room, c: Conn, pos: Vec3): (r: Room)
    ensures ConnsOf(r) == ConnsOf(room)
    ensures Find(room, c).Some? ==> Find(r, c) == Some(Find(room, c).value.(position := Some(pos)))
    ensures forall d | d != c :: Find(r, d) == Find(room, d)
    ensures NoDup(room) ==> NoDup(r)
  {
    if |room| == 0 then []
    else
      var h := if room[0].conn == c then Member(c, room[0].player.(position := Some(pos))) else room[0];
      var r := [h] + SetPosition(room[1..], c, pos);
      assert r[1..] == SetPosition(room[1..], c, pos);
      r
  }

  /** The `players` list of a `player_info` reply: every entry except the
      one of `ws`, in room order, with its stored position. */
  function OtherPlayers(room: Room, ws: Conn): (r: seq<PlayerSnapshot>)
    ensures forall d | d in ConnsOf(room) && d != ws :: Find(room, d).value in r
    ensures NoDup(room) ==> forall p | p in r :: exists d :: d in ConnsOf(room) && d != ws && Find(room, d) == Some(p)
    ensures NoDup(room) ==> |r| == if ws in ConnsOf(room) then |room| - 1 else |room|
  {
    if |room| == 0 then []
    else
      var t := OtherPlayers(room[1..], ws);
      if room[0].conn != ws then
        var r := [room[0].player] + t;
        assert forall p | p in r :: p == room[0].player || p in t;
        assert NoDup(room) ==> forall p | p in r :: exists d :: d in ConnsOf(room) && d != ws && Find(room, d) == Some(p) by {
          if NoDup(room) {
            forall p | p in r ensures exists d :: d in ConnsOf(room) && d != ws && Find(room, d) == Some(p) {
              if p == room[0].player {
                assert Find(room, room[0].conn) == Some(p);
              } else {
                var d :| d in ConnsOf(room[1..]) && d != ws && Find(room[1..], d) == Some(p);
                assert Find(room, d) == Some(p);
              }
            }
          }
        }
        r
      else
        assert NoDup(room) ==> forall p | p in t :: exists d :: d in ConnsOf(room) && d != ws && Find(room, d) == Some(p) by {
          if NoDup(room) {
            forall p | p in t ensures exists d :: d in ConnsOf(room) && d != ws && Find(room, d) == Some(p) {
              var d :| d in ConnsOf(room[1..]) && d != ws && Find(room[1..], d) == Some(p);
              assert Find(room, d) == Some(p);
            }
          }
        }
        t
  }

  // ---------------------------------------------------------------------------
  // Fan-out

  function TargetSet(out: seq<Send>): set<Conn> {
    if |out| == 0 then {} else {out[0].target} + TargetSet(out[1..])
  }

  /** No connection is sent to twice. */
  predicate DistinctTargets(out: seq<Send>) {
    |out| == 0 || (out[0].target !in TargetSet(out[1..]) && DistinctTargets(out[1..]))
  }

  /** Every send carries `msg`. */
  predicate AllCarry(out: seq<Send>, msg: Envelope) {
    forall k | 0 <= k < |out| :: out[k].msg == msg
  }

  function Excluded(exclude: Option<Conn>): set<Conn> {
    if exclude.Some? then {exclude.value} else {}
  }

  /** `for (const [otherWs] of room.entries()) if (otherWs !== exclude &&
      otherWs.readyState === OPEN) otherWs.send(msg)`. */
  function FanOut(room: Room, exclude: Option<Conn>, open: set<Conn>, msg: Envelope): (r: seq<Send>)
    ensures TargetSet(r) == (ConnsOf(room) * open) - Excluded(exclude)
    ensures AllCarry(r, msg)
    ensures NoDup(room) ==> DistinctTargets(r)
  {
    if |room| == 0 then []
    else
      var t := FanOut(room[1..], exclude, open, msg);
      var c := room[0].conn;
      if c in open && Some(c) != exclude then
        var r := [Send(c, msg)] + t;
        assert r[1..] == t;
        r
      else
        t
  }

  // ---------------------------------------------------------------------------
  // The message handler

  function SessionOf(s: Server, c: Conn): Session {
    if c in s.sessions then s.sessions[c] else Unjoined
  }

  /** `joinedGame && clientId`: both set and non-empty. */
  predicate IsJoined(sess: Session) {
    && sess.joinedGame.Some? && Truthy(sess.joinedGame.value)
    && sess.clientId.Some? && Truthy(sess.clientId.value)
  }

  function RoomOf(games: map<string, Room>, code: string): Room {
    if code in games then games[code] else []
  }

  /** The guard of the host/join branch. */
  predicate IsHostJoin(msg: Envelope) {
    (msg.kind == Host || msg.kind == Join) && Truthy(msg.gameCode) && Truthy(msg.id)
  }

  /** The guard of the state branch. */
  predicate IsStateFrom(msg: Envelope, sess: Session) {
    msg.kind == State && Truthy(msg.gameCode) && Truthy(msg.id) && msg.position.Some? && IsJoined(sess)
  }

  /** The guard of the instrument_note branch; a `noteId` of 0 passes. */
  predicate IsNoteFrom(msg: Envelope, sess: Session) {
    && msg.kind == InstrumentNote && Truthy(msg.gameCode) && Truthy(msg.id)
    && Truthy(msg.instrumentId) && msg.noteId.Some? && IsJoined(sess)
  }

  /** host/join: record the session, create the room if absent, store `{id}`
      for this connection (dropping any stored position), reply with
      `player_info`, then announce the join to every other open member. */
  function HostJoin(s: Server, ws: Conn, msg: Envelope): (r: Step)
    requires IsHostJoin(msg)
    ensures r.server.games.Keys == s.games.Keys + {msg.gameCode}
    ensures forall g | g in s.games && g != msg.gameCode :: r.server.games[g] == s.games[g]
    ensures Find(r.server.games[msg.gameCode], ws) == Some(PlayerSnapshot(msg.id, None))
    ensures forall d | d != ws :: Find(r.server.games[msg.gameCode], d) == Find(RoomOf(s.games, msg.gameCode), d)
    ensures ConnsOf(r.server.games[msg.gameCode]) == ConnsOf(RoomOf(s.games, msg.gameCode)) + {ws}
    ensures r.server.sessions == s.sessions[ws := Session(Some(msg.gameCode), Some(msg.id))]
    ensures r.server.open == s.open
    ensures r.reply == Some(PlayerInfoMsg(msg.id, msg.gameCode, OtherPlayers(r.server.games[msg.gameCode], ws)))
    ensures TargetSet(r.outbox) == (ConnsOf(RoomOf(s.games, msg.gameCode)) * s.open) - {ws}
    ensures AllCarry(r.outbox, JoinNotice(msg.id, msg.gameCode))
  {
    var code := msg.gameCode;
    var id := msg.id;
    var room := Put(RoomOf(s.games, code), ws, PlayerSnapshot(id, None));
    Step(Server(s.games[code := room], s.sessions[ws := Session(Some(code), Some(id))], s.open),
         Some(PlayerInfoMsg(id, code, OtherPlayers(room, ws))),
         FanOut(room, Some(ws), s.open, JoinNotice(id, code)))
  }

  /** state: store the position on the sender's entry of the room named by
      the message (not necessarily the joined one) and relay it, under the
      recorded `clientId`, to every other open member of that room. */
  function StateRelay(s: Server, ws: Conn, msg: Envelope): (r: Step)
    requires IsStateFrom(msg, SessionOf(s, ws))
    ensures msg.gameCode !in s.games ==> r == Idle(s)
    ensures r.server.sessions == s.sessions && r.server.open == s.open && r.reply == None
    ensures r.server.games.Keys == s.games.Keys
    ensures forall g | g in s.games && g != msg.gameCode :: r.server.games[g] == s.games[g]
    ensures msg.gameCode in s.games ==>
      var before := s.games[msg.gameCode];
      var after := r.server.games[msg.gameCode];
      && ConnsOf(after) == ConnsOf(before)
      && (Find(before, ws).Some? ==> Find(after, ws) == Some(Find(before, ws).value.(position := msg.position)))
      && (forall d | d != ws :: Find(after, d) == Find(before, d))
      && TargetSet(r.outbox) == (ConnsOf(before) * s.open) - {ws}
    ensures AllCarry(r.outbox, StateMsg(SessionOf(s, ws).clientId.value, msg.gameCode, msg.position.value))
  {
    var code := msg.gameCode;
    if code in s.games then
      var room := SetPosition(s.games[code], ws, msg.position.value);
      var sends := FanOut(room, Some(ws), s.open, StateMsg(SessionOf(s, ws).clientId.value, code, msg.position.value));
      Step(s.(games := s.games[code := room]), None, sends)
    else
      Idle(s)
  }

  /** instrument_note: relay the note, under the recorded `clientId`, to every
      other open member of the room named by the message; no state changes. */
  function NoteRelay(s: Server, ws: Conn, msg: Envelope): (r: Step)
    requires IsNoteFrom(msg, SessionOf(s, ws))
    ensures r.server == s && r.reply == None
    ensures TargetSet(r.outbox) == (ConnsOf(RoomOf(s.games, msg.gameCode)) * s.open) - {ws}
    ensures AllCarry(r.outbox, NoteMsg(SessionOf(s, ws).clientId.value, msg.gameCode, msg.instrumentId, msg.noteId.value))
  {
    var code := msg.gameCode;
    if code in s.games then
      Step(s, None, FanOut(s.games[code], Some(ws), s.open,
        NoteMsg(SessionOf(s, ws).clientId.value, code, msg.instrumentId, msg.noteId.value)))
    else
      Idle(s)
  }

  /** `ws.on('message', ...)`. `parsed` is `None` when `JSON.parse` threw;
      the `try` swallows that and nothing happens. */
  function OnMessage(s: Server, ws: Conn, parsed: Option<Envelope>): (r: Step)
    ensures parsed.None? ==> r == Idle(s)
    ensures r.server.open == s.open
    ensures forall c | c != ws :: SessionOf(r.server, c) == SessionOf(s, c)
    // No fan-out send ever echoes back to the sender, and all go to open sockets.
    ensures ws !in TargetSet(r.outbox) && TargetSet(r.outbox) <= s.open
    // The only reply is the player_info of a host/join.
    ensures r.reply.Some? <==> parsed.Some? && IsHostJoin(parsed.value)
    ensures r.reply.Some? ==> r.reply.value.kind == PlayerInfo
    // A state or note from a connection that has not joined does nothing.
    ensures parsed.Some? && parsed.value.kind in {State, InstrumentNote} && !IsJoined(SessionOf(s, ws))
      ==> r == Idle(s)
  {
    match parsed
    case None => Idle(s)
    case Some(msg) =>
      if IsHostJoin(msg) then HostJoin(s, ws, msg)
      else if IsStateFrom(msg, SessionOf(s, ws)) then StateRelay(s, ws, msg)
      else if IsNoteFrom(msg, SessionOf(s, ws)) then NoteRelay(s, ws, msg)
      else Idle(s)
  }

  // ---------------------------------------------------------------------------
  // Connection lifecycle

  /** Every `connection` event hands the handler a new `WebSocket` object,
      so its number is known to no session and is a key of no room. A closed
      socket stays a room key (see `OnClose`), so a number is never reused. */
  predicate IsFresh(s: Server, ws: Conn) {
    && ws !in s.sessions
    && forall g | g in s.games :: ws !in ConnsOf(s.games[g])
  }

  /** A new connection: OPEN, with `joinedGame` and `clientId` null. */
  function OnConnection(s: Server, ws: Conn): (r: Server)
    requires IsFresh(s, ws)
    ensures r.sessions == s.sessions[ws := Unjoined] && r.open == s.open + {ws}
    ensures r.games == s.games
    ensures forall g | g in r.games :: ws !in ConnsOf(r.games[g])
  {
    Server(s.games, s.sessions[ws := Unjoined], s.open + {ws})
  }

  /** `ws.on('close', ...)`: the socket is no longer OPEN. If it had joined,
      its entry leaves the last-joined room, every remaining open member is
      told, and the room goes away exactly when it is now empty. */
  function OnClose(s: Server, ws: Conn): (r: Step)
    ensures r.server.open == s.open - {ws}
    ensures r.server.sessions == s.sessions - {ws}
    ensures r.reply == None
    ensures !IsJoined(SessionOf(s, ws)) ==> r.server.games == s.games && r.outbox == []
    ensures IsJoined(SessionOf(s, ws)) && SessionOf(s, ws).joinedGame.value in s.games ==>
      var g := SessionOf(s, ws).joinedGame.value;
      var before := s.games[g];
      && (g in r.server.games <==> ConnsOf(before) - {ws} != {})
      && (g in r.server.games ==> ConnsOf(r.server.games[g]) == ConnsOf(before) - {ws})
      && (g in r.server.games ==> forall d | d != ws :: Find(r.server.games[g], d) == Find(before, d))
      && (forall h | h in s.games && h != g :: h in r.server.games && r.server.games[h] == s.games[h])
      && r.server.games.Keys <= s.games.Keys
      && TargetSet(r.outbox) == (ConnsOf(before) - {ws}) * (s.open - {ws})
      && AllCarry(r.outbox, LeaveMsg(SessionOf(s, ws).clientId.value, g))
    ensures NoDup(RoomOf(s.games, SessionOf(s, ws).joinedGame.GetOr(""))) ==> DistinctTargets(r.outbox)
  {
    var sess := SessionOf(s, ws);
    var open := s.open - {ws};
    var sessions := s.sessions - {ws};
    if IsJoined(sess) && sess.joinedGame.value in s.games then
      var g := sess.joinedGame.value;
      var room := Delete(s.games[g], ws);
      var games := if |room| == 0 then s.games - {g} else s.games[g := room];
      assert |room| == 0 <==> ConnsOf(room) == {} by {
        if |room| > 0 { assert room[0].conn in ConnsOf(room); }
      }
      Step(Server(games, sessions, open), None, FanOut(room, None, open, LeaveMsg(sess.clientId.value, g)))
    else
      Step(Server(s.games, sessions, open), None, [])
  }

  // ---------------------------------------------------------------------------
  // The registry invariant

  /** Every room is non-empty with distinct keys, and every joined connection
      is a key of the room it last joined. */
  predicate Valid(s: Server) {
    && (forall g | g in s.games :: |s.games[g]| > 0 && NoDup(s.games[g]))
    && (forall c | c in s.sessions :: SessionOk(s, c, s.sessions[c]))
  }

  predicate SessionOk(s: Server, c: Conn, sess: Session) {
    && (sess.joinedGame.Some? <==> sess.clientId.Some?)
    && (sess.joinedGame.Some? ==>
          && IsJoined(sess)
          && sess.joinedGame.value in s.games
          && c in ConnsOf(s.games[sess.joinedGame.value]))
  }
}
