/** Properties of the relay server that relate several handler calls: the
    registry invariant, the end-to-end join/state/leave exchange, the
    idempotence of close, and the stale entry a repeated host/join leaves. */
module RelayLemmas {
  import opened Protocol
  import opened Relay

  lemma OnMessagePreservesValid(s: Server, ws: Conn, parsed: Option<Envelope>)
    requires Valid(s)
    ensures Valid(OnMessage(s, ws, parsed).server)
  {
    var r := OnMessage(s, ws, parsed).server;
    if parsed.Some? && IsHostJoin(parsed.value) {
      var code := parsed.value.gameCode;
      forall c | c in r.sessions ensures SessionOk(r, c, r.sessions[c]) {
        if c != ws {
          assert SessionOk(s, c, s.sessions[c]);
        }
      }
      forall g | g in r.games ensures |r.games[g]| > 0 && NoDup(r.games[g]) {
        if g == code {
          assert ws in ConnsOf(r.games[g]);
        }
      }
    } else if parsed.Some? && IsStateFrom(parsed.value, SessionOf(s, ws)) {
      forall c | c in r.sessions ensures SessionOk(r, c, r.sessions[c]) {
        assert SessionOk(s, c, s.sessions[c]);
      }
      forall g | g in r.games ensures |r.games[g]| > 0 && NoDup(r.games[g]) {
        if g == parsed.value.gameCode {
          assert s.games[g][0].conn in ConnsOf(r.games[g]);
        }
      }
    }
  }

  lemma OnClosePreservesValid(s: Server, ws: Conn)
    requires Valid(s)
    ensures Valid(OnClose(s, ws).server)
  {
    var r := OnClose(s, ws).server;
    var sess := SessionOf(s, ws);
    if IsJoined(sess) && sess.joinedGame.value in s.games {
      var g := sess.joinedGame.value;
      forall h | h in r.games ensures |r.games[h]| > 0 && NoDup(r.games[h]) {
        if h == g {
          assert ConnsOf(r.games[h]) != {};
        }
      }
      forall c | c in r.sessions ensures SessionOk(r, c, r.sessions[c]) {
        assert SessionOk(s, c, s.sessions[c]);
        var sc := s.sessions[c];
        if sc.joinedGame.Some? && sc.joinedGame.value == g {
          assert c in ConnsOf(s.games[g]) - {ws};
        }
      }
    } else {
      forall c | c in r.sessions ensures SessionOk(r, c, r.sessions[c]) {
        assert SessionOk(s, c, s.sessions[c]);
      }
    }
  }

  lemma OnConnectionPreservesValid(s: Server, ws: Conn)
    requires Valid(s) && IsFresh(s, ws)
    ensures Valid(OnConnection(s, ws))
  {
    var r := OnConnection(s, ws);
    forall c | c in r.sessions ensures SessionOk(r, c, r.sessions[c]) {
      if c != ws {
        assert SessionOk(s, c, s.sessions[c]);
      }
    }
  }

  /** A new connection is in no room, so until it joins one itself no other
      connection's message and no close reaches it. */
  lemma FreshConnectionHearsNothing(s: Server, ws: Conn, c: Conn, parsed: Option<Envelope>)
    requires IsFresh(s, ws) && c != ws
    ensures var s1 := OnConnection(s, ws);
            && ws !in TargetSet(OnMessage(s1, c, parsed).outbox)
            && ws !in TargetSet(OnClose(s1, c).outbox)
  {
    var s1 := OnConnection(s, ws);
    forall code ensures ws !in ConnsOf(RoomOf(s1.games, code)) {
      if code in s1.games {
        assert ws !in ConnsOf(s1.games[code]);
      }
    }
    if parsed.Some? {
      var msg := parsed.value;
      if IsHostJoin(msg) {
        assert ws !in ConnsOf(RoomOf(s1.games, msg.gameCode));
      } else if IsStateFrom(msg, SessionOf(s1, c)) {
        assert ws !in ConnsOf(RoomOf(s1.games, msg.gameCode));
      } else if IsNoteFrom(msg, SessionOf(s1, c)) {
        assert ws !in ConnsOf(RoomOf(s1.games, msg.gameCode));
      }
    }
    var sess := SessionOf(s1, c);
    if IsJoined(sess) && sess.joinedGame.value in s1.games {
      assert ws !in ConnsOf(s1.games[sess.joinedGame.value]);
    }
  }

  /** Closing is idempotent: a second close of the same connection finds it
      unjoined and changes no room and sends nothing. */
  lemma CloseTwiceIsCloseOnce(s: Server, ws: Conn)
    ensures var once := OnClose(s, ws);
            var twice := OnClose(once.server, ws);
            twice.server == once.server && twice.outbox == []
  {
  }

  /** The note branch's guard: from a joined connection, a note naming a
      game, a sender, an instrument and any defined note id (0 included) is
      relayed to the other open members; without an instrument id or without
      a note id it is dropped. The registry never changes. */
  lemma NoteRelayedExactlyWhenComplete(s: Server, ws: Conn, msg: Envelope)
    requires msg.kind == InstrumentNote && Truthy(msg.gameCode) && Truthy(msg.id)
    requires IsJoined(SessionOf(s, ws))
    ensures var r := OnMessage(s, ws, Some(msg));
            && r.server == s && r.reply == None
            && TargetSet(r.outbox) ==
                 if Truthy(msg.instrumentId) && msg.noteId.Some?
                 then (ConnsOf(RoomOf(s.games, msg.gameCode)) * s.open) - {ws}
                 else {}
  {
  }

  // The exchange of two clients, A on connection 1 and B on connection 2,
  // walked through one handler at a time.

  const Code := "ABCD"
  const Moved := Vec3(1.0, 0.0, 2.0)
  const P1 := Member(1, PlayerSnapshot("p1", None))
  const P2 := Member(2, PlayerSnapshot("p2", None))
  const P2Moved := Member(2, PlayerSnapshot("p2", Some(Moved)))
  const BothOpen := Server(map[], map[1 := Unjoined, 2 := Unjoined], {1, 2})
  const AfterHostA := Server(map[Code := [P1]], map[1 := Session(Some(Code), Some("p1")), 2 := Unjoined], {1, 2})
  const JoinedSessions := map[1 := Session(Some(Code), Some("p1")), 2 := Session(Some(Code), Some("p2"))]
  const AfterJoinB := Server(map[Code := [P1, P2]], JoinedSessions, {1, 2})
  const AfterMoveB := Server(map[Code := [P1, P2Moved]], JoinedSessions, {1, 2})

  lemma HostAStep()
    ensures OnMessage(BothOpen, 1, Some(HostOrJoinMsg(true, Code, "p1"))) == Step(AfterHostA, Some(PlayerInfoMsg("p1", Code, [])), [])
  {
    assert Put([], 1, PlayerSnapshot("p1", None)) == [P1];
  }

  lemma JoinBStep()
    ensures OnMessage(AfterHostA, 2, Some(HostOrJoinMsg(false, Code, "p2")))
         == Step(AfterJoinB, Some(PlayerInfoMsg("p2", Code, [PlayerSnapshot("p1", None)])), [Send(1, JoinNotice("p2", Code))])
  {
    assert Put([P1], 2, PlayerSnapshot("p2", None)) == [P1, P2];
    assert OtherPlayers([P1, P2], 2) == [PlayerSnapshot("p1", None)];
    assert FanOut([P1, P2], Some(2), {1, 2}, JoinNotice("p2", Code)) == [Send(1, JoinNotice("p2", Code))];
  }

  lemma MoveBStep()
    ensures OnMessage(AfterJoinB, 2, Some(StateMsg("p2", Code, Moved)))
         == Step(AfterMoveB, None, [Send(1, StateMsg("p2", Code, Moved))])
  {
    assert SetPosition([P1, P2], 2, Moved) == [P1, P2Moved];
    assert FanOut([P1, P2Moved], Some(2), {1, 2}, StateMsg("p2", Code, Moved)) == [Send(1, StateMsg("p2", Code, Moved))];
  }

  lemma CloseBStep()
    ensures OnClose(AfterMoveB, 2)
         == Step(Server(map[Code := [P1]], map[1 := Session(Some(Code), Some("p1"))], {1}), None, [Send(1, LeaveMsg("p2", Code))])
  {
    assert Delete([P1, P2Moved], 2) == [P1];
    assert FanOut([P1], None, {1}, LeaveMsg("p2", Code)) == [Send(1, LeaveMsg("p2", Code))];
    assert JoinedSessions - {2} == map[1 := Session(Some(Code), Some("p1"))];
  }

  /** A hosts "ABCD" as "p1", B joins as "p2", B reports [1, 0, 2], B
      disconnects: B's player_info lists p1 without a position, A hears the
      join, the state and the leave, and only p1 remains registered. */
  lemma EndToEnd()
    ensures
      var s0 := OnConnection(OnConnection(EmptyServer, 1), 2);
      var hostA := OnMessage(s0, 1, Some(HostOrJoinMsg(true, Code, "p1")));
      var joinB := OnMessage(hostA.server, 2, Some(HostOrJoinMsg(false, Code, "p2")));
      var moveB := OnMessage(joinB.server, 2, Some(StateMsg("p2", Code, Moved)));
      var closeB := OnClose(moveB.server, 2);
      && hostA.reply == Some(PlayerInfoMsg("p1", Code, [])) && hostA.outbox == []
      && joinB.reply == Some(PlayerInfoMsg("p2", Code, [PlayerSnapshot("p1", None)]))
      && joinB.outbox == [Send(1, JoinNotice("p2", Code))]
      && moveB.outbox == [Send(1, StateMsg("p2", Code, Moved))]
      && closeB.outbox == [Send(1, LeaveMsg("p2", Code))]
      && closeB.server.games == map[Code := [Member(1, PlayerSnapshot("p1", None))]]
  {
    assert OnConnection(OnConnection(EmptyServer, 1), 2) == BothOpen;
    HostAStep();
    JoinBStep();
    MoveBStep();
    CloseBStep();
  }

  /** A second host/join moves `joinedGame` on, so close only cleans the last
      room: the first room keeps the closed connection's entry for ever. */
  lemma RejoinLeavesStaleEntry()
    ensures
      var s0 := OnConnection(EmptyServer, 7);
      var first := OnMessage(s0, 7, Some(HostOrJoinMsg(true, "A", "p")));
      var second := OnMessage(first.server, 7, Some(HostOrJoinMsg(false, "B", "p")));
      var closed := OnClose(second.server, 7);
      && "B" !in closed.server.games
      && "A" in closed.server.games
      && 7 in ConnsOf(closed.server.games["A"])
      && 7 !in closed.server.open
  {
    var s0 := OnConnection(EmptyServer, 7);
    var first := OnMessage(s0, 7, Some(HostOrJoinMsg(true, "A", "p")));
    assert first.server.games == map["A" := [Member(7, PlayerSnapshot("p", None))]];
    var second := OnMessage(first.server, 7, Some(HostOrJoinMsg(false, "B", "p")));
    assert second.server.games == map["A" := [Member(7, PlayerSnapshot("p", None))], "B" := [Member(7, PlayerSnapshot("p", None))]];
  }
}
