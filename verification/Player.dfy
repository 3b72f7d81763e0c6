/** The player of front/src/assets/three/entities/Player.ts: its body and
    keyboard, the instrument it is linked to, and the throttle on the `state`
    messages it sends. The scene's instrument list is passed in and handed
    back, since linking changes an instrument. The ShiftLeft press of the
    frame is an input: the keyboard reader the source calls for it is not part
    of InputManager.ts (see `UpdateAsWritten`). */
module Player {
  import opened Protocol
  import Physics
  import Input
  import I = Instrument

  /** Movement smaller than this on every axis is not worth sending. */
  const PositionThreshold: real := 0.01

  /** The least time, in milliseconds, between two `state` sends. */
  const UpdateInterval: int := 10

  /** `linked` is the position of `linkedInstrument` in the scene's list.
      `mesh` is where the player is drawn. */
  datatype Player = Player(
    id: string,
    isLocal: bool,
    gameCode: string,
    body: Physics.Body,
    mesh: Vec3,
    keys: Input.Keyboard,
    linked: Option<nat>,
    lastSentPosition: Vec3,
    lastUpdateTime: int)

  /** The constructor's state. A local player also sends `join` through the
      gateway and registers its handler; that part belongs to `Client`. */
  function New(id: string, gameCode: string, isLocal: bool): (p: Player)
    ensures p.linked.None? && p.lastSentPosition == Origin && p.lastUpdateTime == 0
    ensures p.body == Physics.Initial && p.mesh == Origin && p.keys == Input.NoKeys
  {
    Player(id, isLocal, gameCode, Physics.Initial, Origin, Input.NoKeys, None, Origin, 0)
  }

  /** The scene's instrument list agrees with the player's link. */
  predicate LinkInRange(p: Player, instruments: seq<I.Instrument>) {
    p.linked.Some? ==> p.linked.value < |instruments|
  }

  function Abs(r: real): real {
    if r < 0.0 then -r else r
  }

  /** Some axis of `a` differs from `b` by more than the threshold. */
  predicate MovedFrom(a: Vec3, b: Vec3) {
    Abs(a.x - b.x) > PositionThreshold || Abs(a.y - b.y) > PositionThreshold || Abs(a.z - b.z) > PositionThreshold
  }

  /** `shouldSendUpdate(newPosition)`, with `Date.now()` as `now`. */
  function ShouldSendUpdate(p: Player, newPosition: Vec3, now: int): (r: bool)
    ensures now - p.lastUpdateTime < UpdateInterval ==> !r
    ensures r ==> MovedFrom(newPosition, p.lastSentPosition)
    ensures now - p.lastUpdateTime >= UpdateInterval && MovedFrom(newPosition, p.lastSentPosition) ==> r
  {
    if now - p.lastUpdateTime < UpdateInterval then false
    else MovedFrom(newPosition, p.lastSentPosition)
  }

  /** The `find` of `update`: the first instrument, at or after `from`, in
      range of `pos` and not already linked to this player. */
  function FirstLinkable(instruments: seq<I.Instrument>, pos: Vec3, playerId: string, from: nat): (r: Option<nat>)
    ensures r.Some? ==> from <= r.value < |instruments|
                        && I.IsPlayerInRange(instruments[r.value], pos)
                        && !I.IsLinkedToPlayer(instruments[r.value], playerId)
    ensures forall j | from <= j < |instruments| && (r.None? || j < r.value) ::
              !(I.IsPlayerInRange(instruments[j], pos) && !I.IsLinkedToPlayer(instruments[j], playerId))
    decreases |instruments| - from
  {
    if from >= |instruments| then None
    else if I.IsPlayerInRange(instruments[from], pos) && !I.IsLinkedToPlayer(instruments[from], playerId) then Some(from)
    else FirstLinkable(instruments, pos, playerId, from + 1)
  }

  /** `linkInstrument(instrument)`: the player records the instrument even
      when the instrument's own `linkPlayer` keeps an earlier owner. */
  function LinkInstrument(p: Player, instruments: seq<I.Instrument>, i: nat): (r: (Player, seq<I.Instrument>))
    requires i < |instruments|
    ensures r.0 == p.(linked := Some(i))
    ensures r.1 == instruments[i := I.LinkPlayer(instruments[i], p.id)]
  {
    (p.(linked := Some(i)), instruments[i := I.LinkPlayer(instruments[i], p.id)])
  }

  /** `unlinkInstrument()`: with a linked instrument, unlink it and forget
      it; otherwise nothing. */
  function UnlinkInstrument(p: Player, instruments: seq<I.Instrument>): (r: (Player, seq<I.Instrument>))
    requires LinkInRange(p, instruments)
    ensures r.0 == p.(linked := None)
    ensures p.linked.None? ==> r.1 == instruments
    ensures p.linked.Some? ==> r.1 == instruments[p.linked.value := I.UnlinkPlayer(instruments[p.linked.value])]
  {
    match p.linked
    case None => (p, instruments)
    case Some(i) => (p.(linked := None), instruments[i := I.UnlinkPlayer(instruments[i])])
  }

  /** Unlinking a second time changes nothing. */
  lemma UnlinkInstrumentIdempotent(p: Player, instruments: seq<I.Instrument>)
    requires LinkInRange(p, instruments)
    ensures var once := UnlinkInstrument(p, instruments);
            UnlinkInstrument(once.0, once.1) == once
  {
  }

  /** Linking makes the player and the instrument agree on the owner exactly
      when the instrument was free or already this player's; an instrument
      owned by someone else keeps its owner while the player still records
      it. */
  lemma LinkInstrumentAgreesWhenFree(p: Player, instruments: seq<I.Instrument>, i: nat)
    requires i < |instruments|
    ensures var r := LinkInstrument(p, instruments, i);
            && r.0.linked == Some(i)
            && (I.IsLinkedToPlayer(r.1[i], p.id)
                <==> instruments[i].linkedPlayerId.None? || I.IsLinkedToPlayer(instruments[i], p.id))
            && (forall j | 0 <= j < |instruments| && j != i :: r.1[j] == instruments[j])
  {
  }

  /** The ownership a single client sees: the instrument the player records
      is owned by the player, and no other instrument has an owner. */
  predicate LinkAgrees(p: Player, instruments: seq<I.Instrument>) {
    && LinkInRange(p, instruments)
    && (p.linked.Some? ==> I.IsLinkedToPlayer(instruments[p.linked.value], p.id))
    && (forall j | 0 <= j < |instruments| && instruments[j].linkedPlayerId.Some? ::
          p.linked == Some(j) && I.IsLinkedToPlayer(instruments[j], p.id))
  }

  /** Every frame keeps the player and the instruments in agreement: ShiftLeft
      links the player to a free instrument in range, which then names the
      player as its owner, and a second ShiftLeft releases it on both sides. */
  lemma UpdateKeepsLinkAgreement(p: Player, instruments: seq<I.Instrument>, now: int, shiftPressed: bool)
    requires LinkAgrees(p, instruments)
    ensures var r := Update(p, instruments, now, shiftPressed);
            && LinkAgrees(r.player, r.instruments)
            && (r.player.linked.Some? ==> I.IsLinkedToPlayer(r.instruments[r.player.linked.value], p.id))
  {
  }

  /** What a frame leaves behind: the player, the instrument list, and the
      `state` message handed to the gateway, if any. */
  datatype Frame = Frame(player: Player, instruments: seq<I.Instrument>, sent: Option<Envelope>)

  /** The movement part of an unlinked frame: step the physics with the
      keyboard's intent and draw the player there. */
  function Move(p: Player): (r: Player)
    ensures r == p.(body := r.body, mesh := r.body.position)
  {
    var m := Input.Movement(p.keys);
    var b := Physics.Update(Physics.DefaultConfig, p.body, m.0 as real, m.1 as real, Input.IsJumpPressed(p.keys));
    p.(body := b, mesh := b.position)
  }

  /** `update(instruments)` at time `now`, `shiftPressed` saying whether
      ShiftLeft went down this frame. A remote player's update does nothing.
      A linked player does not move and sends nothing; ShiftLeft unlinks it.
      An unlinked player moves, links to the first instrument it can on
      ShiftLeft, and sends its new position when the throttle allows. */
  function Update(p: Player, instruments: seq<I.Instrument>, now: int, shiftPressed: bool): (r: Frame)
    requires LinkInRange(p, instruments)
    ensures !p.isLocal ==> r == Frame(p, instruments, None)
    ensures p.isLocal && p.linked.Some? ==>
              r.sent.None? && r.player.body == p.body && r.player.mesh == p.mesh
              && (shiftPressed ==> (r.player, r.instruments) == UnlinkInstrument(p, instruments))
              && (!shiftPressed ==> r == Frame(p, instruments, None))
    ensures p.isLocal && p.linked.None? ==>
              var moved := Move(p);
              var pos := moved.body.position;
              var target := if shiftPressed then FirstLinkable(instruments, pos, p.id, 0) else None;
              && r.player.body == moved.body && r.player.mesh == pos
              && r.player.linked == target
              && (target.Some? ==> r.instruments == instruments[target.value := I.LinkPlayer(instruments[target.value], p.id)])
              && (target.None? ==> r.instruments == instruments)
              && (r.sent.Some? <==> ShouldSendUpdate(p, pos, now))
              && (r.sent.Some? ==> r.sent == Some(StateMsg(p.id, p.gameCode, pos))
                                   && r.player.lastSentPosition == pos && r.player.lastUpdateTime == now)
              && (r.sent.None? ==> r.player.lastSentPosition == p.lastSentPosition
                                   && r.player.lastUpdateTime == p.lastUpdateTime)
    ensures LinkInRange(r.player, r.instruments) && |r.instruments| == |instruments|
  {
    if !p.isLocal then Frame(p, instruments, None)
    else if p.linked.Some? then
      if shiftPressed then
        var u := UnlinkInstrument(p, instruments);
        Frame(u.0, u.1, None)
      else Frame(p, instruments, None)
    else
      var moved := Move(p);
      var pos := moved.body.position;
      var target := if shiftPressed then FirstLinkable(instruments, pos, p.id, 0) else None;
      var linked := if target.Some? then LinkInstrument(moved, instruments, target.value) else (moved, instruments);
      if ShouldSendUpdate(p, pos, now) then
        Frame(linked.0.(lastSentPosition := pos, lastUpdateTime := now), linked.1, Some(StateMsg(p.id, p.gameCode, pos)))
      else Frame(linked.0, linked.1, None)
  }

  /** Two sends are at least `UpdateInterval` apart: right after a frame that
      sends, no frame earlier than 10 ms later sends. */
  lemma {:induction false} SendsAreSpaced(p: Player, instruments: seq<I.Instrument>, now: int, later: int, s1: bool, s2: bool)
    requires LinkInRange(p, instruments)
    requires Update(p, instruments, now, s1).sent.Some?
    requires later - now < UpdateInterval
    ensures Update(Update(p, instruments, now, s1).player, Update(p, instruments, now, s1).instruments, later, s2).sent.None?
  {
    var f := Update(p, instruments, now, s1);
    assert p.isLocal && p.linked.None?;
    assert f.player.lastUpdateTime == now;
    if f.player.linked.None? {
      var pos := Move(f.player).body.position;
      assert !ShouldSendUpdate(f.player, pos, later);
    }
  }

  /** A player that stays within the threshold of what it last sent sends
      nothing, however much time passes. */
  lemma StillPlayerIsQuiet(p: Player, instruments: seq<I.Instrument>, now: int, shiftPressed: bool)
    requires LinkInRange(p, instruments) && p.isLocal && p.linked.None?
    requires !MovedFrom(Move(p).body.position, p.lastSentPosition)
    ensures Update(p, instruments, now, shiftPressed).sent.None?
  {
  }

  /** The first frame of a new local player with no key down reports its
      spawn point [0, 0.5, 0], since that is 0.5 above the initial
      `lastSentPosition`, once 10 ms have passed since time zero. */
  lemma FirstFrameReportsSpawn(id: string, gameCode: string, instruments: seq<I.Instrument>, now: int)
    requires now >= UpdateInterval
    ensures Update(New(id, gameCode, true), instruments, now, false).sent
         == Some(StateMsg(id, gameCode, Vec3(0.0, Physics.Floor, 0.0)))
  {
    var p := New(id, gameCode, true);
    assert Input.Movement(p.keys) == (0, 0);
    assert Move(p).body.position == Vec3(0.0, Physics.Floor, 0.0);
  }

  /** `handleMessage(msg)`, registered by the local player: a `state` from
      any other id moves THIS player's mesh to that position. A `state`
      without a position makes the spread throw, which is `None` here. */
  function HandleMessage(p: Player, msg: Envelope): (r: Option<Player>)
    ensures msg.kind != State || msg.id == p.id ==> r == Some(p)
    ensures msg.kind == State && msg.id != p.id && msg.position.Some? ==> r == Some(p.(mesh := msg.position.value))
    ensures msg.kind == State && msg.id != p.id && msg.position.None? ==> r.None?
  {
    if msg.kind == State && msg.id != p.id then
      if msg.position.Some? then Some(p.(mesh := msg.position.value)) else None
    else Some(p)
  }

  // ---------------------------------------------------------------------------
  // The frame as written

  /** A frame that may have been cut short: the state it reached and
      whether it threw on the way. */
  datatype Attempt = Attempt(frame: Frame, threw: bool)

  /** A frame of the source as it stands. `wasKeyPressedThisFrame` is called
      on the InputManager, which has no such method, so the call throws a
      TypeError on every local frame: a linked player at once, an unlinked
      one after its body and mesh have moved and before any link or send.
      A remote player's update returns normally. */
  function UpdateAsWritten(p: Player, instruments: seq<I.Instrument>, now: int): (r: Attempt)
    ensures r.threw <==> p.isLocal
    ensures r.frame.instruments == instruments && r.frame.sent.None?
    ensures r.frame.player == p.(body := r.frame.player.body, mesh := r.frame.player.mesh)
    ensures !p.isLocal || p.linked.Some? ==> r.frame.player == p
  {
    if p.isLocal && p.linked.None? then Attempt(Frame(Move(p), instruments, None), true)
    else Attempt(Frame(p, instruments, None), p.isLocal)
  }

  /** Up to the throw the as-written frame of an unlinked local player does
      what the intended one does: its body and mesh end where the intended
      frame puts them, whether or not ShiftLeft went down. What it loses is
      everything after: no link, no send, no throttle bookkeeping. */
  lemma AsWrittenMovesLikeIntended(p: Player, instruments: seq<I.Instrument>, now: int, shiftPressed: bool)
    requires p.isLocal && p.linked.None?
    ensures var a := UpdateAsWritten(p, instruments, now);
            var f := Update(p, instruments, now, shiftPressed);
            && a.threw
            && a.frame.player.body == f.player.body && a.frame.player.mesh == f.player.mesh
            && a.frame.player.linked.None? && a.frame.instruments == instruments
            && a.frame.player.lastSentPosition == p.lastSentPosition
            && a.frame.player.lastUpdateTime == p.lastUpdateTime
  {
  }

  /** As written, a new local player's first frame draws it at the spawn
      point and then throws before sending anything, whereas the intended
      update sends the spawn point. */
  lemma AsWrittenNeverSends(id: string, gameCode: string, instruments: seq<I.Instrument>, now: int)
    requires now >= UpdateInterval
    ensures UpdateAsWritten(New(id, gameCode, true), instruments, now).threw
    ensures UpdateAsWritten(New(id, gameCode, true), instruments, now).frame.sent.None?
    ensures UpdateAsWritten(New(id, gameCode, true), instruments, now).frame.player.mesh == Vec3(0.0, Physics.Floor, 0.0)
    ensures Update(New(id, gameCode, true), instruments, now, false).sent.Some?
  {
    FirstFrameReportsSpawn(id, gameCode, instruments, now);
  }
}
