/** The earlier single-file client of front/src/assets/three/gameScene.ts: its
    own copy of the motion step, written inline, a `state` sent on every
    frame while the socket is open, and a box per remote player created on the
    first `state` seen from it. */
module LegacyScene {
  import opened Protocol
  import Physics
  import Input

  /** The closure state: the local player's body and keys, whether the socket
      is OPEN, and `otherBoxes` as box id to box position. */
  datatype Legacy = Legacy(
    localId: string,
    gameCode: string,
    isHost: bool,
    body: Physics.Body,
    keys: Input.Keyboard,
    socketOpen: bool,
    boxes: map<string, Vec3>)

  function Start(localId: string, gameCode: string, isHost: bool): (l: Legacy)
    ensures l.body == Physics.Initial && l.boxes == map[] && !l.socketOpen
  {
    Legacy(localId, gameCode, isHost, Physics.Initial, Input.NoKeys, false, map[])
  }

  /** The motion part of `animate()`, statement by statement as the source
      writes it: speed 0.08 with ArrowLeft and ArrowUp first, a jump of 0.18
      only from the ground, gravity 0.01, then the floor clamp at 0.5. The box
      moves by at most one speed step on each horizontal axis and never ends
      below the floor. */
  function Step(b: Physics.Body, keys: Input.Keyboard): (r: Physics.Body)
    ensures r.position.y >= 0.5
    ensures r.position.x - b.position.x in {-0.08, 0.0, 0.08}
    ensures r.position.z - b.position.z in {-0.08, 0.0, 0.08}
    ensures Input.IsKeyPressed(keys, "ArrowLeft") ==> r.position.x == b.position.x - 0.08
  {
    var speed := 0.08;
    var vx := if Input.IsKeyPressed(keys, "ArrowLeft") then -speed
              else if Input.IsKeyPressed(keys, "ArrowRight") then speed else 0.0;
    var vz := if Input.IsKeyPressed(keys, "ArrowUp") then -speed
              else if Input.IsKeyPressed(keys, "ArrowDown") then speed else 0.0;
    var jumping := Input.IsKeyPressed(keys, "Space") && b.onGround;
    var vy := (if jumping then 0.18 else b.velocity.y) - 0.01;
    var ground := b.onGround && !jumping;
    var p := Vec3(b.position.x + vx, b.position.y + vy, b.position.z + vz);
    if p.y <= 0.5 then Physics.Body(p.(y := 0.5), Vec3(vx, 0.0, vz), true)
    else Physics.Body(p, Vec3(vx, vy, vz), ground)
  }

  /** The inline step is the `Physics` step with the default constants, fed
      by the `InputManager` reading of the same keys. */
  lemma StepIsPhysicsUpdate(b: Physics.Body, keys: Input.Keyboard)
    ensures var m := Input.Movement(keys);
            Step(b, keys) == Physics.Update(Physics.DefaultConfig, b, m.0 as real, m.1 as real, Input.IsJumpPressed(keys))
  {
  }

  /** Hence the legacy box never sinks below the floor. */
  lemma StepKeepsAboveFloor(b: Physics.Body, keys: Input.Keyboard)
    ensures Step(b, keys).position.y >= Physics.Floor
  {
    StepIsPhysicsUpdate(b, keys);
  }

  /** `ws.onopen`: the socket is OPEN; it sends `host` or `join` first, then
      the current position as a `state`. */
  function OnOpen(l: Legacy): (r: (Legacy, seq<Envelope>))
    ensures r.0 == l.(socketOpen := true)
    ensures |r.1| == 2
    ensures r.1[0].kind == (if l.isHost then Host else Join) && r.1[0].id == l.localId && r.1[0].gameCode == l.gameCode
    ensures r.1[1] == StateMsg(l.localId, l.gameCode, l.body.position)
  {
    (l.(socketOpen := true), [HostOrJoinMsg(l.isHost, l.gameCode, l.localId), StateMsg(l.localId, l.gameCode, l.body.position)])
  }

  /** One `animate()` frame: move, then send the new position if the socket
      is OPEN, with no throttle. */
  function Frame(l: Legacy): (r: (Legacy, Option<Envelope>))
    ensures r.0 == l.(body := Step(l.body, l.keys))
    ensures r.1.Some? <==> l.socketOpen
    ensures r.1.Some? ==> r.1.value == StateMsg(l.localId, l.gameCode, r.0.body.position)
  {
    var moved := l.(body := Step(l.body, l.keys));
    (moved, if l.socketOpen then Some(StateMsg(l.localId, l.gameCode, moved.body.position)) else None)
  }

  /** `n` frames with the keys as they are; the `state` messages sent, oldest
      first. */
  function Run(l: Legacy, n: nat): (Legacy, seq<Envelope>)
    decreases n
  {
    if n == 0 then (l, [])
    else
      var f := Frame(l);
      var rest := Run(f.0, n - 1);
      (rest.0, (if f.1.Some? then [f.1.value] else []) + rest.1)
  }

  /** With the socket open, every frame sends exactly one `state`, each
      carrying the position reached in that frame, which is on or above the
      floor; with it closed, none is sent. */
  lemma {:induction false} RunSendsEveryFrame(l: Legacy, n: nat)
    ensures |Run(l, n).1| == if l.socketOpen then n else 0
    ensures Run(l, n).0 == l.(body := Run(l, n).0.body)
    ensures forall k | 0 <= k < |Run(l, n).1| ::
              Run(l, n).1[k].kind == State && Run(l, n).1[k].id == l.localId
              && Run(l, n).1[k].position.Some? && Run(l, n).1[k].position.value.y >= Physics.Floor
    decreases n
  {
    if n > 0 {
      var f := Frame(l);
      StepKeepsAboveFloor(l.body, l.keys);
      RunSendsEveryFrame(f.0, n - 1);
    }
  }

  /** However many frames run before the socket opens, the first frame on
      the wire is the `host` or `join`, and every later one is a `state`: one
      for the open event and one per frame after it. */
  lemma JoinPrecedesEveryState(l: Legacy, before: nat, after: nat)
    requires !l.socketOpen
    ensures var pre := Run(l, before);
            var o := OnOpen(pre.0);
            var sent := pre.1 + o.1 + Run(o.0, after).1;
            && |sent| == after + 2
            && sent[0].kind == (if l.isHost then Host else Join)
            && forall k | 1 <= k < |sent| :: sent[k].kind == State
  {
    var pre := Run(l, before);
    RunSendsEveryFrame(l, before);
    var o := OnOpen(pre.0);
    RunSendsEveryFrame(o.0, after);
    assert pre.1 == [];
  }

  /** `ws.onmessage` for the box roster. A `state` from another id creates
      its box at the origin on first sight and then moves it; when the
      position is missing, reading it throws after the box was created. A
      `leave` from another id deletes its box if there is one. */
  function OnMessage(boxes: map<string, Vec3>, localId: string, msg: Envelope): (r: map<string, Vec3>)
    ensures msg.id == localId || msg.kind !in {State, Leave} ==> r == boxes
    ensures msg.kind == State && msg.id != localId ==> r.Keys == boxes.Keys + {msg.id}
    ensures msg.kind == State && msg.id != localId && msg.position.Some? ==> r == boxes[msg.id := msg.position.value]
    ensures msg.kind == State && msg.id != localId && msg.position.None? ==>
              r[msg.id] == (if msg.id in boxes then boxes[msg.id] else Origin)
    ensures msg.kind == Leave && msg.id != localId ==> r == boxes - {msg.id}
  {
    if msg.kind == State && msg.id != localId then
      var created := if msg.id in boxes then boxes else boxes[msg.id := Origin];
      if msg.position.Some? then created[msg.id := msg.position.value] else created
    else if msg.kind == Leave && msg.id != localId then boxes - {msg.id}
    else boxes
  }

  /** The box of a player is there from its first `state` until its `leave`,
      whatever other players' messages come in between. */
  lemma {:induction false} BoxLivesUntilLeave(boxes: map<string, Vec3>, localId: string, msgs: seq<Envelope>, q: string)
    requires q != localId && q in boxes
    requires forall k | 0 <= k < |msgs| :: !(msgs[k].kind == Leave && msgs[k].id == q)
    ensures q in Replay(boxes, localId, msgs)
    decreases |msgs|
  {
    if |msgs| > 0 {
      BoxLivesUntilLeave(OnMessage(boxes, localId, msgs[0]), localId, msgs[1..], q);
    }
  }

  function Replay(boxes: map<string, Vec3>, localId: string, msgs: seq<Envelope>): map<string, Vec3>
    decreases |msgs|
  {
    if |msgs| == 0 then boxes else Replay(OnMessage(boxes, localId, msgs[0]), localId, msgs[1..])
  }
}
