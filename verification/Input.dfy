/** The keyboard state of front/src/assets/three/controls/InputManager.ts:
    the last `keydown`/`keyup` seen for each `KeyboardEvent.code`, and the
    movement and jump intents read from it. */
module Input {
  /** `keys`: a code is mapped to `true` by its last `keydown` and to `false`
      by its last `keyup`; a code never seen is absent. */
  datatype Keyboard = Keyboard(keys: map<string, bool>)

  const NoKeys := Keyboard(map[])

  /** `isKeyPressed(code)`: `keys[code] || false`, so an absent code reads as
      not pressed. */
  predicate IsKeyPressed(kb: Keyboard, code: string): (r: bool)
    ensures code !in kb.keys ==> !r
  {
    code in kb.keys && kb.keys[code]
  }

  /** `handleKey(e, down)`: records the event for its code only. */
  function HandleKey(kb: Keyboard, code: string, down: bool): (r: Keyboard)
    ensures IsKeyPressed(r, code) == down
    ensures forall c | c != code :: IsKeyPressed(r, c) == IsKeyPressed(kb, c)
  {
    Keyboard(kb.keys[code := down])
  }

  /** One browser key event. */
  datatype KeyEvent = KeyEvent(code: string, down: bool)

  /** The events in the order the window delivered them. */
  function Replay(kb: Keyboard, events: seq<KeyEvent>): Keyboard
    decreases |events|
  {
    if |events| == 0 then kb else Replay(HandleKey(kb, events[0].code, events[0].down), events[1..])
  }

  /** The last event for a code decides whether it is pressed, whatever came
      before and whatever other codes did afterwards. */
  lemma {:induction false} LastEventWins(kb: Keyboard, events: seq<KeyEvent>, i: nat)
    requires i < |events|
    requires forall j | i < j < |events| :: events[j].code != events[i].code
    ensures IsKeyPressed(Replay(kb, events), events[i].code) == events[i].down
    decreases |events|
  {
    var next := HandleKey(kb, events[0].code, events[0].down);
    if i == 0 {
      NoLaterEventKeeps(next, events[1..], events[0].code);
    } else {
      LastEventWins(next, events[1..], i - 1);
    }
  }

  /** Events for other codes leave a code's state alone. */
  lemma {:induction false} NoLaterEventKeeps(kb: Keyboard, events: seq<KeyEvent>, code: string)
    requires forall j | 0 <= j < |events| :: events[j].code != code
    ensures IsKeyPressed(Replay(kb, events), code) == IsKeyPressed(kb, code)
    decreases |events|
  {
    if |events| > 0 {
      NoLaterEventKeeps(HandleKey(kb, events[0].code, events[0].down), events[1..], code);
    }
  }

  /** `getMovement()`: ArrowLeft beats ArrowRight on x (-1 / 1), ArrowUp
      beats ArrowDown on z (-1 / 1); the axes are independent. */
  function Movement(kb: Keyboard): (m: (int, int))
    ensures m.0 in {-1, 0, 1} && m.1 in {-1, 0, 1}
    ensures m.0 == -1 <==> IsKeyPressed(kb, "ArrowLeft")
    ensures m.0 == 1 <==> !IsKeyPressed(kb, "ArrowLeft") && IsKeyPressed(kb, "ArrowRight")
    ensures m.1 == -1 <==> IsKeyPressed(kb, "ArrowUp")
    ensures m.1 == 1 <==> !IsKeyPressed(kb, "ArrowUp") && IsKeyPressed(kb, "ArrowDown")
  {
    var x := if IsKeyPressed(kb, "ArrowLeft") then -1
             else if IsKeyPressed(kb, "ArrowRight") then 1 else 0;
    var z := if IsKeyPressed(kb, "ArrowUp") then -1
             else if IsKeyPressed(kb, "ArrowDown") then 1 else 0;
    (x, z)
  }

  /** `isJumpPressed()`: nothing reads as a jump before a `Space` event. */
  predicate IsJumpPressed(kb: Keyboard): (r: bool)
    ensures r ==> "Space" in kb.keys
  {
    IsKeyPressed(kb, "Space")
  }

  /** A code no event has named is not pressed, whatever else was pressed. */
  lemma UnseenKeyNotPressed(events: seq<KeyEvent>, code: string)
    requires forall j | 0 <= j < |events| :: events[j].code != code
    ensures !IsKeyPressed(Replay(NoKeys, events), code)
  {
    NoLaterEventKeeps(NoKeys, events, code);
  }

  /** The jump reading follows the `Space` key alone, and the `Space` key
      never changes the movement reading. */
  lemma JumpReadsSpaceOnly(kb: Keyboard, code: string, down: bool)
    ensures IsJumpPressed(HandleKey(kb, code, down)) == if code == "Space" then down else IsJumpPressed(kb)
    ensures code == "Space" ==> Movement(HandleKey(kb, code, down)) == Movement(kb)
  {
  }

  /** Holding both arrows of an axis never cancels out: the left/up arrow
      wins, so the player keeps moving. */
  lemma OppositeArrowsDoNotCancel(kb: Keyboard)
    requires IsKeyPressed(kb, "ArrowLeft") && IsKeyPressed(kb, "ArrowRight")
    requires IsKeyPressed(kb, "ArrowUp") && IsKeyPressed(kb, "ArrowDown")
    ensures Movement(kb) == (-1, -1)
  {
  }
}
