/** The per-frame motion of front/src/assets/three/physics/Physics.ts:
    horizontal velocity set from the movement intent, a jump impulse only from
    the ground, constant gravity, and a floor at height 0.5. Numbers are exact
    reals here; the source's are IEEE-754 doubles. */
module Physics {
  import opened Protocol

  datatype Config = Config(moveSpeed: real, jumpForce: real, gravity: real)

  /** The constructor's defaults. */
  const DefaultConfig := Config(0.08, 0.18, 0.01)

  /** The height of the floor the body rests on. */
  const Floor: real := 0.5

  datatype Body = Body(position: Vec3, velocity: Vec3, onGround: bool)

  /** A new body: at [0, 0.5, 0], at rest, on the ground. */
  const Initial := Body(Vec3(0.0, Floor, 0.0), Vec3(0.0, 0.0, 0.0), true)

  /** A grounded body sits on the floor with no vertical velocity. */
  predicate Grounded(b: Body) {
    b.onGround ==> b.position.y == Floor && b.velocity.y == 0.0
  }

  /** `update(movement, shouldJump)`, in the source's order: set the
      horizontal velocity, apply the jump impulse if on the ground, subtract
      gravity, move by the velocity, then clamp to the floor. The position it
      returns is `r.position`. */
  function Update(cfg: Config, b: Body, mx: real, mz: real, jump: bool): (r: Body)
    ensures r.position.y >= Floor
    ensures r.position.x == b.position.x + mx * cfg.moveSpeed
    ensures r.position.z == b.position.z + mz * cfg.moveSpeed
    ensures r.velocity.x == mx * cfg.moveSpeed && r.velocity.z == mz * cfg.moveSpeed
    ensures var vy := (if jump && b.onGround then cfg.jumpForce else b.velocity.y) - cfg.gravity;
            if b.position.y + vy <= Floor
            then r.position.y == Floor && r.velocity.y == 0.0 && r.onGround
            else r.position.y == b.position.y + vy && r.velocity.y == vy && r.onGround == (b.onGround && !jump)
  {
    var vy0 := if jump && b.onGround then cfg.jumpForce else b.velocity.y;
    var ground0 := b.onGround && !jump;
    var vy1 := vy0 - cfg.gravity;
    var y1 := b.position.y + vy1;
    var x := b.position.x + mx * cfg.moveSpeed;
    var z := b.position.z + mz * cfg.moveSpeed;
    if y1 <= Floor then
      Body(Vec3(x, Floor, z), Vec3(mx * cfg.moveSpeed, 0.0, mz * cfg.moveSpeed), true)
    else
      Body(Vec3(x, y1, z), Vec3(mx * cfg.moveSpeed, vy1, mz * cfg.moveSpeed), ground0)
  }

  /** With gravity pointing down, a grounded body that does not jump stays
      exactly where it is vertically, and `Grounded` holds after every frame. */
  lemma UpdateKeepsGrounded(cfg: Config, b: Body, mx: real, mz: real, jump: bool)
    requires cfg.gravity >= 0.0 && Grounded(b)
    ensures Grounded(Update(cfg, b, mx, mz, jump))
    ensures b.onGround && !jump ==>
              Update(cfg, b, mx, mz, jump).onGround && Update(cfg, b, mx, mz, jump).position.y == Floor
  {
  }

  /** A jump only starts from the ground: in the air, holding Space changes
      nothing. */
  lemma NoJumpInTheAir(cfg: Config, b: Body, mx: real, mz: real)
    requires !b.onGround
    ensures Update(cfg, b, mx, mz, true) == Update(cfg, b, mx, mz, false)
  {
  }

  /** From the ground, a jump whose impulse beats one frame of gravity lifts
      the body off by exactly `jumpForce - gravity`. */
  lemma JumpLeavesTheGround(cfg: Config, b: Body, mx: real, mz: real)
    requires Grounded(b) && b.onGround && cfg.jumpForce > cfg.gravity
    ensures var r := Update(cfg, b, mx, mz, true);
            !r.onGround && r.position.y == Floor + cfg.jumpForce - cfg.gravity
            && r.velocity.y == cfg.jumpForce - cfg.gravity
  {
  }

  /** `n` frames with no horizontal movement and Space held throughout. */
  function Hop(b: Body, n: nat): Body
    decreases n
  {
    if n == 0 then b else Update(DefaultConfig, Hop(b, n - 1), 0.0, 0.0, true)
  }

  /** The height of the default jump `k` frames after take-off:
      `0.5 + 0.18 k - 0.01 k (k + 1) / 2`. */
  function JumpHeight(k: nat): real {
    Floor + 0.18 * k as real - 0.005 * (k as real) * (k as real + 1.0)
  }

  /** The body is strictly above the floor on frames 1 to 34 of the default
      jump. */
  lemma {:induction false} AboveFloorInFlight(k: nat)
    requires 1 <= k < 35
    ensures JumpHeight(k) > Floor
  {
    var kr := k as real;
    var c := 0.18 - 0.005 * (kr + 1.0);
    assert kr <= 34.0 && c >= 0.005;
    assert JumpHeight(k) - Floor == kr * c;
    assert kr * c >= c by {
      assert kr * c - c == (kr - 1.0) * c;
    }
  }

  /** With the default constants, Space held from rest on the floor gives the
      closed-form flight: frame `k` (1 to 34) is airborne at `JumpHeight(k)`
      with vertical velocity `0.18 - 0.01 k`. */
  lemma {:induction false} Flight(k: nat)
    requires 1 <= k < 35
    ensures Hop(Initial, k).position.y == JumpHeight(k)
    ensures Hop(Initial, k).velocity.y == 0.18 - 0.01 * k as real
    ensures !Hop(Initial, k).onGround
  {
    AboveFloorInFlight(k);
    if k > 1 {
      Flight(k - 1);
      var kr := k as real;
      assert JumpHeight(k - 1) + (0.18 - 0.01 * (kr - 1.0)) - 0.01 == JumpHeight(k);
    }
  }

  /** The default jump takes off at 0.67, passes 0.83, and lands back on the
      floor, at rest and grounded, on frame 35 exactly. */
  lemma DefaultJumpLandsOnFrame35()
    ensures Hop(Initial, 1).position.y == 0.67
    ensures Hop(Initial, 2).position.y == 0.83
    ensures Hop(Initial, 35).position.y == Floor && Hop(Initial, 35).onGround
    ensures Hop(Initial, 35).velocity.y == 0.0
  {
    Flight(1);
    Flight(2);
    Flight(34);
    assert JumpHeight(34) + (0.18 - 0.01 * 34.0) - 0.01 == Floor;
  }
}
