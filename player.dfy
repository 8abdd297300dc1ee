/** The player of Player.js: health, death and reset, and the capsule collider moved by the
    per-frame movement integration, the octree collision response, the world-bounds check
    and the fall-damage check. Camera, pointer lock, raycaster and octree are outside the
    model: their answers are inputs. */
module PlayerModel {
  import opened Vectors
  import opened Wrappers
  import opened Hud

  // Tuning constants set by the constructor (Player.js:8-17).
  const MaxHealth := 5.0
  const Gravity := 9.8
  const MoveSpeed := 5.0
  const JumpForce := 8.0
  const MaxSpeed := 5.0
  const AirControlFactor := 0.5
  const Friction := 0.9

  // The collider at spawn (Player.js:41-45); its segment is 0.45 high.
  const SpawnStart := Vec3(0.0, 1.35, 0.0)
  const SpawnEnd := Vec3(0.0, 1.8, 0.0)
  const CapsuleHeight := 0.45

  // SceneManager.worldBounds (SceneManager.js:12-15); the check never reads WorldMax.y.
  const WorldMin := Vec3(-50.0, -5.0, -50.0)
  const WorldMax := Vec3(50.0, 50.0, 50.0)

  /** A capsule whose lower endpoint is below this height takes fall damage. */
  const FallDeathY := -25.0

  /** What `Octree.capsuleIntersect` reports for a hit: the contact normal and the
      penetration depth. */
  datatype Contact = Contact(normal: Vec3, depth: real)

  /** The player's collider endpoints, velocity, floor flag and last safe position. */
  datatype Kinematics = Kinematics(start: Vec3, end: Vec3, velocity: Vec3, onFloor: bool, lastSafe: Vec3)

  /** The player's health and death flag. */
  datatype Vitals = Vitals(health: real, isDead: bool)

  /** The collider's upper endpoint sits exactly 0.45 above the lower one. */
  predicate Upright(k: Kinematics)
  {
    k.end.x == k.start.x && k.end.y == k.start.y + CapsuleHeight && k.end.z == k.start.z
  }

  /** `this.keyStates[code]` is truthy. */
  predicate Pressed(keys: map<string, bool>, code: string)
  {
    code in keys && keys[code]
  }

  predicate NoMovementKeys(keys: map<string, bool>)
  {
    !Pressed(keys, "KeyW") && !Pressed(keys, "KeyS") && !Pressed(keys, "KeyA") && !Pressed(keys, "KeyD")
  }

  /** The ground friction of handleMovement, applied only on the floor. */
  function Frictioned(v: Vec3, onFloor: bool): Vec3
  {
    if onFloor then Vec3(v.x * Friction, v.y, v.z * Friction) else v
  }

  /** The acceleration per held key: full on the floor, halved in the air. */
  function SpeedDelta(onFloor: bool, delta: real): real
  {
    delta * MoveSpeed * (if onFloor then 1.0 else AirControlFactor)
  }

  /** One movement key: while held it adds `amount` times `direction`. */
  function Pushed(v: Vec3, held: bool, direction: Vec3, amount: real): Vec3
  {
    if held then Add(v, Scale(direction, amount)) else v
  }

  /** The velocity handleMovement has before its speed clamp: ground friction, then one
      acceleration per held key along the camera's forward and side vectors (W forward,
      S backward, A left, D right). */
  function Steered(k: Kinematics, keys: map<string, bool>, delta: real, forward: Vec3, side: Vec3): Vec3
  {
    var speedDelta := SpeedDelta(k.onFloor, delta);
    var v0 := Frictioned(k.velocity, k.onFloor);
    var v1 := Pushed(v0, Pressed(keys, "KeyW"), forward, speedDelta);
    var v2 := Pushed(v1, Pressed(keys, "KeyS"), forward, -speedDelta);
    var v3 := Pushed(v2, Pressed(keys, "KeyA"), side, -speedDelta);
    Pushed(v3, Pressed(keys, "KeyD"), side, speedDelta)
  }

  /** `hLen` is `horizontalVelocity.length()` for `v`: the square root three.js computes
      is an input of the model, pinned down by this relation. */
  predicate IsHorizontalLength(v: Vec3, hLen: real)
  {
    hLen >= 0.0 && hLen * hLen == HorizontalSq(v)
  }

  /** The horizontal speed clamp: a too fast horizontal velocity is normalised and scaled
      to MaxSpeed; the vertical component is kept. */
  function Clamped(v: Vec3, hLen: real): Vec3
  {
    if hLen > MaxSpeed then Vec3(v.x * (1.0 / hLen) * MaxSpeed, v.y, v.z * (1.0 / hLen) * MaxSpeed) else v
  }

  /** The jump: sets the vertical speed to JumpForce. */
  function Launched(v: Vec3, jumps: bool): Vec3
  {
    if jumps then Vec3(v.x, JumpForce, v.z) else v
  }

  /** Gravity, applied only in the air. */
  function Fallen(v: Vec3, onFloor: bool, delta: real): Vec3
  {
    if onFloor then v else Vec3(v.x, v.y - Gravity * delta, v.z)
  }

  /** Both collider endpoints translated by velocity * delta. */
  function Translated(k: Kinematics, velocity: Vec3, onFloor: bool, delta: real): Kinematics
  {
    var step := Scale(velocity, delta);
    k.(start := Add(k.start, step), end := Add(k.end, step), velocity := velocity, onFloor := onFloor)
  }

  /** handleMovement: steering, clamp, jump (only on the floor with Space held; it leaves
      the floor), gravity, then the translation. */
  function Moved(k: Kinematics, keys: map<string, bool>, delta: real, forward: Vec3, side: Vec3, hLen: real): Kinematics
  {
    var jumps := k.onFloor && Pressed(keys, "Space");
    var onFloor := k.onFloor && !jumps;
    var velocity := Fallen(Launched(Clamped(Steered(k, keys, delta, forward, side), hLen), jumps), onFloor, delta);
    Translated(k, velocity, onFloor, delta)
  }

  function Min(a: real, b: real): real { if a <= b then a else b }

  /** The size of the damped bounce added along the contact normal. */
  function Bounce(normalSpeed: real): real { Min(-normalSpeed * 0.8, 5.0) }

  /** checkCollisions, given the octree's answer for the capsule. */
  function Collided(k: Kinematics, hit: Option<Contact>): Kinematics
  {
    match hit
    case None => k.(onFloor := false)
    case Some(c) =>
      var onFloor := c.normal.y > 0.5;
      var correction := Scale(c.normal, c.depth * 1.01);
      var start := Add(k.start, correction);
      var end := Add(k.end, correction);
      var normalSpeed := Dot(k.velocity, c.normal);
      var velocity := if normalSpeed < 0.0 then Add(k.velocity, Scale(c.normal, Bounce(normalSpeed))) else k.velocity;
      Kinematics(start, end, velocity, onFloor, if onFloor then end else k.lastSafe)
  }

  /** The test of checkWorldBounds: outside the box sideways, or below its floor. */
  predicate OutOfBounds(p: Vec3)
  {
    p.x < WorldMin.x || p.x > WorldMax.x || p.z < WorldMin.z || p.z > WorldMax.z || p.y < WorldMin.y
  }

  /** resetToSafePosition. */
  function ResetToSafe(k: Kinematics): Kinematics
  {
    k.(start := k.lastSafe.(y := k.lastSafe.y - CapsuleHeight), end := k.lastSafe, velocity := Zero)
  }

  /** checkWorldBounds. */
  function Bounded(k: Kinematics): Kinematics
  {
    if OutOfBounds(k.end) then ResetToSafe(k) else k
  }

  /** checkFallDamage's test. */
  predicate FallsFatally(k: Kinematics)
  {
    k.start.y < FallDeathY
  }

  /** One update of a live, unpaused player up to the fall-damage check: the floor probe's
      answer, movement, collision response and bounds check. */
  function Advanced(k: Kinematics, probe: bool, keys: map<string, bool>, delta: real, forward: Vec3, side: Vec3,
                    hLen: real, hit: Option<Contact>): Kinematics
  {
    Bounded(Collided(Moved(k.(onFloor := probe), keys, delta, forward, side, hLen), hit))
  }

  /** The collider and motion state after a whole update, fall-damage reset included. */
  function Framed(k: Kinematics, probe: bool, keys: map<string, bool>, delta: real, forward: Vec3, side: Vec3,
                  hLen: real, hit: Option<Contact>): Kinematics
  {
    var a := Advanced(k, probe, keys, delta, forward, side, hLen, hit);
    if FallsFatally(a) then ResetToSafe(a) else a
  }

  /** The motion state reset puts back; the floor flag is left as it was. */
  function Respawned(k: Kinematics): Kinematics
  {
    k.(start := SpawnStart, end := SpawnEnd, velocity := Zero, lastSafe := SpawnEnd)
  }

  /** takeDamage: nothing while dead; otherwise exactly `amount` is subtracted, with no
      clamp, and the player dies when the result is at most 0. */
  function Damaged(v: Vitals, amount: real): Vitals
  {
    if v.isDead then v else Vitals(v.health - amount, v.health - amount <= 0.0)
  }

  /** `n` consecutive takeDamage(amount) calls. */
  function DamagedTimes(v: Vitals, amount: real, n: nat): Vitals
  {
    if n == 0 then v else Damaged(DamagedTimes(v, amount, n - 1), amount)
  }

  // ---------------------------------------------------------------- properties

  /** The factor the clamp scales the horizontal components by. */
  function ClampFactor(hLen: real): real
  {
    if hLen > MaxSpeed then MaxSpeed / hLen else 1.0
  }

  /** After the clamp the horizontal speed is at most MaxSpeed, the vertical component is
      untouched, and the horizontal direction is kept: both horizontal components are
      scaled by the same factor in (0, 1]. */
  lemma ClampBound(v: Vec3, hLen: real)
    requires IsHorizontalLength(v, hLen)
    ensures HorizontalSq(Clamped(v, hLen)) <= MaxSpeed * MaxSpeed
    ensures 0.0 < ClampFactor(hLen) <= 1.0
    ensures Clamped(v, hLen) == v.(x := v.x * ClampFactor(hLen), z := v.z * ClampFactor(hLen))
  {
    var r := Clamped(v, hLen);
    var f := ClampFactor(hLen);
    if hLen > MaxSpeed {
      assert r.x == v.x * f && r.z == v.z * f;
      calc {
        HorizontalSq(r);
        (v.x * f) * (v.x * f) + (v.z * f) * (v.z * f);
        f * f * HorizontalSq(v);
        f * f * (hLen * hLen);
        (f * hLen) * (f * hLen);
        MaxSpeed * MaxSpeed;
      }
    } else {
      SquareMonotone(hLen, MaxSpeed);
    }
  }

  /** After handleMovement the horizontal speed is at most MaxSpeed, whatever keys are held. */
  lemma MovedSpeedBound(k: Kinematics, keys: map<string, bool>, delta: real, forward: Vec3, side: Vec3, hLen: real)
    requires IsHorizontalLength(Steered(k, keys, delta, forward, side), hLen)
    ensures HorizontalSq(Moved(k, keys, delta, forward, side, hLen).velocity) <= MaxSpeed * MaxSpeed
  {
    var jumps := k.onFloor && Pressed(keys, "Space");
    ClampedStaysBounded(Steered(k, keys, delta, forward, side), hLen, jumps, k.onFloor && !jumps, delta);
  }

  /** The jump and gravity stages only touch the vertical speed, so the clamp's bound
      survives them. */
  lemma ClampedStaysBounded(v: Vec3, hLen: real, jumps: bool, onFloor: bool, delta: real)
    requires IsHorizontalLength(v, hLen)
    ensures HorizontalSq(Fallen(Launched(Clamped(v, hLen), jumps), onFloor, delta)) <= MaxSpeed * MaxSpeed
  {
    ClampBound(v, hLen);
    VerticalStagesKeepHorizontal(Clamped(v, hLen), jumps, onFloor, delta);
  }

  lemma VerticalStagesKeepHorizontal(v: Vec3, jumps: bool, onFloor: bool, delta: real)
    ensures var r := Fallen(Launched(v, jumps), onFloor, delta); r.x == v.x && r.z == v.z
  {
  }

  /** The vertical outcome of handleMovement when the camera basis is horizontal (as
      getForwardVector and getSideVector make it): the jump sets the vertical speed only on
      the floor with Space held, and gravity then applies at once because the jump leaves
      the floor; on the floor without a jump gravity does not apply; in the air it does. */
  lemma VerticalMotion(k: Kinematics, keys: map<string, bool>, delta: real, forward: Vec3, side: Vec3, hLen: real)
    requires forward.y == 0.0 && side.y == 0.0
    ensures var r := Moved(k, keys, delta, forward, side, hLen);
      && r.onFloor == (k.onFloor && !Pressed(keys, "Space"))
      && r.velocity.y == (if k.onFloor && Pressed(keys, "Space") then JumpForce - Gravity * delta
                          else if k.onFloor then k.velocity.y
                          else k.velocity.y - Gravity * delta)
  {
    assert Steered(k, keys, delta, forward, side).y == k.velocity.y;
  }

  /** Without movement keys and within the speed limit, friction is the only horizontal
      change, and it applies only on the floor. */
  lemma FrictionOnlyOnFloor(k: Kinematics, keys: map<string, bool>, delta: real, forward: Vec3, side: Vec3, hLen: real)
    requires IsHorizontalLength(Steered(k, keys, delta, forward, side), hLen)
    requires NoMovementKeys(keys) && HorizontalSq(k.velocity) <= MaxSpeed * MaxSpeed
    ensures var r := Moved(k, keys, delta, forward, side, hLen).velocity;
      if k.onFloor then r.x == k.velocity.x * Friction && r.z == k.velocity.z * Friction
      else r.x == k.velocity.x && r.z == k.velocity.z
  {
    var v := Steered(k, keys, delta, forward, side);
    assert HorizontalSq(v) <= HorizontalSq(k.velocity) by {
      if k.onFloor {
        assert HorizontalSq(v) == Friction * Friction * HorizontalSq(k.velocity);
      }
    }
    SquareRootBound(hLen, MaxSpeed);
  }

  /** A player standing on the floor with no keys held and no velocity does not move. */
  lemma RestingStaysAtRest(k: Kinematics, keys: map<string, bool>, delta: real, forward: Vec3, side: Vec3, hLen: real)
    requires IsHorizontalLength(Steered(k, keys, delta, forward, side), hLen)
    requires k.onFloor && k.velocity == Zero && NoMovementKeys(keys) && !Pressed(keys, "Space")
    ensures Moved(k, keys, delta, forward, side, hLen) == k
  {
    SteeringAtRest(k, keys, delta, forward, side, hLen);
    ScaleZero(delta);
    AddZero(k.start);
    AddZero(k.end);
  }

  lemma SteeringAtRest(k: Kinematics, keys: map<string, bool>, delta: real, forward: Vec3, side: Vec3, hLen: real)
    requires IsHorizontalLength(Steered(k, keys, delta, forward, side), hLen)
    requires k.onFloor && k.velocity == Zero && NoMovementKeys(keys)
    ensures Steered(k, keys, delta, forward, side) == Zero && hLen == 0.0
  {
    assert Steered(k, keys, delta, forward, side) == Zero;
    SquareRootBound(hLen, 0.0);
  }

  /** Movement and collision correction translate both endpoints alike, and every reset
      puts them 0.45 apart again, so the collider stays upright. */
  lemma UprightPreserved(k: Kinematics, probe: bool, keys: map<string, bool>, delta: real, forward: Vec3, side: Vec3,
                         hLen: real, hit: Option<Contact>)
    requires Upright(k)
    ensures Upright(Moved(k.(onFloor := probe), keys, delta, forward, side, hLen))
    ensures Upright(Collided(Moved(k.(onFloor := probe), keys, delta, forward, side, hLen), hit))
    ensures Upright(Advanced(k, probe, keys, delta, forward, side, hLen, hit))
    ensures Upright(Framed(k, probe, keys, delta, forward, side, hLen, hit))
  {
  }

  /** resetToSafePosition and reset re-establish the collider's shape from any state. */
  lemma ResetsRestoreUpright(k: Kinematics)
    ensures Upright(ResetToSafe(k)) && Upright(Respawned(k))
  {
  }

  /** The floor flag after the collision step is set exactly by a contact whose normal
      points more than half upwards; the safe position moves only then, to the corrected
      upper endpoint. */
  lemma FloorComesFromContact(k: Kinematics, hit: Option<Contact>)
    ensures Collided(k, hit).onFloor <==> hit.Some? && hit.value.normal.y > 0.5
    ensures Collided(k, hit).lastSafe == if Collided(k, hit).onFloor then Collided(k, hit).end else k.lastSafe
  {
  }

  lemma DotAddScaled(v: Vec3, n: Vec3, b: real)
    ensures Dot(Add(v, Scale(n, b)), n) == Dot(v, n) + b * LengthSq(n)
  {
  }

  /** The bounce only acts on a velocity moving into the surface; for a unit normal it adds
      between 0 (excluded) and 5 along the normal, so the inward speed shrinks but is never
      reversed into an outward one. */
  lemma BounceDampsInwardSpeed(k: Kinematics, c: Contact)
    requires LengthSq(c.normal) == 1.0
    ensures var r := Collided(k, Some(c)).velocity;
      var vn := Dot(k.velocity, c.normal);
      && (vn >= 0.0 ==> r == k.velocity)
      && (vn < 0.0 ==> 0.0 < Bounce(vn) <= 5.0 && vn < Dot(r, c.normal) < 0.0)
  {
    var vn := Dot(k.velocity, c.normal);
    if vn < 0.0 {
      DotAddScaled(k.velocity, c.normal, Bounce(vn));
    }
  }

  /** The world box has no ceiling: any height is inside as long as x and z are within
      [-50, 50] and y is at least -5. */
  lemma NoCeiling(p: Vec3)
    requires -50.0 <= p.x <= 50.0 && -50.0 <= p.z <= 50.0 && p.y >= -5.0
    ensures !OutOfBounds(p)
  {
  }

  /** After the bounds check the capsule top is inside the box, or the player is back at
      the last safe position with zero velocity, and then only because it was outside. */
  lemma BoundsCheckOutcome(k: Kinematics)
    ensures var r := Bounded(k);
      || (r == k && !OutOfBounds(k.end))
      || (OutOfBounds(k.end) && r.end == k.lastSafe && r.velocity == Zero && Upright(r))
  {
  }

  /** Because the bounds check runs first and resets at y < -5, fall damage can only
      happen when the last safe position itself lies below -24.55. */
  lemma FallDamageNeedsLowSafePosition(k: Kinematics)
    requires Upright(k)
    requires FallsFatally(Bounded(k))
    ensures OutOfBounds(k.end) && k.lastSafe.y < FallDeathY + CapsuleHeight
  {
  }

  /** takeDamage has no clamp: fall damage of MaxHealth taken at 4.5 leaves -0.5. */
  lemma NoHealthClamp()
    ensures Damaged(Vitals(4.5, false), MaxHealth) == Vitals(-0.5, true)
  {
  }

  /** A series of hits of a positive amount: a dead player takes none of it; while alive
      the health drops by exactly amount per hit; the hit that kills leaves the health in
      (-amount, 0] and every later hit is ignored. */
  lemma {:induction false} RepeatedDamage(v: Vitals, amount: real, n: nat)
    requires amount > 0.0 && (v.isDead <==> v.health <= 0.0)
    ensures var r := DamagedTimes(v, amount, n);
      && (r.isDead <==> r.health <= 0.0)
      && (v.isDead ==> r == v)
      && (!r.isDead ==> r.health == v.health - amount * (n as real))
      && (r.isDead && !v.isDead ==> -amount < r.health <= 0.0)
  {
    if n > 0 {
      RepeatedDamage(v, amount, n - 1);
      var p := DamagedTimes(v, amount, n - 1);
      if !p.isDead {
        assert p.health == v.health - amount * ((n - 1) as real);
        assert amount * ((n - 1) as real) + amount == amount * (n as real);
      }
    }
  }

  /** The state of the player: fields as in Player.js. `deaths` counts the calls of die()
      since the last reset. */
  class Player {
    var health: real
    var maxHealth: real
    var isDead: bool
    var keyStates: map<string, bool>
    var start: Vec3                // collider.start
    var end: Vec3                  // collider.end
    var velocity: Vec3
    var playerOnFloor: bool
    var lastSafePosition: Vec3
    ghost var deaths: nat

    function Body(): Kinematics
      reads this
    {
      Kinematics(start, end, velocity, playerOnFloor, lastSafePosition)
    }

    function Life(): Vitals
      reads this
    {
      Vitals(health, isDead)
    }

    /** Dead exactly when the health is at most 0, die() entered once for that death, and
        the collider upright. */
    ghost predicate Valid()
      reads this
    {
      && maxHealth == MaxHealth
      && (isDead <==> health <= 0.0)
      && deaths == (if isDead then 1 else 0)
      && Upright(Body())
    }

    /** The values the constructor and reset give. */
    ghost predicate AtSpawn()
      reads this
    {
      && health == MaxHealth && !isDead
      && start == SpawnStart && end == SpawnEnd
      && velocity == Zero && lastSafePosition == SpawnEnd
    }

    /** The HUD's bar shows this player's health. */
    ghost predicate BarShown(ui: UIManager)
      reads this, ui
    {
      maxHealth > 0.0 && ui.ShowsHealth(health, maxHealth)
    }

    /** The HUD's death screen is up exactly while this player is dead. */
    ghost predicate DeathShown(ui: UIManager)
      reads this, ui
    {
      ui.deathShown == isDead
    }

    constructor ()
      ensures Valid() && AtSpawn()
      ensures keyStates == map[] && !playerOnFloor
    {
      health := 5.0;
      maxHealth := 5.0;
      isDead := false;
      keyStates := map[];
      start := Vec3(0.0, 1.35, 0.0);
      end := Vec3(0.0, 1.8, 0.0);
      velocity := Zero;
      playerOnFloor := false;
      lastSafePosition := end;
      deaths := 0;
    }

    /** The keydown listener: records a held key unless the game is paused or the player
        is dead. */
    method KeyDown(code: string, paused: bool)
      modifies this`keyStates
      ensures keyStates == if !paused && !isDead then old(keyStates)[code := true] else old(keyStates)
    {
      if !paused && !isDead {
        keyStates := keyStates[code := true];
      }
    }

    /** The keyup listener: always releases the key. */
    method KeyUp(code: string)
      modifies this`keyStates
      ensures keyStates == old(keyStates)[code := false]
    {
      keyStates := keyStates[code := false];
    }

    /** One frame. `probe` is checkIfOnFloor's raycast answer for the collider before it
        moves, `forward` and `side` are the camera-derived unit vectors, `hLen` the
        horizontal speed at the clamp (see IsHorizontalLength) and `hit` the octree's
        answer for the moved capsule. */
    method Update(delta: real, paused: bool, probe: bool, forward: Vec3, side: Vec3, hLen: real,
                  hit: Option<Contact>, ui: UIManager)
      requires Valid()
      requires !paused && !isDead ==> IsHorizontalLength(Steered(Body().(onFloor := probe), keyStates, delta, forward, side), hLen)
      modifies this, ui
      ensures Valid()
      ensures keyStates == old(keyStates)
      ensures paused || old(isDead) ==> unchanged(this) && unchanged(ui)
      ensures !paused && !old(isDead) ==>
        var a := Advanced(old(Body()), probe, old(keyStates), delta, forward, side, hLen, hit);
        && Body() == Framed(old(Body()), probe, old(keyStates), delta, forward, side, hLen, hit)
        && Life() == if FallsFatally(a) then Damaged(old(Life()), MaxHealth) else old(Life())
      ensures old(BarShown(ui)) ==> BarShown(ui)
      ensures old(DeathShown(ui)) ==> DeathShown(ui)
      ensures ui.counterText == old(ui.counterText) && ui.pauseShown == old(ui.pauseShown)
    {
      if paused || isDead {
        return;
      }
      playerOnFloor := probe;
      HandleMovement(delta, forward, side, hLen);
      CheckCollisions(hit);
      CheckWorldBounds();
      CheckFallDamage(ui);
    }

    /** handleMovement, stage by stage, on the player's own fields. */
    method HandleMovement(delta: real, forward: Vec3, side: Vec3, hLen: real)
      modifies this`velocity, this`start, this`end, this`playerOnFloor
      ensures Body() == Moved(old(Body()), keyStates, delta, forward, side, hLen)
    {
      var keys := keyStates;
      var onFloor := playerOnFloor;
      var speedDelta := SpeedDelta(onFloor, delta);
      var v := Frictioned(velocity, onFloor);
      v := Pushed(v, Pressed(keys, "KeyW"), forward, speedDelta);
      v := Pushed(v, Pressed(keys, "KeyS"), forward, -speedDelta);
      v := Pushed(v, Pressed(keys, "KeyA"), side, -speedDelta);
      v := Pushed(v, Pressed(keys, "KeyD"), side, speedDelta);
      v := Clamped(v, hLen);
      if onFloor && Pressed(keys, "Space") {
        v := Launched(v, true);
        onFloor := false;
      }
      v := Fallen(v, onFloor, delta);
      var deltaPosition := Scale(v, delta);
      start, end, velocity, playerOnFloor := Add(start, deltaPosition), Add(end, deltaPosition), v, onFloor;
    }

    method CheckCollisions(hit: Option<Contact>)
      modifies this`start, this`end, this`velocity, this`playerOnFloor, this`lastSafePosition
      ensures Body() == Collided(old(Body()), hit)
    {
      playerOnFloor := false;
      if hit.Some? {
        var result := hit.value;
        if result.normal.y > 0.5 {
          playerOnFloor := true;
        }
        var correction := Scale(result.normal, result.depth * 1.01);
        start := Add(start, correction);
        end := Add(end, correction);
        var velocityDotNormal := Dot(velocity, result.normal);
        if velocityDotNormal < 0.0 {
          var bounceStrength := Min(-velocityDotNormal * 0.8, 5.0);
          velocity := Add(velocity, Scale(result.normal, bounceStrength));
        }
        if playerOnFloor {
          lastSafePosition := end;
        }
      }
    }

    method CheckWorldBounds()
      modifies this`start, this`end, this`velocity
      ensures Body() == Bounded(old(Body()))
    {
      var position := end;
      if position.x < WorldMin.x || position.x > WorldMax.x ||
         position.z < WorldMin.z || position.z > WorldMax.z ||
         position.y < WorldMin.y {
        ResetToSafePosition();
      }
    }

    method CheckFallDamage(ui: UIManager)
      requires Valid()
      modifies this, ui
      ensures Valid()
      ensures keyStates == old(keyStates)
      ensures FallsFatally(old(Body())) ==> Body() == ResetToSafe(old(Body())) && Life() == Damaged(old(Life()), MaxHealth)
      ensures !FallsFatally(old(Body())) ==> unchanged(this) && unchanged(ui)
      ensures old(BarShown(ui)) ==> BarShown(ui)
      ensures old(DeathShown(ui)) ==> DeathShown(ui)
      ensures ui.counterText == old(ui.counterText) && ui.pauseShown == old(ui.pauseShown)
    {
      if start.y < FallDeathY {
        TakeDamage(maxHealth, ui);
        ResetToSafePosition();
      }
    }

    method ResetToSafePosition()
      modifies this`start, this`end, this`velocity
      ensures Body() == ResetToSafe(old(Body()))
    {
      start := lastSafePosition;
      start := start.(y := start.y - CapsuleHeight);
      end := lastSafePosition;
      velocity := Zero;
    }

    /** takeDamage. While dead nothing happens, not even a HUD update. */
    method TakeDamage(amount: real, ui: UIManager)
      requires Valid()
      modifies this`health, this`isDead, this`deaths, ui
      ensures Valid()
      ensures Life() == Damaged(old(Life()), amount)
      ensures deaths == old(deaths) + (if !old(isDead) && isDead then 1 else 0)
      ensures old(isDead) ==> unchanged(ui)
      ensures !old(isDead) ==> ui.ShowsHealth(health, maxHealth) && ui.deathShown == (old(ui.deathShown) || isDead)
      ensures old(BarShown(ui)) ==> BarShown(ui)
      ensures old(DeathShown(ui)) ==> DeathShown(ui)
      ensures ui.counterText == old(ui.counterText) && ui.pauseShown == old(ui.pauseShown)
    {
      if isDead {
        return;
      }
      health := health - amount;
      ui.UpdateHealthBar(health, maxHealth);
      if health <= 0.0 {
        Die(ui);
      }
    }

    /** die: marks the player dead and shows the death screen (the pointer-lock release is
        not modelled). */
    method Die(ui: UIManager)
      modifies this`isDead, this`deaths, ui
      ensures isDead && deaths == old(deaths) + 1
      ensures ui.deathShown
      ensures ui.barWidth == old(ui.barWidth) && ui.barColour == old(ui.barColour)
      ensures ui.counterText == old(ui.counterText) && ui.pauseShown == old(ui.pauseShown)
    {
      isDead := true;
      deaths := deaths + 1;
      ui.ShowDeathScreen();
    }

    /** reset: fixed health, collider, velocity and safe position; the held keys and the
        floor flag are left alone; the health bar is re-derived. */
    method Reset(ui: UIManager)
      requires maxHealth == MaxHealth
      modifies this, ui
      ensures Valid() && AtSpawn()
      ensures Body() == Respawned(old(Body()))
      ensures keyStates == old(keyStates)
      ensures BarShown(ui)
      ensures ui.deathShown == old(ui.deathShown) && ui.counterText == old(ui.counterText)
      ensures ui.pauseShown == old(ui.pauseShown)
    {
      health := maxHealth;
      isDead := false;
      deaths := 0;
      start := Vec3(0.0, 1.35, 0.0);
      end := Vec3(0.0, 1.8, 0.0);
      velocity := Zero;
      lastSafePosition := Vec3(0.0, 1.8, 0.0);
      ui.UpdateHealthBar(health, maxHealth);
    }
  }

  /** Resetting twice is resetting once. */
  lemma RespawnIdempotent(k: Kinematics)
    ensures Respawned(Respawned(k)) == Respawned(k)
  {
  }
}
