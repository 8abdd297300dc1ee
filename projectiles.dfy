/** The snowballs of ProjectileManager.js: a fixed pool of 100 spheres reused round-robin,
    thrown from the player's capsule top, pulled down by gravity, frozen once they fall
    below y = -50, and parked again when they hit a live zombie, which loses one health
    point. Meshes, rotation and materials are rendering and are left out. */
module Projectiles {
  import opened Vectors
  import opened Hud
  import opened Wrappers
  import opened Zombies
  import PlayerModel

  // ProjectileManager.js:5-9 and the literals of throwBall, update and checkCollisions.
  const NumSpheres := 100
  const BallGravity := 30.0
  const ThrowSpeed := 20.0
  const ThrowOffset := 0.5
  const HitDistance := 1.0
  const FrozenBelow := -50.0
  const ParkedCenter := Vec3(0.0, -100.0, 0.0)

  /** A pool entry: the collider's centre, the velocity and whether the mesh is shown. */
  datatype Sphere = Sphere(center: Vec3, velocity: Vec3, visible: bool)

  /** A sphere as initSpheres creates it. */
  const Fresh := Sphere(ParkedCenter, Zero, false)

  /** Moved out of play: the centre goes to (0, -100, 0) and the mesh is hidden; the
      velocity is left as it was. */
  function Parked(s: Sphere): Sphere
  {
    s.(center := ParkedCenter, visible := false)
  }

  /** update skips a sphere whose centre is below y = -50. */
  predicate Flying(s: Sphere)
  {
    !(s.center.y < FrozenBelow)
  }

  /** One frame of flight: gravity on the vertical speed, then the centre moves by the
      new velocity times delta. */
  function Flown(s: Sphere, delta: real): Sphere
  {
    var velocity := s.velocity.(y := s.velocity.y - BallGravity * delta);
    s.(velocity := velocity, center := Add(s.center, Scale(velocity, delta)))
  }

  /** The sphere throwBall puts into play. */
  function Thrown(origin: Vec3, direction: Vec3): Sphere
  {
    Sphere(Add(origin, Scale(direction, ThrowOffset)), Scale(direction, ThrowSpeed), true)
  }

  /** checkCollisions' test for one zombie: alive, and `distance < 1`, compared squared. */
  predicate InReach(center: Vec3, z: Zombie)
  {
    z.health > 0 && DistanceSq(center, z.position) < HitDistance * HitDistance
  }

  /** The first zombie from index `from` on that the sphere hits. */
  function FirstTarget(center: Vec3, zs: seq<Zombie>, from: nat): (t: Option<nat>)
    requires from <= |zs|
    ensures t.Some? ==> from <= t.value < |zs|
    decreases |zs| - from
  {
    if from == |zs| then None
    else if InReach(center, zs[from]) then Some(from)
    else FirstTarget(center, zs, from + 1)
  }

  /** What one sphere's collision check leaves behind, and whether it killed. */
  datatype Hit = Hit(sphere: Sphere, zombies: seq<Zombie>, kills: nat)

  /** checkCollisions: the first zombie in reach loses one health point and the sphere is
      parked; with no zombie in reach nothing happens. */
  function Collide(s: Sphere, zs: seq<Zombie>): (h: Hit)
    ensures |h.zombies| == |zs|
  {
    match FirstTarget(s.center, zs, 0)
    case None => Hit(s, zs, 0)
    case Some(j) =>
      var hurt := zs[j].(health := zs[j].health - 1);
      Hit(Parked(s), zs[j := hurt], if hurt.health <= 0 then 1 else 0)
  }

  /** One sphere's part of update. */
  function StepSphere(s: Sphere, zs: seq<Zombie>, delta: real): (h: Hit)
    ensures |h.zombies| == |zs|
  {
    if Flying(s) then Collide(Flown(s, delta), zs) else Hit(s, zs, 0)
  }

  /** The whole pool and the zombies, and the kills counted so far. */
  datatype World = World(spheres: seq<Sphere>, zombies: seq<Zombie>, kills: nat)

  /** The first `n` spheres stepped in order; every sphere sees the zombies as the spheres
      before it left them. */
  function Swept(spheres: seq<Sphere>, zs: seq<Zombie>, delta: real, n: nat): (w: World)
    requires n <= |spheres|
    ensures |w.spheres| == |spheres| && |w.zombies| == |zs|
  {
    if n == 0 then World(spheres, zs, 0)
    else
      var w := Swept(spheres, zs, delta, n - 1);
      var h := StepSphere(w.spheres[n - 1], w.zombies, delta);
      World(w.spheres[n - 1 := h.sphere], h.zombies, w.kills + h.kills)
  }

  /** How many zombies have no health left. */
  function CountDead(zs: seq<Zombie>): nat
  {
    if |zs| == 0 then 0 else CountDead(zs[..|zs| - 1]) + (if zs[|zs| - 1].health <= 0 then 1 else 0)
  }

  // ---------------------------------------------------------------- properties

  /** FirstTarget finds the first zombie in reach, and finds none only when there is none. */
  lemma {:induction false} FirstTargetIsFirst(center: Vec3, zs: seq<Zombie>, from: nat)
    requires from <= |zs|
    decreases |zs| - from
    ensures var t := FirstTarget(center, zs, from);
      && (t.Some? ==> from <= t.value < |zs| && InReach(center, zs[t.value])
                      && forall i :: from <= i < t.value ==> !InReach(center, zs[i]))
      && (t.None? <==> forall i :: from <= i < |zs| ==> !InReach(center, zs[i]))
  {
    if from < |zs| && !InReach(center, zs[from]) {
      FirstTargetIsFirst(center, zs, from + 1);
    }
  }

  /** A collision check changes at most one zombie, the first one in reach, by exactly one
      health point, and then parks the sphere; dead zombies and every other zombie stay as
      they were; without a zombie in reach nothing changes. */
  lemma CollideEffect(s: Sphere, zs: seq<Zombie>)
    ensures var h := Collide(s, zs);
      && ((forall i :: 0 <= i < |zs| ==> !InReach(s.center, zs[i])) ==> h == Hit(s, zs, 0))
      && (forall i :: 0 <= i < |zs| && zs[i].health <= 0 ==> h.zombies[i] == zs[i])
      && ((exists i :: 0 <= i < |zs| && InReach(s.center, zs[i])) ==>
            exists j :: 0 <= j < |zs| && InReach(s.center, zs[j])
              && (forall i :: 0 <= i < j ==> !InReach(s.center, zs[i]))
              && h.zombies == zs[j := zs[j].(health := zs[j].health - 1)]
              && h.sphere == Parked(s)
              && h.kills == (if zs[j].health == 1 then 1 else 0))
  {
    FirstTargetIsFirst(s.center, zs, 0);
  }

  lemma {:induction false} CountDeadUpdate(zs: seq<Zombie>, j: nat, z: Zombie)
    requires j < |zs|
    ensures CountDead(zs[j := z]) + (if zs[j].health <= 0 then 1 else 0)
         == CountDead(zs) + (if z.health <= 0 then 1 else 0)
  {
    var n := |zs|;
    var updated := zs[j := z];
    if j < n - 1 {
      assert updated[..n - 1] == zs[..n - 1][j := z];
      CountDeadUpdate(zs[..n - 1], j, z);
    } else {
      assert updated[..n - 1] == zs[..n - 1];
    }
  }

  /** Every kill a sphere scores is one more zombie without health: kills are counted
      exactly once, and only for live zombies brought to 0. */
  lemma StepSphereCountsKills(s: Sphere, zs: seq<Zombie>, delta: real)
    ensures var h := StepSphere(s, zs, delta); CountDead(h.zombies) == CountDead(zs) + h.kills
  {
    if Flying(s) {
      var f := Flown(s, delta);
      var t := FirstTarget(f.center, zs, 0);
      FirstTargetIsFirst(f.center, zs, 0);
      if t.Some? {
        var j := t.value;
        CountDeadUpdate(zs, j, zs[j].(health := zs[j].health - 1));
      }
    }
  }

  /** Over a whole update the kill count grows by exactly the number of zombies that lost
      their last health point, and the number of zombies stays the same. */
  lemma {:induction false} SweptCountsKills(spheres: seq<Sphere>, zs: seq<Zombie>, delta: real, n: nat)
    requires n <= |spheres|
    ensures var w := Swept(spheres, zs, delta, n); CountDead(w.zombies) == CountDead(zs) + w.kills
  {
    if n > 0 {
      SweptCountsKills(spheres, zs, delta, n - 1);
      var w := Swept(spheres, zs, delta, n - 1);
      StepSphereCountsKills(w.spheres[n - 1], w.zombies, delta);
    }
  }

  /** One sphere's step touches nothing of a zombie but its health, never raises it, and
      leaves dead zombies exactly as they were. */
  predicate OnlyHurts(before: seq<Zombie>, after: seq<Zombie>)
  {
    && |after| == |before|
    && forall i :: 0 <= i < |before| ==>
         && after[i] == before[i].(health := after[i].health)
         && after[i].health <= before[i].health
         && (before[i].health <= 0 ==> after[i] == before[i])
  }

  lemma StepSphereOnlyHurts(s: Sphere, zs: seq<Zombie>, delta: real)
    ensures OnlyHurts(zs, StepSphere(s, zs, delta).zombies)
  {
    if Flying(s) {
      FirstTargetIsFirst(Flown(s, delta).center, zs, 0);
    }
  }

  /** So over a whole update a zombie already dead is never hit again, which is why the
      kill counter advances at most once per zombie from snowballs. */
  lemma {:induction false} SweptOnlyHurts(spheres: seq<Sphere>, zs: seq<Zombie>, delta: real, n: nat)
    requires n <= |spheres|
    ensures OnlyHurts(zs, Swept(spheres, zs, delta, n).zombies)
  {
    if n > 0 {
      SweptOnlyHurts(spheres, zs, delta, n - 1);
      var w := Swept(spheres, zs, delta, n - 1);
      StepSphereOnlyHurts(w.spheres[n - 1], w.zombies, delta);
    }
  }

  /** A frozen sphere (below y = -50, parked ones included) neither moves nor hits. */
  lemma FrozenSphereIsInert(s: Sphere, zs: seq<Zombie>, delta: real)
    requires !Flying(s)
    ensures StepSphere(s, zs, delta) == Hit(s, zs, 0)
  {
  }

  lemma ParkedIsFrozen(s: Sphere)
    ensures !Flying(Parked(s)) && !Parked(s).visible
  {
  }

  /** A thrown ball starts half a unit out along the aim and flies at 20 times it. */
  lemma ThrownBall(origin: Vec3, direction: Vec3)
    requires LengthSq(direction) == 1.0
    ensures var s := Thrown(origin, direction);
      && DistanceSq(s.center, origin) == ThrowOffset * ThrowOffset
      && LengthSq(s.velocity) == ThrowSpeed * ThrowSpeed && s.visible
  {
    assert Sub(Add(origin, Scale(direction, ThrowOffset)), origin) == Scale(direction, ThrowOffset);
    LengthSqScale(direction, ThrowOffset);
    LengthSqScale(direction, ThrowSpeed);
  }

  /** The pool of spheres and the round-robin index. `thrown` counts the throws since the
      last reset. */
  class ProjectileManager {
    var spheres: array<Sphere>
    var sphereIdx: nat
    ghost var thrown: nat

    ghost predicate Valid()
      reads this
    {
      spheres.Length == NumSpheres && sphereIdx == thrown % NumSpheres
    }

    /** The constructor, with initSpheres: 100 parked, hidden spheres. */
    constructor ()
      ensures Valid() && fresh(spheres) && thrown == 0
      ensures forall i :: 0 <= i < spheres.Length ==> spheres[i] == Fresh
    {
      var pool := new Sphere[NumSpheres];
      var i := 0;
      while i < NumSpheres
        invariant 0 <= i <= NumSpheres
        invariant forall j :: 0 <= j < i ==> pool[j] == Fresh
      {
        pool[i] := Sphere(Vec3(0.0, -100.0, 0.0), Vec3(0.0, 0.0, 0.0), false);
        i := i + 1;
      }
      spheres := pool;
      sphereIdx := 0;
      thrown := 0;
    }

    /** throwBall: unless paused, the next sphere of the ring is thrown from `origin` (the
        player's capsule top) along `direction`. */
    method ThrowBall(direction: Vec3, paused: bool, origin: Vec3)
      requires Valid()
      modifies spheres, this`sphereIdx, this`thrown
      ensures Valid()
      ensures paused ==> spheres[..] == old(spheres[..]) && sphereIdx == old(sphereIdx)
      ensures !paused ==> spheres[..] == old(spheres[..])[old(sphereIdx) := Thrown(origin, direction)]
                          && thrown == old(thrown) + 1
    {
      if paused {
        return;
      }
      spheres[sphereIdx] := Sphere(Add(origin, Scale(direction, 0.5)), Scale(direction, 20.0), true);
      sphereIdx := (sphereIdx + 1) % NumSpheres;
      thrown := thrown + 1;
    }

    /** update: every sphere still flying takes a step and is checked against the
        zombies, in pool order. */
    method Update(delta: real, zm: ZombieManager, ui: UIManager)
      requires Valid()
      modifies spheres, zm`zombies, zm`zombiesKilled, ui
      ensures Valid()
      ensures var w := Swept(old(spheres[..]), old(zm.zombies), delta, NumSpheres);
        && spheres[..] == w.spheres && zm.zombies == w.zombies
        && zm.zombiesKilled == old(zm.zombiesKilled) + w.kills
      ensures old(ui.counterText == CounterText(zm.zombiesKilled)) ==> ui.counterText == CounterText(zm.zombiesKilled)
      ensures ui.barWidth == old(ui.barWidth) && ui.barColour == old(ui.barColour)
      ensures ui.deathShown == old(ui.deathShown) && ui.pauseShown == old(ui.pauseShown)
    {
      var i := 0;
      while i < NumSpheres
        invariant 0 <= i <= NumSpheres
        invariant var w := Swept(old(spheres[..]), old(zm.zombies), delta, i);
          && spheres[..] == w.spheres && zm.zombies == w.zombies
          && zm.zombiesKilled == old(zm.zombiesKilled) + w.kills
        invariant old(ui.counterText == CounterText(zm.zombiesKilled)) ==> ui.counterText == CounterText(zm.zombiesKilled)
        invariant ui.barWidth == old(ui.barWidth) && ui.barColour == old(ui.barColour)
        invariant ui.deathShown == old(ui.deathShown) && ui.pauseShown == old(ui.pauseShown)
      {
        if !(spheres[i].center.y < FrozenBelow) {
          var sphere := spheres[i];
          var velocity := sphere.velocity.(y := sphere.velocity.y - BallGravity * delta);
          spheres[i] := sphere.(velocity := velocity, center := Add(sphere.center, Scale(velocity, delta)));
          CheckCollisions(i, zm, ui);
        }
        i := i + 1;
      }
    }

    /** checkCollisions for sphere `i`: the first live zombie within distance 1 loses a
        health point (and counts as killed at 0), and the sphere is parked. */
    method CheckCollisions(i: nat, zm: ZombieManager, ui: UIManager)
      requires i < spheres.Length
      modifies spheres, zm`zombies, zm`zombiesKilled, ui
      ensures var h := Collide(old(spheres[i]), old(zm.zombies));
        && spheres[..] == old(spheres[..])[i := h.sphere] && zm.zombies == h.zombies
        && zm.zombiesKilled == old(zm.zombiesKilled) + h.kills
      ensures old(ui.counterText == CounterText(zm.zombiesKilled)) ==> ui.counterText == CounterText(zm.zombiesKilled)
      ensures ui.barWidth == old(ui.barWidth) && ui.barColour == old(ui.barColour)
      ensures ui.deathShown == old(ui.deathShown) && ui.pauseShown == old(ui.pauseShown)
    {
      var center := spheres[i].center;
      var j := 0;
      while j < |zm.zombies|
        invariant 0 <= j <= |zm.zombies|
        invariant zm.zombies == old(zm.zombies) && spheres[..] == old(spheres[..])
        invariant zm.zombiesKilled == old(zm.zombiesKilled) && ui.counterText == old(ui.counterText)
        invariant unchanged(ui)
        invariant FirstTarget(center, zm.zombies, 0) == FirstTarget(center, zm.zombies, j)
      {
        var zombie := zm.zombies[j];
        if zombie.health > 0 && DistanceSq(center, zombie.position) < HitDistance * HitDistance {
          zm.zombies := zm.zombies[j := zombie.(health := zombie.health - 1)];
          if zombie.health - 1 <= 0 {
            zm.OnZombieKilled(ui);
          }
          spheres[i] := spheres[i].(center := Vec3(0.0, -100.0, 0.0), visible := false);
          return;
        }
        j := j + 1;
      }
    }

    /** reset: every sphere parked, the ring index back to 0. */
    method Reset()
      requires Valid()
      modifies spheres, this`sphereIdx, this`thrown
      ensures Valid() && sphereIdx == 0
      ensures forall j :: 0 <= j < NumSpheres ==> spheres[j] == Parked(old(spheres[j]))
    {
      var i := 0;
      while i < NumSpheres
        invariant 0 <= i <= NumSpheres
        invariant forall j :: 0 <= j < i ==> spheres[j] == Parked(old(spheres[j]))
        invariant forall j :: i <= j < NumSpheres ==> spheres[j] == old(spheres[j])
      {
        spheres[i] := spheres[i].(center := Vec3(0.0, -100.0, 0.0), visible := false);
        i := i + 1;
      }
      sphereIdx := 0;
      thrown := 0;
    }
  }

  /** The mouse-down listener of Player.js: the player throws along the aim from the
      capsule top, but only while the game runs, the player is alive and the pointer is
      locked; throwBall itself checks the pause once more. */
  method MouseDown(player: PlayerModel.Player, pm: ProjectileManager, paused: bool, pointerLocked: bool,
                   direction: Vec3)
    requires pm.Valid()
    modifies pm.spheres, pm`sphereIdx, pm`thrown
    ensures pm.Valid()
    ensures paused || player.isDead || !pointerLocked ==>
      pm.spheres[..] == old(pm.spheres[..]) && pm.sphereIdx == old(pm.sphereIdx)
    ensures !paused && !player.isDead && pointerLocked ==>
      pm.spheres[..] == old(pm.spheres[..])[old(pm.sphereIdx) := Thrown(player.end, direction)]
      && pm.thrown == old(pm.thrown) + 1
  {
    if !paused && !player.isDead && pointerLocked {
      pm.ThrowBall(direction, paused, player.end);
    }
  }
}
