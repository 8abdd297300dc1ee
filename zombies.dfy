/** The zombies of ZombieManager.js: each zombie is a plain record that the manager's
    per-frame update steps (chase, attack, idle, or the death countdown) and then filters;
    the manager also runs the wave schedule of module Waves and the asynchronous model
    loads that turn spawn positions into zombies. Models, mixers, fades and the scene
    graph are rendering and are left out. */
module Zombies {
  import opened Vectors
  import opened Wrappers
  import opened Hud
  import opened Waves
  import opened PlayerModel

  /** The animation clips loadAnimations fetches (ZombieManager.js:37-42). */
  datatype Action = Walk | Attack | Die | Idle

  const AllActions: set<Action> := {Walk, Attack, Die, Idle}

  // The values every spawned zombie gets (ZombieManager.js:64-76).
  const SpawnHealth := 3
  const Speed := 1.5
  const AttackDamage := 0.5
  const AttackCooldown := 1.0

  // The thresholds of updateAliveZombie and updateDeadZombie, and randomPosition's range.
  const ChaseRange := 15.0
  const AttackRange := 1.5
  const DeathDelay := 2.0
  const SpawnRange := 40.0

  /** A zombie record. `position` is its model's position (the one that moves and that
      distances are measured from); `actions` are the clips it got when it was loaded. */
  datatype Zombie = Zombie(position: Vec3, health: int, currentAction: Option<Action>,
                           actions: set<Action>, lastAttack: real, deathTimer: real,
                           shouldRemove: bool)

  /** A zombie after one alive frame, and whether it punched the player. */
  datatype Outcome = Outcome(zombie: Zombie, attacks: bool)

  /** switchAction: nothing if the action is current; otherwise the action becomes
      current only if the zombie has that clip. */
  function SwitchAction(z: Zombie, next: Action): (r: Zombie)
    ensures r.currentAction == (if next in z.actions then Some(next) else z.currentAction)
    ensures r == z.(currentAction := r.currentAction)
  {
    if z.currentAction == Some(next) then z
    else if next in z.actions then z.(currentAction := Some(next))
    else z
  }

  /** The record spawnZombie's load callback builds and pushes, already switched to idle. */
  function Spawned(position: Vec3, animations: set<Action>): Zombie
  {
    SwitchAction(Zombie(position, SpawnHealth, None, animations, 0.0, 0.0, false), Idle)
  }

  /** `d` is `position.distanceTo(target)`: the square root is an input, fixed by this. */
  predicate IsDistance(d: real, a: Vec3, b: Vec3)
  {
    d >= 0.0 && d * d == DistanceSq(a, b)
  }

  /** The chase step: `speed * delta` along the normalised direction to the target. */
  function Approach(position: Vec3, target: Vec3, d: real, delta: real): Vec3
    requires d > 0.0
  {
    var direction := Scale(Sub(target, position), 1.0 / d);
    Add(position, Scale(direction, Speed * delta))
  }

  /** updateAliveZombie for the distance `d` to the player's capsule top. */
  function StepAlive(z: Zombie, target: Vec3, d: real, delta: real): Outcome
  {
    if d < ChaseRange && d > AttackRange then
      var w := SwitchAction(z, Walk);
      Outcome(w.(position := Approach(w.position, target, d, delta)), false)
    else if d <= AttackRange then
      var a := SwitchAction(z, Attack);
      var waited := a.lastAttack + delta;
      if waited >= AttackCooldown then Outcome(a.(lastAttack := 0.0), true)
      else Outcome(a.(lastAttack := waited), false)
    else
      Outcome(SwitchAction(z, Idle), false)
  }

  /** updateDeadZombie: the first dead frame plays the death clip and starts a 2 second
      countdown; the zombie is flagged for removal once the countdown is at most 0. */
  function StepDead(z: Zombie, delta: real): Zombie
  {
    var started := if z.currentAction != Some(Die) then SwitchAction(z, Die).(deathTimer := DeathDelay) else z;
    var left := started.deathTimer - delta;
    started.(deathTimer := left, shouldRemove := if left <= 0.0 then true else started.shouldRemove)
  }

  /** One zombie's part of update. */
  function Step(z: Zombie, target: Vec3, d: real, delta: real): Outcome
  {
    if z.health <= 0 then Outcome(StepDead(z, delta), false) else StepAlive(z, target, d, delta)
  }

  /** Every zombie stepped, in place. */
  function StepAll(zs: seq<Zombie>, target: Vec3, dists: seq<real>, delta: real): (r: seq<Zombie>)
    requires |dists| == |zs|
    ensures |r| == |zs|
  {
    seq(|zs|, i requires 0 <= i < |zs| => Step(zs[i], target, dists[i], delta).zombie)
  }

  /** How many of the first `n` zombies punch the player in this frame. */
  function Attacks(zs: seq<Zombie>, target: Vec3, dists: seq<real>, delta: real, n: nat): nat
    requires |dists| == |zs| && n <= |zs|
  {
    if n == 0 then 0
    else Attacks(zs, target, dists, delta, n - 1) + (if Step(zs[n - 1], target, dists[n - 1], delta).attacks then 1 else 0)
  }

  /** `zombies.filter(z => !z.shouldRemove)`. */
  function Kept(zs: seq<Zombie>): seq<Zombie>
  {
    if |zs| == 0 then []
    else Kept(zs[..|zs| - 1]) + (if zs[|zs| - 1].shouldRemove then [] else [zs[|zs| - 1]])
  }

  /** randomPosition with `Math.random()` answering `u` and then `v`. */
  datatype Draw = Draw(u: real, v: real)

  predicate IsRandom(d: Draw)
  {
    0.0 <= d.u < 1.0 && 0.0 <= d.v < 1.0
  }

  function RandomPosition(d: Draw): (p: Vec3)
    ensures p.y == 0.0
    ensures IsRandom(d) ==> -20.0 <= p.x < 20.0 && -20.0 <= p.z < 20.0
  {
    Vec3((d.u - 0.5) * SpawnRange, 0.0, (d.v - 0.5) * SpawnRange)
  }

  function Positions(draws: seq<Draw>): (r: seq<Vec3>)
    ensures |r| == |draws|
  {
    seq(|draws|, i requires 0 <= i < |draws| => RandomPosition(draws[i]))
  }

  // ---------------------------------------------------------------- properties

  /** switchAction does nothing when the action is current already, and a second call
      changes nothing. */
  lemma SwitchActionEffect(z: Zombie, next: Action)
    ensures z.currentAction == Some(next) ==> SwitchAction(z, next) == z
    ensures SwitchAction(SwitchAction(z, next), next) == SwitchAction(z, next)
  {
  }

  /** A zombie loaded after its clips starts idle, at its spawn position, with 3 health. */
  lemma SpawnedZombieIsIdle(position: Vec3)
    ensures var z := Spawned(position, AllActions);
      z.currentAction == Some(Idle) && z.position == position && z.health == 3
      && z.lastAttack == 0.0 && !z.shouldRemove
  {
  }

  /** updateAliveZombie's three bands: between 1.5 (excluded) and 15 (excluded) the zombie
      walks and moves; within 1.5 it attacks without moving, punching exactly when its
      waiting time reaches the 1 second cooldown, which restarts the wait; farther away it
      idles. Health and the death fields never change. */
  lemma AliveBands(z: Zombie, target: Vec3, d: real, delta: real)
    requires AllActions <= z.actions
    ensures var r := StepAlive(z, target, d, delta);
      && r.zombie.health == z.health && r.zombie.deathTimer == z.deathTimer
      && r.zombie.shouldRemove == z.shouldRemove && r.zombie.actions == z.actions
      && (AttackRange < d < ChaseRange ==>
            r.zombie.currentAction == Some(Walk) && !r.attacks
            && r.zombie.position == Approach(z.position, target, d, delta) && r.zombie.lastAttack == z.lastAttack)
      && (d <= AttackRange ==>
            r.zombie.currentAction == Some(Attack) && r.zombie.position == z.position
            && (r.attacks <==> z.lastAttack + delta >= AttackCooldown)
            && r.zombie.lastAttack == (if r.attacks then 0.0 else z.lastAttack + delta))
      && (d >= ChaseRange ==>
            r.zombie.currentAction == Some(Idle) && !r.attacks
            && r.zombie.position == z.position && r.zombie.lastAttack == z.lastAttack)
  {
  }

  /** The waiting time stays in [0, 1) frame after frame, so a zombie punches at most
      once per frame and only after a full cooldown of waiting. */
  lemma CooldownInvariant(z: Zombie, target: Vec3, d: real, delta: real)
    requires 0.0 <= z.lastAttack < AttackCooldown && delta >= 0.0
    ensures var r := StepAlive(z, target, d, delta);
      0.0 <= r.zombie.lastAttack < AttackCooldown && (r.attacks ==> z.lastAttack + delta >= AttackCooldown)
  {
  }

  lemma SubApproach(position: Vec3, target: Vec3, d: real, delta: real)
    requires d > 0.0
    ensures Sub(Approach(position, target, d, delta), position) == Scale(Sub(target, position), Speed * delta / d)
    ensures Sub(target, Approach(position, target, d, delta)) == Scale(Sub(target, position), 1.0 - Speed * delta / d)
  {
    var f := 1.0 / d;
    assert f * (Speed * delta) == Speed * delta / d;
  }

  lemma ScaledLengths(toward: Vec3, s: real, d: real, a: real)
    requires LengthSq(toward) == d * d && s * d == a
    ensures LengthSq(Scale(toward, s)) == a * a
    ensures LengthSq(Scale(toward, 1.0 - s)) == (d - a) * (d - a)
  {
    LengthSqScale(toward, s);
    LengthSqScale(toward, 1.0 - s);
    assert s * s * (d * d) == (s * d) * (s * d);
    assert (1.0 - s) * (1.0 - s) * (d * d) == ((1.0 - s) * d) * ((1.0 - s) * d);
  }

  /** A chase step covers exactly `speed * delta` and heads straight at the player: the
      distance left is `d - speed * delta` in absolute value. */
  lemma ApproachMovesTowardsTarget(position: Vec3, target: Vec3, d: real, delta: real)
    requires d > 0.0 && IsDistance(d, position, target)
    ensures DistanceSq(Approach(position, target, d, delta), position) == (Speed * delta) * (Speed * delta)
    ensures DistanceSq(target, Approach(position, target, d, delta)) == (d - Speed * delta) * (d - Speed * delta)
  {
    var a := Speed * delta;
    SubApproach(position, target, d, delta);
    DistanceSymmetric(position, target);
    assert (a / d) * d == a;
    ScaledLengths(Sub(target, position), a / d, d, a);
  }

  /** A dead zombie never moves, heals or attacks; the first dead frame plays the death
      clip and the removal flag, once set, stays set. */
  lemma DeadStepEffect(z: Zombie, target: Vec3, d: real, delta: real)
    requires z.health <= 0 && Die in z.actions
    ensures var r := Step(z, target, d, delta);
      && !r.attacks && r.zombie.position == z.position && r.zombie.health == z.health
      && r.zombie.currentAction == Some(Die)
      && (z.shouldRemove ==> r.zombie.shouldRemove)
  {
  }

  /** Dead frames in a row. */
  function DeadFrames(z: Zombie, deltas: seq<real>): Zombie
  {
    if |deltas| == 0 then z else StepDead(DeadFrames(z, deltas[..|deltas| - 1]), deltas[|deltas| - 1])
  }

  function Sum(xs: seq<real>): real
  {
    if |xs| == 0 then 0.0 else Sum(xs[..|xs| - 1]) + xs[|xs| - 1]
  }

  /** A zombie killed since its last frame counts down 2 seconds of frame time from its
      first dead frame on, and is flagged for removal exactly when that time is used up. */
  lemma {:induction false} DeathCountdown(z: Zombie, deltas: seq<real>)
    requires z.currentAction != Some(Die) && Die in z.actions && !z.shouldRemove
    requires |deltas| > 0 && forall i :: 0 <= i < |deltas| ==> deltas[i] >= 0.0
    ensures var r := DeadFrames(z, deltas);
      && r.currentAction == Some(Die)
      && r.deathTimer == DeathDelay - Sum(deltas)
      && (r.shouldRemove <==> Sum(deltas) >= DeathDelay)
      && r.position == z.position && r.health == z.health
  {
    var n := |deltas|;
    var prefix := deltas[..n - 1];
    if n > 1 {
      assert forall i :: 0 <= i < |prefix| ==> prefix[i] >= 0.0;
      DeathCountdown(z, prefix);
    } else {
      assert prefix == [];
    }
  }

  /** The filter keeps exactly the zombies not flagged, in order. */
  lemma {:induction false} KeptAppend(a: seq<Zombie>, b: seq<Zombie>)
    ensures Kept(a + b) == Kept(a) + Kept(b)
  {
    if |b| > 0 {
      var ab := a + b;
      assert ab[..|ab| - 1] == a + b[..|b| - 1];
      KeptAppend(a, b[..|b| - 1]);
    } else {
      assert a + b == a;
    }
  }

  lemma {:induction false} KeptMembers(zs: seq<Zombie>)
    ensures forall z :: z in Kept(zs) <==> z in zs && !z.shouldRemove
    ensures |Kept(zs)| <= |zs|
  {
    if |zs| > 0 {
      var init := zs[..|zs| - 1];
      KeptMembers(init);
      assert zs == init + [zs[|zs| - 1]];
      forall z ensures z in zs <==> z in init || z == zs[|zs| - 1] {
      }
    }
  }

  /** The scenario: at distance 20 a zombie idles, at 10 it walks (and comes 1.5 * delta
      closer), at 1 it attacks. */
  lemma DistanceScenario(z: Zombie, target: Vec3, delta: real)
    requires AllActions <= z.actions
    ensures StepAlive(z, target, 20.0, delta).zombie.currentAction == Some(Idle)
    ensures StepAlive(z, target, 10.0, delta).zombie.currentAction == Some(Walk)
    ensures StepAlive(z, target, 1.0, delta).zombie.currentAction == Some(Attack)
  {
    AliveBands(z, target, 20.0, delta);
    AliveBands(z, target, 10.0, delta);
    AliveBands(z, target, 1.0, delta);
  }

  /** The zombie manager: the list of zombie records, the kill count, the animation
      clips, the wave schedule and the zombie models still loading. */
  class ZombieManager {
    var zombies: seq<Zombie>
    var zombiesKilled: nat
    var animations: set<Action>
    var wave: int
    var maxWave: int
    var timers: set<nat>
    var waveTimer: Option<nat>
    var nextTimer: nat
    var initsPending: nat
    var pendingLoads: seq<Vec3>

    function Sched(): Schedule
      reads this
    {
      Schedule(wave, maxWave, timers, waveTimer, nextTimer, initsPending)
    }

    /** The constructor, which starts initZombies. */
    constructor ()
      ensures zombies == [] && zombiesKilled == 0 && animations == {} && pendingLoads == []
      ensures Sched() == InitStarted(Unstarted)
    {
      zombies := [];
      zombiesKilled := 0;
      animations := {};
      wave, maxWave := 0, 0;
      timers, waveTimer, nextTimer, initsPending := {}, None, 1, 0;
      pendingLoads := [];
      new;
      InitZombies();
    }

    /** initZombies up to its `await`: clears the stored timer. */
    method InitZombies()
      modifies this`timers, this`initsPending
      ensures Sched() == InitStarted(old(Sched()))
    {
      if waveTimer.Some? {
        timers := timers - {waveTimer.value};
      }
      initsPending := initsPending + 1;
    }

    /** The rest of initZombies, once loadAnimations has resolved: the clips are stored,
        wave 1 of 15 is spawned and the interval timer is started. `draws` are the
        `Math.random()` answers randomPosition gets. */
    method AnimationsLoaded(draws: seq<Draw>)
      requires initsPending > 0 && |draws| == FirstWave
      modifies this`animations, this`wave, this`maxWave, this`pendingLoads, this`timers,
               this`waveTimer, this`nextTimer, this`initsPending
      ensures Sched() == InitFinished(old(Sched()))
      ensures animations == AllActions
      ensures pendingLoads == old(pendingLoads) + Positions(draws)
    {
      animations := AllActions;
      wave := FirstWave;
      maxWave := MaxWave;
      SpawnWave(draws);
      var id := nextTimer;
      nextTimer := nextTimer + 1;
      timers := timers + {id};
      waveTimer := Some(id);
      initsPending := initsPending - 1;
    }

    /** The interval callback of timer `t`. */
    method Tick(t: nat, draws: seq<Draw>)
      requires t in timers && |draws| == TickSpawns(Sched())
      modifies this`wave, this`timers, this`pendingLoads
      ensures Sched() == Ticked(old(Sched()))
      ensures pendingLoads == old(pendingLoads) + Positions(draws)
    {
      wave := wave + 1;
      if wave <= maxWave {
        SpawnWave(draws);
      } else {
        if waveTimer.Some? {
          timers := timers - {waveTimer.value};
        }
        assert draws == [];
      }
    }

    /** spawnWave: starts loading `wave` zombie models at random positions. */
    method SpawnWave(draws: seq<Draw>)
      requires |draws| == WaveSize(Sched())
      modifies this`pendingLoads
      ensures pendingLoads == old(pendingLoads) + Positions(draws)
    {
      if wave > maxWave {
        return;
      }
      var i := 0;
      while i < wave
        invariant 0 <= i <= |draws|
        invariant pendingLoads == old(pendingLoads) + Positions(draws[..i])
      {
        pendingLoads := pendingLoads + [RandomPosition(draws[i])];
        i := i + 1;
        assert Positions(draws[..i]) == Positions(draws[..i - 1]) + [RandomPosition(draws[i - 1])];
      }
      assert draws[..i] == draws;
    }

    /** The load callback of spawnZombie for the `k`-th model still loading (loads finish
        in any order); the zombie gets the clips loaded by then. */
    method ZombieLoaded(k: nat)
      requires k < |pendingLoads|
      modifies this`zombies, this`pendingLoads
      ensures zombies == old(zombies) + [Spawned(old(pendingLoads)[k], animations)]
      ensures pendingLoads == old(pendingLoads)[..k] + old(pendingLoads)[k + 1..]
    {
      var position := pendingLoads[k];
      pendingLoads := pendingLoads[..k] + pendingLoads[k + 1..];
      var zombie := Zombie(position, SpawnHealth, None, animations, 0.0, 0.0, false);
      zombies := zombies + [SwitchAction(zombie, Idle)];
    }

    /** update: every zombie takes its step against the player, whose capsule top does not
        move meanwhile; every punch is a takeDamage(0.5); then the flagged zombies are
        dropped. `dists[i]` is the distance of zombie `i` to the player. */
    method Update(delta: real, player: Player, ui: UIManager, dists: seq<real>)
      requires player.Valid() && |dists| == |zombies|
      requires forall i :: 0 <= i < |zombies| ==> IsDistance(dists[i], zombies[i].position, player.end)
      modifies this`zombies, player, ui
      ensures player.Valid() && player.end == old(player.end) && player.keyStates == old(player.keyStates)
      ensures player.Body() == old(player.Body())
      ensures zombies == Kept(StepAll(old(zombies), old(player.end), dists, delta))
      ensures player.Life() == DamagedTimes(old(player.Life()), AttackDamage, Attacks(old(zombies), old(player.end), dists, delta, |dists|))
      ensures old(player.BarShown(ui)) ==> player.BarShown(ui)
      ensures old(player.DeathShown(ui)) ==> player.DeathShown(ui)
      ensures ui.counterText == old(ui.counterText) && ui.pauseShown == old(ui.pauseShown)
    {
      ghost var target := player.end;
      ghost var before := zombies;
      var i := 0;
      while i < |zombies|
        invariant |zombies| == |before| && 0 <= i <= |zombies|
        invariant forall j :: 0 <= j < i ==> zombies[j] == Step(before[j], target, dists[j], delta).zombie
        invariant forall j :: i <= j < |zombies| ==> zombies[j] == before[j]
        invariant player.Valid() && player.Body() == old(player.Body()) && player.keyStates == old(player.keyStates)
        invariant player.Life() == DamagedTimes(old(player.Life()), AttackDamage, Attacks(before, target, dists, delta, i))
        invariant old(player.BarShown(ui)) ==> player.BarShown(ui)
        invariant old(player.DeathShown(ui)) ==> player.DeathShown(ui)
        invariant ui.counterText == old(ui.counterText) && ui.pauseShown == old(ui.pauseShown)
      {
        if zombies[i].health <= 0 {
          UpdateDeadZombie(i, delta);
        } else {
          UpdateAliveZombie(i, dists[i], delta, player, ui);
        }
        i := i + 1;
      }
      assert zombies == StepAll(before, target, dists, delta);
      zombies := Kept(zombies);
    }

    /** updateAliveZombie for zombie `i` at distance `distance` from the player. */
    method UpdateAliveZombie(i: nat, distance: real, delta: real, player: Player, ui: UIManager)
      requires i < |zombies| && player.Valid()
      modifies this`zombies, player, ui
      ensures var r := StepAlive(old(zombies[i]), old(player.end), distance, delta);
        && zombies == old(zombies)[i := r.zombie]
        && player.Life() == if r.attacks then Damaged(old(player.Life()), AttackDamage) else old(player.Life())
      ensures player.Valid() && player.Body() == old(player.Body()) && player.keyStates == old(player.keyStates)
      ensures old(player.BarShown(ui)) ==> player.BarShown(ui)
      ensures old(player.DeathShown(ui)) ==> player.DeathShown(ui)
      ensures ui.counterText == old(ui.counterText) && ui.pauseShown == old(ui.pauseShown)
    {
      var zombie := zombies[i];
      if distance < ChaseRange && distance > AttackRange {
        zombie := SwitchAction(zombie, Walk);
        zombie := zombie.(position := Approach(zombie.position, player.end, distance, delta));
      } else if distance <= AttackRange {
        zombie := SwitchAction(zombie, Attack);
        zombie := zombie.(lastAttack := zombie.lastAttack + delta);
        if zombie.lastAttack >= AttackCooldown {
          player.TakeDamage(AttackDamage, ui);
          zombie := zombie.(lastAttack := 0.0);
        }
      } else {
        zombie := SwitchAction(zombie, Idle);
      }
      zombies := zombies[i := zombie];
    }

    /** updateDeadZombie for zombie `i`. */
    method UpdateDeadZombie(i: nat, delta: real)
      requires i < |zombies|
      modifies this`zombies
      ensures zombies == old(zombies)[i := StepDead(old(zombies[i]), delta)]
    {
      var zombie := zombies[i];
      if zombie.currentAction != Some(Die) {
        zombie := SwitchAction(zombie, Die);
        zombie := zombie.(deathTimer := DeathDelay);
      }
      zombie := zombie.(deathTimer := zombie.deathTimer - delta);
      if zombie.deathTimer <= 0.0 {
        zombie := zombie.(shouldRemove := true);
      }
      zombies := zombies[i := zombie];
    }

    /** onZombieKilled: one more kill, shown on the counter. */
    method OnZombieKilled(ui: UIManager)
      modifies this`zombiesKilled, ui
      ensures zombiesKilled == old(zombiesKilled) + 1
      ensures ui.counterText == CounterText(zombiesKilled)
      ensures ui.barWidth == old(ui.barWidth) && ui.barColour == old(ui.barColour)
      ensures ui.deathShown == old(ui.deathShown) && ui.pauseShown == old(ui.pauseShown)
    {
      zombiesKilled := zombiesKilled + 1;
      ui.UpdateZombieCounter(zombiesKilled);
    }

    /** reset: clears the stored timer, forgets the zombies and the kills and starts
        initZombies again. Models still loading are not cancelled. */
    method Reset()
      modifies this`timers, this`zombies, this`zombiesKilled, this`initsPending
      ensures zombies == [] && zombiesKilled == 0
      ensures Sched() == ResetStarted(old(Sched()))
    {
      if waveTimer.Some? {
        timers := timers - {waveTimer.value};
      }
      zombies := [];
      zombiesKilled := 0;
      InitZombies();
    }
  }
}
