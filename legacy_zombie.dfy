/** The stand-alone `Zombie` class of Zombie.js, which ZombieManager does not use. Its
    model loading, animation set-up, death handling, movement and animation helpers are
    not defined in the file, and the kill hook it calls (`registerZombieKill`) is not
    defined by ZombieManager; all of them are recorded as hooks in a log instead. */
module LegacyZombie {
  import opened Vectors
  import Zombies

  /** The calls Zombie.js makes to helpers it does not define. */
  datatype Hook = LoadModel | SetupAnimations | HandleDeath(delta: real)
                | MoveTowardsPlayer(delta: real) | UpdateAnimation | RegisterZombieKill

  const StartHealth := 3.0

  /** How many kill hooks a zombie with `health` fires when it takes the hits `amounts`
      in order: every hit that leaves the health at or below 0 fires one. */
  function KillsFired(health: real, amounts: seq<real>): nat
  {
    if |amounts| == 0 then 0
    else KillsFired(health, amounts[..|amounts| - 1]) + (if health - Zombies.Sum(amounts) <= 0.0 then 1 else 0)
  }

  /** The part of a zombie that takeDamage reads and writes: its health and the hooks
      called so far. */
  datatype Wound = Wound(health: real, hooks: seq<Hook>)

  /** One takeDamage(amount): exactly `amount` off, and the kill hook whenever the health
      ends at or below 0, dead or not before. */
  function Hurt(w: Wound, amount: real): Wound
  {
    var health := w.health - amount;
    Wound(health, w.hooks + if health <= 0.0 then [RegisterZombieKill] else [])
  }

  /** takeDamage called with each of `amounts` in turn. */
  function HurtAll(w: Wound, amounts: seq<real>): Wound
  {
    if |amounts| == 0 then w else Hurt(HurtAll(w, amounts[..|amounts| - 1]), amounts[|amounts| - 1])
  }

  /** `k` kill hooks in a row. */
  function Kills(k: nat): (r: seq<Hook>)
    ensures |r| == k && forall i :: 0 <= i < k ==> r[i] == RegisterZombieKill
  {
    seq(k, _ => RegisterZombieKill)
  }

  /** `n` hits of one point each. */
  function Ones(n: nat): (r: seq<real>)
    ensures |r| == n && forall i :: 0 <= i < n ==> r[i] == 1.0
  {
    seq(n, _ => 1.0)
  }

  // ---------------------------------------------------------------- properties

  /** There is no dead-guard: once the health is at or below 0 every further hit of a
      non-negative amount fires the kill hook again. */
  lemma DeadZombieRefires(health: real, amounts: seq<real>, amount: real)
    requires health - Zombies.Sum(amounts) <= 0.0 && amount >= 0.0
    ensures KillsFired(health, amounts + [amount]) == KillsFired(health, amounts) + 1
  {
    assert (amounts + [amount])[..|amounts|] == amounts;
  }

  /** A run of takeDamage calls subtracts the sum of the amounts and appends exactly
      KillsFired kill hooks to the log, and nothing else. */
  lemma {:induction false} HurtAllLogsKills(w: Wound, amounts: seq<real>)
    ensures HurtAll(w, amounts) == Wound(w.health - Zombies.Sum(amounts), w.hooks + Kills(KillsFired(w.health, amounts)))
  {
    if |amounts| > 0 {
      var init := amounts[..|amounts| - 1];
      HurtAllLogsKills(w, init);
      var k := KillsFired(w.health, init);
      assert Kills(k) + [RegisterZombieKill] == Kills(k + 1);
    }
  }

  lemma {:induction false} SumOnes(n: nat)
    ensures Zombies.Sum(Ones(n)) == n as real
  {
    if n > 0 {
      assert Ones(n)[..n - 1] == Ones(n - 1);
      SumOnes(n - 1);
    }
  }

  /** A new zombie hit `n` times for one point each (e.g. by snowballs) dies at the third
      hit and fires the kill hook at that hit and at every later one: n - 2 times. */
  lemma {:induction false} UnitHitsKillCount(n: nat)
    ensures KillsFired(StartHealth, Ones(n)) == if n < 3 then 0 else n - 2
  {
    if n > 0 {
      UnitHitsKillCount(n - 1);
      assert Ones(n)[..n - 1] == Ones(n - 1);
      SumOnes(n);
    }
  }

  /** So a new zombie (3 health points) hit `n` times for one point each logs the kill
      hook n - 2 times, once for the killing hit and once for every hit after it. */
  lemma FreshZombieUnitHits(hooks: seq<Hook>, n: nat)
    ensures HurtAll(Wound(StartHealth, hooks), Ones(n)).hooks == hooks + Kills(if n < 3 then 0 else n - 2)
  {
    HurtAllLogsKills(Wound(StartHealth, hooks), Ones(n));
    UnitHitsKillCount(n);
  }

  class Zombie {
    var health: real
    var position: Vec3
    var shouldRemove: bool
    var hooks: seq<Hook>

    /** The constructor: 3 health points, a copy of the spawn position, not marked for
        removal; then the model and its animations are requested. */
    constructor (position: Vec3)
      ensures health == StartHealth && this.position == position && !shouldRemove
      ensures hooks == [LoadModel, SetupAnimations]
    {
      health := 3.0;
      this.position := position;
      shouldRemove := false;
      hooks := [LoadModel, SetupAnimations];
    }

    /** update: a dead zombie only handles its death; a live one moves and animates. */
    method Update(delta: real)
      modifies this`hooks
      ensures health <= 0.0 ==> hooks == old(hooks) + [HandleDeath(delta)]
      ensures health > 0.0 ==> hooks == old(hooks) + [MoveTowardsPlayer(delta), UpdateAnimation]
    {
      if health <= 0.0 {
        hooks := hooks + [HandleDeath(delta)];
        return;
      }
      hooks := hooks + [MoveTowardsPlayer(delta)];
      hooks := hooks + [UpdateAnimation];
    }

    /** The health and the hook log. */
    function State(): Wound
      reads this
    {
      Wound(health, hooks)
    }

    /** takeDamage: the health drops by exactly `amount`, with no check that the zombie is
        alive, and the kill hook fires whenever the health ends at or below 0. */
    method TakeDamage(amount: real)
      modifies this`health, this`hooks
      ensures State() == Hurt(old(State()), amount)
      ensures health == old(health) - amount
      ensures hooks == old(hooks) + (if health <= 0.0 then [RegisterZombieKill] else [])
      ensures position == old(position) && shouldRemove == old(shouldRemove)
    {
      health := health - amount;
      if health <= 0.0 {
        hooks := hooks + [RegisterZombieKill];
      }
    }
  }
}
