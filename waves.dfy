/** The wave schedule of ZombieManager.js: the wave counter, the interval timers that
    advance it and the initialisations that are waiting for their animation clips.
    `setInterval` and `clearInterval` are modelled by a set of live timer ids; `await` is
    modelled by splitting initZombies into the part before it (InitStarted) and the
    continuation (InitFinished), which may run at any later point. */
module Waves {
  import opened Wrappers

  /** The values initZombies' continuation sets (ZombieManager.js:19-21). */
  const FirstWave := 1
  const MaxWave := 15

  /** `wave` and `maxWave` as in ZombieManager; `timers` are the live interval ids and
      `waveTimer` the id last stored in `this.waveTimer` (clearing a timer does not reset
      it); `nextTimer` is the next id `setInterval` hands out; `initsPending` counts
      initZombies calls still waiting on loadAnimations. */
  datatype Schedule = Schedule(wave: int, maxWave: int, timers: set<nat>, waveTimer: Option<nat>,
                               nextTimer: nat, initsPending: nat)

  /** The schedule before the first initialisation: no timer, nothing pending; the wave
      fields are not set yet. */
  const Unstarted := Schedule(0, 0, {}, None, 1, 0)

  /** How many zombies spawnWave starts loading: none once the last wave is passed,
      otherwise `wave` of them. */
  function WaveSize(s: Schedule): nat
  {
    if s.wave > s.maxWave || s.wave < 0 then 0 else s.wave
  }

  /** `clearInterval(id)`; clearing nothing or a dead timer changes nothing. */
  function Cleared(s: Schedule, id: Option<nat>): Schedule
  {
    if id.Some? then s.(timers := s.timers - {id.value}) else s
  }

  /** The synchronous part of initZombies: the stored timer is cleared, then the call
      waits for the animations. */
  function InitStarted(s: Schedule): Schedule
  {
    Cleared(s, s.waveTimer).(initsPending := s.initsPending + 1)
  }

  /** The continuation of initZombies after loadAnimations: the first wave is set up and
      a fresh interval timer is started and stored. */
  function InitFinished(s: Schedule): Schedule
    requires s.initsPending > 0
  {
    Schedule(FirstWave, MaxWave, s.timers + {s.nextTimer}, Some(s.nextTimer), s.nextTimer + 1, s.initsPending - 1)
  }

  /** The interval callback of any live timer: the wave advances; past the last wave the
      timer stored in `waveTimer` (not necessarily the one firing) is cleared. */
  function Ticked(s: Schedule): Schedule
  {
    var next := s.(wave := s.wave + 1);
    if next.wave <= next.maxWave then next else Cleared(next, next.waveTimer)
  }

  /** How many zombies a tick spawns. */
  function TickSpawns(s: Schedule): nat
  {
    WaveSize(Ticked(s))
  }

  /** reset: the stored timer is cleared, then initZombies starts again. */
  function ResetStarted(s: Schedule): Schedule
  {
    InitStarted(Cleared(s, s.waveTimer))
  }

  /** At most one initialisation in flight; while one is, no timer runs; otherwise every
      live timer is the stored one; stored ids were handed out already. */
  predicate Orderly(s: Schedule)
  {
    && s.initsPending <= 1
    && (s.initsPending == 1 ==> s.timers == {})
    && (forall t :: t in s.timers ==> s.waveTimer == Some(t))
    && (s.waveTimer.Some? ==> s.waveTimer.value < s.nextTimer)
  }

  // ---------------------------------------------------------------- properties

  /** An orderly schedule runs at most one interval timer. */
  lemma OrderlyHasOneTimer(s: Schedule)
    requires Orderly(s)
    ensures |s.timers| <= 1
    ensures s.timers == {} || s.timers == {s.waveTimer.value}
  {
    if s.timers != {} {
      var t :| t in s.timers;
      assert s.timers == {t} by {
        forall u | u in s.timers ensures u == t {
          assert s.waveTimer == Some(u) && s.waveTimer == Some(t);
        }
      }
    }
  }

  /** Every event keeps the schedule orderly, except an initialisation started while
      another one is still waiting. */
  lemma {:induction false} OrderlyPreserved(s: Schedule)
    requires Orderly(s)
    ensures s.initsPending == 0 ==> Orderly(InitStarted(s)) && Orderly(ResetStarted(s))
    ensures s.initsPending > 0 ==> Orderly(InitFinished(s))
    ensures Orderly(Ticked(s))
  {
    OrderlyHasOneTimer(s);
  }

  /** The continuation starts wave 1 of 15 with a fresh stored timer, and spawnWave then
      loads one zombie. */
  lemma InitFinishedStartsFirstWave(s: Schedule)
    requires s.initsPending > 0
    ensures var r := InitFinished(s);
      r.wave == 1 && r.maxWave == 15 && r.waveTimer == Some(s.nextTimer) && s.nextTimer in r.timers
      && WaveSize(r) == 1
  {
  }

  /** A reset issued while the animations of the constructor's initialisation are still
      loading lets both continuations start a timer: the first stored id is overwritten,
      and the next reset leaves that timer running. */
  lemma LeakedTimer()
    ensures var s4 := InitFinished(InitFinished(ResetStarted(InitStarted(Unstarted))));
      s4.timers == {1, 2} && s4.waveTimer == Some(2) && !Orderly(s4) && ResetStarted(s4).timers == {1}
  {
    var s1 := InitStarted(Unstarted);
    assert s1 == Schedule(0, 0, {}, None, 1, 1);
    var s2 := ResetStarted(s1);
    assert s2 == Schedule(0, 0, {}, None, 1, 2);
    var s3 := InitFinished(s2);
    assert s3 == Schedule(1, 15, {1}, Some(1), 2, 1);
    var s4 := InitFinished(s3);
    assert s4 == Schedule(1, 15, {1, 2}, Some(2), 3, 0);
    assert 1 in s4.timers && s4.waveTimer != Some(1);
    assert ResetStarted(s4).timers == ({1, 2} - {2}) - {2} == {1};
  }

  /** The restart button is bound twice, so one click resets twice in a row. From any
      settled orderly schedule both continuations then start a timer: two run, and the
      schedule is no longer orderly. */
  lemma DoubleResetLeaks(s: Schedule)
    requires Orderly(s) && s.initsPending == 0
    ensures var r := InitFinished(InitFinished(ResetStarted(ResetStarted(s))));
      r.timers == {s.nextTimer, s.nextTimer + 1} && r.waveTimer == Some(s.nextTimer + 1) && !Orderly(r)
  {
    OrderlyHasOneTimer(s);
    var s2 := ResetStarted(ResetStarted(s));
    assert s2.timers == {} && s2.initsPending == 2 && s2.nextTimer == s.nextTimer;
    var r := InitFinished(InitFinished(s2));
    assert s.nextTimer in r.timers && r.waveTimer != Some(s.nextTimer);
  }

  /** `n` firings of the same timer, and the zombies they spawn. */
  function Ticks(s: Schedule, n: nat): Schedule
  {
    if n == 0 then s else Ticked(Ticks(s, n - 1))
  }

  function SpawnedBy(s: Schedule, n: nat): nat
  {
    if n == 0 then 0 else SpawnedBy(s, n - 1) + TickSpawns(Ticks(s, n - 1))
  }

  function Triangle(n: nat): nat
  {
    n * (n + 1) / 2
  }

  /** While the last wave is not passed, ticks raise the wave one by one, leave the
      timers alone and spawn wave after wave: w + 1, w + 2, ... zombies. */
  lemma {:induction false} TicksBeforeLastWave(s: Schedule, n: nat)
    requires 0 <= s.wave && s.wave + n <= s.maxWave
    ensures Ticks(s, n) == s.(wave := s.wave + n)
    ensures SpawnedBy(s, n) == Triangle(s.wave + n) - Triangle(s.wave)
  {
    if n > 0 {
      TicksBeforeLastWave(s, n - 1);
      TriangleStep(s.wave + n);
    }
  }

  lemma TriangleStep(m: nat)
    requires m >= 1
    ensures Triangle(m) == Triangle(m - 1) + m
  {
    var a := (m - 1) * m;
    assert m * (m + 1) == a + 2 * m;
  }

  /** Past the last wave a tick spawns nothing, whichever timer fires. */
  lemma PastLastWaveSpawnsNothing(s: Schedule)
    requires s.wave >= s.maxWave
    ensures TickSpawns(s) == 0 && Ticked(s).wave > Ticked(s).maxWave
    ensures s.waveTimer.Some? ==> s.waveTimer.value !in Ticked(s).timers
  {
  }

  /** The whole game: after the first wave of 1 zombie, fourteen ticks spawn the waves of
      2 to 15, i.e. 120 zombies in all; the fifteenth tick spawns none and clears the
      timer, and ticks of any timer still running afterwards spawn nothing more. */
  lemma FullSchedule(s: Schedule)
    requires s.initsPending > 0 && s.nextTimer !in s.timers
    ensures var r := InitFinished(s);
      && WaveSize(r) + SpawnedBy(r, 15) == 120
      && Ticks(r, 15).wave == 16
      && Ticks(r, 15).timers == s.timers
      && TickSpawns(Ticks(r, 15)) == 0
  {
    var r := InitFinished(s);
    TicksBeforeLastWave(r, 14);
    assert SpawnedBy(r, 14) == 119;
    assert Ticks(r, 15) == Cleared(r.(wave := 16), Some(s.nextTimer));
  }
}
