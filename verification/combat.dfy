/** The combat rules both duelling controllers share: their six states, the
    "later guarded assignment wins" reading of a state handler, damage intake,
    the shot roll and cooldown, and the reload countdown. */
module Combat {

  datatype Option<T> = None | Some(value: T)

  /** The controller states, in the order of their enum values 0..5. */
  datatype AgentState = Idle | ShootTarget | Hide | MoveToTarget | Dead | Reload

  /** `NUM_STATES`: the length of a per-state statistics array. */
  const NumStates: nat := 6

  /** The integer a state casts to (`(int)State`). */
  function Ordinal(s: AgentState): (k: nat)
    ensures k < NumStates
  {
    match s
    case Idle => 0
    case ShootTarget => 1
    case Hide => 2
    case MoveToTarget => 3
    case Dead => 4
    case Reload => 5
  }

  /** A point in the world. */
  datatype Vec3 = Vec3(x: real, y: real, z: real)

  /** The last destination handed to the navigation agent during a tick:
      the agent's own position (stand still), the target's position, a
      hiding spot by index, or a fixed point. */
  datatype Destination = Stay | TargetPosition | Spot(index: nat) | Point(at: Vec3)

  // ---------------------------------------------------------------------
  // Ordered state transitions

  /** One guarded assignment `if (when) State = to;` of a state handler. */
  datatype Transition = Transition(when: bool, to: AgentState)

  /** The state a run of guarded assignments leaves behind when they are
      executed one after another, starting from `current`. */
  function RunInOrder(current: AgentState, ts: seq<Transition>): AgentState
    decreases |ts|
  {
    if ts == [] then current
    else RunInOrder(if ts[0].when then ts[0].to else current, ts[1..])
  }

  /** Priority reading of the same list: the last transition whose guard
      holds decides; when none holds the state is kept. */
  function LastWins(current: AgentState, ts: seq<Transition>): AgentState
  {
    if ts == [] then current
    else if ts[|ts| - 1].when then ts[|ts| - 1].to
    else LastWins(current, ts[..|ts| - 1])
  }

  lemma {:induction false} LastWinsFront(current: AgentState, ts: seq<Transition>)
    requires ts != []
    ensures LastWins(current, ts) == LastWins(if ts[0].when then ts[0].to else current, ts[1..])
  {
    var n := |ts|;
    var first := if ts[0].when then ts[0].to else current;
    if n > 1 && !ts[n - 1].when {
      LastWinsFront(current, ts[..n - 1]);
      assert ts[..n - 1][1..] == ts[1..][..n - 2];
      assert ts[..n - 1][0] == ts[0];
    }
  }

  /** Executing the guarded assignments in order is the same as letting the
      last true guard win. */
  lemma {:induction false} RunInOrderIsLastWins(current: AgentState, ts: seq<Transition>)
    ensures RunInOrder(current, ts) == LastWins(current, ts)
    decreases |ts|
  {
    if ts != [] {
      RunInOrderIsLastWins(if ts[0].when then ts[0].to else current, ts[1..]);
      LastWinsFront(current, ts);
    }
  }

  /** LastWins picks the target of the last true guard, or keeps `current`
      when no guard holds. */
  lemma {:induction false} LastWinsPicksLastTrue(current: AgentState, ts: seq<Transition>)
    ensures (forall i :: 0 <= i < |ts| ==> !ts[i].when) ==> LastWins(current, ts) == current
    ensures forall k :: 0 <= k < |ts| && ts[k].when && (forall j :: k < j < |ts| ==> !ts[j].when) ==>
              LastWins(current, ts) == ts[k].to
  {
    if ts != [] {
      var n := |ts|;
      LastWinsPicksLastTrue(current, ts[..n - 1]);
      assert forall i :: 0 <= i < n - 1 ==> ts[..n - 1][i] == ts[i];
    }
  }

  /** LastWins on a handler with three guarded assignments. */
  lemma LastWinsOfThree(current: AgentState, a: Transition, b: Transition, c: Transition)
    ensures LastWins(current, [a, b, c]) ==
            if c.when then c.to else if b.when then b.to else if a.when then a.to else current
  {
    LastWinsOfTwo(current, a, b);
    assert [a, b, c][..2] == [a, b];
  }

  /** LastWins on a handler with two guarded assignments. */
  lemma LastWinsOfTwo(current: AgentState, a: Transition, b: Transition)
    ensures LastWins(current, [a, b]) == if b.when then b.to else if a.when then a.to else current
  {
    assert [a][..0] == [];
    assert LastWins(current, [a]) == if a.when then a.to else current;
    assert [a, b][..1] == [a];
  }

  /** A list none of whose transitions leads to `s` cannot produce `s` from
      another state. */
  lemma {:induction false} LastWinsAvoids(current: AgentState, ts: seq<Transition>, s: AgentState)
    requires current != s
    requires forall i :: 0 <= i < |ts| ==> ts[i].to != s
    ensures LastWins(current, ts) != s
  {
    if ts != [] {
      LastWinsAvoids(current, ts[..|ts| - 1], s);
    }
  }

  // ---------------------------------------------------------------------
  // Damage

  /** `currentHealth <= 0` after subtracting the amount: the hit is lethal. */
  predicate IsLethal(health: int, amount: int)
  {
    health - amount <= 0
  }

  /** Health after `TakeDamage(amount)`: the amount is subtracted and the
      result clamped at zero. */
  function HealthAfterDamage(health: int, amount: int): (r: int)
    ensures r >= 0
    ensures r == 0 <==> IsLethal(health, amount)
    ensures !IsLethal(health, amount) ==> r == health - amount
    ensures amount >= 0 ==> r <= health || health < 0
  {
    if health - amount <= 0 then 0 else health - amount
  }

  /** Damage of zero leaves a living agent as it was. */
  lemma ZeroDamageKeepsLivingAgent(health: int)
    requires health > 0
    ensures HealthAfterDamage(health, 0) == health && !IsLethal(health, 0)
  {
  }

  /** Any amount at least the current health kills, leaving exactly zero. */
  lemma OverwhelmingDamageKills(health: int, amount: int)
    requires amount >= health
    ensures IsLethal(health, amount) && HealthAfterDamage(health, amount) == 0
  {
  }

  /** Health after `n` hits of `amount` each. */
  function HealthAfterHits(health: int, amount: int, n: nat): int
  {
    if n == 0 then health else HealthAfterDamage(HealthAfterHits(health, amount, n - 1), amount)
  }

  /** Repeated non-negative damage from non-negative health is one
      subtraction, clamped at zero. */
  lemma {:induction false} HealthAfterHitsClamps(health: int, amount: int, n: nat)
    requires health >= 0 && amount >= 0
    ensures HealthAfterHits(health, amount, n) == if health - n * amount <= 0 then 0 else health - n * amount
  {
    if n > 0 {
      HealthAfterHitsClamps(health, amount, n - 1);
      assert health - n * amount == health - (n - 1) * amount - amount;
    }
  }

  /** From any positive health, bullets kill exactly once their total damage
      reaches the health: `(health + 9) / 10` hits kill and one fewer does not. */
  lemma BulletsToKill(health: int, n: nat)
    requires health > 0
    ensures HealthAfterHits(health, BulletDamage, n) == 0 <==> n * BulletDamage >= health
    ensures HealthAfterHits(health, BulletDamage, (health + BulletDamage - 1) / BulletDamage) == 0
    ensures HealthAfterHits(health, BulletDamage, (health + BulletDamage - 1) / BulletDamage - 1) > 0
  {
    HealthAfterHitsClamps(health, BulletDamage, n);
    var k := (health + BulletDamage - 1) / BulletDamage;
    HealthAfterHitsClamps(health, BulletDamage, k);
    HealthAfterHitsClamps(health, BulletDamage, k - 1);
  }

  // ---------------------------------------------------------------------
  // Shooting

  /** Damage dealt to the target by one bullet that hits. */
  const BulletDamage: int := 10

  /** Minimum time between two shots. */
  const ShotInterval: real := 0.2

  /** `Random.Range(1, 11)` yields an integer roll in 1..10. */
  predicate IsRoll(roll: int)
  {
    1 <= roll <= 10
  }

  /** A shot hits when its roll is at most 5. */
  predicate IsHit(roll: int)
  {
    roll <= 5
  }

  /** Exactly half of the possible rolls hit. */
  lemma HitChanceIsHalf()
    ensures |set r | 1 <= r <= 10 && IsHit(r)| == 5
    ensures |set r | 1 <= r <= 10 && !IsHit(r)| == 5
  {
    assert (set r | 1 <= r <= 10 && IsHit(r)) == {1, 2, 3, 4, 5};
    assert (set r | 1 <= r <= 10 && !IsHit(r)) == {6, 7, 8, 9, 10};
  }

  /** The shot cooldown `elapsedMuzzleFlashTime <= Time.time` has elapsed. */
  predicate CooldownElapsed(nextShotTime: real, now: real)
  {
    nextShotTime <= now
  }

  // ---------------------------------------------------------------------
  // Reloading

  /** `finishedReloading` and `elapsedReloadTime`, the time still to wait. */
  datatype ReloadTimer = ReloadTimer(finished: bool, remaining: real)

  /** The timer after one reload tick, and whether the clip was refilled. */
  datatype ReloadStep = ReloadStep(timer: ReloadTimer, refilled: bool)

  /** One tick of reload bookkeeping: a finished timer starts a fresh
      countdown of `reloadTime`; a positive countdown is decreased by `dt`,
      and reaching zero or below refills the clip and raises `finished`. */
  function ReloadTick(t: ReloadTimer, reloadTime: real, dt: real): (r: ReloadStep)
    ensures r.refilled <==> r.timer.finished
    ensures var start := if t.finished then reloadTime else t.remaining;
            r.timer.remaining == if start > 0.0 then start - dt else start
    ensures r.refilled ==> (if t.finished then reloadTime else t.remaining) > 0.0
    ensures var start := if t.finished then reloadTime else t.remaining;
            r.timer.finished <==> start > 0.0 && start - dt <= 0.0
  {
    var started := if t.finished then ReloadTimer(false, reloadTime) else t;
    if started.remaining > 0.0 then
      var left := started.remaining - dt;
      if left <= 0.0 then ReloadStep(ReloadTimer(true, left), true)
      else ReloadStep(ReloadTimer(false, left), false)
    else ReloadStep(started, false)
  }

  /** An unfinished countdown is resumed where it stopped, never restarted. */
  lemma ReloadResumes(t: ReloadTimer, reloadTime: real, dt: real)
    requires !t.finished && t.remaining > 0.0
    ensures ReloadTick(t, reloadTime, dt).timer.remaining == t.remaining - dt
    ensures ReloadTick(t, reloadTime, dt).refilled <==> t.remaining <= dt
  {
  }

  /** A finished timer restarts the full countdown. */
  lemma ReloadRestarts(t: ReloadTimer, reloadTime: real, dt: real)
    requires t.finished && reloadTime > 0.0
    ensures ReloadTick(t, reloadTime, dt).timer.remaining == reloadTime - dt
    ensures ReloadTick(t, reloadTime, dt).refilled <==> reloadTime <= dt
  {
  }

  /** Sum of a sequence of tick durations. */
  function Sum(dts: seq<real>): real
  {
    if dts == [] then 0.0 else Sum(dts[..|dts| - 1]) + dts[|dts| - 1]
  }

  /** The timer after consecutive reload ticks of the given durations. */
  function ReloadRun(t: ReloadTimer, reloadTime: real, dts: seq<real>): ReloadTimer
  {
    if dts == [] then t
    else ReloadTick(ReloadRun(t, reloadTime, dts[..|dts| - 1]), reloadTime, dts[|dts| - 1]).timer
  }

  lemma {:induction false} SumMonotone(dts: seq<real>, k: nat)
    requires k <= |dts|
    requires forall i :: 0 <= i < |dts| ==> dts[i] >= 0.0
    ensures Sum(dts[..k]) <= Sum(dts)
  {
    if k < |dts| {
      var n := |dts|;
      assert dts[..n - 1][..k] == dts[..k];
      SumMonotone(dts[..n - 1], k);
      assert dts[..n][..n - 1] == dts[..n - 1];
    } else {
      assert dts[..k] == dts;
    }
  }

  /** Uninterrupted reload ticks whose durations add up to less than
      `reloadTime` leave the reload unfinished with the rest still to wait. */
  lemma {:induction false} ReloadCountsDown(reloadTime: real, dts: seq<real>)
    requires dts != []
    requires forall i :: 0 <= i < |dts| ==> dts[i] >= 0.0
    requires Sum(dts) < reloadTime
    ensures ReloadRun(ReloadTimer(true, 0.0), reloadTime, dts) == ReloadTimer(false, reloadTime - Sum(dts))
  {
    var n := |dts|;
    var init := ReloadTimer(true, 0.0);
    if n == 1 {
      assert dts[..0] == [];
    } else {
      var front := dts[..n - 1];
      assert forall i :: 0 <= i < |front| ==> front[i] == dts[i];
      SumMonotone(dts, n - 1);
      ReloadCountsDown(reloadTime, front);
    }
  }

  /** The tick on which the durations first reach `reloadTime` finishes the
      reload and refills the clip. */
  lemma {:induction false} ReloadCompletes(reloadTime: real, dts: seq<real>)
    requires reloadTime > 0.0
    requires dts != []
    requires forall i :: 0 <= i < |dts| ==> dts[i] >= 0.0
    requires Sum(dts[..|dts| - 1]) < reloadTime <= Sum(dts)
    ensures ReloadRun(ReloadTimer(true, 0.0), reloadTime, dts).finished
    ensures ReloadTick(ReloadRun(ReloadTimer(true, 0.0), reloadTime, dts[..|dts| - 1]), reloadTime, dts[|dts| - 1]).refilled
  {
    var n := |dts|;
    var front := dts[..n - 1];
    if n > 1 {
      assert forall i :: 0 <= i < |front| ==> front[i] == dts[i];
      ReloadCountsDown(reloadTime, front);
    } else {
      assert front == [];
    }
  }
}
