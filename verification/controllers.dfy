/** The two duelling controllers. Each tick, `Update` runs the handler of the
    current state and then the controller's state-change checks. What the game
    engine supplies is a parameter of the tick: whether the target is visible
    (one raycast result per tick), the distance to it, the clock and the frame
    time, the hiding spots as perceived this tick, the shot's random roll and,
    for the fuzzy agent, the inference engine. The opponent is passed in as
    the object whose `TakeDamage` a hit calls. */
module Controllers {
  import opened Combat
  import opened Perception
  import opened CrispRules
  import opened FuzzyRules
  import opened Ticks

  /** The finite-state (crisp) controller. */
  class FiniteAgent {
    const thresholds: Thresholds
    const maxHealth: int
    const reloadTime: real
    const ammoPerClip: int

    var state: AgentState
    var currentHealth: int
    /** The opponent's health as read at the start of the last tick. */
    var targetsHealth: int
    /** The earliest time of the next shot. */
    var elapsedMuzzleFlashTime: real
    /** Time still to wait before the clip is refilled. */
    var elapsedReloadTime: real
    var finishedReloading: bool
    var ammoLeftInClip: int
    var destination: Destination

    /** When the last shot was fired, if any was. */
    ghost var lastShotTime: Option<real>

    ghost predicate Valid()
      reads this`ammoLeftInClip, this`currentHealth, this`lastShotTime, this`elapsedMuzzleFlashTime
    {
      && 0 <= ammoLeftInClip <= ammoPerClip
      && currentHealth >= 0
      && (lastShotTime.Some? ==> elapsedMuzzleFlashTime == lastShotTime.value + ShotInterval)
    }

    function Timer(): ReloadTimer
      reads this
    {
      ReloadTimer(finishedReloading, elapsedReloadTime)
    }

    function Config(): FiniteConfig
      reads this
    {
      FiniteConfig(thresholds, reloadTime, ammoPerClip)
    }

    function View(): FiniteView
      reads this
    {
      FiniteView(state, currentHealth, targetsHealth, elapsedMuzzleFlashTime, Timer(), ammoLeftInClip, destination)
    }

    /** A new agent at the start of a round: full health, a full clip, Idle. */
    constructor (thresholds: Thresholds, maxHealth: int, reloadTime: real, ammoPerClip: int)
      requires maxHealth >= 0 && ammoPerClip >= 0
      ensures Valid()
      ensures this.thresholds == thresholds && this.maxHealth == maxHealth
      ensures this.reloadTime == reloadTime && this.ammoPerClip == ammoPerClip
      ensures state == Idle && currentHealth == maxHealth && ammoLeftInClip == ammoPerClip
      ensures targetsHealth == 0 && elapsedMuzzleFlashTime == 0.0 && lastShotTime == None
      ensures Timer() == ReloadTimer(true, 0.0) && destination == Stay
    {
      this.thresholds := thresholds;
      this.maxHealth := maxHealth;
      this.reloadTime := reloadTime;
      this.ammoPerClip := ammoPerClip;
      state := Idle;
      currentHealth := maxHealth;
      targetsHealth := 0;
      elapsedMuzzleFlashTime := 0.0;
      elapsedReloadTime := 0.0;
      finishedReloading := true;
      ammoLeftInClip := ammoPerClip;
      destination := Stay;
      lastShotTime := None;
    }

    /** Subtract the amount, clamping at zero; a lethal amount makes the agent Dead. */
    method TakeDamage(amount: int)
      requires Valid()
      modifies this`currentHealth, this`state
      ensures Valid()
      ensures currentHealth == HealthAfterDamage(old(currentHealth), amount)
      ensures state == if IsLethal(old(currentHealth), amount) then Dead else old(state)
    {
      currentHealth := currentHealth - amount;
      if currentHealth <= 0 {
        currentHealth := 0;
        state := Dead;
      }
    }

    method UpdateIdleState(sees: bool, dist: real)
      modifies this`state
      ensures state == LastWins(old(state), IdleTransitions(thresholds, sees, dist, currentHealth, targetsHealth))
    {
      ghost var s0 := state;
      if targetsHealth > 0 {
        if sees && dist <= thresholds.distToStartShooting {
          state := ShootTarget;
        }
        if !sees && dist > thresholds.distToStartShooting {
          state := MoveToTarget;
        }
        if currentHealth <= thresholds.lowHealth && dist >= thresholds.distToHide {
          state := Hide;
        }
        LastWinsOfThree(s0, Transition(InShootingRange(thresholds, sees, dist), ShootTarget),
          Transition(!sees && dist > thresholds.distToStartShooting, MoveToTarget),
          Transition(WantsToHide(thresholds, currentHealth, dist), Hide));
      }
    }

    /** Fire when the cooldown has elapsed and the clip is not empty: spend a
        round, restart the cooldown and, on a hit, damage the target. */
    method Fire(target: FuzzyAgent, now: real, roll: int)
      requires Valid() && target.Valid() && IsRoll(roll)
      modifies this`elapsedMuzzleFlashTime, this`ammoLeftInClip, this`lastShotTime
      modifies target`currentHealth, target`state
      ensures Valid() && target.Valid()
      ensures var fired := CooldownElapsed(old(elapsedMuzzleFlashTime), now) && old(ammoLeftInClip) > 0;
        && ammoLeftInClip == (if fired then old(ammoLeftInClip) - 1 else old(ammoLeftInClip))
        && elapsedMuzzleFlashTime == (if fired then now + ShotInterval else old(elapsedMuzzleFlashTime))
        && lastShotTime == (if fired then Some(now) else old(lastShotTime))
        && (fired && old(lastShotTime).Some? ==> now >= old(lastShotTime).value + ShotInterval)
        && target.currentHealth == (if fired && IsHit(roll)
                                    then HealthAfterDamage(old(target.currentHealth), BulletDamage)
                                    else old(target.currentHealth))
        && target.state == (if fired && IsHit(roll) && IsLethal(old(target.currentHealth), BulletDamage)
                            then Dead else old(target.state))
    {
      if elapsedMuzzleFlashTime <= now && ammoLeftInClip > 0 {
        elapsedMuzzleFlashTime := now + ShotInterval;
        lastShotTime := Some(now);
        ammoLeftInClip := ammoLeftInClip - 1;
        if roll <= 5 {
          target.TakeDamage(BulletDamage);
        }
      }
    }

    /** The shooting transitions, read with the ammo left after the shot. */
    method ShootTransitionStep(sees: bool, dist: real)
      modifies this`state
      ensures state == LastWins(old(state), ShootTransitions(thresholds, sees, dist, currentHealth, ammoLeftInClip))
    {
      ghost var s0 := state;
      if !sees && dist > thresholds.distToStartShooting {
        state := MoveToTarget;
      }
      if ammoLeftInClip <= thresholds.lowAmmo && (!sees || dist > thresholds.distToStartShooting) {
        state := Reload;
      }
      if currentHealth <= thresholds.lowHealth && dist >= thresholds.distToHide {
        state := Hide;
      }
      LastWinsOfThree(s0, Transition(!sees && dist > thresholds.distToStartShooting, MoveToTarget),
        Transition(WantsToReload(thresholds, sees, dist, ammoLeftInClip), Reload),
        Transition(WantsToHide(thresholds, currentHealth, dist), Hide));
    }

    /** Head for the nearest hiding spot the target cannot see, then apply the
        hiding transitions; the first two also stop the agent where it is. */
    method UpdateHideState(sees: bool, dist: real, spots: seq<SpotView>)
      modifies this`state, this`destination
      ensures state == LastWins(old(state), HideTransitions(thresholds, sees, dist, targetsHealth, ammoLeftInClip))
      ensures destination ==
        if (targetsHealth <= thresholds.lowHealth && dist > thresholds.distToHide) ||
           (dist <= thresholds.distToHide && sees)
        then Stay else CoverDestination(spots, old(destination))
    {
      ghost var s0 := state;
      var closest := FindClosestHiddenSpot(spots);
      if closest.Some? {
        destination := Spot(closest.value);
      }
      if targetsHealth <= thresholds.lowHealth && dist > thresholds.distToHide {
        state := MoveToTarget;
        destination := Stay;
      }
      if dist <= thresholds.distToHide && sees {
        state := ShootTarget;
        destination := Stay;
      }
      if ammoLeftInClip <= thresholds.lowAmmo && (!sees || dist > thresholds.distToStartShooting) {
        state := Reload;
      }
      LastWinsOfThree(s0, Transition(targetsHealth <= thresholds.lowHealth && dist > thresholds.distToHide, MoveToTarget),
        Transition(dist <= thresholds.distToHide && sees, ShootTarget),
        Transition(WantsToReload(thresholds, sees, dist, ammoLeftInClip), Reload));
    }

    /** Walk towards the target; either transition stops the agent. */
    method UpdateMoveToTargetState(sees: bool, dist: real)
      modifies this`state, this`destination
      ensures state == LastWins(old(state), MoveTransitions(thresholds, sees, dist, currentHealth, targetsHealth))
      ensures destination ==
        if InShootingRange(thresholds, sees, dist) ||
           (WantsToHide(thresholds, currentHealth, dist) && targetsHealth > thresholds.lowHealth)
        then Stay else TargetPosition
    {
      ghost var s0 := state;
      destination := TargetPosition;
      if dist <= thresholds.distToStartShooting && sees {
        state := ShootTarget;
        destination := Stay;
      }
      if currentHealth <= thresholds.lowHealth && dist >= thresholds.distToHide && targetsHealth > thresholds.lowHealth {
        state := Hide;
        destination := Stay;
      }
      LastWinsOfTwo(s0, Transition(InShootingRange(thresholds, sees, dist), ShootTarget),
        Transition(WantsToHide(thresholds, currentHealth, dist) && targetsHealth > thresholds.lowHealth, Hide));
    }

    /** Count the reload down, refilling the clip when it expires, then apply
        the reload transitions; seeing the target while health is low or the
        reload is unfinished abandons it for hiding and raises
        `finishedReloading` without refilling, so the next reload starts over. */
    method UpdateReloadState(sees: bool, dist: real, dt: real)
      requires Valid()
      modifies this`finishedReloading, this`elapsedReloadTime, this`ammoLeftInClip, this`state
      ensures Valid()
      ensures var tick := ReloadTick(old(Timer()), reloadTime, dt);
        && elapsedReloadTime == tick.timer.remaining
        && finishedReloading == (tick.timer.finished ||
                                 ReloadInterrupted(thresholds, sees, currentHealth, tick.timer.finished))
        && ammoLeftInClip == (if tick.refilled then ammoPerClip else old(ammoLeftInClip))
        && state == LastWins(old(state), ReloadTransitions(thresholds, sees, dist, currentHealth, tick.timer.finished))
    {
      ghost var s0 := state;
      if finishedReloading {
        finishedReloading := false;
        elapsedReloadTime := reloadTime;
      }
      if elapsedReloadTime > 0.0 {
        elapsedReloadTime := elapsedReloadTime - dt;
        if elapsedReloadTime <= 0.0 {
          finishedReloading := true;
          ammoLeftInClip := ammoPerClip;
        }
      }
      ghost var finished := finishedReloading;
      if finishedReloading && (dist > thresholds.distToStartShooting || !sees) {
        state := MoveToTarget;
      }
      if finishedReloading && dist <= thresholds.distToStartShooting && sees {
        state := ShootTarget;
      }
      if sees && (currentHealth <= thresholds.lowHealth || !finishedReloading) {
        finishedReloading := true;
        state := Hide;
      }
      LastWinsOfThree(s0, Transition(finished && (dist > thresholds.distToStartShooting || !sees), MoveToTarget),
        Transition(finished && dist <= thresholds.distToStartShooting && sees, ShootTarget),
        Transition(ReloadInterrupted(thresholds, sees, currentHealth, finished), Hide));
    }

    /** The IDLE case of the switch: the idle transitions, then stop. */
    method IdleCase(sees: bool, dist: real, ghost p: Percept)
      requires Valid() && state == Idle && p.sees == sees && p.dist == dist
      modifies this`state, this`destination
      ensures Valid()
      ensures View() == FiniteHandle(Config(), old(View()), p)
    {
      UpdateIdleState(sees, dist);
      destination := Stay;
    }

    /** The SHOOT case of the switch: fire if possible, the shooting
        transitions, then stop. */
    method ShootTargetCase(target: FuzzyAgent, sees: bool, dist: real, now: real, roll: int, ghost p: Percept)
      requires Valid() && target.Valid() && IsRoll(roll) && state == ShootTarget
      requires p.sees == sees && p.dist == dist && p.now == now && p.roll == roll
      modifies this`state, this`destination, this`elapsedMuzzleFlashTime, this`ammoLeftInClip, this`lastShotTime
      modifies target`currentHealth, target`state
      ensures Valid() && target.Valid()
      ensures View() == FiniteHandle(Config(), old(View()), p)
      ensures var fired := FiniteFires(old(View()), p);
        && lastShotTime == (if fired then Some(now) else old(lastShotTime))
        && (fired && old(lastShotTime).Some? ==> now >= old(lastShotTime).value + ShotInterval)
        && target.currentHealth == TargetHealthAfter(fired, roll, old(target.currentHealth))
        && target.state == (if fired && IsHit(roll) && IsLethal(old(target.currentHealth), BulletDamage)
                            then Dead else old(target.state))
    {
      Fire(target, now, roll);
      ShootTransitionStep(sees, dist);
      destination := Stay;
    }

    /** The HIDE case of the switch. */
    method HideCase(sees: bool, dist: real, spots: seq<SpotView>, ghost p: Percept)
      requires Valid() && state == Hide && p.sees == sees && p.dist == dist && p.spots == spots
      modifies this`state, this`destination
      ensures Valid()
      ensures View() == FiniteHandle(Config(), old(View()), p)
    {
      UpdateHideState(sees, dist, spots);
    }

    /** The MOVE case of the switch. */
    method MoveToTargetCase(sees: bool, dist: real, ghost p: Percept)
      requires Valid() && state == MoveToTarget && p.sees == sees && p.dist == dist
      modifies this`state, this`destination
      ensures Valid()
      ensures View() == FiniteHandle(Config(), old(View()), p)
    {
      UpdateMoveToTargetState(sees, dist);
    }

    /** The RELOAD case of the switch: the reload countdown and transitions,
        then stop. */
    method ReloadCase(sees: bool, dist: real, dt: real, ghost p: Percept)
      requires Valid() && state == Reload && p.sees == sees && p.dist == dist && p.dt == dt
      modifies this`state, this`destination, this`finishedReloading, this`elapsedReloadTime, this`ammoLeftInClip
      ensures Valid()
      ensures View() == FiniteHandle(Config(), old(View()), p)
    {
      UpdateReloadState(sees, dist, dt);
      destination := Stay;
    }

    /** The state switch of one tick: the current state's handler, followed
        by the navigation call that the switch makes for that state. */
    method RunStateHandler(target: FuzzyAgent, sees: bool, dist: real, now: real, dt: real,
                           spots: seq<SpotView>, roll: int)
      requires Valid() && target.Valid() && IsRoll(roll)
      modifies this`state, this`destination, this`elapsedMuzzleFlashTime, this`ammoLeftInClip
      modifies this`lastShotTime, this`finishedReloading, this`elapsedReloadTime
      modifies target`currentHealth, target`state
      ensures Valid() && target.Valid()
      ensures View() == FiniteHandle(Config(), old(View()), Percept(sees, dist, now, dt, spots, roll))
      ensures var fired := FiniteFires(old(View()), Percept(sees, dist, now, dt, spots, roll));
        && lastShotTime == (if fired then Some(now) else old(lastShotTime))
        && (fired && old(lastShotTime).Some? ==> now >= old(lastShotTime).value + ShotInterval)
        && target.currentHealth == TargetHealthAfter(fired, roll, old(target.currentHealth))
        && target.state == (if fired && IsHit(roll) && IsLethal(old(target.currentHealth), BulletDamage)
                            then Dead else old(target.state))
    {
      ghost var p := Percept(sees, dist, now, dt, spots, roll);
      match state {
        case Idle => IdleCase(sees, dist, p);
        case ShootTarget => ShootTargetCase(target, sees, dist, now, roll, p);
        case Hide => HideCase(sees, dist, spots, p);
        case MoveToTarget => MoveToTargetCase(sees, dist, p);
        case Reload => ReloadCase(sees, dist, dt, p);
        case Dead => destination := Stay;
      }
    }

    /** One tick: read the target's health, run the current state's handler,
        then let own death and, after it, the target's death override it. */
    method Update(target: FuzzyAgent, sees: bool, dist: real, now: real, dt: real,
                  spots: seq<SpotView>, roll: int)
      requires Valid() && target.Valid() && IsRoll(roll)
      modifies this, target`currentHealth, target`state
      ensures Valid() && target.Valid()
      ensures View() == FiniteTick(Config(), old(View()), old(target.currentHealth),
                                   Percept(sees, dist, now, dt, spots, roll))
      ensures var fired := FiniteFires(old(View()), Percept(sees, dist, now, dt, spots, roll));
        && lastShotTime == (if fired then Some(now) else old(lastShotTime))
        && (fired && old(lastShotTime).Some? ==> now >= old(lastShotTime).value + ShotInterval)
        && target.currentHealth == TargetHealthAfter(fired, roll, old(target.currentHealth))
        && target.state == (if fired && IsHit(roll) && IsLethal(old(target.currentHealth), BulletDamage)
                            then Dead else old(target.state))
    {
      targetsHealth := target.currentHealth;
      RunStateHandler(target, sees, dist, now, dt, spots, roll);
      ghost var handled := state;
      if currentHealth <= 0 {
        state := Dead;
      }
      if targetsHealth <= 0 {
        state := Idle;
      }
      LastWinsOfTwo(handled, Transition(currentHealth <= 0, Dead), Transition(targetsHealth <= 0, Idle));
    }
  }

  /** The fuzzy-logic controller. */
  class FuzzyAgent {
    /** The rule set each state installs. */
    const ruleBook: AgentState -> seq<FuzzyRule>
    const maxHealth: int
    const reloadTime: real
    const ammoPerClip: int

    var state: AgentState
    var currentHealth: int
    /** The opponent's health as read after this agent's handler ran. */
    var targetsCurrentHealth: int
    /** The rules built for the current state, and the engine's copy of them. */
    var fuzzyRules: seq<FuzzyRule>
    var engineRules: seq<FuzzyRule>
    var elapsedMuzzleFlashTime: real
    /** Whether the current state's rules are installed in the engine. */
    var stateRulesSet: bool
    var elapsedReloadTime: real
    var ammoLeftInClip: int
    var finishedReloading: bool
    var destination: Destination

    ghost var lastShotTime: Option<real>

    ghost predicate Valid()
      reads this`ammoLeftInClip, this`currentHealth, this`lastShotTime, this`elapsedMuzzleFlashTime
      reads this`engineRules, this`fuzzyRules
    {
      && 0 <= ammoLeftInClip <= ammoPerClip
      && currentHealth >= 0
      && (lastShotTime.Some? ==> elapsedMuzzleFlashTime == lastShotTime.value + ShotInterval)
      && engineRules == fuzzyRules
    }

    function Timer(): ReloadTimer
      reads this
    {
      ReloadTimer(finishedReloading, elapsedReloadTime)
    }

    function Config(): FuzzyConfig
      reads this
    {
      FuzzyConfig(reloadTime, ammoPerClip, ruleBook)
    }

    function View(): FuzzyView
      reads this
    {
      FuzzyView(state, currentHealth, targetsCurrentHealth, elapsedMuzzleFlashTime, stateRulesSet, engineRules,
                Timer(), ammoLeftInClip, destination)
    }

    /** A new agent at the start of a round: full health, a full clip, Idle,
        no rules installed yet. */
    constructor (maxHealth: int, reloadTime: real, ammoPerClip: int)
      requires maxHealth >= 0 && ammoPerClip >= 0
      ensures Valid()
      ensures this.maxHealth == maxHealth && this.reloadTime == reloadTime && this.ammoPerClip == ammoPerClip
      ensures state == Idle && currentHealth == maxHealth && ammoLeftInClip == ammoPerClip
      ensures ruleBook == RulesFor
      ensures !stateRulesSet && engineRules == [] && fuzzyRules == []
      ensures targetsCurrentHealth == 0 && elapsedMuzzleFlashTime == 0.0 && lastShotTime == None
      ensures Timer() == ReloadTimer(true, 0.0) && destination == Stay
    {
      ruleBook := RulesFor;
      this.maxHealth := maxHealth;
      this.reloadTime := reloadTime;
      this.ammoPerClip := ammoPerClip;
      state := Idle;
      currentHealth := maxHealth;
      targetsCurrentHealth := 0;
      fuzzyRules := [];
      engineRules := [];
      elapsedMuzzleFlashTime := 0.0;
      stateRulesSet := false;
      elapsedReloadTime := 0.0;
      ammoLeftInClip := ammoPerClip;
      finishedReloading := true;
      destination := Stay;
      lastShotTime := None;
    }

    /** Subtract the amount, clamping at zero; a lethal amount makes the agent Dead. */
    method TakeDamage(amount: int)
      requires Valid()
      modifies this`currentHealth, this`state
      ensures Valid()
      ensures currentHealth == HealthAfterDamage(old(currentHealth), amount)
      ensures state == if IsLethal(old(currentHealth), amount) then Dead else old(state)
    {
      currentHealth := currentHealth - amount;
      if currentHealth <= 0 {
        currentHealth := 0;
        state := Dead;
      }
    }

    /** Fire when the cooldown has elapsed; the clip is not consulted. */
    method UpdateShootTargetState(target: FiniteAgent, now: real, roll: int)
      requires Valid() && target.Valid() && IsRoll(roll)
      modifies this`elapsedMuzzleFlashTime, this`lastShotTime, target`currentHealth, target`state
      ensures Valid() && target.Valid()
      ensures var fired := CooldownElapsed(old(elapsedMuzzleFlashTime), now);
        && elapsedMuzzleFlashTime == (if fired then now + ShotInterval else old(elapsedMuzzleFlashTime))
        && lastShotTime == (if fired then Some(now) else old(lastShotTime))
        && (fired && old(lastShotTime).Some? ==> now >= old(lastShotTime).value + ShotInterval)
        && target.currentHealth == (if fired && IsHit(roll)
                                    then HealthAfterDamage(old(target.currentHealth), BulletDamage)
                                    else old(target.currentHealth))
        && target.state == (if fired && IsHit(roll) && IsLethal(old(target.currentHealth), BulletDamage)
                            then Dead else old(target.state))
    {
      if elapsedMuzzleFlashTime <= now {
        elapsedMuzzleFlashTime := now + ShotInterval;
        lastShotTime := Some(now);
        if roll <= 5 {
          target.TakeDamage(BulletDamage);
        }
      }
    }

    /** Head for the nearest hiding spot the target cannot see, if any. */
    method UpdateHideState(spots: seq<SpotView>)
      modifies this`destination
      ensures destination == CoverDestination(spots, old(destination))
    {
      var closest := FindClosestHiddenSpot(spots);
      if closest.Some? {
        destination := Spot(closest.value);
      }
    }

    /** Count the reload down, refilling the clip when it expires. A countdown
        left unfinished is resumed, not restarted, on the next reload. */
    method UpdateReloadState(dt: real)
      requires Valid()
      modifies this`finishedReloading, this`elapsedReloadTime, this`ammoLeftInClip
      ensures Valid()
      ensures var tick := ReloadTick(old(Timer()), reloadTime, dt);
        && Timer() == tick.timer
        && ammoLeftInClip == (if tick.refilled then ammoPerClip else old(ammoLeftInClip))
    {
      if finishedReloading {
        finishedReloading := false;
        elapsedReloadTime := reloadTime;
      }
      if elapsedReloadTime > 0.0 {
        elapsedReloadTime := elapsedReloadTime - dt;
        if elapsedReloadTime <= 0.0 {
          finishedReloading := true;
          ammoLeftInClip := ammoPerClip;
        }
      }
    }

    /** Unless the rules of the current state are installed, copy them into
        the controller's list and the engine, one by one, and stop moving. */
    method InstallStateRules()
      requires Valid()
      modifies this`stateRulesSet, this`fuzzyRules, this`engineRules, this`destination
      ensures Valid() && stateRulesSet
      ensures engineRules == (if old(stateRulesSet) then old(engineRules) else ruleBook(state))
      ensures destination == (if old(stateRulesSet) then old(destination) else Stay)
    {
      if !stateRulesSet {
        stateRulesSet := true;
        var rules := ruleBook(state);
        fuzzyRules := rules;
        var copied: seq<FuzzyRule> := [];
        var i := 0;
        while i < |rules|
          invariant 0 <= i <= |rules|
          invariant copied == rules[..i]
        {
          copied := copied + [rules[i]];
          i := i + 1;
        }
        assert rules[..|rules|] == rules;
        engineRules := copied;
        destination := Stay;
      }
    }

    /** Map the engine's result to a state by its band, then apply the
        overrides (the target's death, then the agent's own); every change
        of state clears the installed mark. */
    method ApplyResult(result: real)
      requires stateRulesSet
      modifies this`stateRulesSet, this`state
      ensures state == DecideState(old(state), result, currentHealth, targetsCurrentHealth)
      ensures stateRulesSet == RulesKept(result, currentHealth, targetsCurrentHealth)
    {
      ghost var s0 := state;
      if 0.0 <= result < 1.0 {
        state := ShootTarget;
        stateRulesSet := false;
      } else if 1.0 <= result < 2.0 {
        state := Hide;
        stateRulesSet := false;
      } else if 2.0 <= result < 3.0 {
        state := MoveToTarget;
        stateRulesSet := false;
      } else if 3.0 <= result < 4.0 {
        state := Reload;
        stateRulesSet := false;
      }
      ghost var banded := state;
      assert banded == match Band(result) case Some(b) => b case None => s0;
      if targetsCurrentHealth <= 0 {
        state := Idle;
        stateRulesSet := false;
      }
      if currentHealth <= 0 {
        state := Dead;
        stateRulesSet := false;
      }
      LastWinsOfTwo(banded, Transition(targetsCurrentHealth <= 0, Idle), Transition(currentHealth <= 0, Dead));
    }

    /** Install the current state's rules if they are not installed, ask the
        engine for a result and act on it. */
    method CheckForStateChange(sees: bool, dist: real, engine: Engine)
      requires Valid()
      modifies this`stateRulesSet, this`fuzzyRules, this`engineRules, this`destination, this`state
      ensures Valid()
      ensures View() == FuzzyCheck(ruleBook, old(View()), sees, dist, engine)
    {
      InstallStateRules();
      var result := engine(engineRules, EngineInputs(dist, currentHealth, targetsCurrentHealth,
                                                     ammoLeftInClip, sees, finishedReloading));
      ApplyResult(result);
    }

    /** The state switch of one tick: the handler of the current state. */
    method RunStateHandler(target: FiniteAgent, now: real, dt: real, spots: seq<SpotView>, roll: int, ghost p: Percept)
      requires Valid() && target.Valid() && IsRoll(roll)
      requires p.now == now && p.dt == dt && p.spots == spots && p.roll == roll
      modifies this`destination, this`elapsedMuzzleFlashTime, this`lastShotTime
      modifies this`finishedReloading, this`elapsedReloadTime, this`ammoLeftInClip
      modifies target`currentHealth, target`state
      ensures Valid() && target.Valid()
      ensures View() == FuzzyHandle(Config(), old(View()), p)
      ensures var fired := FuzzyFires(old(View()), p);
        && lastShotTime == (if fired then Some(now) else old(lastShotTime))
        && (fired && old(lastShotTime).Some? ==> now >= old(lastShotTime).value + ShotInterval)
        && target.currentHealth == TargetHealthAfter(fired, roll, old(target.currentHealth))
        && target.state == (if fired && IsHit(roll) && IsLethal(old(target.currentHealth), BulletDamage)
                            then Dead else old(target.state))
    {
      match state {
        case Idle =>
        case ShootTarget =>
          UpdateShootTargetState(target, now, roll);
        case Hide =>
          UpdateHideState(spots);
        case MoveToTarget =>
          destination := TargetPosition;
        case Reload =>
          UpdateReloadState(dt);
        case Dead =>
      }
    }

    /** One tick: run the current state's handler, read the target's health,
        and unless Dead check for a state change. */
    method Update(target: FiniteAgent, sees: bool, dist: real, now: real, dt: real,
                  spots: seq<SpotView>, roll: int, engine: Engine)
      requires Valid() && target.Valid() && IsRoll(roll)
      modifies this, target`currentHealth, target`state
      ensures Valid() && target.Valid()
      ensures View() == FuzzyTick(Config(), old(View()), old(target.currentHealth),
                                  Percept(sees, dist, now, dt, spots, roll), engine)
      ensures var fired := FuzzyFires(old(View()), Percept(sees, dist, now, dt, spots, roll));
        && lastShotTime == (if fired then Some(now) else old(lastShotTime))
        && (fired && old(lastShotTime).Some? ==> now >= old(lastShotTime).value + ShotInterval)
        && target.currentHealth == TargetHealthAfter(fired, roll, old(target.currentHealth))
        && target.state == (if fired && IsHit(roll) && IsLethal(old(target.currentHealth), BulletDamage)
                            then Dead else old(target.state))
    {
      RunStateHandler(target, now, dt, spots, roll, Percept(sees, dist, now, dt, spots, roll));
      targetsCurrentHealth := target.currentHealth;
      if state != Dead {
        CheckForStateChange(sees, dist, engine);
      }
    }
  }
}
