/** One tick of each controller as a pure function of the fields it reads
    and writes. The classes in `Controllers` are proved to follow these
    functions; the properties of a tick are proved here. */
module Ticks {
  import opened Combat
  import opened Perception
  import opened CrispRules
  import opened FuzzyRules

  /** What the engine supplies for one tick: whether the target is in sight,
      the distance to it, the clock, the frame time, the hiding spots and the
      roll of `Random.Range(1, 11)` for a shot. */
  datatype Percept = Percept(sees: bool, dist: real, now: real, dt: real, spots: seq<SpotView>, roll: int)

  /** The opponent's health after this agent's handler: a hit deals one bullet. */
  function TargetHealthAfter(fired: bool, roll: int, health: int): int
  {
    if fired && IsHit(roll) then HealthAfterDamage(health, BulletDamage) else health
  }

  // ---------------------------------------------------------------------
  // The finite-state controller

  datatype FiniteConfig = FiniteConfig(thresholds: Thresholds, reloadTime: real, ammoPerClip: int)

  /** The fields of a finite agent that a tick reads or writes. */
  datatype FiniteView = FiniteView(
    state: AgentState,
    health: int,
    targetsHealth: int,
    nextShotTime: real,
    timer: ReloadTimer,
    ammo: int,
    destination: Destination)

  /** The shooting handler fires: the cooldown has elapsed and the clip is not empty. */
  predicate FiniteFires(v: FiniteView, p: Percept)
  {
    v.state == ShootTarget && CooldownElapsed(v.nextShotTime, p.now) && v.ammo > 0
  }

  /** Where the agent is sent by the handler of its state and the call the
      switch makes after it. */
  function FiniteDestination(t: Thresholds, v: FiniteView, p: Percept): Destination
  {
    match v.state
    case Hide =>
      if (v.targetsHealth <= t.lowHealth && p.dist > t.distToHide) || (p.dist <= t.distToHide && p.sees)
      then Stay else CoverDestination(p.spots, v.destination)
    case MoveToTarget =>
      if InShootingRange(t, p.sees, p.dist) ||
         (WantsToHide(t, v.health, p.dist) && v.targetsHealth > t.lowHealth)
      then Stay else TargetPosition
    case _ => Stay
  }

  /** The switch of `Update`: the current state's handler, with
      `v.targetsHealth` already holding this tick's reading. */
  function FiniteHandle(c: FiniteConfig, v: FiniteView, p: Percept): FiniteView
  {
    var t := c.thresholds;
    var fired := FiniteFires(v, p);
    var tick := ReloadTick(v.timer, c.reloadTime, p.dt);
    var finished := tick.timer.finished;
    var ammo :=
      if fired then v.ammo - 1
      else if v.state == Reload && tick.refilled then c.ammoPerClip
      else v.ammo;
    FiniteView(
      HandlerChoice(v.state, t, p.sees, p.dist, v.health, v.targetsHealth, ammo, finished),
      v.health,
      v.targetsHealth,
      if fired then p.now + ShotInterval else v.nextShotTime,
      if v.state == Reload
      then ReloadTimer(finished || ReloadInterrupted(t, p.sees, v.health, finished), tick.timer.remaining)
      else v.timer,
      ammo,
      FiniteDestination(t, v, p))
  }

  /** A whole tick: read the target's health, run the switch, then let the
      agent's own death and, after it, the target's death override the state. */
  function FiniteTick(c: FiniteConfig, v: FiniteView, targetHealth: int, p: Percept): FiniteView
  {
    var h := FiniteHandle(c, v.(targetsHealth := targetHealth), p);
    h.(state := LastWins(h.state, PostSwitchOverrides(h.health, h.targetsHealth)))
  }

  /** The state a tick ends in is the crisp decision for the tick's inputs. */
  lemma FiniteTickState(c: FiniteConfig, v: FiniteView, targetHealth: int, p: Percept)
    ensures var r := FiniteTick(c, v, targetHealth, p);
      r.state == TickChoice(v.state, c.thresholds, p.sees, p.dist, v.health, targetHealth, r.ammo,
                            ReloadTick(v.timer, c.reloadTime, p.dt).timer.finished)
  {
  }

  /** A tick keeps the clip between empty and full, and changes neither the
      agent's health nor its target reading beyond the new reading. */
  lemma FiniteTickKeepsClip(c: FiniteConfig, v: FiniteView, targetHealth: int, p: Percept)
    requires 0 <= v.ammo <= c.ammoPerClip
    ensures var r := FiniteTick(c, v, targetHealth, p);
      && 0 <= r.ammo <= c.ammoPerClip
      && (r.ammo < v.ammo ==> r.ammo == v.ammo - 1 && FiniteFires(v.(targetsHealth := targetHealth), p))
  {
  }

  /** Only the shooting state spends ammunition, one round per shot, and a
      shot is never fired from an empty clip. */
  lemma {:induction false} FiniteShotsSpendAmmo(c: FiniteConfig, v: FiniteView, targetHealth: int, p: Percept)
    ensures var r := FiniteTick(c, v, targetHealth, p);
      && (FiniteFires(v, p) <==> v.state == ShootTarget && r.ammo == v.ammo - 1 && v.ammo > 0)
      && (v.state != ShootTarget && v.state != Reload ==> r.ammo == v.ammo && r.nextShotTime == v.nextShotTime)
  {
  }

  /** A dead agent stays dead, unless the tick finds its target dead too, in
      which case it is reset to Idle. */
  lemma FiniteDeadStaysDead(c: FiniteConfig, v: FiniteView, targetHealth: int, p: Percept)
    requires v.state == Dead
    ensures FiniteTick(c, v, targetHealth, p).state == if targetHealth <= 0 then Idle else Dead
  {
    var r := FiniteTick(c, v, targetHealth, p);
    TickDeadExactly(v.state, c.thresholds, p.sees, p.dist, v.health, targetHealth, r.ammo,
                    ReloadTick(v.timer, c.reloadTime, p.dt).timer.finished);
  }

  /** Leaving the reload for cover before the clip is refilled raises the
      finished flag without refilling, so the next reload starts over. */
  lemma FiniteInterruptedReloadRestarts(c: FiniteConfig, v: FiniteView, targetHealth: int, p: Percept, nextDt: real)
    requires v.state == Reload
    requires !ReloadTick(v.timer, c.reloadTime, p.dt).refilled
    requires p.sees && v.health > 0 && targetHealth > 0
    ensures var r := FiniteTick(c, v, targetHealth, p);
      && r.state == Hide && r.timer.finished && r.ammo == v.ammo
      && ReloadTick(r.timer, c.reloadTime, nextDt) == ReloadTick(ReloadTimer(true, 0.0), c.reloadTime, nextDt)
  {
    ReloadDecision(c.thresholds, p.sees, p.dist, v.health, false);
    var h := FiniteHandle(c, v.(targetsHealth := targetHealth), p);
    OverridesDecision(h.state, h.health, h.targetsHealth);
  }

  /** A reload left through the target-dead override is not abandoned: the
      agent turns Idle with the countdown still running, so the next reload
      resumes where this one stopped. */
  lemma FiniteOverriddenReloadResumes(c: FiniteConfig, v: FiniteView, targetHealth: int, p: Percept)
    requires v.state == Reload && !v.timer.finished && v.timer.remaining > p.dt > 0.0
    requires !p.sees && targetHealth <= 0
    ensures var r := FiniteTick(c, v, targetHealth, p);
      && r.state == Idle && r.ammo == v.ammo
      && r.timer == ReloadTimer(false, v.timer.remaining - p.dt)
  {
    var h := FiniteHandle(c, v.(targetsHealth := targetHealth), p);
    OverridesDecision(h.state, h.health, h.targetsHealth);
  }

  // ---------------------------------------------------------------------
  // The fuzzy controller

  /** The fuzzy agent's settings; `ruleBook` gives the rule set each state
      installs, which is `RulesFor` in every agent. */
  datatype FuzzyConfig = FuzzyConfig(reloadTime: real, ammoPerClip: int, ruleBook: AgentState -> seq<FuzzyRule>)

  /** The fields of a fuzzy agent that a tick reads or writes; `rules` is
      the rule set installed in the engine. */
  datatype FuzzyView = FuzzyView(
    state: AgentState,
    health: int,
    targetsHealth: int,
    nextShotTime: real,
    rulesSet: bool,
    rules: seq<FuzzyRule>,
    timer: ReloadTimer,
    ammo: int,
    destination: Destination)

  /** The shooting handler fires whenever the cooldown has elapsed. */
  predicate FuzzyFires(v: FuzzyView, p: Percept)
  {
    v.state == ShootTarget && CooldownElapsed(v.nextShotTime, p.now)
  }

  /** The switch of `Update`: the handler of the current state. No handler
      changes the state. */
  function FuzzyHandle(c: FuzzyConfig, v: FuzzyView, p: Percept): FuzzyView
  {
    var tick := ReloadTick(v.timer, c.reloadTime, p.dt);
    v.(nextShotTime := if FuzzyFires(v, p) then p.now + ShotInterval else v.nextShotTime,
       timer := if v.state == Reload then tick.timer else v.timer,
       ammo := if v.state == Reload && tick.refilled then c.ammoPerClip else v.ammo,
       destination := match v.state
         case Hide => CoverDestination(p.spots, v.destination)
         case MoveToTarget => TargetPosition
         case _ => v.destination)
  }

  /** `CheckForStateChange`: install the state's rules unless they are
      installed, map the engine's result to a state, then the overrides. */
  function FuzzyCheck(book: AgentState -> seq<FuzzyRule>, v: FuzzyView, sees: bool, dist: real, engine: Engine): FuzzyView
  {
    var rules := if v.rulesSet then v.rules else book(v.state);
    var result := engine(rules, EngineInputs(dist, v.health, v.targetsHealth, v.ammo, sees, v.timer.finished));
    v.(rules := rules,
       destination := if v.rulesSet then v.destination else Stay,
       state := DecideState(v.state, result, v.health, v.targetsHealth),
       rulesSet := RulesKept(result, v.health, v.targetsHealth))
  }

  /** A whole tick: the switch, the reading of the target's health (after
      this agent's own shot), and the state check unless the agent is dead. */
  function FuzzyTick(c: FuzzyConfig, v: FuzzyView, targetHealth: int, p: Percept, engine: Engine): FuzzyView
  {
    var h := FuzzyHandle(c, v, p).(targetsHealth := TargetHealthAfter(FuzzyFires(v, p), p.roll, targetHealth));
    if h.state == Dead then h else FuzzyCheck(c.ruleBook, h, p.sees, p.dist, engine)
  }

  /** Whenever the rule set is marked installed for a living agent, the
      engine holds exactly the rules of its current state. */
  predicate RulesCurrent(book: AgentState -> seq<FuzzyRule>, v: FuzzyView)
  {
    v.rulesSet && v.state != Dead ==> v.rules == book(v.state)
  }

  /** Every tick keeps the installed rules those of the current state: a
      state change always clears the mark, and a hold keeps the rules it
      installed or found. */
  lemma FuzzyTickKeepsRulesCurrent(c: FuzzyConfig, v: FuzzyView, targetHealth: int, p: Percept, engine: Engine)
    requires RulesCurrent(c.ruleBook, v)
    ensures RulesCurrent(c.ruleBook, FuzzyTick(c, v, targetHealth, p, engine))
  {
    var h := FuzzyHandle(c, v, p).(targetsHealth := TargetHealthAfter(FuzzyFires(v, p), p.roll, targetHealth));
    if h.state != Dead {
      var rules := if h.rulesSet then h.rules else c.ruleBook(h.state);
      var result := engine(rules, EngineInputs(p.dist, h.health, h.targetsHealth, h.ammo, p.sees, h.timer.finished));
      DecideStateSpec(h.state, result, h.health, h.targetsHealth);
    }
  }

  /** The state after a tick: a dead agent stays dead; otherwise its own
      death beats the target's, which beats the engine's band; a result
      outside every band keeps the state and the installed rules. */
  lemma FuzzyTickState(c: FuzzyConfig, v: FuzzyView, targetHealth: int, p: Percept, engine: Engine)
    ensures var r := FuzzyTick(c, v, targetHealth, p, engine);
      var th := TargetHealthAfter(FuzzyFires(v, p), p.roll, targetHealth);
      && (v.state == Dead ==> r.state == Dead && r.rules == v.rules && r.rulesSet == v.rulesSet)
      && (v.state != Dead && v.health <= 0 ==> r.state == Dead && !r.rulesSet)
      && (v.state != Dead && v.health > 0 && th <= 0 ==> r.state == Idle && !r.rulesSet)
      && (v.state != Dead && !v.rulesSet ==> r.rules == c.ruleBook(v.state) && r.destination == Stay)
  {
    var h := FuzzyHandle(c, v, p).(targetsHealth := TargetHealthAfter(FuzzyFires(v, p), p.roll, targetHealth));
    if h.state != Dead {
      var rules := if h.rulesSet then h.rules else c.ruleBook(h.state);
      var result := engine(rules, EngineInputs(p.dist, h.health, h.targetsHealth, h.ammo, p.sees, h.timer.finished));
      DecideStateSpec(h.state, result, h.health, h.targetsHealth);
    }
  }

  /** The fuzzy agent never spends ammunition: only a completed reload
      changes the clip, and it fills it. */
  lemma FuzzyTickAmmo(c: FuzzyConfig, v: FuzzyView, targetHealth: int, p: Percept, engine: Engine)
    ensures var r := FuzzyTick(c, v, targetHealth, p, engine);
      r.ammo == v.ammo || (v.state == Reload && r.ammo == c.ammoPerClip)
  {
  }

  /** A reload the fuzzy agent leaves before it completes is resumed where it
      stopped: the timer is untouched in every other state. */
  lemma FuzzyInterruptedReloadResumes(c: FuzzyConfig, v: FuzzyView, targetHealth: int, p: Percept, engine: Engine)
    requires v.state != Reload
    ensures FuzzyTick(c, v, targetHealth, p, engine).timer == v.timer
  {
  }
}
