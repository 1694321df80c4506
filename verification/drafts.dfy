/** The earlier drafts of the two controllers. Their state enumeration has a
    STAB state and no RELOAD state; the finite draft moves towards where it
    last saw the target and hides when its health is low, and the fuzzy draft
    registers a single rule and never changes state on its own. Both share the
    damage rule of the final controllers. Whether the target is visible, where
    it stands and how far away it is come from the engine as parameters of a
    tick. */
module Drafts {
  import Combat
  import opened FuzzyRules

  /** The drafts' states, in the order of their enumeration (0 to 5). */
  datatype DraftState = Idle | Stab | ShootTarget | Hide | MoveToTarget | Dead

  /** The state after `TakeDamage(amount)` at the given health: Dead when the
      hit is lethal, otherwise unchanged. */
  function DamagedState(s: DraftState, health: int, amount: int): (r: DraftState)
    ensures r == Dead <==> (s == Dead || Combat.IsLethal(health, amount))
    ensures !Combat.IsLethal(health, amount) ==> r == s
  {
    if health - amount <= 0 then Dead else s
  }

  // ---------------------------------------------------------------------
  // The finite draft as a function of one tick

  /** The editor settings of the finite draft. */
  datatype DraftFiniteConfig = DraftFiniteConfig(
    distToStartStabbing: real,
    distToStartShooting: real,
    distToMoveTowardsTarget: real,
    healthToRunAwayAt: int)

  /** The fields of the finite draft that its ticks read and write. */
  datatype DraftFiniteView = DraftFiniteView(
    state: DraftState,
    health: int,
    targetsHealth: int,
    lastPosSeen: Combat.Vec3,
    destination: Combat.Destination)

  /** What the engine supplies to one tick: the raycast result, the target's
      position and its distance. */
  datatype DraftPercept = DraftPercept(sees: bool, targetPos: Combat.Vec3, dist: real)

  /** Idle: only when the target is alive is the raycast cast; a hit records
      where the target stands, a miss sends the agent after it. */
  function DraftIdle(v: DraftFiniteView, p: DraftPercept): DraftFiniteView
  {
    if v.targetsHealth > 0 then
      if p.sees then v.(lastPosSeen := p.targetPos) else v.(state := MoveToTarget)
    else v
  }

  /** MoveToTarget as written: far away it heads for the last position seen,
      nearer it shoots, the STAB branch repeats the shooting guard, and low
      health overrides everything with Hide. */
  function DraftMove(c: DraftFiniteConfig, v: DraftFiniteView, dist: real): DraftFiniteView
  {
    var moved :=
      if dist >= c.distToMoveTowardsTarget then v.(destination := Combat.Point(v.lastPosSeen))
      else if dist >= c.distToStartShooting then v.(state := ShootTarget)
      else if dist >= c.distToStartShooting then v.(state := Stab)
      else v;
    if v.health <= c.healthToRunAwayAt then moved.(state := Hide) else moved
  }

  /** One tick: the handler of the current state, then the target's health is
      read for the next tick. */
  function DraftFiniteTick(c: DraftFiniteConfig, v: DraftFiniteView, p: DraftPercept, targetHealth: int): DraftFiniteView
  {
    var handled :=
      match v.state
      case Idle => DraftIdle(v, p)
      case MoveToTarget => DraftMove(c, v, p.dist)
      case _ => v;
    handled.(targetsHealth := targetHealth)
  }

  function DraftFiniteDamage(v: DraftFiniteView, amount: int): (r: DraftFiniteView)
    ensures r.health == Combat.HealthAfterDamage(v.health, amount)
    ensures r.state == DamagedState(v.state, v.health, amount)
    ensures r.targetsHealth == v.targetsHealth && r.lastPosSeen == v.lastPosSeen && r.destination == v.destination
  {
    v.(health := Combat.HealthAfterDamage(v.health, amount), state := DamagedState(v.state, v.health, amount))
  }

  /** Idle goes to MoveToTarget exactly when the target is alive and out of
      sight, and otherwise stays Idle; the alive test uses the health read on
      the previous tick. */
  lemma DraftIdleDecision(c: DraftFiniteConfig, v: DraftFiniteView, p: DraftPercept, targetHealth: int)
    requires v.state == Idle
    ensures var r := DraftFiniteTick(c, v, p, targetHealth);
      && (r.state == MoveToTarget <==> v.targetsHealth > 0 && !p.sees)
      && (r.state != MoveToTarget ==> r.state == Idle)
      && r.targetsHealth == targetHealth
  {
  }

  /** The last position seen changes only when the raycast hits the target
      during an Idle tick, and then it is where the target stands. */
  lemma DraftLastSeenOnlyOnSight(c: DraftFiniteConfig, v: DraftFiniteView, p: DraftPercept, targetHealth: int)
    ensures var r := DraftFiniteTick(c, v, p, targetHealth);
      r.lastPosSeen == (if v.state == Idle && v.targetsHealth > 0 && p.sees then p.targetPos else v.lastPosSeen)
  {
  }

  /** MoveToTarget keeps chasing beyond the chasing distance and shoots inside
      it but beyond the shooting distance; low health makes it hide whatever
      the distance. */
  lemma DraftMoveDecision(c: DraftFiniteConfig, v: DraftFiniteView, p: DraftPercept, targetHealth: int)
    requires v.state == MoveToTarget
    ensures var r := DraftFiniteTick(c, v, p, targetHealth);
      && (v.health <= c.healthToRunAwayAt ==> r.state == Hide)
      && (v.health > c.healthToRunAwayAt && p.dist >= c.distToMoveTowardsTarget ==>
            r.state == MoveToTarget && r.destination == Combat.Point(v.lastPosSeen))
      && (v.health > c.healthToRunAwayAt && c.distToStartShooting <= p.dist < c.distToMoveTowardsTarget ==>
            r.state == ShootTarget && r.destination == v.destination)
      && (v.health > c.healthToRunAwayAt && p.dist < c.distToMoveTowardsTarget && p.dist < c.distToStartShooting ==>
            r == v.(targetsHealth := targetHealth))
  {
  }

  /** No tick enters STAB: its branch is reached only when the shooting guard
      has just failed, and it tests that same guard. */
  lemma DraftTickNeverStabs(c: DraftFiniteConfig, v: DraftFiniteView, p: DraftPercept, targetHealth: int)
    requires v.state != Stab
    ensures DraftFiniteTick(c, v, p, targetHealth).state != Stab
  {
  }

  /** STAB, SHOOT_TARGET, HIDE and DEAD have no exits: their handlers leave
      everything but the target's health as it was. */
  lemma DraftFiniteStuckStates(c: DraftFiniteConfig, v: DraftFiniteView, p: DraftPercept, targetHealth: int)
    requires v.state in {Stab, ShootTarget, Hide, Dead}
    ensures DraftFiniteTick(c, v, p, targetHealth) == v.(targetsHealth := targetHealth)
  {
  }

  /** What happens to an agent between two of its observations: a tick, or a
      hit of some amount. */
  datatype DraftEvent = Tick(p: DraftPercept, targetHealth: int) | Hit(amount: int)

  predicate NoHits(events: seq<DraftEvent>)
  {
    forall i :: 0 <= i < |events| ==> events[i].Tick?
  }

  function DraftFiniteRun(c: DraftFiniteConfig, v: DraftFiniteView, events: seq<DraftEvent>): DraftFiniteView
    decreases |events|
  {
    if events == [] then v
    else
      var next := match events[0]
        case Tick(p, th) => DraftFiniteTick(c, v, p, th)
        case Hit(amount) => DraftFiniteDamage(v, amount);
      DraftFiniteRun(c, next, events[1..])
  }

  /** An agent that does not start in STAB never reaches it, whatever it
      perceives and whatever hits it. */
  lemma {:induction false} DraftStabUnreachable(c: DraftFiniteConfig, v: DraftFiniteView, events: seq<DraftEvent>)
    requires v.state != Stab
    ensures DraftFiniteRun(c, v, events).state != Stab
    decreases |events|
  {
    if events != [] {
      match events[0]
      case Tick(p, th) =>
        DraftTickNeverStabs(c, v, p, th);
        DraftStabUnreachable(c, DraftFiniteTick(c, v, p, th), events[1..]);
      case Hit(amount) =>
        DraftStabUnreachable(c, DraftFiniteDamage(v, amount), events[1..]);
    }
  }

  /** From STAB, SHOOT_TARGET, HIDE or DEAD the only way out is death by
      damage: without hits the state never changes. */
  lemma {:induction false} DraftFiniteNoExits(c: DraftFiniteConfig, v: DraftFiniteView, events: seq<DraftEvent>)
    requires v.state in {Stab, ShootTarget, Hide, Dead}
    ensures var r := DraftFiniteRun(c, v, events);
      && (r.state == v.state || r.state == Dead)
      && (NoHits(events) ==> r.state == v.state)
    decreases |events|
  {
    if events != [] {
      assert NoHits(events) ==> NoHits(events[1..]) by {
        if NoHits(events) {
          forall i | 0 <= i < |events[1..]| ensures events[1..][i].Tick? {
            assert events[1..][i] == events[i + 1];
          }
        }
      }
      match events[0]
      case Tick(p, th) =>
        DraftFiniteStuckStates(c, v, p, th);
        DraftFiniteNoExits(c, DraftFiniteTick(c, v, p, th), events[1..]);
      case Hit(amount) =>
        assert !NoHits(events) by { assert !events[0].Tick?; }
        DraftFiniteNoExits(c, DraftFiniteDamage(v, amount), events[1..]);
    }
  }

  // ---------------------------------------------------------------------
  // The fuzzy draft as a function of one tick

  /** The fields of the fuzzy draft that its ticks read and write. */
  datatype DraftFuzzyView = DraftFuzzyView(
    state: DraftState,
    health: int,
    targetsHealth: int,
    destination: Combat.Destination)

  /** One tick: only MoveToTarget acts (it heads for the target); Idle asks the
      inference engine for a result that it only logs; then the target's
      health is read. */
  function DraftFuzzyTick(v: DraftFuzzyView, targetHealth: int): DraftFuzzyView
  {
    var handled := if v.state == MoveToTarget then v.(destination := Combat.TargetPosition) else v;
    handled.(targetsHealth := targetHealth)
  }

  function DraftFuzzyDamage(v: DraftFuzzyView, amount: int): (r: DraftFuzzyView)
    ensures r.health == Combat.HealthAfterDamage(v.health, amount)
    ensures r.state == DamagedState(v.state, v.health, amount)
    ensures r.targetsHealth == v.targetsHealth && r.destination == v.destination
  {
    v.(health := Combat.HealthAfterDamage(v.health, amount), state := DamagedState(v.state, v.health, amount))
  }

  function DraftFuzzyRun(v: DraftFuzzyView, events: seq<DraftEvent>): DraftFuzzyView
    decreases |events|
  {
    if events == [] then v
    else
      var next := match events[0]
        case Tick(_, th) => DraftFuzzyTick(v, th)
        case Hit(amount) => DraftFuzzyDamage(v, amount);
      DraftFuzzyRun(next, events[1..])
  }

  /** The fuzzy draft's ticks never change its state: it changes only through
      damage, and only to DEAD, and it stays as it was without hits. */
  lemma {:induction false} DraftFuzzyStateOnlyDies(v: DraftFuzzyView, events: seq<DraftEvent>)
    ensures var r := DraftFuzzyRun(v, events);
      && (r.state == v.state || r.state == Dead)
      && (NoHits(events) ==> r.state == v.state)
    decreases |events|
  {
    if events != [] {
      assert NoHits(events) ==> NoHits(events[1..]) by {
        if NoHits(events) {
          forall i | 0 <= i < |events[1..]| ensures events[1..][i].Tick? {
            assert events[1..][i] == events[i + 1];
          }
        }
      }
      match events[0]
      case Tick(_, th) =>
        DraftFuzzyStateOnlyDies(DraftFuzzyTick(v, th), events[1..]);
      case Hit(amount) =>
        assert !NoHits(events) by { assert !events[0].Tick?; }
        DraftFuzzyStateOnlyDies(DraftFuzzyDamage(v, amount), events[1..]);
    }
  }

  /** Damage that keeps a living agent alive leaves its state as it was, and
      health never goes below zero. */
  lemma DraftFuzzySurvivableDamage(v: DraftFuzzyView, amount: int)
    requires v.health - amount > 0
    ensures DraftFuzzyDamage(v, amount).state == v.state
    ensures DraftFuzzyDamage(v, amount).health == v.health - amount > 0
  {
  }

  // ---------------------------------------------------------------------
  // The fuzzy draft's start-up data

  /** The membership functions the fuzzy draft registers at start-up: every
      one of them, whichever variable its handle is kept for, is added to
      `distToTarget`. */
  function DraftTermsOf(v: Variable): seq<Term>
  {
    if v == DistToTarget then
      var t := Trapezoid(-50.0, -50.0, -5.0, -1.0);
      var a := Triangle(-50.0, -50.0, -5.0);
      [ Term("veryClose", t), Term("close", t), Term("far", t), Term("veryFar", t),
        Term("veryLow", t), Term("low", t), Term("moderate", t), Term("high", t), Term("veryHigh", t),
        Term("veryLow", t), Term("low", t), Term("moderate", t), Term("high", t), Term("veryHigh", t),
        Term("stabTarget", a), Term("shootTarget", a), Term("hideFromTarget", a), Term("moveCloserToTarget", a) ]
    else []
  }

  predicate DraftHasTerm(v: Variable, name: string)
  {
    exists i :: 0 <= i < |DraftTermsOf(v)| && DraftTermsOf(v)[i].name == name
  }

  /** The single rule: a very close target calls for stabbing. */
  function DraftRules(): (r: seq<FuzzyRule>)
    ensures |r| == 1
  {
    [FuzzyRule(Holds(Is(DistToTarget, "veryClose")), Is(ActionToTake, "stabTarget"))]
  }

  /** The rule's antecedent names a registered membership function, but its
      consequent does not: `actionToTake` has none registered, and
      `distToTarget` holds 18, with the health names registered twice. */
  lemma DraftRuleConsequentUnregistered()
    ensures DraftHasTerm(DistToTarget, "veryClose")
    ensures !DraftHasTerm(ActionToTake, "stabTarget")
    ensures DraftHasTerm(DistToTarget, "stabTarget")
    ensures |DraftTermsOf(DistToTarget)| == 18
    ensures DraftTermsOf(DistToTarget)[5] == DraftTermsOf(DistToTarget)[10]
  {
    assert DraftTermsOf(DistToTarget)[0].name == "veryClose";
    assert DraftTermsOf(DistToTarget)[14].name == "stabTarget";
  }

  /** Appends each rule, in order, to the engine's rule list. */
  method AddRulesToEngine(engineRules: seq<FuzzyRule>, rules: seq<FuzzyRule>) returns (r: seq<FuzzyRule>)
    ensures r == engineRules + rules
  {
    r := engineRules;
    for i := 0 to |rules|
      invariant r == engineRules + rules[..i]
    {
      assert rules[..i + 1] == rules[..i] + [rules[i]];
      r := r + [rules[i]];
    }
    assert rules[..|rules|] == rules;
  }

  // ---------------------------------------------------------------------
  // The draft controllers

  /** The finite draft. */
  class DraftFiniteAgent {
    const distToStartStabbing: real
    const distToStartShooting: real
    const distToMoveTowardsTarget: real
    const healthToRunAwayAt: int
    const maxHealth: int

    var state: DraftState
    var currentHealth: int
    /** The opponent's health as read at the end of the last tick. */
    var targetsHealth: int
    var targetsLastPosSeen: Combat.Vec3
    var destination: Combat.Destination

    function Config(): DraftFiniteConfig
      reads this
    {
      DraftFiniteConfig(distToStartStabbing, distToStartShooting, distToMoveTowardsTarget, healthToRunAwayAt)
    }

    function View(): DraftFiniteView
      reads this
    {
      DraftFiniteView(state, currentHealth, targetsHealth, targetsLastPosSeen, destination)
    }

    /** Start of the game: Idle at full health, no reading of the target yet. */
    constructor (distToStartStabbing: real, distToStartShooting: real, distToMoveTowardsTarget: real,
                 healthToRunAwayAt: int, maxHealth: int)
      ensures Config() == DraftFiniteConfig(distToStartStabbing, distToStartShooting, distToMoveTowardsTarget, healthToRunAwayAt)
      ensures this.maxHealth == maxHealth
      ensures View() == DraftFiniteView(Idle, maxHealth, 0, Combat.Vec3(0.0, 0.0, 0.0), Combat.Stay)
    {
      this.distToStartStabbing := distToStartStabbing;
      this.distToStartShooting := distToStartShooting;
      this.distToMoveTowardsTarget := distToMoveTowardsTarget;
      this.healthToRunAwayAt := healthToRunAwayAt;
      this.maxHealth := maxHealth;
      state := Idle;
      currentHealth := maxHealth;
      targetsHealth := 0;
      targetsLastPosSeen := Combat.Vec3(0.0, 0.0, 0.0);
      destination := Combat.Stay;
    }

    method TakeDamage(amount: int)
      modifies this`currentHealth, this`state
      ensures View() == DraftFiniteDamage(old(View()), amount)
    {
      currentHealth := currentHealth - amount;
      if currentHealth <= 0 {
        currentHealth := 0;
        state := Dead;
      }
    }

    /** The raycast result; a hit records where the target stands. */
    method CanSeeTarget(sees: bool, targetPos: Combat.Vec3) returns (seen: bool)
      modifies this`targetsLastPosSeen
      ensures seen == sees
      ensures targetsLastPosSeen == if sees then targetPos else old(targetsLastPosSeen)
    {
      if sees {
        targetsLastPosSeen := targetPos;
        return true;
      }
      return false;
    }

    method UpdateIdleState(sees: bool, targetPos: Combat.Vec3)
      modifies this`state, this`targetsLastPosSeen
      ensures View() == DraftIdle(old(View()), DraftPercept(sees, targetPos, 0.0))
    {
      if targetsHealth > 0 {
        var seen := CanSeeTarget(sees, targetPos);
        if !seen {
          state := MoveToTarget;
        }
      }
    }

    method UpdateMoveToTargetState(dist: real)
      modifies this`state, this`destination
      ensures View() == DraftMove(Config(), old(View()), dist)
    {
      var next := state;
      if dist >= distToMoveTowardsTarget {
        destination := Combat.Point(targetsLastPosSeen);
      } else if dist >= distToStartShooting {
        next := ShootTarget;
      } else if dist >= distToStartShooting {
        next := Stab;
      }
      if currentHealth <= healthToRunAwayAt {
        next := Hide;
      }
      state := next;
    }

    /** One frame: the current state's handler, then the target's health is
        read for the next frame. */
    method Update(target: DraftFuzzyAgent, sees: bool, targetPos: Combat.Vec3, dist: real)
      modifies this`state, this`targetsLastPosSeen, this`destination, this`targetsHealth
      ensures View() == DraftFiniteTick(Config(), old(View()), DraftPercept(sees, targetPos, dist), target.currentHealth)
    {
      match state {
        case Idle => UpdateIdleState(sees, targetPos);
        case MoveToTarget => UpdateMoveToTargetState(dist);
        case _ =>
      }
      targetsHealth := target.currentHealth;
    }
  }

  /** The fuzzy draft. */
  class DraftFuzzyAgent {
    const maxHealth: int

    var state: DraftState
    var currentHealth: int
    var targetsCurrentHealth: int
    var fuzzyRules: seq<FuzzyRule>
    var engineRules: seq<FuzzyRule>
    var destination: Combat.Destination

    function View(): DraftFuzzyView
      reads this
    {
      DraftFuzzyView(state, currentHealth, targetsCurrentHealth, destination)
    }

    /** Start of the game: Idle at full health, with the one rule built and
        handed to a fresh engine. */
    constructor (maxHealth: int)
      ensures this.maxHealth == maxHealth
      ensures View() == DraftFuzzyView(Idle, maxHealth, 0, Combat.Stay)
      ensures fuzzyRules == DraftRules() && engineRules == fuzzyRules
    {
      this.maxHealth := maxHealth;
      state := Idle;
      currentHealth := maxHealth;
      targetsCurrentHealth := 0;
      destination := Combat.Stay;
      var rules := DraftRules();
      var installed := AddRulesToEngine([], rules);
      fuzzyRules := rules;
      engineRules := installed;
    }

    method TakeDamage(amount: int)
      modifies this`currentHealth, this`state
      ensures View() == DraftFuzzyDamage(old(View()), amount)
    {
      currentHealth := currentHealth - amount;
      if currentHealth <= 0 {
        currentHealth := 0;
        state := Dead;
      }
    }

    /** One frame: MoveToTarget heads for the target, the other handlers do
        nothing that lasts, then the target's health is read. */
    method Update(target: DraftFiniteAgent)
      modifies this`destination, this`targetsCurrentHealth
      ensures View() == DraftFuzzyTick(old(View()), target.currentHealth)
      ensures fuzzyRules == old(fuzzyRules) && engineRules == old(engineRules)
    {
      if state == MoveToTarget {
        destination := Combat.TargetPosition;
      }
      targetsCurrentHealth := target.currentHealth;
    }
  }
}
