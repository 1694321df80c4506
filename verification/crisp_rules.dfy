/** The decision tables of the finite (crisp) controller. Each state handler
    is a list of guarded assignments to the state, executed in order, so a
    later true guard overrides an earlier one; here each handler's list is
    written out in source order and read with `LastWins`. */
module CrispRules {
  import opened Combat

  /** The editor-tuned thresholds the transitions compare against. */
  datatype Thresholds = Thresholds(
    distToStartShooting: real,
    distToHide: real,
    lowHealth: int,
    lowAmmo: int)

  /** The target is visible and within shooting distance. */
  predicate InShootingRange(c: Thresholds, sees: bool, dist: real)
  {
    sees && dist <= c.distToStartShooting
  }

  /** Own health is low and the target is not close. */
  predicate WantsToHide(c: Thresholds, health: int, dist: real)
  {
    health <= c.lowHealth && dist >= c.distToHide
  }

  /** Ammo is low and the target is out of sight or out of range. */
  predicate WantsToReload(c: Thresholds, sees: bool, dist: real, ammo: int)
  {
    ammo <= c.lowAmmo && (!sees || dist > c.distToStartShooting)
  }

  /** The target is seen while health is low or the reload is unfinished:
      the reload is abandoned for hiding. */
  predicate ReloadInterrupted(c: Thresholds, sees: bool, health: int, finished: bool)
  {
    sees && (health <= c.lowHealth || !finished)
  }

  /** Idle acts only while the target is alive. */
  function IdleTransitions(c: Thresholds, sees: bool, dist: real, health: int, targetsHealth: int): seq<Transition>
  {
    if targetsHealth > 0 then
      [ Transition(InShootingRange(c, sees, dist), ShootTarget),
        Transition(!sees && dist > c.distToStartShooting, MoveToTarget),
        Transition(WantsToHide(c, health, dist), Hide) ]
    else []
  }

  /** Shoot's transitions, evaluated with the ammo left after this tick's shot. */
  function ShootTransitions(c: Thresholds, sees: bool, dist: real, health: int, ammo: int): seq<Transition>
  {
    [ Transition(!sees && dist > c.distToStartShooting, MoveToTarget),
      Transition(WantsToReload(c, sees, dist, ammo), Reload),
      Transition(WantsToHide(c, health, dist), Hide) ]
  }

  function HideTransitions(c: Thresholds, sees: bool, dist: real, targetsHealth: int, ammo: int): seq<Transition>
  {
    [ Transition(targetsHealth <= c.lowHealth && dist > c.distToHide, MoveToTarget),
      Transition(dist <= c.distToHide && sees, ShootTarget),
      Transition(WantsToReload(c, sees, dist, ammo), Reload) ]
  }

  function MoveTransitions(c: Thresholds, sees: bool, dist: real, health: int, targetsHealth: int): seq<Transition>
  {
    [ Transition(InShootingRange(c, sees, dist), ShootTarget),
      Transition(WantsToHide(c, health, dist) && targetsHealth > c.lowHealth, Hide) ]
  }

  /** Reload's transitions, evaluated with `finishedReloading` as this tick's
      countdown left it. */
  function ReloadTransitions(c: Thresholds, sees: bool, dist: real, health: int, finished: bool): seq<Transition>
  {
    [ Transition(finished && (dist > c.distToStartShooting || !sees), MoveToTarget),
      Transition(finished && dist <= c.distToStartShooting && sees, ShootTarget),
      Transition(ReloadInterrupted(c, sees, health, finished), Hide) ]
  }

  /** The checks after the state switch: own death first, then the target's. */
  function PostSwitchOverrides(health: int, targetsHealth: int): seq<Transition>
  {
    [ Transition(health <= 0, Dead), Transition(targetsHealth <= 0, Idle) ]
  }

  /** The state the handler of `s` chooses. `ammo` is the clip after the
      handler's shot and `finished` the reload flag after its countdown. */
  function HandlerChoice(s: AgentState, c: Thresholds, sees: bool, dist: real, health: int,
                         targetsHealth: int, ammo: int, finished: bool): AgentState
  {
    match s
    case Idle => LastWins(Idle, IdleTransitions(c, sees, dist, health, targetsHealth))
    case ShootTarget => LastWins(ShootTarget, ShootTransitions(c, sees, dist, health, ammo))
    case Hide => LastWins(Hide, HideTransitions(c, sees, dist, targetsHealth, ammo))
    case MoveToTarget => LastWins(MoveToTarget, MoveTransitions(c, sees, dist, health, targetsHealth))
    case Reload => LastWins(Reload, ReloadTransitions(c, sees, dist, health, finished))
    case Dead => Dead
  }

  /** The state at the end of a tick. */
  function TickChoice(s: AgentState, c: Thresholds, sees: bool, dist: real, health: int,
                      targetsHealth: int, ammo: int, finished: bool): AgentState
  {
    LastWins(HandlerChoice(s, c, sees, dist, health, targetsHealth, ammo, finished),
             PostSwitchOverrides(health, targetsHealth))
  }

  // ---------------------------------------------------------------------
  // What the priority order means, handler by handler

  /** Idle: with the target alive, Hide beats Move beats Shoot; none holding,
      or the target dead, keeps Idle. */
  lemma IdleDecision(c: Thresholds, sees: bool, dist: real, health: int, targetsHealth: int)
    ensures var r := LastWins(Idle, IdleTransitions(c, sees, dist, health, targetsHealth));
      && (r == Hide <==> targetsHealth > 0 && WantsToHide(c, health, dist))
      && (r == MoveToTarget <==>
            targetsHealth > 0 && !WantsToHide(c, health, dist) && !sees && dist > c.distToStartShooting)
      && (r == ShootTarget <==>
            targetsHealth > 0 && !WantsToHide(c, health, dist) && InShootingRange(c, sees, dist))
      && (r == Idle <==>
            targetsHealth <= 0 ||
            (!WantsToHide(c, health, dist) && (sees == (dist > c.distToStartShooting))))
  {
    if targetsHealth > 0 {
      LastWinsOfThree(Idle, Transition(InShootingRange(c, sees, dist), ShootTarget),
        Transition(!sees && dist > c.distToStartShooting, MoveToTarget),
        Transition(WantsToHide(c, health, dist), Hide));
    }
  }

  /** Shoot: Hide beats Reload beats Move; none holding keeps shooting. */
  lemma ShootDecision(c: Thresholds, sees: bool, dist: real, health: int, ammo: int)
    ensures var r := LastWins(ShootTarget, ShootTransitions(c, sees, dist, health, ammo));
      && (r == Hide <==> WantsToHide(c, health, dist))
      && (r == Reload <==> !WantsToHide(c, health, dist) && WantsToReload(c, sees, dist, ammo))
      && (r == MoveToTarget <==>
            !WantsToHide(c, health, dist) && !WantsToReload(c, sees, dist, ammo) &&
            !sees && dist > c.distToStartShooting)
      && (r == ShootTarget <==>
            !WantsToHide(c, health, dist) && !WantsToReload(c, sees, dist, ammo) &&
            (sees || dist <= c.distToStartShooting))
  {
    LastWinsOfThree(ShootTarget, Transition(!sees && dist > c.distToStartShooting, MoveToTarget),
      Transition(WantsToReload(c, sees, dist, ammo), Reload),
      Transition(WantsToHide(c, health, dist), Hide));
  }

  /** Hide: Reload beats Shoot beats Move; none holding keeps hiding. */
  lemma HideDecision(c: Thresholds, sees: bool, dist: real, targetsHealth: int, ammo: int)
    ensures var r := LastWins(Hide, HideTransitions(c, sees, dist, targetsHealth, ammo));
      && (r == Reload <==> WantsToReload(c, sees, dist, ammo))
      && (r == ShootTarget <==> !WantsToReload(c, sees, dist, ammo) && dist <= c.distToHide && sees)
      && (r == MoveToTarget <==>
            !WantsToReload(c, sees, dist, ammo) && !(dist <= c.distToHide && sees) &&
            targetsHealth <= c.lowHealth && dist > c.distToHide)
      && (r == Hide <==>
            !WantsToReload(c, sees, dist, ammo) && !(dist <= c.distToHide && sees) &&
            !(targetsHealth <= c.lowHealth && dist > c.distToHide))
  {
    LastWinsOfThree(Hide, Transition(targetsHealth <= c.lowHealth && dist > c.distToHide, MoveToTarget),
      Transition(dist <= c.distToHide && sees, ShootTarget),
      Transition(WantsToReload(c, sees, dist, ammo), Reload));
  }

  /** MoveToTarget: Shoot when in range and visible, overridden by Hide only
      when own health is low, the target is not close and not itself low. */
  lemma MoveDecision(c: Thresholds, sees: bool, dist: real, health: int, targetsHealth: int)
    ensures var r := LastWins(MoveToTarget, MoveTransitions(c, sees, dist, health, targetsHealth));
      && (r == Hide <==> WantsToHide(c, health, dist) && targetsHealth > c.lowHealth)
      && (r == ShootTarget <==>
            InShootingRange(c, sees, dist) && !(WantsToHide(c, health, dist) && targetsHealth > c.lowHealth))
      && (r == MoveToTarget <==>
            !InShootingRange(c, sees, dist) && !(WantsToHide(c, health, dist) && targetsHealth > c.lowHealth))
  {
    LastWinsOfTwo(MoveToTarget, Transition(InShootingRange(c, sees, dist), ShootTarget),
      Transition(WantsToHide(c, health, dist) && targetsHealth > c.lowHealth, Hide));
  }

  /** Reload: an interruption sends the agent into hiding; otherwise a
      finished reload chooses exactly one of Move and Shoot, and an unfinished
      one keeps reloading. */
  lemma ReloadDecision(c: Thresholds, sees: bool, dist: real, health: int, finished: bool)
    ensures var r := LastWins(Reload, ReloadTransitions(c, sees, dist, health, finished));
      && (r == Hide <==> ReloadInterrupted(c, sees, health, finished))
      && (!ReloadInterrupted(c, sees, health, finished) && finished ==>
            (r == ShootTarget <==> InShootingRange(c, sees, dist)) &&
            (r == MoveToTarget <==> !InShootingRange(c, sees, dist)))
      && (r == Reload <==> !finished && !sees)
  {
    LastWinsOfThree(Reload, Transition(finished && (dist > c.distToStartShooting || !sees), MoveToTarget),
      Transition(finished && dist <= c.distToStartShooting && sees, ShootTarget),
      Transition(ReloadInterrupted(c, sees, health, finished), Hide));
  }

  /** After the switch, the target's death beats the agent's own: Idle wins
      when both health values are at most zero. */
  lemma OverridesDecision(s: AgentState, health: int, targetsHealth: int)
    ensures var r := LastWins(s, PostSwitchOverrides(health, targetsHealth));
      && (targetsHealth <= 0 ==> r == Idle)
      && (targetsHealth > 0 && health <= 0 ==> r == Dead)
      && (targetsHealth > 0 && health > 0 ==> r == s)
  {
    LastWinsOfTwo(s, Transition(health <= 0, Dead), Transition(targetsHealth <= 0, Idle));
  }

  /** No handler chooses Dead: only the post-switch check can. */
  lemma HandlersNeverChooseDead(s: AgentState, c: Thresholds, sees: bool, dist: real, health: int,
                                targetsHealth: int, ammo: int, finished: bool)
    requires s != Dead
    ensures HandlerChoice(s, c, sees, dist, health, targetsHealth, ammo, finished) != Dead
  {
    match s
    case Idle => LastWinsAvoids(Idle, IdleTransitions(c, sees, dist, health, targetsHealth), Dead);
    case ShootTarget => LastWinsAvoids(ShootTarget, ShootTransitions(c, sees, dist, health, ammo), Dead);
    case Hide => LastWinsAvoids(Hide, HideTransitions(c, sees, dist, targetsHealth, ammo), Dead);
    case MoveToTarget => LastWinsAvoids(MoveToTarget, MoveTransitions(c, sees, dist, health, targetsHealth), Dead);
    case Reload => LastWinsAvoids(Reload, ReloadTransitions(c, sees, dist, health, finished), Dead);
  }

  /** A tick ends in Dead exactly when the target is still alive and the
      agent's health is at most zero or it was already Dead; from Dead the only
      way out is to Idle, when the target's health is at most zero. */
  lemma TickDeadExactly(s: AgentState, c: Thresholds, sees: bool, dist: real, health: int,
                        targetsHealth: int, ammo: int, finished: bool)
    ensures var r := TickChoice(s, c, sees, dist, health, targetsHealth, ammo, finished);
      && (r == Dead <==> targetsHealth > 0 && (health <= 0 || s == Dead))
      && (s == Dead ==> r == (if targetsHealth <= 0 then Idle else Dead))
  {
    var h := HandlerChoice(s, c, sees, dist, health, targetsHealth, ammo, finished);
    OverridesDecision(h, health, targetsHealth);
    if s != Dead {
      HandlersNeverChooseDead(s, c, sees, dist, health, targetsHealth, ammo, finished);
    }
  }
}
