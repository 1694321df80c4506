/** The data of the fuzzy controller: its linguistic variables and their
    membership functions (as parameters only), the rule set installed for each
    state (as an immutable syntax tree), the crisp encoding of its boolean
    inputs, the mapping from the defuzzified result to a state, and the crisp
    overrides applied after it. The inference engine itself (fuzzification,
    rule evaluation, centroid defuzzification) is an external function here. */
module FuzzyRules {
  import opened Combat

  datatype Variable =
    | DistToTarget
    | Health
    | TargetsHealth
    | ActionToTake
    | Ammo
    | CanSeeTarget
    | IsFinishedReloading

  /** Membership-function parameters: a trapezoid (a, b, c, d) with plateau
      [b, c], or a triangle (a, b, c) with apex b. */
  datatype Shape =
    | Trapezoid(a: real, b: real, c: real, d: real)
    | Triangle(a: real, b: real, c: real)

  /** A named membership function of a linguistic variable. */
  datatype Term = Term(name: string, shape: Shape)

  /** The membership functions registered for each variable at start-up. */
  function TermsOf(v: Variable): seq<Term>
  {
    match v
    case DistToTarget =>
      [ Term("close", Trapezoid(0.0, 0.0, 3.0, 7.0)),
        Term("moderate", Trapezoid(3.0, 7.0, 10.0, 16.0)),
        Term("far", Trapezoid(12.0, 16.0, 20.0, 20.0)) ]
    case Health =>
      [ Term("low", Trapezoid(0.0, 0.0, 20.0, 47.0)),
        Term("moderate", Trapezoid(20.0, 40.0, 60.0, 80.0)),
        Term("high", Trapezoid(53.0, 80.0, 100.0, 100.0)) ]
    case TargetsHealth =>
      [ Term("low", Trapezoid(0.0, 0.0, 20.0, 47.0)),
        Term("moderate", Trapezoid(20.0, 40.0, 60.0, 80.0)),
        Term("high", Trapezoid(53.0, 80.0, 100.0, 100.0)) ]
    case Ammo =>
      [ Term("low", Trapezoid(0.0, 0.0, 1.0, 1.0)),
        Term("moderate", Trapezoid(0.0, 0.0, 1.0, 1.0)),
        Term("high", Trapezoid(0.0, 0.0, 1.0, 1.0)) ]
    case CanSeeTarget =>
      [ Term("can", Trapezoid(0.0, 0.0, 1.0, 1.0)),
        Term("cant", Trapezoid(1.0, 1.0, 2.0, 2.0)) ]
    case IsFinishedReloading =>
      [ Term("finished", Trapezoid(0.0, 0.0, 1.0, 1.0)),
        Term("notFinished", Trapezoid(1.0, 1.0, 2.0, 2.0)) ]
    case ActionToTake =>
      [ Term("shootTarget", Triangle(0.0, 0.5, 1.0)),
        Term("hideFromTarget", Triangle(1.0, 1.5, 2.0)),
        Term("moveCloserToTarget", Triangle(2.0, 2.5, 3.0)),
        Term("reload", Triangle(3.0, 3.5, 4.0)) ]
  }

  /** The parameters of a shape are in non-decreasing order. */
  predicate Ordered(s: Shape)
  {
    match s
    case Trapezoid(a, b, c, d) => a <= b <= c <= d
    case Triangle(a, b, c) => a <= b <= c
  }

  /** `x` lies where the shape has full membership. */
  predicate InPlateau(s: Shape, x: real)
  {
    match s
    case Trapezoid(_, b, c, _) => b <= x <= c
    case Triangle(_, b, _) => x == b
  }

  /** `x` lies where the shape may have non-zero membership. */
  predicate InSupport(s: Shape, x: real)
  {
    match s
    case Trapezoid(a, _, _, d) => a <= x <= d
    case Triangle(a, _, c) => a <= x <= c
  }

  /** The variable has a membership function of that name. */
  predicate HasTerm(v: Variable, name: string)
  {
    exists i :: 0 <= i < |TermsOf(v)| && TermsOf(v)[i].name == name
  }

  lemma AllShapesOrdered(v: Variable)
    ensures forall i :: 0 <= i < |TermsOf(v)| ==> Ordered(TermsOf(v)[i].shape)
  {
  }

  // ---------------------------------------------------------------------
  // Rules

  /** `variable.Is(term)` or `variable.IsNot(term)`. */
  datatype Clause = Is(variable: Variable, term: string) | IsNot(variable: Variable, term: string)

  /** An antecedent: clauses combined with `.And(...)` and `.Or(...)`, each
      call taking the expression built so far as its left operand. */
  datatype Condition =
    | Holds(clause: Clause)
    | And(left: Condition, right: Condition)
    | Or(left: Condition, right: Condition)

  /** `Rule.If(condition).Then(action)`. */
  datatype FuzzyRule = FuzzyRule(condition: Condition, action: Clause)

  function NotFarAndCanSee(): Condition
  {
    And(Holds(IsNot(DistToTarget, "far")), Holds(Is(CanSeeTarget, "can")))
  }

  function FarOrCannotSee(): Condition
  {
    Or(Holds(Is(DistToTarget, "far")), Holds(Is(CanSeeTarget, "cant")))
  }

  function LowHealthAndNotClose(): Condition
  {
    And(Holds(Is(Health, "low")), Holds(IsNot(DistToTarget, "close")))
  }

  function LowAmmoAndCannotSeeOrFar(): Condition
  {
    Or(And(Holds(Is(Ammo, "low")), Holds(Is(CanSeeTarget, "cant"))), Holds(Is(DistToTarget, "far")))
  }

  function Action(name: string): Clause
  {
    Is(ActionToTake, name)
  }

  /** The rule set installed into the engine for each state. */
  function RulesFor(s: AgentState): seq<FuzzyRule>
  {
    match s
    case Idle =>
      [ FuzzyRule(NotFarAndCanSee(), Action("shootTarget")),
        FuzzyRule(FarOrCannotSee(), Action("moveCloserToTarget")),
        FuzzyRule(LowHealthAndNotClose(), Action("hideFromTarget")) ]
    case ShootTarget =>
      [ FuzzyRule(FarOrCannotSee(), Action("moveCloserToTarget")),
        FuzzyRule(LowHealthAndNotClose(), Action("hideFromTarget")),
        FuzzyRule(LowAmmoAndCannotSeeOrFar(), Action("reload")) ]
    case Hide =>
      [ FuzzyRule(And(Holds(Is(TargetsHealth, "low")), Holds(IsNot(DistToTarget, "close"))),
                  Action("moveCloserToTarget")),
        FuzzyRule(And(Holds(Is(DistToTarget, "close")), Holds(Is(CanSeeTarget, "can"))), Action("shootTarget")),
        FuzzyRule(LowAmmoAndCannotSeeOrFar(), Action("reload")) ]
    case MoveToTarget =>
      [ FuzzyRule(NotFarAndCanSee(), Action("shootTarget")),
        FuzzyRule(LowHealthAndNotClose(), Action("hideFromTarget")) ]
    case Reload =>
      [ FuzzyRule(FarOrCannotSee(), Action("moveCloserToTarget")),
        FuzzyRule(NotFarAndCanSee(), Action("shootTarget")),
        FuzzyRule(And(Holds(Is(CanSeeTarget, "can")), Holds(Is(Health, "low"))), Action("hideFromTarget")) ]
    case Dead => []
  }

  function ClauseVariable(c: Clause): Variable
  {
    match c
    case Is(v, _) => v
    case IsNot(v, _) => v
  }

  function ClauseTerm(c: Clause): string
  {
    match c
    case Is(_, t) => t
    case IsNot(_, t) => t
  }

  /** The condition tests variable `v` somewhere. */
  predicate Mentions(c: Condition, v: Variable)
  {
    match c
    case Holds(cl) => ClauseVariable(cl) == v
    case And(l, r) => Mentions(l, v) || Mentions(r, v)
    case Or(l, r) => Mentions(l, v) || Mentions(r, v)
  }

  /** Every clause of the condition names a membership function its variable has. */
  predicate Resolves(c: Condition)
  {
    match c
    case Holds(cl) => HasTerm(ClauseVariable(cl), ClauseTerm(cl))
    case And(l, r) => Resolves(l) && Resolves(r)
    case Or(l, r) => Resolves(l) && Resolves(r)
  }

  /** The number of rules each state installs. */
  lemma RuleCounts(s: AgentState)
    ensures |RulesFor(s)| == match s
      case Idle => 3
      case ShootTarget => 3
      case Hide => 3
      case MoveToTarget => 2
      case Reload => 3
      case Dead => 0
  {
  }

  /** No rule of any state reads whether the reload has finished, although
      that input is fed to the engine every tick. */
  lemma NoRuleReadsFinishedReloading(s: AgentState)
    ensures forall i :: 0 <= i < |RulesFor(s)| ==> !Mentions(RulesFor(s)[i].condition, IsFinishedReloading)
  {
  }

  /** Every clause of every rule names a registered membership function, and
      every consequent is a membership function of `actionToTake`. */
  lemma RulesResolve(s: AgentState)
    ensures forall i :: 0 <= i < |RulesFor(s)| ==>
      && Resolves(RulesFor(s)[i].condition)
      && RulesFor(s)[i].action.Is?
      && RulesFor(s)[i].action.variable == ActionToTake
      && HasTerm(ActionToTake, RulesFor(s)[i].action.term)
  {
    var dist, health, th, ammo, see, act := TermsOf(DistToTarget), TermsOf(Health), TermsOf(TargetsHealth),
      TermsOf(Ammo), TermsOf(CanSeeTarget), TermsOf(ActionToTake);
    assert dist[0].name == "close" && dist[2].name == "far";
    assert health[0].name == "low" && th[0].name == "low" && ammo[0].name == "low";
    assert see[0].name == "can" && see[1].name == "cant";
    assert act[0].name == "shootTarget" && act[1].name == "hideFromTarget";
    assert act[2].name == "moveCloserToTarget" && act[3].name == "reload";
  }

  // ---------------------------------------------------------------------
  // From the defuzzified result to a state

  /** The state a result band selects: [0,1) shoots, [1,2) hides, [2,3) moves
      to the target, [3,4) reloads; anything else selects nothing. */
  function Band(result: real): Option<AgentState>
  {
    if 0.0 <= result < 1.0 then Some(ShootTarget)
    else if 1.0 <= result < 2.0 then Some(Hide)
    else if 2.0 <= result < 3.0 then Some(MoveToTarget)
    else if 3.0 <= result < 4.0 then Some(Reload)
    else None
  }

  /** The bands cover exactly [0,4) and never select Idle or Dead. */
  lemma BandCoverage(result: real)
    ensures Band(result).Some? <==> 0.0 <= result < 4.0
    ensures Band(result).Some? ==> Band(result).value !in {Idle, Dead}
  {
  }

  /** The state the consequent `actionToTake.Is(name)` votes for. */
  function ActionState(name: string): Option<AgentState>
  {
    if name == "shootTarget" then Some(ShootTarget)
    else if name == "hideFromTarget" then Some(Hide)
    else if name == "moveCloserToTarget" then Some(MoveToTarget)
    else if name == "reload" then Some(Reload)
    else None
  }

  /** Each output membership function lies inside the closure of one band and
      peaks inside that band, which selects the state the function stands for. */
  lemma ActionTermsMatchBands()
    ensures forall i :: 0 <= i < |TermsOf(ActionToTake)| ==>
      var t := TermsOf(ActionToTake)[i];
      && t.shape.Triangle?
      && ActionState(t.name).Some?
      && Band(t.shape.b) == ActionState(t.name)
      && Band(t.shape.a) == ActionState(t.name)
      && t.shape.c == t.shape.a + 1.0
  {
  }

  /** The overrides after the band mapping: the target's death first, then
      the agent's own. */
  function CrispOverrides(health: int, targetsHealth: int): seq<Transition>
  {
    [ Transition(targetsHealth <= 0, Idle), Transition(health <= 0, Dead) ]
  }

  /** The state after `CheckForStateChange`: the band's state (or the current
      state when the result is out of every band), then the overrides. */
  function DecideState(s: AgentState, result: real, health: int, targetsHealth: int): AgentState
  {
    var banded := match Band(result) case Some(b) => b case None => s;
    LastWins(banded, CrispOverrides(health, targetsHealth))
  }

  /** Whether the rule set stays installed after the check: every band hit
      and every override clears it. */
  predicate RulesKept(result: real, health: int, targetsHealth: int)
  {
    Band(result).None? && targetsHealth > 0 && health > 0
  }

  /** Dead beats Idle; with both agents alive a result outside [0,4) holds
      the current state and the rule set. */
  lemma DecideStateSpec(s: AgentState, result: real, health: int, targetsHealth: int)
    ensures var r := DecideState(s, result, health, targetsHealth);
      && (health <= 0 ==> r == Dead)
      && (health > 0 && targetsHealth <= 0 ==> r == Idle)
      && (health > 0 && targetsHealth > 0 && Band(result).Some? ==> r == Band(result).value)
      && (RulesKept(result, health, targetsHealth) ==> r == s)
  {
    var banded := match Band(result) case Some(b) => b case None => s;
    LastWinsOfTwo(banded, Transition(targetsHealth <= 0, Idle), Transition(health <= 0, Dead));
  }

  // ---------------------------------------------------------------------
  // Crisp inputs handed to the engine

  /** A boolean input as a crisp value: 0.5 for true, 1.5 for false. */
  function EncodeFlag(b: bool): real
  {
    if b then 0.5 else 1.5
  }

  /** The encoding of a boolean lies on the plateau of the membership
      function for its own value and outside the support of the other one,
      for both boolean variables. */
  lemma FlagEncodingSelectsOneTerm(b: bool)
    ensures var see := TermsOf(CanSeeTarget);
      && see[0].name == "can" && see[1].name == "cant"
      && InPlateau(see[if b then 0 else 1].shape, EncodeFlag(b))
      && !InSupport(see[if b then 1 else 0].shape, EncodeFlag(b))
    ensures var fin := TermsOf(IsFinishedReloading);
      && fin[0].name == "finished" && fin[1].name == "notFinished"
      && InPlateau(fin[if b then 0 else 1].shape, EncodeFlag(b))
      && !InSupport(fin[if b then 1 else 0].shape, EncodeFlag(b))
  {
  }

  /** The crisp values one `Defuzzify` call receives. */
  datatype CrispInputs = CrispInputs(
    distToTarget: real,
    health: real,
    targetsHealth: real,
    ammo: real,
    canSeeTarget: real,
    isFinishedReloading: real)

  function EngineInputs(dist: real, health: int, targetsHealth: int, ammo: int, sees: bool, finished: bool): CrispInputs
  {
    CrispInputs(dist, health as real, targetsHealth as real, ammo as real, EncodeFlag(sees), EncodeFlag(finished))
  }

  /** The inference engine: the defuzzified result for the installed rules
      and the crisp inputs. Its workings are outside this model; being a
      function, it answers the same rules and inputs with the same result. */
  type Engine = (seq<FuzzyRule>, CrispInputs) -> real
}
