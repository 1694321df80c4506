# FuzzyVsFinite duel controllers in Dafny

This project models the decision and combat-resource logic of two agents that
duel in a Unity scene. One is a finite-state (crisp) controller and the other
is a fuzzy-logic controller. Both have six states: IDLE, SHOOT_TARGET, HIDE,
MOVE_TO_TARGET, DEAD and RELOAD. Each agent tracks its health, its ammunition
in the clip, a shot cooldown and a reload countdown. When it hides, it looks
for the nearest spot the target cannot see. The model also covers the earlier
drafts of both controllers (a STAB state, no RELOAD) and the round
bookkeeping of both game managers.

Each controller is a class whose `Update` method is one frame of the game.
Whatever the engine supplies is a parameter of that frame:

- whether the target is in sight (one raycast result per frame);
- the distance to the target;
- the clock and the frame time;
- each hiding spot, with its distance and whether the target can see it;
- the roll of `Random.Range(1, 11)` for a shot;
- for the fuzzy agent, the inference engine, as a function from the
  installed rules and the crisp inputs to the defuzzified result.

The opponent is passed in as an object, and a hit calls its `TakeDamage`.

The model is built in layers:

- `Ticks` states one frame of each controller as a pure function of the
  fields that frame reads and writes (`FiniteTick`, `FuzzyTick`).
- `Update` in `Controllers` is proved to follow that function
  (`View() == FiniteTick(...)`).
- The properties of a frame are lemmas about those functions.
- A state handler is a list of guarded assignments in which a later true
  guard overrides an earlier one. `CrispRules` writes each list out in
  source order and reads it with `Combat.LastWins`, which is proved equal to
  running the assignments in order.

Modules and files:

- `combat.dfy`, module `Combat`: the states, ordered transitions, damage,
  the shot roll and the reload countdown.
- `perception.dfy`, module `Perception`: the hiding-spot search.
- `crisp_rules.dfy`, module `CrispRules`: the crisp transition tables.
- `fuzzy_rules.dfy`, module `FuzzyRules`: the membership functions, the
  rule tables, the result bands, the overrides and the boolean encoding.
- `ticks.dfy`, module `Ticks`: one frame of each controller, as functions.
- `controllers.dfy`, module `Controllers`: the two controller classes.
- `drafts.dfy`, module `Drafts`: the draft controllers.
- `rounds.dfy`, module `Rounds`: both game managers.

Notes on the source's behaviour:

- **The hiding-spot search is a true nearest search.** The incumbent is
  replaced when a hidden spot is at least as near, so the result is a
  nearest hidden spot, and on a tie the later one wins (`Perception.ClosestHiddenIsNearest`).
- **`TakeDamage(0)` is not always a no-op.** At health 0 it sets DEAD
  again, whatever the state was. With positive health it changes nothing.
- **DEAD is not absorbing for the finite controller.** The target-dead
  override runs after the own-death override, so a DEAD finite agent whose
  target's health is at most 0 becomes IDLE (`Ticks.FiniteDeadStaysDead`).
  The fuzzy agent never leaves DEAD.
- **A finite reload interrupted by sighting the target restarts.** The
  RELOAD handler raises the finished flag without refilling, so the next
  reload counts down from the full time (`Ticks.FiniteInterruptedReloadRestarts`).
  A finite reload left through the target-dead override keeps its countdown
  and resumes (`Ticks.FiniteOverriddenReloadResumes`), and the fuzzy
  controller always resumes (`Ticks.FuzzyInterruptedReloadResumes`).
- **`TakeDamage` adds no bound of its own.** It only clamps health at 0
  from below, so a negative amount raises health past `maxHealth`.

## Model

| member | source | states |
|---|---|---|
| `Combat.Ordinal` | AssignmentCMP304/Assets/Scripts/FiniteAgentController.cs:31-40 | every state's enum value is below NUM_STATES (6), so it indexes a per-state array |
| `Combat.RunInOrderIsLastWins` | AssignmentCMP304/Assets/Scripts/FiniteAgentController.cs:224-242 | running a handler's guarded state assignments one after another equals letting the last true guard win |
| `Combat.LastWinsPicksLastTrue` | AssignmentCMP304/Assets/Scripts/FiniteAgentController.cs:174-200 | the state after a handler is the target of the last true guard; with no guard true it is the current state |
| `Combat.HealthAfterDamage` | AssignmentCMP304/Assets/Scripts/FiniteAgentController.cs:365-381 | health after `TakeDamage` is never negative; it is 0 exactly when `h - amount <= 0` and otherwise `h - amount` |
| `Combat.ZeroDamageKeepsLivingAgent` | AssignmentCMP304/Assets/Scripts/FuzzyAgentController.cs:350-366 | damage 0 leaves a living agent's health and state unchanged |
| `Combat.OverwhelmingDamageKills` | AssignmentCMP304/Assets/Scripts/FuzzyAgentController.cs:350-366 | any amount at least the current health is lethal and leaves exactly 0 |
| `Combat.HealthAfterHitsClamps` | AssignmentCMP304/Assets/Scripts/FuzzyAgentController.cs:350-366 | n hits of a non-negative amount act like one subtraction of n times the amount, clamped at 0 |
| `Combat.BulletsToKill` | AssignmentCMP304/Assets/Scripts/FuzzyAgentController.cs:285-289 | from any positive health, 10-point hits leave 0 exactly when their total reaches the health; ceil(health / 10) hits kill and one fewer does not |
| `Combat.HitChanceIsHalf` | AssignmentCMP304/Assets/Scripts/FiniteAgentController.cs:216-220 | of the ten rolls 1..10, exactly five (the rolls up to 5) hit |
| `Combat.ReloadTick` | AssignmentCMP304/Assets/Scripts/FuzzyAgentController.cs:329-348 | a finished timer restarts at `reloadTime`; a positive countdown drops by `dt`; the timer finishes exactly when a positive countdown reaches 0 or below, and the clip is refilled exactly then |
| `Combat.ReloadResumes` | AssignmentCMP304/Assets/Scripts/FuzzyAgentController.cs:331-346 | an unfinished countdown continues from its remaining time and finishes exactly when that time is at most `dt` |
| `Combat.ReloadRestarts` | AssignmentCMP304/Assets/Scripts/FuzzyAgentController.cs:331-336 | a finished timer starts the full `reloadTime` countdown again |
| `Combat.ReloadCountsDown` | AssignmentCMP304/Assets/Scripts/FuzzyAgentController.cs:338-346 | uninterrupted frames shorter in total than `reloadTime` leave the reload unfinished with `reloadTime` minus their sum left |
| `Combat.ReloadCompletes` | AssignmentCMP304/Assets/Scripts/FuzzyAgentController.cs:338-346 | the frame on which the elapsed time first reaches `reloadTime` finishes the reload and refills the clip |
| `Perception.ClosestHidden` | AssignmentCMP304/Assets/Scripts/FuzzyAgentController.cs:295-311 | the search's choice, if any, is the index of a spot the target cannot see |
| `Perception.ClosestHiddenIsNearest` | AssignmentCMP304/Assets/Scripts/FuzzyAgentController.cs:295-311 | there is no choice exactly when no spot is hidden; otherwise the choice is a hidden spot no farther than any hidden spot and strictly nearer than every later one |
| `Perception.FindClosestHiddenSpot` | AssignmentCMP304/Assets/Scripts/FiniteAgentController.cs:247-263 | the incumbent loop over the spots ends with the choice of `ClosestHidden` |
| `Perception.ClosestHiddenIsUnique` | AssignmentCMP304/Assets/Scripts/FiniteAgentController.cs:247-263 | at most one spot meets the nearest-hidden contract, so the search's result is determined |
| `Perception.OnlyHiddenSpotIsChosen` | AssignmentCMP304/Assets/Scripts/FiniteAgentController.cs:247-263 | a spot that is the only hidden one is chosen wherever it stands in the order |
| `CrispRules.IdleDecision` | AssignmentCMP304/Assets/Scripts/FiniteAgentController.cs:174-200 | with the target alive, HIDE beats MOVE, which beats SHOOT; each outcome is given as an if-and-only-if; with no guard true, or the target dead, it stays IDLE |
| `CrispRules.ShootDecision` | AssignmentCMP304/Assets/Scripts/FiniteAgentController.cs:224-242 | HIDE beats RELOAD, which beats MOVE; each outcome is given as an if-and-only-if, and otherwise the agent keeps shooting |
| `CrispRules.HideDecision` | AssignmentCMP304/Assets/Scripts/FiniteAgentController.cs:273-296 | RELOAD beats SHOOT, which beats MOVE; each outcome is given as an if-and-only-if, and otherwise the agent keeps hiding |
| `CrispRules.MoveDecision` | AssignmentCMP304/Assets/Scripts/FiniteAgentController.cs:304-319 | SHOOT when in range and visible; HIDE overrides it exactly when own health is low, the target is not close and the target's health is above low |
| `CrispRules.ReloadDecision` | AssignmentCMP304/Assets/Scripts/FiniteAgentController.cs:340-362 | HIDE exactly when the target is seen with low health or an unfinished reload; otherwise a finished reload picks exactly one of SHOOT (in range and visible) and MOVE; it stays in RELOAD exactly when the reload is unfinished and the target unseen |
| `CrispRules.OverridesDecision` | AssignmentCMP304/Assets/Scripts/FiniteAgentController.cs:145-156 | after the switch, the target's death forces IDLE, even over own death; own death alone forces DEAD; otherwise the handler's state stands |
| `CrispRules.HandlersNeverChooseDead` | AssignmentCMP304/Assets/Scripts/FiniteAgentController.cs:116-143 | no state handler assigns DEAD |
| `CrispRules.TickDeadExactly` | AssignmentCMP304/Assets/Scripts/FiniteAgentController.cs:116-156 | a frame ends in DEAD exactly when the target is alive and the agent's health is at most 0 or it was DEAD; a DEAD agent goes to IDLE only when the target's health is at most 0 |
| `FuzzyRules.AllShapesOrdered` | AssignmentCMP304/Assets/Scripts/FuzzyAgentController.cs:183-214 | every registered trapezoid and triangle has its parameters in non-decreasing order |
| `FuzzyRules.RuleCounts` | AssignmentCMP304/Assets/Scripts/FuzzyAgentController.cs:418-485 | IDLE, SHOOT_TARGET, HIDE and RELOAD install 3 rules, MOVE_TO_TARGET installs 2 and DEAD none |
| `FuzzyRules.NoRuleReadsFinishedReloading` | AssignmentCMP304/Assets/Scripts/FuzzyAgentController.cs:418-485 | no rule of any state tests `isFinishedReloading` |
| `FuzzyRules.RulesResolve` | AssignmentCMP304/Assets/Scripts/FuzzyAgentController.cs:418-485 | every clause names a registered membership function of its variable, and every consequent is `actionToTake.Is` one of its functions |
| `FuzzyRules.BandCoverage` | AssignmentCMP304/Assets/Scripts/FuzzyAgentController.cs:527-546 | a result selects a state exactly when it lies in [0,4), and the selected state is never IDLE or DEAD |
| `FuzzyRules.ActionTermsMatchBands` | AssignmentCMP304/Assets/Scripts/FuzzyAgentController.cs:211-214 | each output triangle spans one unit band and peaks in the band that selects the state it is named for |
| `FuzzyRules.DecideStateSpec` | AssignmentCMP304/Assets/Scripts/FuzzyAgentController.cs:527-559 | own death forces DEAD, even over the target's death; the target's death alone forces IDLE; with both alive a band picks its state; a result outside [0,4) holds the state and the installed rules |
| `FuzzyRules.FlagEncodingSelectsOneTerm` | AssignmentCMP304/Assets/Scripts/FuzzyAgentController.cs:500-510 | the 0.5/1.5 encoding of a boolean sits on the plateau of its own membership function and outside the other one's support, for both boolean inputs |
| `Ticks.FiniteTickState` | AssignmentCMP304/Assets/Scripts/FiniteAgentController.cs:100-156 | a frame's final state is the handler's choice followed by the post-switch overrides, with the target's health read at the start of the frame |
| `Ticks.FiniteTickKeepsClip` | AssignmentCMP304/Assets/Scripts/FiniteAgentController.cs:209-221 | a frame keeps the clip within [0, ammoPerClip]; the clip only shrinks by one, on a shot |
| `Ticks.FiniteShotsSpendAmmo` | AssignmentCMP304/Assets/Scripts/FiniteAgentController.cs:209-221 | a shot is fired exactly when SHOOT_TARGET spends one round from a non-empty clip; states other than SHOOT_TARGET and RELOAD touch neither ammo nor cooldown |
| `Ticks.FiniteDeadStaysDead` | AssignmentCMP304/Assets/Scripts/FiniteAgentController.cs:137-156 | a DEAD finite agent stays DEAD unless the target's health is at most 0, which makes it IDLE |
| `Ticks.FiniteInterruptedReloadRestarts` | AssignmentCMP304/Assets/Scripts/FiniteAgentController.cs:325-361 | seeing the target before the reload completes sends the agent to HIDE with the finished flag raised and the clip not refilled, so the next reload frame starts the full countdown |
| `Ticks.FiniteOverriddenReloadResumes` | AssignmentCMP304/Assets/Scripts/FiniteAgentController.cs:146-156 | an unfinished finite reload cut short by the target-dead override turns IDLE with the countdown still running and the clip unchanged, so the next reload resumes it |
| `Ticks.FuzzyTickKeepsRulesCurrent` | AssignmentCMP304/Assets/Scripts/FuzzyAgentController.cs:408-559 | whenever the rules are marked installed for a living agent, the engine holds exactly the current state's rules, and every frame keeps it so |
| `Ticks.FuzzyTickState` | AssignmentCMP304/Assets/Scripts/FuzzyAgentController.cs:239-269 | DEAD is never left and skips the check; own death gives DEAD and the target's death IDLE, both clearing the mark; an unmarked agent installs its state's rules and stops |
| `Ticks.FuzzyTickAmmo` | AssignmentCMP304/Assets/Scripts/FuzzyAgentController.cs:279-290 | the fuzzy agent never spends ammo; only a completed reload changes the clip, filling it |
| `Ticks.FuzzyInterruptedReloadResumes` | AssignmentCMP304/Assets/Scripts/FuzzyAgentController.cs:329-348 | outside RELOAD the reload timer is untouched, so a reload left early resumes where it stopped |
| `Controllers.FiniteAgent.constructor` | AssignmentCMP304/Assets/Scripts/FiniteAgentController.cs:87-97 | a new agent is IDLE with full health and a full clip, and no reload is pending |
| `Controllers.FiniteAgent.TakeDamage` | AssignmentCMP304/Assets/Scripts/FiniteAgentController.cs:365-381 | health becomes `HealthAfterDamage`; the state becomes DEAD exactly on a lethal amount and is otherwise unchanged |
| `Controllers.FiniteAgent.UpdateIdleState` | AssignmentCMP304/Assets/Scripts/FiniteAgentController.cs:174-200 | the state is the last-true-wins choice among the three idle transitions, taken only while the target is alive |
| `Controllers.FiniteAgent.Fire` | AssignmentCMP304/Assets/Scripts/FiniteAgentController.cs:209-221 | a shot needs the cooldown elapsed and a non-empty clip; it spends exactly one round and sets the next shot 0.2 s later; a hit deals 10 to the target, killing it when lethal |
| `Controllers.FiniteAgent.ShootTransitionStep` | AssignmentCMP304/Assets/Scripts/FiniteAgentController.cs:224-242 | the shooting transitions in order, later winning, read with the ammo left after the shot |
| `Controllers.FiniteAgent.UpdateHideState` | AssignmentCMP304/Assets/Scripts/FiniteAgentController.cs:245-297 | the agent heads for the nearest hidden spot; the hiding transitions apply in order, and the first two stop the agent |
| `Controllers.FiniteAgent.UpdateMoveToTargetState` | AssignmentCMP304/Assets/Scripts/FiniteAgentController.cs:299-320 | the agent heads for the target unless a transition to SHOOT or HIDE fires, which stops it |
| `Controllers.FiniteAgent.UpdateReloadState` | AssignmentCMP304/Assets/Scripts/FiniteAgentController.cs:322-363 | the countdown follows `ReloadTick`; the clip is refilled only on expiry; an interruption raises `finishedReloading` without refilling |
| `Controllers.FiniteAgent.IdleCase` | AssignmentCMP304/Assets/Scripts/FiniteAgentController.cs:119-122 | the IDLE case of the switch produces `FiniteHandle` |
| `Controllers.FiniteAgent.ShootTargetCase` | AssignmentCMP304/Assets/Scripts/FiniteAgentController.cs:123-126 | the SHOOT case produces `FiniteHandle`; shots are spaced at least 0.2 s apart and the target takes `TargetHealthAfter` |
| `Controllers.FiniteAgent.HideCase` | AssignmentCMP304/Assets/Scripts/FiniteAgentController.cs:127-129 | the HIDE case produces `FiniteHandle` |
| `Controllers.FiniteAgent.MoveToTargetCase` | AssignmentCMP304/Assets/Scripts/FiniteAgentController.cs:130-132 | the MOVE case produces `FiniteHandle` |
| `Controllers.FiniteAgent.ReloadCase` | AssignmentCMP304/Assets/Scripts/FiniteAgentController.cs:133-136 | the RELOAD case produces `FiniteHandle` |
| `Controllers.FiniteAgent.RunStateHandler` | AssignmentCMP304/Assets/Scripts/FiniteAgentController.cs:116-144 | the whole switch produces `FiniteHandle`, and the DEAD case only stops the agent |
| `Controllers.FiniteAgent.Update` | AssignmentCMP304/Assets/Scripts/FiniteAgentController.cs:100-172 | one frame leaves the agent as `FiniteTick` says; the clip and health stay in bounds, shots are 0.2 s apart, and the target loses exactly one bullet's damage on a hit |
| `Controllers.FuzzyAgent.constructor` | AssignmentCMP304/Assets/Scripts/FuzzyAgentController.cs:164-217 | a new agent is IDLE with full health, a full clip and no rules installed; its rule book is the per-state rule table |
| `Controllers.FuzzyAgent.TakeDamage` | AssignmentCMP304/Assets/Scripts/FuzzyAgentController.cs:350-366 | health becomes `HealthAfterDamage`; the state becomes DEAD exactly on a lethal amount and is otherwise unchanged |
| `Controllers.FuzzyAgent.UpdateShootTargetState` | AssignmentCMP304/Assets/Scripts/FuzzyAgentController.cs:272-291 | a shot needs only the cooldown elapsed and leaves the clip untouched; a hit deals 10 to the target |
| `Controllers.FuzzyAgent.UpdateHideState` | AssignmentCMP304/Assets/Scripts/FuzzyAgentController.cs:293-322 | the agent heads for the nearest hidden spot, or keeps its destination when none is hidden |
| `Controllers.FuzzyAgent.UpdateReloadState` | AssignmentCMP304/Assets/Scripts/FuzzyAgentController.cs:329-348 | the timer follows `ReloadTick`, and the clip is refilled only when the countdown expires |
| `Controllers.FuzzyAgent.InstallStateRules` | AssignmentCMP304/Assets/Scripts/FuzzyAgentController.cs:411-497 | only when unmarked, the engine's list is cleared and refilled, one by one, with exactly the current state's rules, and the agent stops; the mark is then set |
| `Controllers.FuzzyAgent.ApplyResult` | AssignmentCMP304/Assets/Scripts/FuzzyAgentController.cs:526-559 | the state is the band's choice followed by the overrides (DEAD after IDLE); the mark survives only when nothing changed |
| `Controllers.FuzzyAgent.CheckForStateChange` | AssignmentCMP304/Assets/Scripts/FuzzyAgentController.cs:408-560 | install if needed, query the engine with the encoded inputs, then act on the result, as `FuzzyCheck` says |
| `Controllers.FuzzyAgent.RunStateHandler` | AssignmentCMP304/Assets/Scripts/FuzzyAgentController.cs:222-243 | the switch produces `FuzzyHandle`; no handler changes the state |
| `Controllers.FuzzyAgent.Update` | AssignmentCMP304/Assets/Scripts/FuzzyAgentController.cs:220-270 | one frame leaves the agent as `FuzzyTick` says: the handler, then the target's health reading, then the check unless DEAD |
| `Drafts.DamagedState` | AssignmentCMP304/Assets/FuzzyAgentController.cs:261-277 | draft damage leaves the state DEAD exactly when the agent was DEAD or the amount is lethal, and unchanged otherwise |
| `Drafts.DraftFiniteDamage` | AssignmentCMP304/Assets/FiniteAgentController.cs:188-204 | health is clamped at 0 and the state becomes DEAD on a lethal amount; nothing else changes |
| `Drafts.DraftIdleDecision` | AssignmentCMP304/Assets/FiniteAgentController.cs:134-144 | IDLE goes to MOVE_TO_TARGET exactly when the target's health from the previous frame is positive and the target is out of sight; otherwise it stays IDLE |
| `Drafts.DraftLastSeenOnlyOnSight` | AssignmentCMP304/Assets/FiniteAgentController.cs:206-225 | the last-seen position changes only when the raycast hits the target during an IDLE frame, and becomes the target's position |
| `Drafts.DraftMoveDecision` | AssignmentCMP304/Assets/FiniteAgentController.cs:161-186 | far away the agent keeps moving towards the last position seen; nearer but beyond the shooting distance it shoots; nearer still nothing changes; low health forces HIDE regardless |
| `Drafts.DraftTickNeverStabs` | AssignmentCMP304/Assets/FiniteAgentController.cs:170-179 | no frame enters STAB, because its guard repeats the SHOOT guard that has just failed |
| `Drafts.DraftFiniteStuckStates` | AssignmentCMP304/Assets/FiniteAgentController.cs:102-118 | in STAB, SHOOT_TARGET, HIDE and DEAD a frame changes nothing but the target-health reading |
| `Drafts.DraftStabUnreachable` | AssignmentCMP304/Assets/FiniteAgentController.cs:161-186 | an agent that does not start in STAB never reaches it, over any sequence of frames and hits |
| `Drafts.DraftFiniteNoExits` | AssignmentCMP304/Assets/FiniteAgentController.cs:146-159 | from STAB, SHOOT_TARGET, HIDE or DEAD the only way out is DEAD through damage; without hits the state never changes |
| `Drafts.DraftFuzzyDamage` | AssignmentCMP304/Assets/FuzzyAgentController.cs:261-277 | health never goes negative and DEAD is set exactly on a lethal amount; nothing else changes |
| `Drafts.DraftFuzzyStateOnlyDies` | AssignmentCMP304/Assets/FuzzyAgentController.cs:196-218 | over any frames and hits the fuzzy draft's state is its first state or DEAD, and without hits it never changes |
| `Drafts.DraftFuzzySurvivableDamage` | AssignmentCMP304/Assets/FuzzyAgentController.cs:267-273 | damage that keeps health positive leaves the state unchanged and subtracts exactly the amount |
| `Drafts.DraftRules` | AssignmentCMP304/Assets/FuzzyAgentController.cs:173 | the fuzzy draft builds exactly one rule |
| `Drafts.DraftRuleConsequentUnregistered` | AssignmentCMP304/Assets/FuzzyAgentController.cs:145-173 | all 18 membership functions are registered on `distToTarget`, so the rule's antecedent resolves but its consequent `stabTarget` is missing from `actionToTake` |
| `Drafts.AddRulesToEngine` | AssignmentCMP304/Assets/FuzzyAgentController.cs:176-179 | the loop appends every rule, in order, to the engine's list |
| `Drafts.DraftFiniteAgent.constructor` | AssignmentCMP304/Assets/FiniteAgentController.cs:79-86 | a new draft agent is IDLE at full health, with no target reading yet |
| `Drafts.DraftFiniteAgent.TakeDamage` | AssignmentCMP304/Assets/FiniteAgentController.cs:188-204 | the agent changes as `DraftFiniteDamage` says |
| `Drafts.DraftFiniteAgent.CanSeeTarget` | AssignmentCMP304/Assets/FiniteAgentController.cs:206-225 | returns the raycast result and records the target's position exactly when it hits |
| `Drafts.DraftFiniteAgent.UpdateIdleState` | AssignmentCMP304/Assets/FiniteAgentController.cs:134-144 | the IDLE handler as `DraftIdle` |
| `Drafts.DraftFiniteAgent.UpdateMoveToTargetState` | AssignmentCMP304/Assets/FiniteAgentController.cs:161-186 | the MOVE handler as written, unreachable STAB branch included, as `DraftMove` |
| `Drafts.DraftFiniteAgent.Update` | AssignmentCMP304/Assets/FiniteAgentController.cs:89-132 | one frame as `DraftFiniteTick`: the handler, then the target's health read for the next frame |
| `Drafts.DraftFuzzyAgent.constructor` | AssignmentCMP304/Assets/FuzzyAgentController.cs:129-182 | a new fuzzy draft is IDLE at full health, and the engine holds exactly the rule built at start |
| `Drafts.DraftFuzzyAgent.TakeDamage` | AssignmentCMP304/Assets/FuzzyAgentController.cs:261-277 | the agent changes as `DraftFuzzyDamage` says |
| `Drafts.DraftFuzzyAgent.Update` | AssignmentCMP304/Assets/FuzzyAgentController.cs:185-231 | one frame as `DraftFuzzyTick`: only MOVE sets a destination, the state is never assigned, and the rules are untouched |
| `Rounds.Award` | AssignmentCMP304/Assets/Scripts/GameManager.cs:80-106 | exactly the winner's score rises by 1; the round advances by one exactly when `roundsPast < numOfRounds`; the controllers are reset exactly when it advances |
| `Rounds.PlayScores` | AssignmentCMP304/Assets/Scripts/GameManager.cs:83-95 | each score grows by the rounds its controller won, and the two together by the number of `AddPoint` calls |
| `Rounds.PlayRounds` | AssignmentCMP304/Assets/Scripts/GameManager.cs:99-105 | after k points the round counter is max(r0, min(r0 + k, numOfRounds)), and the resets equal the steps it climbed |
| `Rounds.RoundsStayInRange` | AssignmentCMP304/Assets/Scripts/GameManager.cs:99-105 | starting from round 1 the counter never leaves [1, max(1, numOfRounds)] |
| `Rounds.ReportLine` | AssignmentCMP304/Assets/Scripts/GameManager.cs:138-157 | a report line has exactly 15 fields |
| `Rounds.ReportLineKeepsAllButIdle` | AssignmentCMP304/Assets/Scripts/GameManager.cs:138-157 | two records give the same line exactly when they agree on everything but the two idle counts, which are never written |
| `Rounds.ManagerRunBoard` | AssignmentCMP304/Assets/Scripts/GameManager.cs:80-106 | the counters after a session of points are those of its winners awarded in order |
| `Rounds.ReportLines` | AssignmentCMP304/Assets/Scripts/GameManager.cs:114-136 | the report keeps its earlier lines and gains one line per point, the line of that point's record |
| `Rounds.RecordedRounds` | AssignmentCMP304/Assets/Scripts/GameManager.cs:97-117 | the i-th record's round number is the counter before that point's advance, max(r0, min(r0 + i, numOfRounds)) |
| `Rounds.TimesTelescope` | AssignmentCMP304/Assets/Scripts/GameManager.cs:119-120 | the recorded round times add up to the last point's time minus the time recorded before the session |
| `Rounds.GameManager.constructor` | AssignmentCMP304/Assets/Scripts/GameManager.cs:18-21 | no points, round 1, time 0 and an empty report |
| `Rounds.GameManager.AddPoint` | AssignmentCMP304/Assets/Scripts/GameManager.cs:80-106 | a point changes the manager as `AddPointStep`; the scores always add up to the number of points and the round stays in range |
| `Rounds.GameManager.Reset` | AssignmentCMP304/Assets/Scripts/GameManager.cs:108-112 | both controllers are reset once more |
| `Rounds.GameManager.UpdateTestData` | AssignmentCMP304/Assets/Scripts/GameManager.cs:114-136 | the record holds the current round, the winner, the time since the last record and the controllers' statistics; the clock is stored and the line appended |
| `Rounds.GameManager.GetReportLine` | AssignmentCMP304/Assets/Scripts/GameManager.cs:138-157 | a fresh 15-cell array holding `ReportLine` of the current record |
| `Rounds.DraftGameManager.constructor` | AssignmentCMP304/Assets/GameManager.cs:18-20 | no points and round 1 |
| `Rounds.DraftGameManager.AddPoint` | AssignmentCMP304/Assets/GameManager.cs:55-79 | a point changes the counters as `Award`; the scores add up to the number of points and the round stays within [1, max(1, numOfRounds)] |
| `Rounds.DraftGameManager.Reset` | AssignmentCMP304/Assets/GameManager.cs:81-85 | both controllers are reset once more |

## Left out

- The fuzzy inference library (`LinguisticVariable`, membership evaluation, `Rule.If` semantics, `Defuzzify`) is not part of this model. The engine is a function parameter, and the membership functions and rules are data.
- Unity engine calls are inputs or are dropped: raycasts, `Vector3.Distance`, `Normalize`, `Quaternion.LookRotation`, `Random.Range`, `Time.time` and `Time.deltaTime`. `NavMeshAgent.SetDestination` is recorded as a `Destination` value (a spot by index, not by position).
- Each raycast is one boolean per frame. A handler that calls `CanSeeTarget` several times sees the same answer every time.
- Rendering and UI are left out: animator triggers and speed, muzzle flash, the health bar, the reloading text and the score texts.
- Lifecycle plumbing is left out: `Awake` component lookup, the singleton with `DontDestroyOnLoad`, `CSVManager` file output, and debug logging. The report is a list of lines in the manager.
- The `G` debug key that calls `TakeDamage(10)` is left out; it is test scaffolding.
- The controllers' `BulletsFired`, `BulletsHit`, `StateChanges` and `Reset()` are not part of the controller files. They are inputs to `AddPoint`, and `Reset` is counted, not performed.
- `Rounds.GameManager.AddPoint` requires each `StateChanges` array to have one entry per state. With a shorter array the code would fail on the index, which is not modelled.
- `ToString` formatting of the report cells is left out. A cell holds the typed value.
- IEEE float rounding is left out. Distances, times and thresholds are reals compared exactly, and `0.2f` is 0.2.
- The draft fuzzy `Idle` handler's engine call is left out, because its result is only logged.
- The draft membership functions are kept only as names and parameters.
- `Controllers.FiniteAgent.constructor` and `Controllers.FuzzyAgent.constructor` require non-negative `maxHealth` and `ammoPerClip`. These are editor settings (100 and 10 in the scene), and the health and clip invariants need them.
- Health, ammunition, scores and round counters are unbounded integers. The source's 32-bit `int` wrap-around is not modelled. For example, health 100 and `TakeDamage(-2147483600)` wraps to a negative value in the source and kills, while `Combat.HealthAfterDamage` gives 2147483700.
