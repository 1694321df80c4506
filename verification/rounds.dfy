/** Round bookkeeping: the scores of the two controllers, the round counter
    that stops at the configured number of rounds, and the test record that
    is written as one report line per round. The clock and the controllers'
    own statistics (shots fired and hit, state-change counts) are inputs;
    resetting the controllers for a new round is counted, not performed. */
module Rounds {
  import opened Combat

  /** `GameManager.Agent`: which controller won the round. */
  datatype Winner = FSM | FUSM

  function Min(a: int, b: int): int { if a <= b then a else b }
  function Max(a: int, b: int): int { if a >= b then a else b }

  // ---------------------------------------------------------------------
  // Scores and rounds

  /** The counters `AddPoint` updates, and how often it has reset the
      controllers. */
  datatype Scoreboard = Scoreboard(fsmScore: int, fusmScore: int, roundsPast: int, resets: nat)

  /** `AddPoint(agent)` on the counters, with `numOfRounds` rounds to play:
      the winner scores, and the next round starts, with both controllers
      reset, only while rounds remain. */
  function Award(numOfRounds: int, b: Scoreboard, agent: Winner): (r: Scoreboard)
    ensures r.fsmScore == b.fsmScore + (if agent == FSM then 1 else 0)
    ensures r.fusmScore == b.fusmScore + (if agent == FUSM then 1 else 0)
    ensures r.roundsPast == b.roundsPast + 1 <==> b.roundsPast < numOfRounds
    ensures r.roundsPast == b.roundsPast <==> b.roundsPast >= numOfRounds
    ensures r.resets - b.resets == r.roundsPast - b.roundsPast
  {
    var scored := match agent
      case FSM => b.(fsmScore := b.fsmScore + 1)
      case FUSM => b.(fusmScore := b.fusmScore + 1);
    if scored.roundsPast < numOfRounds then
      scored.(roundsPast := scored.roundsPast + 1, resets := scored.resets + 1)
    else scored
  }

  /** The counters after the winners of consecutive rounds are awarded. */
  function Play(numOfRounds: int, b: Scoreboard, winners: seq<Winner>): Scoreboard
  {
    if winners == [] then b
    else Award(numOfRounds, Play(numOfRounds, b, winners[..|winners| - 1]), winners[|winners| - 1])
  }

  /** How many of the rounds the given controller won. */
  function Wins(winners: seq<Winner>, agent: Winner): nat
  {
    if winners == [] then 0
    else Wins(winners[..|winners| - 1], agent) + (if winners[|winners| - 1] == agent then 1 else 0)
  }

  /** Each score grows by the rounds its controller won, and together they
      grow by the number of `AddPoint` calls. */
  lemma {:induction false} PlayScores(numOfRounds: int, b: Scoreboard, winners: seq<Winner>)
    ensures Play(numOfRounds, b, winners).fsmScore == b.fsmScore + Wins(winners, FSM)
    ensures Play(numOfRounds, b, winners).fusmScore == b.fusmScore + Wins(winners, FUSM)
    ensures Wins(winners, FSM) + Wins(winners, FUSM) == |winners|
  {
    if winners != [] {
      PlayScores(numOfRounds, b, winners[..|winners| - 1]);
    }
  }

  /** The round counter climbs by one per point until it reaches
      `numOfRounds` and then stays; the controllers are reset once per
      step it climbs. */
  lemma {:induction false} PlayRounds(numOfRounds: int, b: Scoreboard, winners: seq<Winner>)
    ensures Play(numOfRounds, b, winners).roundsPast
         == Max(b.roundsPast, Min(b.roundsPast + |winners|, numOfRounds))
    ensures Play(numOfRounds, b, winners).resets - b.resets
         == Play(numOfRounds, b, winners).roundsPast - b.roundsPast
  {
    if winners != [] {
      PlayRounds(numOfRounds, b, winners[..|winners| - 1]);
    }
  }

  /** Starting from round 1, the counter stays between 1 and
      max(1, numOfRounds), however many points are awarded. */
  lemma RoundsStayInRange(numOfRounds: int, winners: seq<Winner>)
    ensures 1 <= Play(numOfRounds, Scoreboard(0, 0, 1, 0), winners).roundsPast <= Max(1, numOfRounds)
    ensures Play(numOfRounds, Scoreboard(0, 0, 1, 0), winners).resets
         == Play(numOfRounds, Scoreboard(0, 0, 1, 0), winners).roundsPast - 1
  {
    PlayRounds(numOfRounds, Scoreboard(0, 0, 1, 0), winners);
  }

  // ---------------------------------------------------------------------
  // Test records and report lines

  /** What a controller exposes about the round just played. */
  datatype ControllerStats = ControllerStats(bulletsFired: int, bulletsHit: int, stateChanges: seq<int>)

  /** `StateChanges` has one entry per state, indexed by the state's value. */
  predicate StatsComplete(st: ControllerStats)
  {
    |st.stateChanges| == NumStates
  }

  function StateCount(st: ControllerStats, s: AgentState): int
    requires StatsComplete(st)
  {
    st.stateChanges[Ordinal(s)]
  }

  /** `GameManager.TestData`. */
  datatype TestData = TestData(
    roundNumber: int,
    agentThatWon: Winner,
    timeTaken: real,
    fuzzyBulletsFired: int,
    fuzzyBulletsHit: int,
    finiteBulletsFired: int,
    finiteBulletsHit: int,
    fuzzyIdleCount: int,
    fuzzyMoveToTargetCount: int,
    fuzzyHidingCount: int,
    fuzzyShootingCount: int,
    fuzzyReloadCount: int,
    finiteIdleCount: int,
    finiteMoveToTargetCount: int,
    finiteHidingCount: int,
    finiteShootingCount: int,
    finiteReloadCount: int)

  /** The record of a struct nobody has written to yet. */
  const EmptyRecord := TestData(0, FSM, 0.0, 0, 0, 0, 0, 0, 0, 0, 0, 0, 0, 0, 0, 0, 0)

  /** The record of a finished round. */
  function RoundRecord(round: int, agent: Winner, time: real, fuzzy: ControllerStats, finite: ControllerStats): TestData
    requires StatsComplete(fuzzy) && StatsComplete(finite)
  {
    TestData(round, agent, time,
      fuzzy.bulletsFired, fuzzy.bulletsHit, finite.bulletsFired, finite.bulletsHit,
      StateCount(fuzzy, Idle), StateCount(fuzzy, MoveToTarget), StateCount(fuzzy, Hide),
      StateCount(fuzzy, ShootTarget), StateCount(fuzzy, Reload),
      StateCount(finite, Idle), StateCount(finite, MoveToTarget), StateCount(finite, Hide),
      StateCount(finite, ShootTarget), StateCount(finite, Reload))
  }

  /** One field of a report line, before it is turned into text. */
  datatype Cell = IntCell(i: int) | WinnerCell(w: Winner) | TimeCell(t: real)

  /** The report line of a record: round, winner, time, the fuzzy and then the
      finite controller's shots fired and hit, then the move, hide, shoot and
      reload counts of the fuzzy and then of the finite controller. */
  function ReportLine(d: TestData): (line: seq<Cell>)
    ensures |line| == 15
  {
    [ IntCell(d.roundNumber), WinnerCell(d.agentThatWon), TimeCell(d.timeTaken),
      IntCell(d.fuzzyBulletsFired), IntCell(d.fuzzyBulletsHit),
      IntCell(d.finiteBulletsFired), IntCell(d.finiteBulletsHit),
      IntCell(d.fuzzyMoveToTargetCount), IntCell(d.fuzzyHidingCount),
      IntCell(d.fuzzyShootingCount), IntCell(d.fuzzyReloadCount),
      IntCell(d.finiteMoveToTargetCount), IntCell(d.finiteHidingCount),
      IntCell(d.finiteShootingCount), IntCell(d.finiteReloadCount) ]
  }

  /** A record with its two idle counts blanked. */
  function WithoutIdle(d: TestData): TestData
  {
    d.(fuzzyIdleCount := 0, finiteIdleCount := 0)
  }

  /** Two records give the same line exactly when they agree on everything
      but the idle counts: the line keeps every other field and drops those. */
  lemma ReportLineKeepsAllButIdle(d1: TestData, d2: TestData)
    ensures ReportLine(d1) == ReportLine(d2) <==> WithoutIdle(d1) == WithoutIdle(d2)
  {
    if ReportLine(d1) == ReportLine(d2) {
      var l1, l2 := ReportLine(d1), ReportLine(d2);
      assert l1[0] == l2[0] && l1[1] == l2[1] && l1[2] == l2[2] && l1[3] == l2[3] && l1[4] == l2[4];
      assert l1[5] == l2[5] && l1[6] == l2[6] && l1[7] == l2[7] && l1[8] == l2[8] && l1[9] == l2[9];
      assert l1[10] == l2[10] && l1[11] == l2[11] && l1[12] == l2[12] && l1[13] == l2[13] && l1[14] == l2[14];
    }
  }

  // ---------------------------------------------------------------------
  // A session of rounds

  /** The fields of the manager that `AddPoint` reads and writes. */
  datatype ManagerView = ManagerView(board: Scoreboard, recordedTime: real, testData: TestData, report: seq<seq<Cell>>)

  /** The end of a round: who won, the clock, and the controllers' statistics. */
  datatype PointEvent = PointEvent(agent: Winner, now: real, fuzzy: ControllerStats, finite: ControllerStats)

  predicate EventComplete(e: PointEvent)
  {
    StatsComplete(e.fuzzy) && StatsComplete(e.finite)
  }

  predicate AllComplete(events: seq<PointEvent>)
  {
    forall i :: 0 <= i < |events| ==> EventComplete(events[i])
  }

  /** `AddPoint`: the score, then the record of the round just played (its
      number, its winner, the time since the last record) appended to the
      report, then the advance to the next round. */
  function AddPointStep(numOfRounds: int, v: ManagerView, e: PointEvent): ManagerView
    requires EventComplete(e)
  {
    var d := RoundRecord(v.board.roundsPast, e.agent, e.now - v.recordedTime, e.fuzzy, e.finite);
    ManagerView(Award(numOfRounds, v.board, e.agent), e.now, d, v.report + [ReportLine(d)])
  }

  function ManagerRun(numOfRounds: int, v: ManagerView, events: seq<PointEvent>): ManagerView
    requires AllComplete(events)
  {
    if events == [] then v
    else AddPointStep(numOfRounds, ManagerRun(numOfRounds, v, events[..|events| - 1]), events[|events| - 1])
  }

  /** The records a session writes, one per point. */
  function Records(numOfRounds: int, v: ManagerView, events: seq<PointEvent>): (ds: seq<TestData>)
    requires AllComplete(events)
    ensures |ds| == |events|
  {
    if events == [] then []
    else Records(numOfRounds, v, events[..|events| - 1]) + [ManagerRun(numOfRounds, v, events).testData]
  }

  function WinnersOf(events: seq<PointEvent>): (ws: seq<Winner>)
    ensures |ws| == |events|
    ensures forall i :: 0 <= i < |events| ==> ws[i] == events[i].agent
  {
    seq(|events|, i requires 0 <= i < |events| => events[i].agent)
  }

  function TimesTaken(ds: seq<TestData>): (ts: seq<real>)
    ensures |ts| == |ds|
    ensures forall i :: 0 <= i < |ds| ==> ts[i] == ds[i].timeTaken
  {
    seq(|ds|, i requires 0 <= i < |ds| => ds[i].timeTaken)
  }

  /** A session's counters are those of its winners played in order. */
  lemma {:induction false} ManagerRunBoard(numOfRounds: int, v: ManagerView, events: seq<PointEvent>)
    requires AllComplete(events)
    ensures ManagerRun(numOfRounds, v, events).board == Play(numOfRounds, v.board, WinnersOf(events))
  {
    if events != [] {
      var pre := events[..|events| - 1];
      ManagerRunBoard(numOfRounds, v, pre);
      assert WinnersOf(events)[..|events| - 1] == WinnersOf(pre);
    }
  }

  /** The records of a session's first `k` points are the first `k` records. */
  lemma {:induction false} RecordsPrefix(numOfRounds: int, v: ManagerView, events: seq<PointEvent>, k: nat)
    requires AllComplete(events) && k <= |events|
    ensures AllComplete(events[..k])
    ensures Records(numOfRounds, v, events[..k]) == Records(numOfRounds, v, events)[..k]
    decreases |events|
  {
    if k < |events| {
      var pre := events[..|events| - 1];
      assert pre[..k] == events[..k];
      RecordsPrefix(numOfRounds, v, pre, k);
    } else {
      assert events[..k] == events;
    }
  }

  /** The report holds the lines written before the session and then one
      line per point, each the line of that point's record. */
  lemma {:induction false} ReportLines(numOfRounds: int, v: ManagerView, events: seq<PointEvent>)
    requires AllComplete(events)
    ensures var r := ManagerRun(numOfRounds, v, events).report;
      && |r| == |v.report| + |events|
      && r[..|v.report|] == v.report
      && forall i :: 0 <= i < |events| ==>
           r[|v.report| + i] == ReportLine(Records(numOfRounds, v, events)[i])
  {
    if events != [] {
      ReportLines(numOfRounds, v, events[..|events| - 1]);
    }
  }

  /** The round number in the i-th record is the round just finished: the
      counter before that point's advance, which starting from r0 is
      max(r0, min(r0 + i, numOfRounds)). */
  lemma RecordedRounds(numOfRounds: int, v: ManagerView, events: seq<PointEvent>, i: nat)
    requires AllComplete(events) && i < |events|
    ensures Records(numOfRounds, v, events)[i].roundNumber
         == Max(v.board.roundsPast, Min(v.board.roundsPast + i, numOfRounds))
  {
    RecordsPrefix(numOfRounds, v, events, i + 1);
    var pre := events[..i + 1][..i];
    assert pre == events[..i];
    ManagerRunBoard(numOfRounds, v, pre);
    PlayRounds(numOfRounds, v.board, WinnersOf(pre));
  }

  /** The recorded round times add up to the time between the last record
      before the session and its last point. */
  lemma {:induction false} TimesTelescope(numOfRounds: int, v: ManagerView, events: seq<PointEvent>)
    requires AllComplete(events) && events != []
    ensures Sum(TimesTaken(Records(numOfRounds, v, events))) == events[|events| - 1].now - v.recordedTime
    ensures ManagerRun(numOfRounds, v, events).recordedTime == events[|events| - 1].now
  {
    var n := |events|;
    var pre := events[..n - 1];
    var ds := Records(numOfRounds, v, events);
    assert TimesTaken(ds)[..n - 1] == TimesTaken(Records(numOfRounds, v, pre));
    assert TimesTaken(ds)[n - 1] == events[n - 1].now - ManagerRun(numOfRounds, v, pre).recordedTime;
    if pre != [] {
      TimesTelescope(numOfRounds, v, pre);
      assert pre[|pre| - 1] == events[n - 2];
    }
  }

  // ---------------------------------------------------------------------
  // The managers

  /** The game manager. */
  class GameManager {
    const numOfRounds: int

    var fsmCurrentScore: int
    var fusmCurrentScore: int
    var roundsPast: int
    var recordedTime: real
    var testData: TestData
    /** How many times both controllers have been reset for a new round. */
    var resets: nat
    /** The lines appended to the report so far. */
    var report: seq<seq<Cell>>

    /** How many points have been awarded. */
    ghost var points: nat

    ghost predicate Valid()
      reads this
    {
      && fsmCurrentScore >= 0 && fusmCurrentScore >= 0
      && fsmCurrentScore + fusmCurrentScore == points
      && 1 <= roundsPast <= Max(1, numOfRounds)
      && resets == roundsPast - 1
      && |report| == points
    }

    function Board(): Scoreboard
      reads this
    {
      Scoreboard(fsmCurrentScore, fusmCurrentScore, roundsPast, resets)
    }

    function View(): ManagerView
      reads this
    {
      ManagerView(Board(), recordedTime, testData, report)
    }

    /** No points yet, round 1, an empty report. */
    constructor (numOfRounds: int)
      ensures Valid() && points == 0
      ensures this.numOfRounds == numOfRounds
      ensures View() == ManagerView(Scoreboard(0, 0, 1, 0), 0.0, EmptyRecord, [])
    {
      this.numOfRounds := numOfRounds;
      fsmCurrentScore := 0;
      fusmCurrentScore := 0;
      roundsPast := 1;
      recordedTime := 0.0;
      testData := EmptyRecord;
      resets := 0;
      report := [];
      points := 0;
    }

    /** The winner of the round just played scores; the round is recorded;
        the next round starts if any remain. */
    method AddPoint(agent: Winner, now: real, fuzzy: ControllerStats, finite: ControllerStats)
      requires Valid() && StatsComplete(fuzzy) && StatsComplete(finite)
      modifies this
      ensures Valid() && points == old(points) + 1
      ensures View() == AddPointStep(numOfRounds, old(View()), PointEvent(agent, now, fuzzy, finite))
    {
      match agent {
        case FSM => fsmCurrentScore := fsmCurrentScore + 1;
        case FUSM => fusmCurrentScore := fusmCurrentScore + 1;
      }
      UpdateTestData(agent, now, fuzzy, finite);
      if roundsPast < numOfRounds {
        roundsPast := roundsPast + 1;
        Reset();
      }
      points := points + 1;
    }

    /** Both controllers start a new round. */
    method Reset()
      modifies this`resets
      ensures resets == old(resets) + 1
    {
      resets := resets + 1;
    }

    /** Record the round just played and append its line to the report. */
    method UpdateTestData(agent: Winner, now: real, fuzzy: ControllerStats, finite: ControllerStats)
      requires StatsComplete(fuzzy) && StatsComplete(finite)
      modifies this`testData, this`recordedTime, this`report
      ensures testData == RoundRecord(roundsPast, agent, now - old(recordedTime), fuzzy, finite)
      ensures recordedTime == now
      ensures report == old(report) + [ReportLine(testData)]
    {
      testData := testData.(roundNumber := roundsPast, agentThatWon := agent, timeTaken := now - recordedTime);
      recordedTime := now;
      testData := testData.(fuzzyBulletsFired := fuzzy.bulletsFired, fuzzyBulletsHit := fuzzy.bulletsHit);
      testData := testData.(finiteBulletsFired := finite.bulletsFired, finiteBulletsHit := finite.bulletsHit);
      testData := testData.(
        fuzzyIdleCount := fuzzy.stateChanges[Ordinal(Idle)],
        fuzzyMoveToTargetCount := fuzzy.stateChanges[Ordinal(MoveToTarget)],
        fuzzyHidingCount := fuzzy.stateChanges[Ordinal(Hide)],
        fuzzyShootingCount := fuzzy.stateChanges[Ordinal(ShootTarget)],
        fuzzyReloadCount := fuzzy.stateChanges[Ordinal(Reload)]);
      testData := testData.(
        finiteIdleCount := finite.stateChanges[Ordinal(Idle)],
        finiteMoveToTargetCount := finite.stateChanges[Ordinal(MoveToTarget)],
        finiteHidingCount := finite.stateChanges[Ordinal(Hide)],
        finiteShootingCount := finite.stateChanges[Ordinal(ShootTarget)],
        finiteReloadCount := finite.stateChanges[Ordinal(Reload)]);
      var line := GetReportLine();
      report := report + [line[..]];
    }

    /** The 15 fields of the current record, filled in by position. */
    method GetReportLine() returns (returnable: array<Cell>)
      ensures fresh(returnable)
      ensures returnable[..] == ReportLine(testData)
    {
      returnable := new Cell[15];
      returnable[0] := IntCell(testData.roundNumber);
      returnable[1] := WinnerCell(testData.agentThatWon);
      returnable[2] := TimeCell(testData.timeTaken);
      returnable[3] := IntCell(testData.fuzzyBulletsFired);
      returnable[4] := IntCell(testData.fuzzyBulletsHit);
      returnable[5] := IntCell(testData.finiteBulletsFired);
      returnable[6] := IntCell(testData.finiteBulletsHit);
      returnable[7] := IntCell(testData.fuzzyMoveToTargetCount);
      returnable[8] := IntCell(testData.fuzzyHidingCount);
      returnable[9] := IntCell(testData.fuzzyShootingCount);
      returnable[10] := IntCell(testData.fuzzyReloadCount);
      returnable[11] := IntCell(testData.finiteMoveToTargetCount);
      returnable[12] := IntCell(testData.finiteHidingCount);
      returnable[13] := IntCell(testData.finiteShootingCount);
      returnable[14] := IntCell(testData.finiteReloadCount);
    }
  }

  /** The earlier game manager: scores and rounds only. */
  class DraftGameManager {
    const numOfRounds: int

    var fsmCurrentScore: int
    var fusmCurrentScore: int
    var roundsPast: int
    var resets: nat

    ghost var points: nat

    ghost predicate Valid()
      reads this
    {
      && fsmCurrentScore >= 0 && fusmCurrentScore >= 0
      && fsmCurrentScore + fusmCurrentScore == points
      && 1 <= roundsPast <= Max(1, numOfRounds)
      && resets == roundsPast - 1
    }

    function Board(): Scoreboard
      reads this
    {
      Scoreboard(fsmCurrentScore, fusmCurrentScore, roundsPast, resets)
    }

    constructor (numOfRounds: int)
      ensures Valid() && points == 0
      ensures this.numOfRounds == numOfRounds
      ensures Board() == Scoreboard(0, 0, 1, 0)
    {
      this.numOfRounds := numOfRounds;
      fsmCurrentScore := 0;
      fusmCurrentScore := 0;
      roundsPast := 1;
      resets := 0;
      points := 0;
    }

    method AddPoint(agent: Winner)
      requires Valid()
      modifies this
      ensures Valid() && points == old(points) + 1
      ensures Board() == Award(numOfRounds, old(Board()), agent)
    {
      match agent {
        case FSM => fsmCurrentScore := fsmCurrentScore + 1;
        case FUSM => fusmCurrentScore := fusmCurrentScore + 1;
      }
      if roundsPast < numOfRounds {
        roundsPast := roundsPast + 1;
        Reset();
      }
      points := points + 1;
    }

    /** Both controllers start a new round. */
    method Reset()
      modifies this`resets
      ensures resets == old(resets) + 1
    {
      resets := resets + 1;
    }
  }
}
