/** Innings transitions: when the first innings ends, the snapshot saved for
    an innings, the reset for the second innings and its target, the match
    result, and the one-line match summary. */
module InningsManager {
  import opened Types
  import opened Text
  import BallProcessor
  import StatsCalculator

  /** shouldTransitionToInningsBreak: the first innings has used its overs
      or lost ten wickets. */
  function ShouldTransitionToInningsBreak(state: MatchState, meta: MatchMeta): (r: bool)
    ensures r <==> meta.innings == 1 && (state.oversBowled >= meta.oversPerInnings || state.totalWickets >= 10)
  {
    if meta.innings != 1 then false
    else if state.oversBowled >= meta.oversPerInnings || state.totalWickets >= 10 then true
    else false
  }

  /** A delivery of the first innings moves the match to the innings break
      exactly when the state after it calls for the transition. */
  lemma InningsBreakAgreesWithDelivery(s: MatchState, m: MatchMeta, inp: BallProcessor.BallInput,
                                       n: int, st: string, ns: string, bw: string)
    requires m.innings == 1
    ensures var r := BallProcessor.Deliver(s, m, inp, n, st, ns, bw);
      && (ShouldTransitionToInningsBreak(r.newState, m) <==> r.stateChanges.inningsCompleted)
      && (ShouldTransitionToInningsBreak(r.newState, m) ==> r.newMeta.status == InningsBreak)
  {
  }

  /** The squad of the batting side: squad A when team A bats, else squad B. */
  function BattingSquad(data: MatchData): seq<string> {
    if data.meta.battingTeam == data.meta.teamA then data.squads.teamA else data.squads.teamB
  }

  function BowlingSquad(data: MatchData): seq<string> {
    if data.meta.battingTeam == data.meta.teamA then data.squads.teamB else data.squads.teamA
  }

  /** saveInningsData: the innings snapshot.  Totals come from the state,
      the tables from the balls; batting figures are kept for the batting
      squad only and bowling figures for the bowling squad only. */
  function SaveInningsData(data: MatchData, inningsNumber: int, balls: seq<Ball>): (r: InningsData)
    ensures r.battingTeam == data.meta.battingTeam && r.bowlingTeam == data.meta.bowlingTeam
    ensures r.totalRuns == data.state.totalRuns && r.totalWickets == data.state.totalWickets
    ensures r.oversBowled == data.state.oversBowled && r.ballsInCurrentOver == data.state.ballsInCurrentOver
    ensures r.legalBalls == data.state.legalBalls
    // A batting row for exactly the batting squad's players who faced a
    // ball or are out, holding their figures over the balls.
    ensures forall p :: p in r.batsmanStats <==>
      (p in BattingSquad(data) &&
       (StatsCalculator.BatsmanStatsOf(balls, p).balls > 0 || StatsCalculator.BatsmanStatsOf(balls, p).isOut))
    ensures forall p :: p in r.batsmanStats ==> r.batsmanStats[p] == StatsCalculator.BatsmanStatsOf(balls, p)
    // A bowling row for exactly the bowling squad's players who bowled a
    // legal ball, holding their figures over the balls.
    ensures forall p :: p in r.bowlerStats <==>
      (p in BowlingSquad(data) && CountLegal(StatsCalculator.BowledBy(balls, p)) > 0)
    ensures forall p :: p in r.bowlerStats ==> r.bowlerStats[p] == StatsCalculator.BowlerStatsOf(balls, p)
    // The fall of wickets, partnerships and extras of the balls.
    ensures r.fallOfWickets == StatsCalculator.FallOfWicketsOf(balls)
    ensures r.partnerships == StatsCalculator.PartnershipsOf(balls)
    ensures r.extras == StatsCalculator.ExtrasOf(balls)
    ensures r.extras.total == r.extras.wides + r.extras.noBalls + r.extras.byes + r.extras.legByes
    ensures forall k :: 0 <= k < |r.fallOfWickets| ==> r.fallOfWickets[k].wicketNumber == k + 1
  {
    StatsCalculator.FallOfWicketsFacts(balls);
    InningsData(
      data.meta.battingTeam,
      data.meta.bowlingTeam,
      data.state.totalRuns,
      data.state.totalWickets,
      data.state.oversBowled,
      data.state.ballsInCurrentOver,
      data.state.legalBalls,
      StatsCalculator.FallOfWicketsOf(balls),
      StatsCalculator.PartnershipsOf(balls),
      StatsCalculator.AllBatsmanStatsOf(balls, BattingSquad(data)),
      StatsCalculator.AllBowlerStatsOf(balls, BowlingSquad(data)),
      StatsCalculator.ExtrasOf(balls))
  }

  datatype MetaAndState = MetaAndState(meta: MatchMeta, state: MatchState)

  /** prepareInnings2State: the sides swap, the target is one more than the
      first-innings total, play is live again, and the state starts afresh
      keeping only the batting order. */
  function PrepareInnings2State(data: MatchData): (r: MetaAndState)
    ensures r.meta.innings == 2 && r.meta.status == Live
    ensures r.meta.battingTeam == data.meta.bowlingTeam && r.meta.bowlingTeam == data.meta.battingTeam
    ensures r.meta.targetScore == Some(data.state.totalRuns + 1)
    ensures r.meta.(innings := data.meta.innings, status := data.meta.status, battingTeam := data.meta.battingTeam,
                    bowlingTeam := data.meta.bowlingTeam, targetScore := data.meta.targetScore) == data.meta
    ensures r.state == FreshState(if data.state.battingOrder.Some? then data.state.battingOrder.value else [])
  {
    var targetScore := data.state.totalRuns + 1;
    var newMeta := data.meta.(innings := 2, battingTeam := data.meta.bowlingTeam, bowlingTeam := data.meta.battingTeam,
                              targetScore := Some(targetScore), status := Live);
    var newState := MatchState(0, 0, 0, 0, 0, None, None, None, false,
                               Some(if data.state.battingOrder.Some? then data.state.battingOrder.value else []),
                               Some(0), None, Some(0), Some(0));
    MetaAndState(newMeta, newState)
  }

  /** In the second innings the chase succeeds exactly when the runs pass the
      first-innings total. */
  lemma ChaseNeedsMoreThanFirstInnings(data: MatchData, later: MatchState)
    ensures var m := PrepareInnings2State(data).meta;
      BallProcessor.Chased(later, m) <==> later.totalRuns > data.state.totalRuns
  {
  }

  datatype MatchOutcome = MatchOutcome(winningTeam: string, resultText: string, resultType: ResultType)

  /** "1 run", "2 runs", "1 wicket", "0 wickets", "-1 wickets". */
  function Plural(n: int, unit: string): string {
    IntToString(n) + " " + unit + (if n == 1 then "" else "s")
  }

  /** calculateMatchResult: equal totals tie; otherwise the side with more
      runs wins, the chasing side by the wickets it had left, the side
      batting first by the run difference. */
  function CalculateMatchResult(innings1: InningsData, innings2: InningsData): (r: MatchOutcome)
    ensures r.resultType == Tie <==> innings1.totalRuns == innings2.totalRuns
    ensures r.resultType == Wickets <==> innings2.totalRuns > innings1.totalRuns
    ensures r.resultType == Runs <==> innings1.totalRuns > innings2.totalRuns
    ensures r.resultType == Tie ==> r.winningTeam == "Tie" && r.resultText == "Match tied"
    ensures r.resultType == Wickets ==>
      r.winningTeam == innings2.battingTeam &&
      r.resultText == innings2.battingTeam + " won by " + Plural(10 - innings2.totalWickets, "wicket")
    ensures r.resultType == Runs ==>
      r.winningTeam == innings1.battingTeam &&
      r.resultText == innings1.battingTeam + " won by " + Plural(innings1.totalRuns - innings2.totalRuns, "run")
  {
    var team1 := innings1.battingTeam;
    var team2 := innings2.battingTeam;
    var team1Score := innings1.totalRuns;
    var team2Score := innings2.totalRuns;
    if team1Score == team2Score then MatchOutcome("Tie", "Match tied", Tie)
    else if team2Score > team1Score then
      var wicketsRemaining := 10 - innings2.totalWickets;
      MatchOutcome(team2, team2 + " won by " + Plural(wicketsRemaining, "wicket"), Wickets)
    else
      var runsDifference := team1Score - team2Score;
      MatchOutcome(team1, team1 + " won by " + Plural(runsDifference, "run"), Runs)
  }

  function Innings(team: string, runs: nat, wickets: nat): InningsData {
    InningsData(team, "", runs, wickets, 0, 0, 0, [], [], map[], map[], ExtrasBreakdown(0, 0, 0, 0, 0))
  }

  /** A successful chase four wickets down. */
  lemma ChaseExample()
    ensures CalculateMatchResult(Innings("India", 120, 10), Innings("Australia", 121, 6)).resultText
      == "Australia won by 4 wickets"
  {
    assert IntToString(4) == "4";
  }

  /** A one-run defence, with the singular "run". */
  lemma DefenceExample()
    ensures CalculateMatchResult(Innings("India", 150, 7), Innings("Australia", 149, 10)).resultText
      == "India won by 1 run"
  {
    assert IntToString(1) == "1";
  }

  /** shouldEndInnings2Early: a set, non-zero target has been reached. */
  function ShouldEndInnings2Early(currentRuns: int, targetScore: Option<int>): (r: bool)
    ensures r <==> targetScore.Some? && targetScore.value != 0 && currentRuns >= targetScore.value
  {
    if targetScore.None? || targetScore.value == 0 then false
    else currentRuns >= targetScore.value
  }

  /** The delivery processor ends the second innings on exactly this test. */
  lemma EarlyEndAgreesWithDelivery(s: MatchState, m: MatchMeta)
    requires m.innings == 2
    ensures BallProcessor.Chased(s, m) <==> ShouldEndInnings2Early(s.totalRuns, m.targetScore)
  {
  }

  /** `${n}` for a value that may be undefined. */
  function OptionalIntText(n: Option<int>): string {
    match n
    case Some(v) => IntToString(v)
    case None => "undefined"
  }

  /** getMatchSummary: one line describing the match by its status. */
  function GetMatchSummary(data: MatchData): (r: string)
    ensures r != ""
    ensures data.meta.status == NotStarted ==> r == "Match not started"
    ensures data.meta.status == Live && data.meta.innings == 1 ==> r == data.meta.battingTeam + " batting"
    ensures data.meta.status == Live && data.meta.innings != 1 ==>
      r == data.meta.battingTeam + " chasing " + OptionalIntText(data.meta.targetScore)
    ensures data.meta.status == InningsBreak && data.innings1.Some? ==>
      r == "Innings break - " + data.innings1.value.battingTeam + ": " + NatToString(data.innings1.value.totalRuns)
           + "/" + NatToString(data.innings1.value.totalWickets)
    ensures data.meta.status == InningsBreak && data.innings1.None? ==> r == "Innings break"
    ensures data.meta.status == Completed ==> r == (if Present(data.meta.matchResult) then data.meta.matchResult.value else "Match completed")
  {
    var meta := data.meta;
    if meta.status == NotStarted then "Match not started"
    else if meta.status == Live then
      if meta.innings == 1 then meta.battingTeam + " batting"
      else meta.battingTeam + " chasing " + OptionalIntText(meta.targetScore)
    else if meta.status == InningsBreak then
      if data.innings1.Some? then
        "Innings break - " + data.innings1.value.battingTeam + ": " + NatToString(data.innings1.value.totalRuns)
          + "/" + NatToString(data.innings1.value.totalWickets)
      else "Innings break"
    else if meta.status == Completed && Present(meta.matchResult) then meta.matchResult.value
    else "Match completed"
  }

  /** Once the result is recorded, the summary of a completed match is the
      result text. */
  lemma SummaryShowsResult(data: MatchData, i1: InningsData, i2: InningsData)
    requires data.meta.status == Completed
    requires data.meta.matchResult == Some(CalculateMatchResult(i1, i2).resultText)
    ensures GetMatchSummary(data) == CalculateMatchResult(i1, i2).resultText
  {
    var r := CalculateMatchResult(i1, i2);
    if r.resultType == Wickets {
      assert |r.resultText| >= |" won by "|;
    } else if r.resultType == Runs {
      assert |r.resultText| >= |" won by "|;
    }
  }
}
