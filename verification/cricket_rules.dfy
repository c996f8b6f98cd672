/** The playing rules the scorer enforces: no bowler bowls two overs in a
    row, a dismissed batsman cannot return, the next batsman is the first
    available one in the batting order, a delivery needs two different
    batsmen and a bowler, and the innings and chase end conditions. */
module CricketRules {
  import opened Types
  import BallProcessor
  import InningsManager

  datatype Validation = Valid | Invalid(error: string)

  /** validateBowlerSelection: with a bowler recorded for the last over, that
      bowler may not bowl the next one. */
  function ValidateBowlerSelection(currentBowler: Option<string>, lastOverBowler: Option<string>,
                                   proposedBowler: string): (r: Validation)
    ensures r.Valid? <==> !Present(lastOverBowler) || proposedBowler != lastOverBowler.value
    ensures r.Invalid? ==> r.error == proposedBowler + " bowled the last over and cannot bowl consecutive overs."
  {
    if !Present(lastOverBowler) then Valid
    else if proposedBowler == lastOverBowler.value then
      Invalid(proposedBowler + " bowled the last over and cannot bowl consecutive overs.")
    else Valid
  }

  /** After a delivery that completes an over, the bowler of that over is
      refused for the next one, and every other bowler is accepted. */
  lemma NoConsecutiveOvers(s: MatchState, m: MatchMeta, inp: BallProcessor.BallInput,
                           n: int, st: string, ns: string, bw: string, proposed: string)
    requires BallProcessor.EndsOver(s, inp) && Present(s.currentBowler)
    ensures var next := BallProcessor.Deliver(s, m, inp, n, st, ns, bw).newState;
      ValidateBowlerSelection(next.currentBowler, next.lastOverBowler, proposed).Valid? <==>
        proposed != s.currentBowler.value
  {
  }

  /** validateBattingOrder: without a batting order anyone may bat; otherwise
      the batsman must be in the squad and not already dismissed. */
  function ValidateBattingOrder(squad: seq<string>, battingOrder: Option<seq<string>>,
                                batsmanStats: map<string, BatsmanStats>, proposedBatsman: string): (r: Validation)
    ensures r.Valid? <==>
      battingOrder.None? || battingOrder.value == [] ||
      (proposedBatsman in squad && !(proposedBatsman in batsmanStats && batsmanStats[proposedBatsman].isOut))
    ensures r.Invalid? && proposedBatsman !in squad ==> r.error == proposedBatsman + " is not in the squad."
    ensures r.Invalid? && proposedBatsman in squad ==> r.error == proposedBatsman + " is already out and cannot bat again."
  {
    if battingOrder.None? || |battingOrder.value| == 0 then Valid
    else if proposedBatsman !in squad then Invalid(proposedBatsman + " is not in the squad.")
    else if proposedBatsman in batsmanStats && batsmanStats[proposedBatsman].isOut then
      Invalid(proposedBatsman + " is already out and cannot bat again.")
    else Valid
  }

  /** isInningsComplete: overs used up or ten wickets down. */
  function IsInningsComplete(state: MatchState, meta: MatchMeta): (r: bool)
    ensures r <==> state.oversBowled >= meta.oversPerInnings || state.totalWickets >= 10
  {
    if state.oversBowled >= meta.oversPerInnings then true
    else if state.totalWickets >= 10 then true
    else false
  }

  /** The innings break is due exactly when the first innings is complete. */
  lemma InningsBreakIsCompletion(state: MatchState, meta: MatchMeta)
    ensures InningsManager.ShouldTransitionToInningsBreak(state, meta) <==> meta.innings == 1 && IsInningsComplete(state, meta)
  {
  }

  /** A player may still bat: no figures, or figures without a dismissal. */
  predicate Available(batsmanStats: map<string, BatsmanStats>, player: string) {
    player !in batsmanStats || !batsmanStats[player].isOut
  }

  /** getNextBatsman: the first available player at or after the next
      batsman index, if any. */
  method GetNextBatsman(battingOrder: Option<seq<string>>, nextBatsmanIndex: Option<nat>,
                        batsmanStats: map<string, BatsmanStats>) returns (r: Option<string>)
    ensures battingOrder.None? || battingOrder.value == [] ==> r.None?
    ensures r.Some? ==>
      && battingOrder.Some?
      && (exists i :: OrZero(nextBatsmanIndex) <= i < |battingOrder.value| && battingOrder.value[i] == r.value &&
            Available(batsmanStats, battingOrder.value[i]) &&
            forall j :: OrZero(nextBatsmanIndex) <= j < i ==> !Available(batsmanStats, battingOrder.value[j]))
    ensures r.None? && battingOrder.Some? ==>
      forall j :: OrZero(nextBatsmanIndex) <= j < |battingOrder.value| ==> !Available(batsmanStats, battingOrder.value[j])
  {
    if battingOrder.None? || |battingOrder.value| == 0 {
      return None;
    }
    var order := battingOrder.value;
    var index := OrZero(nextBatsmanIndex);
    var i := index;
    while i < |order|
      invariant index <= i
      invariant forall j :: index <= j < i && j < |order| ==> !Available(batsmanStats, order[j])
    {
      var player := order[i];
      if player !in batsmanStats || !batsmanStats[player].isOut {
        return Some(player);
      }
      i := i + 1;
    }
    return None;
  }

  /** canProgressMatch: a striker, a non-striker and a bowler are selected,
      and the two batsmen differ; the first missing item is reported. */
  function CanProgressMatch(state: MatchState): (r: Validation)
    ensures r.Valid? <==>
      Present(state.currentStriker) && Present(state.currentNonStriker) && Present(state.currentBowler) &&
      state.currentStriker != state.currentNonStriker
    ensures !Present(state.currentStriker) ==> r == Invalid("Please select a striker")
    ensures Present(state.currentStriker) && !Present(state.currentNonStriker) ==> r == Invalid("Please select a non-striker")
  {
    if !Present(state.currentStriker) then Invalid("Please select a striker")
    else if !Present(state.currentNonStriker) then Invalid("Please select a non-striker")
    else if !Present(state.currentBowler) then Invalid("Please select a bowler")
    else if state.currentStriker == state.currentNonStriker then
      Invalid("Striker and non-striker cannot be the same player")
    else Valid
  }

  /** After a wicket no delivery can follow until the dismissed end is
      filled again, and after an over until a new bowler is chosen. */
  lemma DeliveryBlocksUntilReselected(s: MatchState, m: MatchMeta, inp: BallProcessor.BallInput,
                                      n: int, st: string, ns: string, bw: string)
    requires inp.isWicket || BallProcessor.EndsOver(s, inp)
    ensures CanProgressMatch(BallProcessor.Deliver(s, m, inp, n, st, ns, bw).newState).Invalid?
  {
  }

  /** The bowler of the first recorded ball of over `over`, if any. */
  function FirstBowlerOfOver(balls: seq<Ball>, over: int): (r: Option<string>)
    ensures r.None? <==> forall i :: 0 <= i < |balls| ==> balls[i].overNumber != over
    ensures r.Some? ==>
      exists i :: (0 <= i < |balls| && balls[i].overNumber == over && balls[i].bowler == r.value &&
                   forall j :: 0 <= j < i ==> balls[j].overNumber != over)
  {
    if balls == [] then None
    else if balls[0].overNumber == over then Some(balls[0].bowler)
    else
      var r := FirstBowlerOfOver(balls[1..], over);
      assert forall i :: 1 <= i < |balls| ==> balls[i] == balls[1..][i - 1];
      if r.Some? then
        var k :| 0 <= k < |balls[1..]| && balls[1..][k].overNumber == over && balls[1..][k].bowler == r.value &&
          forall j :: 0 <= j < k ==> balls[1..][j].overNumber != over;
        assert balls[k + 1] == balls[1..][k];
        r
      else r
  }

  /** getLastOverBowler: no previous over before over 0; otherwise the bowler
      of the first recorded ball of the previous over. */
  function GetLastOverBowler(balls: seq<Ball>, currentOverNumber: int): (r: Option<string>)
    ensures currentOverNumber == 0 ==> r.None?
    ensures currentOverNumber != 0 && r.None? ==> forall i :: 0 <= i < |balls| ==> balls[i].overNumber != currentOverNumber - 1
    ensures r.Some? ==>
      exists i :: (0 <= i < |balls| && balls[i].overNumber == currentOverNumber - 1 && balls[i].bowler == r.value &&
                   forall j :: 0 <= j < i ==> balls[j].overNumber != currentOverNumber - 1)
  {
    if currentOverNumber == 0 then None else FirstBowlerOfOver(balls, currentOverNumber - 1)
  }

  /** Balls recorded later do not change the first bowler of an over that
      already has a ball. */
  lemma {:induction false} FirstBowlerKept(balls: seq<Ball>, more: seq<Ball>, over: int)
    requires FirstBowlerOfOver(balls, over).Some?
    ensures FirstBowlerOfOver(balls + more, over) == FirstBowlerOfOver(balls, over)
  {
    if balls[0].overNumber != over {
      assert (balls + more)[1..] == balls[1..] + more;
      FirstBowlerKept(balls[1..], more, over);
    }
  }

  /** Once the previous over has a recorded ball, deliveries added after it
      leave the last-over bowler as it was. */
  lemma LastOverBowlerKept(balls: seq<Ball>, more: seq<Ball>, currentOverNumber: int)
    requires GetLastOverBowler(balls, currentOverNumber).Some?
    ensures GetLastOverBowler(balls + more, currentOverNumber) == GetLastOverBowler(balls, currentOverNumber)
  {
    FirstBowlerKept(balls, more, currentOverNumber - 1);
  }

  /** isTargetChased: the same test as the early end of the second innings. */
  function IsTargetChased(currentRuns: int, targetScore: Option<int>): (r: bool)
    ensures r <==> InningsManager.ShouldEndInnings2Early(currentRuns, targetScore)
  {
    if targetScore.None? || targetScore.value == 0 then false
    else currentRuns >= targetScore.value
  }
}
