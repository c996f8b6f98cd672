/** The delivery state machine: one delivery's input plus the current state and
    metadata give the recorded ball, the next state, the next metadata and six
    transition flags.  `ProcessBallDelivery` copies the state and updates the
    copy step by step, as the original does; `Deliver` is an independent
    closed-form description of the same result, field by field, and the lemmas
    below state the scoring rules about `Deliver`. */
module BallProcessor {
  import opened Types

  datatype BallInput = BallInput(
    runs: nat,
    extrasType: Extras,
    isWicket: bool,
    wicketKind: Option<WicketKind>,
    playerOut: Option<string>,
    fielder: Option<string>)

  datatype StateChanges = StateChanges(
    strikeChanged: bool,
    overCompleted: bool,
    wicketFell: bool,
    needNewBatsman: bool,
    needNewBowler: bool,
    inningsCompleted: bool)

  datatype ProcessingResult = ProcessingResult(
    newBall: Ball,
    newState: MatchState,
    newMeta: MatchMeta,
    stateChanges: StateChanges)

  // ---------------------------------------------------------------------
  // Reference description

  predicate IsLegalExtras(e: Extras) {
    e != Wide && e != NoBall
  }

  /** Runs credited to the batsman: none for wides, byes and leg-byes. */
  function BatRuns(inp: BallInput): nat {
    if inp.extrasType == Wide || inp.extrasType == Bye || inp.extrasType == LegBye then 0 else inp.runs
  }

  /** The one-run penalty of a wide or a no-ball. */
  function PenaltyRuns(inp: BallInput): nat {
    if inp.extrasType == Wide || inp.extrasType == NoBall then 1 else 0
  }

  /** Runs the team gets from the delivery. */
  function BallRuns(inp: BallInput): nat {
    inp.runs + PenaltyRuns(inp)
  }

  /** Whether the dismissed player is the striker: the dismissed name is the
      striker's, or the literal "striker"; anything else means the non-striker. */
  predicate StrikerOut(inp: BallInput, activeStriker: string) {
    inp.playerOut == Some(activeStriker) || inp.playerOut == Some("striker")
  }

  /** A non-zero target is set. */
  predicate TargetSet(m: MatchMeta) {
    m.targetScore.Some? && m.targetScore.value != 0
  }

  /** The over/legal-ball bookkeeping every reachable state keeps. */
  predicate CountersOk(s: MatchState) {
    s.ballsInCurrentOver < 6 && s.legalBalls == 6 * s.oversBowled + s.ballsInCurrentOver
  }

  function RecordBall(s: MatchState, inp: BallInput, ballNumber: int,
                      striker: string, nonStriker: string, bowler: string): Ball
  {
    Ball(
      ballNumber := ballNumber,
      overNumber := s.oversBowled,
      ballInOver := s.ballsInCurrentOver + 1,
      runsScored := BallRuns(inp),
      runsByBatsman := Some(BatRuns(inp)),
      extraRuns := PenaltyRuns(inp),
      extras := inp.extrasType,
      isWicket := inp.isWicket,
      wicketKind := if inp.isWicket && inp.wicketKind.Some? then Some(KindName(inp.wicketKind.value)) else None,
      playerOut := if inp.isWicket then inp.playerOut else None,
      fielder := if Present(inp.fielder) then inp.fielder else None,
      striker := striker,
      nonStriker := nonStriker,
      bowler := bowler,
      isFreeHit := s.isFreeHit,
      partnershipRuns := OrZero(s.currentPartnershipRuns) + BallRuns(inp))
  }

  /** Whether this delivery brings the balls of the over to six. */
  predicate EndsOver(s: MatchState, inp: BallInput) {
    s.ballsInCurrentOver + (if IsLegalExtras(inp.extrasType) then 1 else 0) == 6
  }

  /** Odd bat runs without a wicket change ends. */
  predicate OddRunSwap(inp: BallInput) {
    BatRuns(inp) % 2 == 1 && !inp.isWicket
  }

  function NextState(s: MatchState, inp: BallInput, activeStriker: string): MatchState {
    var legal := IsLegalExtras(inp.extrasType);
    var over := EndsOver(s, inp);
    var striker0 := if inp.isWicket && StrikerOut(inp, activeStriker) then None else s.currentStriker;
    var nonStriker0 := if inp.isWicket && !StrikerOut(inp, activeStriker) then None else s.currentNonStriker;
    // an odd-run swap and an end-of-over swap cancel out
    var swapped := OddRunSwap(inp) != over;
    MatchState(
      totalRuns := s.totalRuns + BallRuns(inp),
      totalWickets := s.totalWickets + (if inp.isWicket then 1 else 0),
      legalBalls := s.legalBalls + (if legal then 1 else 0),
      oversBowled := s.oversBowled + (if over then 1 else 0),
      ballsInCurrentOver := if over then 0 else s.ballsInCurrentOver + (if legal then 1 else 0),
      currentStriker := if swapped then nonStriker0 else striker0,
      currentNonStriker := if swapped then striker0 else nonStriker0,
      currentBowler := if over then None else s.currentBowler,
      isFreeHit := if legal then false else if inp.extrasType == NoBall then true else s.isFreeHit,
      battingOrder := s.battingOrder,
      nextBatsmanIndex := if inp.isWicket then Some(OrZero(s.nextBatsmanIndex) + 1) else s.nextBatsmanIndex,
      lastOverBowler := if over then s.currentBowler else s.lastOverBowler,
      currentPartnershipRuns := Some(if inp.isWicket then 0 else OrZero(s.currentPartnershipRuns) + BallRuns(inp)),
      currentPartnershipBalls :=
        if inp.isWicket then Some(0)
        else if legal then Some(OrZero(s.currentPartnershipBalls) + 1)
        else s.currentPartnershipBalls)
  }

  /** Overs used up or ten wickets down. */
  predicate InningsOver(s: MatchState, m: MatchMeta) {
    s.oversBowled >= m.oversPerInnings || s.totalWickets >= 10
  }

  /** In the second innings a set target has been reached. */
  predicate Chased(s: MatchState, m: MatchMeta) {
    m.innings == 2 && TargetSet(m) && s.totalRuns >= m.targetScore.value
  }

  function NextStatus(next: MatchState, m: MatchMeta): Status {
    if Chased(next, m) then Completed
    else if InningsOver(next, m) then (if m.innings == 1 then InningsBreak else Completed)
    else m.status
  }

  function Deliver(s: MatchState, m: MatchMeta, inp: BallInput, ballNumber: int,
                   striker: string, nonStriker: string, bowler: string): ProcessingResult
  {
    var next := NextState(s, inp, striker);
    var over := EndsOver(s, inp);
    ProcessingResult(
      RecordBall(s, inp, ballNumber, striker, nonStriker, bowler),
      next,
      m.(status := NextStatus(next, m)),
      StateChanges(
        strikeChanged := OddRunSwap(inp) || over,
        overCompleted := over,
        wicketFell := inp.isWicket,
        needNewBatsman := inp.isWicket,
        needNewBowler := over,
        inningsCompleted := InningsOver(next, m) || Chased(next, m)))
  }

  // ---------------------------------------------------------------------
  // The operations

  /** Step 3 of a delivery: runs, partnership, and for a legal ball the
      ball counters and the free-hit reset; a no-ball grants a free hit. */
  method CountDelivery(s: MatchState, ballRuns: nat, isLegal: bool, isNoBall: bool) returns (t: MatchState)
    ensures t.totalRuns == s.totalRuns + ballRuns
    ensures t.currentPartnershipRuns == Some(OrZero(s.currentPartnershipRuns) + ballRuns)
    ensures t.legalBalls == s.legalBalls + (if isLegal then 1 else 0)
    ensures t.ballsInCurrentOver == s.ballsInCurrentOver + (if isLegal then 1 else 0)
    ensures t.isFreeHit == (if isLegal then false else if isNoBall then true else s.isFreeHit)
    ensures t.currentPartnershipBalls == (if isLegal then Some(OrZero(s.currentPartnershipBalls) + 1) else s.currentPartnershipBalls)
    ensures t.(totalRuns := s.totalRuns, currentPartnershipRuns := s.currentPartnershipRuns,
               legalBalls := s.legalBalls, ballsInCurrentOver := s.ballsInCurrentOver,
               isFreeHit := s.isFreeHit, currentPartnershipBalls := s.currentPartnershipBalls) == s
  {
    t := s;
    t := t.(totalRuns := t.totalRuns + ballRuns);
    t := t.(currentPartnershipRuns := Some(OrZero(t.currentPartnershipRuns) + ballRuns));
    if isLegal {
      t := t.(legalBalls := t.legalBalls + 1);
      t := t.(ballsInCurrentOver := t.ballsInCurrentOver + 1);
      t := t.(isFreeHit := false);
      t := t.(currentPartnershipBalls := Some(OrZero(t.currentPartnershipBalls) + 1));
    } else if isNoBall {
      t := t.(isFreeHit := true);
    }
  }

  /** Steps 3 to 6 of a delivery: counting, wicket, odd-run rotation and
      over completion applied in turn to a copy of the state. */
  method AdvanceState(currentState: MatchState, ballInput: BallInput, activeStriker: string)
    returns (newState: MatchState, strikeChanged: bool, overCompleted: bool)
    ensures newState == NextState(currentState, ballInput, activeStriker)
    ensures overCompleted == EndsOver(currentState, ballInput)
    ensures strikeChanged == (OddRunSwap(ballInput) || overCompleted)
  {
    // 3. update a copy of the state
    newState := CountDelivery(currentState, BallRuns(ballInput), IsLegalExtras(ballInput.extrasType), ballInput.extrasType == NoBall);

    // 4. wicket
    if ballInput.isWicket {
      var role := if ballInput.playerOut == Some(activeStriker) || ballInput.playerOut == Some("striker")
                  then StrikerEnd else NonStrikerEnd;
      newState := HandleWicket(newState, OrEmpty(ballInput.playerOut), role);
    }

    // 5. strike rotation for odd runs off the bat
    strikeChanged := false;
    if BatRuns(ballInput) % 2 != 0 && !ballInput.isWicket {
      newState := HandleStrikeRotation(newState);
      strikeChanged := true;
    }

    // 6. over completion
    overCompleted := false;
    if newState.ballsInCurrentOver == 6 {
      newState := HandleOverCompletion(newState);
      overCompleted := true;
      strikeChanged := true;
    }

  }

  /** Step 7 of a delivery: overs or wickets exhausted end the innings (an
      innings break after the first innings), and in the second innings a
      reached target completes the match. */
  method CheckCompletion(newState: MatchState, currentMeta: MatchMeta) returns (inningsCompleted: bool, newStatus: Status)
    ensures inningsCompleted == (InningsOver(newState, currentMeta) || Chased(newState, currentMeta))
    ensures newStatus == NextStatus(newState, currentMeta)
  {
    inningsCompleted := false;
    newStatus := currentMeta.status;
    if newState.oversBowled >= currentMeta.oversPerInnings || newState.totalWickets >= 10 {
      inningsCompleted := true;
      if currentMeta.innings == 1 {
        newStatus := InningsBreak;
      } else {
        newStatus := Completed;
      }
    }
    if currentMeta.innings == 2 && currentMeta.targetScore.Some? && currentMeta.targetScore.value != 0 {
      if newState.totalRuns >= currentMeta.targetScore.value {
        inningsCompleted := true;
        newStatus := Completed;
      }
    }
  }

  /** processBallDelivery: copy the state, then apply runs, legal-ball
      counting, free hit, wicket, strike rotation, over completion and the
      completion check in that order. */
  method ProcessBallDelivery(currentState: MatchState, currentMeta: MatchMeta, ballInput: BallInput,
                             ballNumber: int, activeStriker: string, activeNonStriker: string,
                             activeBowler: string)
    returns (r: ProcessingResult)
    ensures r == Deliver(currentState, currentMeta, ballInput, ballNumber, activeStriker, activeNonStriker, activeBowler)
  {
    // 1. runs and extras
    var isWide := ballInput.extrasType == Wide;
    var isNoBall := ballInput.extrasType == NoBall;
    var isBye := ballInput.extrasType == Bye;
    var isLegBye := ballInput.extrasType == LegBye;
    var isLegal := !isWide && !isNoBall;
    var runsByBatsman := if isWide || isBye || isLegBye then 0 else ballInput.runs;
    var extraRuns := if isWide || isNoBall then 1 else 0;
    var totalBallRuns := ballInput.runs + extraRuns;

    // 2. the ball record
    var newBall := Ball(
      ballNumber, currentState.oversBowled, currentState.ballsInCurrentOver + 1,
      totalBallRuns, Some(runsByBatsman), extraRuns, ballInput.extrasType, ballInput.isWicket,
      if ballInput.isWicket && ballInput.wicketKind.Some? then Some(KindName(ballInput.wicketKind.value)) else None,
      if ballInput.isWicket then ballInput.playerOut else None,
      if Present(ballInput.fielder) then ballInput.fielder else None,
      activeStriker, activeNonStriker, activeBowler, currentState.isFreeHit,
      OrZero(currentState.currentPartnershipRuns) + totalBallRuns);

    // 3.-6. update a copy of the state
    var newState, strikeChanged, overCompleted := AdvanceState(currentState, ballInput, activeStriker);
    var wicketFell, needNewBatsman, needNewBowler := ballInput.isWicket, ballInput.isWicket, overCompleted;

    // 7. innings completion
    var inningsCompleted, newStatus := CheckCompletion(newState, currentMeta);

    var newMeta := currentMeta.(status := newStatus);
    assert newBall == RecordBall(currentState, ballInput, ballNumber, activeStriker, activeNonStriker, activeBowler);
    r := ProcessingResult(newBall, newState, newMeta,
      StateChanges(strikeChanged, overCompleted, wicketFell, needNewBatsman, needNewBowler, inningsCompleted));
  }

  /** The strike swap: the two ends exchange places. */
  function SwapEnds(s: MatchState): (r: MatchState)
    ensures r.currentStriker == s.currentNonStriker && r.currentNonStriker == s.currentStriker
    ensures r.(currentStriker := s.currentStriker, currentNonStriker := s.currentNonStriker) == s
  {
    s.(currentStriker := s.currentNonStriker, currentNonStriker := s.currentStriker)
  }

  /** handleStrikeRotation */
  method HandleStrikeRotation(state: MatchState) returns (r: MatchState)
    ensures r == SwapEnds(state)
  {
    r := state;
    var temp := r.currentStriker;
    r := r.(currentStriker := r.currentNonStriker);
    r := r.(currentNonStriker := temp);
  }

  datatype Role = StrikerEnd | NonStrikerEnd

  /** handleWicket: the dismissed end is chosen by role, not by name. */
  method HandleWicket(state: MatchState, playerOut: string, role: Role) returns (r: MatchState)
    ensures r.totalWickets == state.totalWickets + 1
    ensures r.currentStriker == (if role == StrikerEnd then None else state.currentStriker)
    ensures r.currentNonStriker == (if role == StrikerEnd then state.currentNonStriker else None)
    ensures r.nextBatsmanIndex == Some(OrZero(state.nextBatsmanIndex) + 1)
    ensures r.currentPartnershipRuns == Some(0) && r.currentPartnershipBalls == Some(0)
    ensures r.(totalWickets := state.totalWickets, currentStriker := state.currentStriker,
               currentNonStriker := state.currentNonStriker, nextBatsmanIndex := state.nextBatsmanIndex,
               currentPartnershipRuns := state.currentPartnershipRuns,
               currentPartnershipBalls := state.currentPartnershipBalls) == state
  {
    r := state;
    r := r.(totalWickets := r.totalWickets + 1);
    if role == StrikerEnd {
      r := r.(currentStriker := None);
    } else {
      r := r.(currentNonStriker := None);
    }
    r := r.(nextBatsmanIndex := Some(OrZero(r.nextBatsmanIndex) + 1));
    r := r.(currentPartnershipRuns := Some(0));
    r := r.(currentPartnershipBalls := Some(0));
  }

  /** handleOverCompletion */
  method HandleOverCompletion(state: MatchState) returns (r: MatchState)
    ensures r.oversBowled == state.oversBowled + 1 && r.ballsInCurrentOver == 0
    ensures r.lastOverBowler == state.currentBowler && r.currentBowler == None
    ensures r.currentStriker == state.currentNonStriker && r.currentNonStriker == state.currentStriker
    ensures r.(oversBowled := state.oversBowled, ballsInCurrentOver := state.ballsInCurrentOver,
               lastOverBowler := state.lastOverBowler, currentBowler := state.currentBowler,
               currentStriker := state.currentStriker, currentNonStriker := state.currentNonStriker) == state
  {
    r := state;
    r := r.(oversBowled := r.oversBowled + 1);
    r := r.(ballsInCurrentOver := 0);
    r := r.(lastOverBowler := state.currentBowler);
    r := r.(currentBowler := None);
    var temp := r.currentStriker;
    r := r.(currentStriker := r.currentNonStriker);
    r := r.(currentNonStriker := temp);
  }

  // ---------------------------------------------------------------------
  // Properties of a delivery

  lemma SwapEndsInvolution(s: MatchState)
    ensures SwapEnds(SwapEnds(s)) == s
  {
  }

  /** The ball record: runs with the one-run penalty, bat runs, and the
      position taken from the state before the delivery. */
  lemma DeliveredBall(s: MatchState, m: MatchMeta, inp: BallInput, n: int, st: string, ns: string, bw: string)
    ensures var b := Deliver(s, m, inp, n, st, ns, bw).newBall;
      && b.runsScored == inp.runs + (if inp.extrasType == Wide || inp.extrasType == NoBall then 1 else 0)
      && b.runsByBatsman == Some(if inp.extrasType == Wide || inp.extrasType == Bye || inp.extrasType == LegBye then 0 else inp.runs)
      && b.overNumber == s.oversBowled && b.ballInOver == s.ballsInCurrentOver + 1
      && b.ballNumber == n && b.striker == st && b.nonStriker == ns && b.bowler == bw
      && b.isFreeHit == s.isFreeHit
      && b.extras == inp.extrasType
      && (b.wicketKind.Some? ==> inp.isWicket)
      && (b.playerOut.Some? ==> inp.isWicket)
  {
  }

  /** Team runs grow by exactly the ball's runs; the partnership grows by the
      same amount unless a wicket resets it. */
  lemma DeliveredRuns(s: MatchState, m: MatchMeta, inp: BallInput, n: int, st: string, ns: string, bw: string)
    ensures var r := Deliver(s, m, inp, n, st, ns, bw);
      && r.newState.totalRuns == s.totalRuns + r.newBall.runsScored
      && r.newState.currentPartnershipRuns ==
           Some(if inp.isWicket then 0 else OrZero(s.currentPartnershipRuns) + r.newBall.runsScored)
      && (inp.isWicket ==> r.newState.currentPartnershipBalls == Some(0))
  {
  }

  /** Legal-ball and over counting, and the counter invariant it preserves. */
  lemma DeliveredCounters(s: MatchState, m: MatchMeta, inp: BallInput, n: int, st: string, ns: string, bw: string)
    requires CountersOk(s)
    ensures var r := Deliver(s, m, inp, n, st, ns, bw);
      var legal := inp.extrasType != Wide && inp.extrasType != NoBall;
      && CountersOk(r.newState)
      && r.newState.legalBalls == s.legalBalls + (if legal then 1 else 0)
      && (r.stateChanges.overCompleted <==> legal && s.ballsInCurrentOver == 5)
      && r.newState.oversBowled == s.oversBowled + (if r.stateChanges.overCompleted then 1 else 0)
      && (!legal ==> r.newState.ballsInCurrentOver == s.ballsInCurrentOver)
  {
    var r := Deliver(s, m, inp, n, st, ns, bw);
    if IsLegalExtras(inp.extrasType) && s.ballsInCurrentOver == 5 {
      assert r.newState.legalBalls == 6 * (s.oversBowled + 1);
    }
  }

  /** Free hit: a no-ball sets it, a legal ball clears it, a wide keeps it;
      the recorded ball carries the flag from before the delivery. */
  lemma DeliveredFreeHit(s: MatchState, m: MatchMeta, inp: BallInput, n: int, st: string, ns: string, bw: string)
    ensures var r := Deliver(s, m, inp, n, st, ns, bw);
      && r.newBall.isFreeHit == s.isFreeHit
      && (inp.extrasType == NoBall ==> r.newState.isFreeHit)
      && (inp.extrasType == Wide ==> r.newState.isFreeHit == s.isFreeHit)
      && (inp.extrasType != Wide && inp.extrasType != NoBall ==> !r.newState.isFreeHit)
  {
  }

  /** A wicket: one more wicket and batsman index, and the dismissed end
      (chosen by name or the literal "striker") is emptied before rotation. */
  lemma DeliveredWicket(s: MatchState, m: MatchMeta, inp: BallInput, n: int, st: string, ns: string, bw: string)
    requires inp.isWicket
    ensures var r := Deliver(s, m, inp, n, st, ns, bw);
      var strikerOut := inp.playerOut == Some(st) || inp.playerOut == Some("striker");
      var over := EndsOver(s, inp);
      && r.newState.totalWickets == s.totalWickets + 1
      && r.newState.nextBatsmanIndex == Some(OrZero(s.nextBatsmanIndex) + 1)
      && r.stateChanges.wicketFell && r.stateChanges.needNewBatsman
      && (strikerOut && !over ==> r.newState.currentStriker == None && r.newState.currentNonStriker == s.currentNonStriker)
      && (!strikerOut && !over ==> r.newState.currentNonStriker == None && r.newState.currentStriker == s.currentStriker)
      && (strikerOut && over ==> r.newState.currentNonStriker == None && r.newState.currentStriker == s.currentNonStriker)
      && (!strikerOut && over ==> r.newState.currentStriker == None && r.newState.currentNonStriker == s.currentStriker)
  {
  }

  /** Strike rotation without a wicket: the ends change iff exactly one of
      "odd runs off the bat" and "over ends" holds. */
  lemma DeliveredStrike(s: MatchState, m: MatchMeta, inp: BallInput, n: int, st: string, ns: string, bw: string)
    requires !inp.isWicket
    ensures var r := Deliver(s, m, inp, n, st, ns, bw);
      var oddBat := BatRuns(inp) % 2 == 1;
      var over := EndsOver(s, inp);
      && (oddBat != over ==> r.newState.currentStriker == s.currentNonStriker && r.newState.currentNonStriker == s.currentStriker)
      && (oddBat == over ==> r.newState.currentStriker == s.currentStriker && r.newState.currentNonStriker == s.currentNonStriker)
  {
  }

  /** An odd number of byes or leg-byes never rotates strike by itself, and an
      odd-run sixth legal ball leaves the batsmen where they were. */
  lemma OddByesAndLastBallOfOver(s: MatchState, m: MatchMeta, inp: BallInput, n: int, st: string, ns: string, bw: string)
    requires !inp.isWicket
    ensures (inp.extrasType == Bye || inp.extrasType == LegBye || inp.extrasType == Wide) && !EndsOver(s, inp) ==>
      Deliver(s, m, inp, n, st, ns, bw).newState.currentStriker == s.currentStriker
    ensures inp.extrasType != Wide && inp.extrasType != NoBall && s.ballsInCurrentOver == 5 && BatRuns(inp) % 2 == 1 ==>
      Deliver(s, m, inp, n, st, ns, bw).newState.currentStriker == s.currentStriker &&
      Deliver(s, m, inp, n, st, ns, bw).newState.currentNonStriker == s.currentNonStriker
  {
  }

  /** Over completion: the outgoing bowler is the state's current bowler (not
      the bowler named for the delivery), and a new one must be chosen. */
  lemma DeliveredOverEnd(s: MatchState, m: MatchMeta, inp: BallInput, n: int, st: string, ns: string, bw: string)
    requires EndsOver(s, inp)
    ensures var r := Deliver(s, m, inp, n, st, ns, bw);
      && r.newState.oversBowled == s.oversBowled + 1 && r.newState.ballsInCurrentOver == 0
      && r.newState.lastOverBowler == s.currentBowler && r.newState.currentBowler == None
      && r.stateChanges.overCompleted && r.stateChanges.needNewBowler && r.stateChanges.strikeChanged
  {
  }

  /** Completion: overs or wickets exhausted gives an innings break in the
      first innings and a completed match otherwise; in the second innings a
      reached non-zero target completes the match regardless.  Only the
      status of the metadata changes. */
  lemma DeliveredStatus(s: MatchState, m: MatchMeta, inp: BallInput, n: int, st: string, ns: string, bw: string)
    ensures var r := Deliver(s, m, inp, n, st, ns, bw);
      var t := r.newState;
      && r.newMeta.(status := m.status) == m
      && (r.stateChanges.inningsCompleted <==>
            t.oversBowled >= m.oversPerInnings || t.totalWickets >= 10 ||
            (m.innings == 2 && m.targetScore.Some? && m.targetScore.value != 0 && t.totalRuns >= m.targetScore.value))
      && (m.innings == 2 && m.targetScore.Some? && m.targetScore.value != 0 && t.totalRuns >= m.targetScore.value ==>
            r.newMeta.status == Completed)
      && ((t.oversBowled >= m.oversPerInnings || t.totalWickets >= 10) ==>
            r.newMeta.status == (if m.innings == 1 then InningsBreak else Completed))
      && (!r.stateChanges.inningsCompleted ==> r.newMeta.status == m.status)
  {
  }
}
