/** The scorer's screen: choosing the players at the crease and the bowler,
    submitting a delivery, undoing the last one, and starting the second
    innings.  The screen keeps its own copy of the three selected players
    and a bowler error message (`Panel`) and the delivery being entered
    (`Form`); each handler yields the next copies and the match record it
    writes, if any. */
module ScoringDashboard {
  import opened Types
  import BallProcessor
  import CricketRules
  import InningsManager

  /** The screen's own copies of the selections, "" for none. */
  datatype Panel = Panel(striker: string, nonStriker: string, bowler: string, bowlerError: string)

  /** The delivery being entered. */
  datatype Form = Form(runs: nat, extrasType: Extras, isWicket: bool, wicketWho: BallProcessor.Role,
                       wicketKind: WicketKind, fielder: string)

  /** The form after a submission: runs, extras, wicket flag and fielder are
      cleared; who is out and how stay as chosen. */
  function ResetForm(f: Form): Form {
    f.(runs := 0, extrasType := NoExtra, isWicket := false, fielder := "")
  }

  // ---------------------------------------------------------------------
  // handleUpdatePlayer

  datatype PlayerRole = StrikerRole | NonStrikerRole | BowlerRole

  datatype Update = Update(panel: Panel, alert: Option<string>, write: Option<MatchState>)

  /** handleUpdatePlayer: a batsman already at the other end is refused with
      an alert; a bowler refused by the consecutive-overs rule sets the error
      message; otherwise the selection changes and is written to the stored
      state. */
  function HandleUpdatePlayer(data: MatchData, panel: Panel, role: PlayerRole, name: string): (r: Update)
    ensures role == StrikerRole && name == panel.nonStriker ==>
      r == Update(panel, Some("Player already at crease as non-striker"), None)
    ensures role == NonStrikerRole && name == panel.striker ==>
      r == Update(panel, Some("Player already at crease as striker"), None)
    ensures role == BowlerRole ==>
      var v := CricketRules.ValidateBowlerSelection(data.state.currentBowler, data.state.lastOverBowler, name);
      && (v.Invalid? ==> r == Update(panel.(bowlerError := v.error), None, None))
      && (v.Valid? ==> r == Update(panel.(bowler := name, bowlerError := ""), None,
                                   Some(data.state.(currentBowler := Some(name)))))
    ensures r.write.Some? <==>
      && (role == StrikerRole ==> name != panel.nonStriker)
      && (role == NonStrikerRole ==> name != panel.striker)
      && (role == BowlerRole ==> CricketRules.ValidateBowlerSelection(data.state.currentBowler, data.state.lastOverBowler, name).Valid?)
    ensures role == StrikerRole && r.write.Some? ==>
      r.panel == panel.(striker := name) && r.write.value == data.state.(currentStriker := Some(name))
    ensures role == NonStrikerRole && r.write.Some? ==>
      r.panel == panel.(nonStriker := name) && r.write.value == data.state.(currentNonStriker := Some(name))
  {
    if role == StrikerRole && name == panel.nonStriker then
      Update(panel, Some("Player already at crease as non-striker"), None)
    else if role == NonStrikerRole && name == panel.striker then
      Update(panel, Some("Player already at crease as striker"), None)
    else if role == BowlerRole then
      var validation := CricketRules.ValidateBowlerSelection(data.state.currentBowler, data.state.lastOverBowler, name);
      if validation.Invalid? then Update(panel.(bowlerError := validation.error), None, None)
      else Update(panel.(bowler := name, bowlerError := ""), None, Some(data.state.(currentBowler := Some(name))))
    else if role == StrikerRole then
      Update(panel.(striker := name), None, Some(data.state.(currentStriker := Some(name))))
    else
      Update(panel.(nonStriker := name), None, Some(data.state.(currentNonStriker := Some(name))))
  }

  /** A batsman cannot be selected at both ends through the screen: from
      two different selections, any accepted batsman change keeps them
      different. */
  lemma DifferentEndsKept(data: MatchData, panel: Panel, role: PlayerRole, name: string)
    requires panel.striker != panel.nonStriker
    ensures HandleUpdatePlayer(data, panel, role, name).panel.striker != HandleUpdatePlayer(data, panel, role, name).panel.nonStriker
  {
  }

  // ---------------------------------------------------------------------
  // submitBall

  datatype Submission = Submission(panel: Panel, form: Form, alert: Option<string>, write: Option<MatchData>,
                                   completeFixture: Option<FixtureLink>)

  const SelectAllPlayers := "Please select all players (Striker, Non-Striker, Bowler) before bowling."

  /** `local || stored`: the screen's selection, else the stored one. */
  function Active(local: string, stored: Option<string>): (r: Option<string>)
    ensures Present(r) <==> local != "" || Present(stored)
  {
    if local != "" then Some(local) else stored
  }

  /** Dismissals that name a fielder. */
  predicate NeedsFielder(k: WicketKind) {
    k == Caught || k == RunOut || k == Stumped
  }

  /** The delivery handed to the processor. */
  function InputFor(form: Form, striker: string, nonStriker: string): BallProcessor.BallInput {
    BallProcessor.BallInput(
      form.runs,
      form.extrasType,
      form.isWicket,
      if form.isWicket then Some(form.wicketKind) else None,
      if form.isWicket then Some(if form.wicketWho == BallProcessor.StrikerEnd then striker else nonStriker) else None,
      if form.isWicket && NeedsFielder(form.wicketKind) then Some(form.fielder) else None)
  }

  /** The record written after a delivery, before the innings snapshots. */
  function Delivered(data: MatchData, r: BallProcessor.ProcessingResult, now: int): MatchData {
    data.(meta := r.newMeta, state := r.newState, balls := data.balls + [r.newBall], lastUpdatedAt := now)
  }

  /** An innings that has just ended is saved: the first into `innings1`;
      the second into `innings2`, with the result recorded in the
      metadata, when the first was saved. */
  function WithInnings(data: MatchData, r: BallProcessor.ProcessingResult, now: int): MatchData {
    var delivered := Delivered(data, r, now);
    var withNewState := data.(state := r.newState, meta := r.newMeta, balls := data.balls + [r.newBall]);
    var afterFirst :=
      if r.stateChanges.inningsCompleted && data.meta.innings == 1 then
        delivered.(innings1 := Some(InningsManager.SaveInningsData(withNewState, 1, data.balls + [r.newBall])))
      else delivered;
    if r.stateChanges.inningsCompleted && data.meta.innings == 2 && data.innings1.Some? then
      var innings2 := InningsManager.SaveInningsData(withNewState, 2, data.balls + [r.newBall]);
      var result := InningsManager.CalculateMatchResult(data.innings1.value, innings2);
      afterFirst.(innings2 := Some(innings2),
                  meta := r.newMeta.(winningTeam := Some(result.winningTeam), matchResult := Some(result.resultText),
                                     matchResultType := Some(result.resultType)))
    else afterFirst
  }

  /** submitBall: with all three players selected, one delivery is
      processed and appended; the selections follow the new state, the form
      is cleared, and a completed match whose stored record carries a
      tournament and fixture id (`link`) completes that fixture. */
  function SubmitBall(data: MatchData, panel: Panel, form: Form, link: Option<FixtureLink>, now: int): (r: Submission)
    ensures var st := Active(panel.striker, data.state.currentStriker);
      var ns := Active(panel.nonStriker, data.state.currentNonStriker);
      var bw := Active(panel.bowler, data.state.currentBowler);
      && (r.write.None? <==> !Present(st) || !Present(ns) || !Present(bw))
      && (r.write.None? ==> r == Submission(panel, form, Some(SelectAllPlayers), None, None))
      && (r.write.Some? ==> r.alert.None? && r.form == ResetForm(form))
  {
    var st := Active(panel.striker, data.state.currentStriker);
    var ns := Active(panel.nonStriker, data.state.currentNonStriker);
    var bw := Active(panel.bowler, data.state.currentBowler);
    if !Present(st) || !Present(ns) || !Present(bw) then Submission(panel, form, Some(SelectAllPlayers), None, None)
    else
      var inp := InputFor(form, st.value, ns.value);
      var result := BallProcessor.Deliver(data.state, data.meta, inp, |data.balls| + 1, st.value, ns.value, bw.value);
      var final := WithInnings(data, result, now);
      assert final.balls == data.balls + [result.newBall];
      var newPanel := panel.(striker := OrEmpty(result.newState.currentStriker),
                             nonStriker := OrEmpty(result.newState.currentNonStriker),
                             bowler := OrEmpty(result.newState.currentBowler));
      var complete :=
        if final.meta.status == Completed && link.Some? && link.value.tournamentId != "" && link.value.fixtureId != ""
        then link else None;
      Submission(newPanel, ResetForm(form), None, Some(final), complete)
  }

  /** One delivery is appended, numbered after the history, bowled by the
      selected players; the dismissed player is the one at the chosen end, a
      fielder is named only for a catch, run out or stumping; the state is
      the processor's, the selections follow it, and a completed match
      whose record carries a tournament and fixture id completes it. */
  lemma SubmitAppendsOneBall(data: MatchData, panel: Panel, form: Form, link: Option<FixtureLink>, now: int)
    requires SubmitBall(data, panel, form, link, now).write.Some?
    ensures var r := SubmitBall(data, panel, form, link, now);
      var w := r.write.value;
      var st := Active(panel.striker, data.state.currentStriker).value;
      var ns := Active(panel.nonStriker, data.state.currentNonStriker).value;
      var bw := Active(panel.bowler, data.state.currentBowler).value;
      && |w.balls| == |data.balls| + 1 && w.balls[..|data.balls|] == data.balls
      && (var b := w.balls[|data.balls|];
          && b.ballNumber == |data.balls| + 1
          && b.striker == st && b.nonStriker == ns && b.bowler == bw
          && b.isWicket == form.isWicket
          && b.playerOut == (if form.isWicket then Some(if form.wicketWho == BallProcessor.StrikerEnd then st else ns) else None)
          && (b.fielder.Some? ==> form.isWicket && NeedsFielder(form.wicketKind)))
      && w.balls == data.balls + [BallProcessor.Deliver(data.state, data.meta, InputFor(form, st, ns), |data.balls| + 1, st, ns, bw).newBall]
      && w.state == BallProcessor.Deliver(data.state, data.meta, InputFor(form, st, ns), |data.balls| + 1, st, ns, bw).newState
      && w.squads == data.squads
      && w.lastUpdatedAt == now
      && r.panel == panel.(striker := OrEmpty(w.state.currentStriker), nonStriker := OrEmpty(w.state.currentNonStriker),
                           bowler := OrEmpty(w.state.currentBowler))
      && (r.completeFixture.Some? <==> w.meta.status == Completed && link.Some? &&
                                        link.value.tournamentId != "" && link.value.fixtureId != "")
      && (r.completeFixture.Some? ==> r.completeFixture == link)
  {
    var st := Active(panel.striker, data.state.currentStriker).value;
    var ns := Active(panel.nonStriker, data.state.currentNonStriker).value;
    var bw := Active(panel.bowler, data.state.currentBowler).value;
    var res := BallProcessor.Deliver(data.state, data.meta, InputFor(form, st, ns), |data.balls| + 1, st, ns, bw);
    assert (data.balls + [res.newBall])[..|data.balls|] == data.balls;
  }

  /** A delivery that ends the first innings saves it, taken from the new
      state and the full ball list; one that ends the second innings (with
      the first saved) saves it and records the result. */
  lemma SubmitSavesInnings(data: MatchData, panel: Panel, form: Form, link: Option<FixtureLink>, now: int)
    requires SubmitBall(data, panel, form, link, now).write.Some?
    ensures var w := SubmitBall(data, panel, form, link, now).write.value;
      var st := Active(panel.striker, data.state.currentStriker).value;
      var ns := Active(panel.nonStriker, data.state.currentNonStriker).value;
      var bw := Active(panel.bowler, data.state.currentBowler).value;
      var r := BallProcessor.Deliver(data.state, data.meta, InputFor(form, st, ns), |data.balls| + 1, st, ns, bw);
      && (r.stateChanges.inningsCompleted && data.meta.innings == 1 ==>
            && w.innings1.Some?
            && w.innings1.value.totalRuns == r.newState.totalRuns
            && w.innings1.value.totalWickets == r.newState.totalWickets
            && w.innings1.value.battingTeam == data.meta.battingTeam
            && w.innings1 == Some(InningsManager.SaveInningsData(
                 data.(state := r.newState, meta := r.newMeta, balls := w.balls), 1, w.balls))
            && w.meta == r.newMeta)
      && (r.stateChanges.inningsCompleted && data.meta.innings == 2 && data.innings1.Some? ==>
            var outcome := InningsManager.CalculateMatchResult(data.innings1.value, w.innings2.value);
            && w.innings2.Some?
            && w.innings2.value.totalRuns == r.newState.totalRuns
            && w.innings2 == Some(InningsManager.SaveInningsData(
                 data.(state := r.newState, meta := r.newMeta, balls := w.balls), 2, w.balls))
            && w.innings1 == data.innings1
            && w.meta.winningTeam == Some(outcome.winningTeam)
            && w.meta.matchResult == Some(outcome.resultText)
            && w.meta.matchResultType == Some(outcome.resultType)
            && w.meta.status == Completed)
      && (r.stateChanges.inningsCompleted && data.meta.innings == 2 && data.innings1.None? ==>
            w.innings1 == data.innings1 && w.innings2 == data.innings2 && w.meta == r.newMeta)
      && (!r.stateChanges.inningsCompleted ==> w.innings1 == data.innings1 && w.innings2 == data.innings2 && w.meta == r.newMeta)
  {
    var st := Active(panel.striker, data.state.currentStriker).value;
    var ns := Active(panel.nonStriker, data.state.currentNonStriker).value;
    var bw := Active(panel.bowler, data.state.currentBowler).value;
    BallProcessor.DeliveredStatus(data.state, data.meta, InputFor(form, st, ns), |data.balls| + 1, st, ns, bw);
  }

  // ---------------------------------------------------------------------
  // handleUndo

  /** The state handleUndo rebuilds from the remaining balls `h`; `prior`
      is the stored state, which supplies the players when no ball remains
      and the batting order and next batsman index. */
  function UndoneState(h: seq<Ball>, prior: MatchState): MatchState {
    var lb := CountLegal(h);
    MatchState(
      totalRuns := SumRuns(h),
      totalWickets := CountWickets(h),
      legalBalls := lb,
      oversBowled := lb / 6,
      ballsInCurrentOver := lb % 6,
      currentStriker := if h != [] then Some(h[|h| - 1].striker) else prior.currentStriker,
      currentNonStriker := if h != [] then Some(h[|h| - 1].nonStriker) else prior.currentNonStriker,
      currentBowler := if h != [] then Some(h[|h| - 1].bowler) else prior.currentBowler,
      isFreeHit := h != [] && h[|h| - 1].IsNoBall(),
      lastOverBowler := CricketRules.GetLastOverBowler(h, lb / 6),
      battingOrder := Some(if prior.battingOrder.Some? then prior.battingOrder.value else []),
      nextBatsmanIndex := Some(OrZero(prior.nextBatsmanIndex)),
      currentPartnershipRuns := Some(SumRuns(h)),
      currentPartnershipBalls := Some(lb))
  }

  datatype Undo = Undo(panel: Panel, write: Option<MatchData>)

  /** handleUndo: nothing without a ball; otherwise the last ball goes and
      the state is rebuilt from the rest. */
  function UndoOf(data: MatchData, panel: Panel, now: int): (r: Undo)
    ensures r.write.None? <==> data.balls == []
    ensures r.write.None? ==> r.panel == panel
    ensures r.write.Some? ==>
      && r.write.value.balls == data.balls[..|data.balls| - 1]
      && r.write.value.meta == data.meta && r.write.value.innings1 == data.innings1
      && r.write.value.innings2 == data.innings2 && r.write.value.squads == data.squads
      && r.write.value.lastUpdatedAt == now
      && r.panel == panel.(striker := OrEmpty(r.write.value.state.currentStriker),
                           nonStriker := OrEmpty(r.write.value.state.currentNonStriker),
                           bowler := OrEmpty(r.write.value.state.currentBowler))
    // The counters are those of the remaining balls.
    ensures r.write.Some? ==>
      var h := data.balls[..|data.balls| - 1];
      var s := r.write.value.state;
      && s.totalRuns == SumRuns(h) && s.totalWickets == CountWickets(h) && s.legalBalls == CountLegal(h)
      && 6 * s.oversBowled + s.ballsInCurrentOver == s.legalBalls && 0 <= s.ballsInCurrentOver < 6
    // The players are those of the last remaining ball, or the stored ones
    // when the only ball was undone; the free hit is whether that ball was
    // a no-ball; the last-over bowler is recomputed from the remaining balls.
    ensures r.write.Some? ==>
      var h := data.balls[..|data.balls| - 1];
      var s := r.write.value.state;
      && (h != [] ==> && s.currentStriker == Some(h[|h| - 1].striker)
                      && s.currentNonStriker == Some(h[|h| - 1].nonStriker)
                      && s.currentBowler == Some(h[|h| - 1].bowler))
      && (h == [] ==> && s.currentStriker == data.state.currentStriker
                      && s.currentNonStriker == data.state.currentNonStriker
                      && s.currentBowler == data.state.currentBowler)
      && (s.isFreeHit <==> h != [] && h[|h| - 1].IsNoBall())
      && s.lastOverBowler == CricketRules.GetLastOverBowler(h, s.oversBowled)
    // The batting order and next batsman index are carried over, and the
    // partnership is counted over all remaining balls.
    ensures r.write.Some? ==>
      var h := data.balls[..|data.balls| - 1];
      var s := r.write.value.state;
      && (data.state.battingOrder.Some? ==> s.battingOrder == data.state.battingOrder)
      && (data.state.battingOrder.None? ==> s.battingOrder == Some([]))
      && (data.state.nextBatsmanIndex.Some? ==> s.nextBatsmanIndex == data.state.nextBatsmanIndex)
      && (data.state.nextBatsmanIndex.None? ==> s.nextBatsmanIndex == Some(0))
      && s.currentPartnershipRuns == Some(SumRuns(h)) && s.currentPartnershipBalls == Some(CountLegal(h))
  {
    if data.balls == [] then Undo(panel, None)
    else
      var h := data.balls[..|data.balls| - 1];
      var s := UndoneState(h, data.state);
      Undo(panel.(striker := OrEmpty(s.currentStriker), nonStriker := OrEmpty(s.currentNonStriker),
                  bowler := OrEmpty(s.currentBowler)),
           Some(data.(state := s, balls := h, lastUpdatedAt := now)))
  }

  /** handleUndo, with its `forEach` over the remaining balls. */
  method HandleUndo(data: MatchData, panel: Panel, now: int) returns (r: Undo)
    ensures r == UndoOf(data, panel, now)
  {
    if |data.balls| == 0 {
      return Undo(panel, None);
    }
    var newHistory := data.balls[..|data.balls| - 1];
    var runs, wickets, legal := 0, 0, 0;
    var partnershipRuns, partnershipBalls := 0, 0;
    var i := 0;
    while i < |newHistory|
      invariant 0 <= i <= |newHistory|
      invariant runs == SumRuns(newHistory[..i]) && wickets == CountWickets(newHistory[..i])
      invariant legal == CountLegal(newHistory[..i])
      invariant partnershipRuns == runs && partnershipBalls == legal
    {
      assert newHistory[..i + 1][..i] == newHistory[..i];
      var b := newHistory[i];
      runs := runs + b.runsScored;
      if b.isWicket {
        wickets := wickets + 1;
      }
      if !b.IsWide() && !b.IsNoBall() {
        legal := legal + 1;
        partnershipBalls := partnershipBalls + 1;
      }
      partnershipRuns := partnershipRuns + b.runsScored;
      i := i + 1;
    }
    assert newHistory[..i] == newHistory;
    var lastBall: Option<Ball> := if |newHistory| > 0 then Some(newHistory[|newHistory| - 1]) else None;
    var currentOverNumber := legal / 6;
    var lastOverBowler := CricketRules.GetLastOverBowler(newHistory, currentOverNumber);
    var restoredStriker := if lastBall.Some? then Some(lastBall.value.striker) else data.state.currentStriker;
    var restoredNonStriker := if lastBall.Some? then Some(lastBall.value.nonStriker) else data.state.currentNonStriker;
    var restoredBowler := if lastBall.Some? then Some(lastBall.value.bowler) else data.state.currentBowler;
    var restoredState := MatchState(
      runs, wickets, legal, legal / 6, legal % 6,
      restoredStriker, restoredNonStriker, restoredBowler,
      if lastBall.Some? then lastBall.value.IsNoBall() else false,
      Some(if data.state.battingOrder.Some? then data.state.battingOrder.value else []),
      Some(OrZero(data.state.nextBatsmanIndex)),
      lastOverBowler,
      Some(partnershipRuns), Some(partnershipBalls));
    r := Undo(panel.(striker := OrEmpty(restoredStriker), nonStriker := OrEmpty(restoredNonStriker),
                     bowler := OrEmpty(restoredBowler)),
              Some(data.(state := restoredState, balls := newHistory, lastUpdatedAt := now)));
  }

  /** Submitting a delivery and undoing it gives back the ball list. */
  lemma UndoAfterSubmit(data: MatchData, panel: Panel, form: Form, link: Option<FixtureLink>, now: int, later: int)
    requires SubmitBall(data, panel, form, link, now).write.Some?
    ensures var s := SubmitBall(data, panel, form, link, now);
      UndoOf(s.write.value, s.panel, later).write.value.balls == data.balls
  {
  }

  // ---------------------------------------------------------------------
  // Replaying the deliveries

  /** A ball as the processor records it: the one-run penalty of a wide or
      no-ball is its extra, included in its runs. */
  predicate Recorded(b: Ball) {
    b.extraRuns == (if b.extras == Wide || b.extras == NoBall then 1 else 0) && b.runsScored >= b.extraRuns
  }

  lemma DeliveredIsRecorded(s: MatchState, m: MatchMeta, inp: BallProcessor.BallInput, n: int, st: string, ns: string, bw: string)
    ensures Recorded(BallProcessor.Deliver(s, m, inp, n, st, ns, bw).newBall)
  {
  }

  /** The delivery a recorded ball came from.  The wicket kind does not
      affect the state and is left out. */
  function InputOf(b: Ball): BallProcessor.BallInput {
    BallProcessor.BallInput(if b.runsScored >= b.extraRuns then b.runsScored - b.extraRuns else 0,
                            b.extras, b.isWicket, None, b.playerOut, b.fielder)
  }

  /** One delivery replayed: the players of the ball are selected, then the
      processor runs. */
  function ReplayStep(s: MatchState, m: MatchMeta, b: Ball): MatchState {
    var selected := s.(currentStriker := Some(b.striker), currentNonStriker := Some(b.nonStriker), currentBowler := Some(b.bowler));
    BallProcessor.Deliver(selected, m, InputOf(b), b.ballNumber, b.striker, b.nonStriker, b.bowler).newState
  }

  /** The processor folded over the balls from a fresh innings. */
  function Replay(bs: seq<Ball>, m: MatchMeta): MatchState {
    if bs == [] then FreshState([]) else ReplayStep(Replay(bs[..|bs| - 1], m), m, bs[|bs| - 1])
  }

  lemma DivMod6(l: nat, o: nat, b: nat)
    requires l == 6 * o + b && b < 6
    ensures o == l / 6 && b == l % 6
  {
  }

  /** The processor's fold keeps the counters consistent and counts what the
      undo counts. */
  lemma {:induction false} ReplayCounters(bs: seq<Ball>, m: MatchMeta)
    requires forall k :: 0 <= k < |bs| ==> Recorded(bs[k])
    ensures var s := Replay(bs, m);
      && BallProcessor.CountersOk(s)
      && s.totalRuns == SumRuns(bs) && s.totalWickets == CountWickets(bs) && s.legalBalls == CountLegal(bs)
  {
    if bs != [] {
      var prefix := bs[..|bs| - 1];
      var b := bs[|bs| - 1];
      ReplayCounters(prefix, m);
      var s := Replay(prefix, m);
      var selected := s.(currentStriker := Some(b.striker), currentNonStriker := Some(b.nonStriker), currentBowler := Some(b.bowler));
      BallProcessor.DeliveredCounters(selected, m, InputOf(b), b.ballNumber, b.striker, b.nonStriker, b.bowler);
      BallProcessor.DeliveredRuns(selected, m, InputOf(b), b.ballNumber, b.striker, b.nonStriker, b.bowler);
      assert Recorded(b);
    }
  }

  /** Undo matches replay: the runs, wickets, legal balls, overs and balls of
      the over that undo rebuilds are those the processor reaches by
      delivering the remaining balls again from a fresh innings. */
  lemma UndoMatchesReplay(data: MatchData, panel: Panel, now: int, m: MatchMeta)
    requires data.balls != []
    requires forall k :: 0 <= k < |data.balls| ==> Recorded(data.balls[k])
    ensures var u := UndoOf(data, panel, now).write.value.state;
      var s := Replay(data.balls[..|data.balls| - 1], m);
      && u.totalRuns == s.totalRuns && u.totalWickets == s.totalWickets && u.legalBalls == s.legalBalls
      && u.oversBowled == s.oversBowled && u.ballsInCurrentOver == s.ballsInCurrentOver
  {
    var h := data.balls[..|data.balls| - 1];
    forall k | 0 <= k < |h| ensures Recorded(h[k]) {
      assert h[k] == data.balls[k];
    }
    ReplayCounters(h, m);
    var s := Replay(h, m);
    DivMod6(s.legalBalls, s.oversBowled, s.ballsInCurrentOver);
  }

  // ---------------------------------------------------------------------
  // Partnership and free hit after an undo

  /** Runs since the last wicket. */
  function PartnershipRunsSince(bs: seq<Ball>): nat {
    if bs == [] then 0
    else if bs[|bs| - 1].isWicket then 0
    else PartnershipRunsSince(bs[..|bs| - 1]) + bs[|bs| - 1].runsScored
  }

  /** Legal balls since the last wicket. */
  function PartnershipBallsSince(bs: seq<Ball>): nat {
    if bs == [] then 0
    else if bs[|bs| - 1].isWicket then 0
    else PartnershipBallsSince(bs[..|bs| - 1]) + (if bs[|bs| - 1].IsLegal() then 1 else 0)
  }

  /** A no-ball grants a free hit, a legal ball uses it, a wide keeps it. */
  function FreeHitAfter(bs: seq<Ball>): bool {
    if bs == [] then false
    else if bs[|bs| - 1].IsNoBall() then true
    else if bs[|bs| - 1].IsWide() then FreeHitAfter(bs[..|bs| - 1])
    else false
  }

  /** The processor's fold: the partnership restarts at each wicket, and the
      free hit survives wides. */
  lemma {:induction false} ReplayPartnershipAndFreeHit(bs: seq<Ball>, m: MatchMeta)
    requires forall k :: 0 <= k < |bs| ==> Recorded(bs[k])
    ensures var s := Replay(bs, m);
      && s.currentPartnershipRuns == Some(PartnershipRunsSince(bs))
      && s.currentPartnershipBalls == Some(PartnershipBallsSince(bs))
      && s.isFreeHit == FreeHitAfter(bs)
  {
    if bs != [] {
      var prefix := bs[..|bs| - 1];
      var b := bs[|bs| - 1];
      ReplayPartnershipAndFreeHit(prefix, m);
      assert Recorded(b);
    }
  }

  /** The state undo should rebuild: handleUndo's state with the
      partnership counted since the last wicket and the free hit carried
      through wides. */
  function UndoneStateCorrected(h: seq<Ball>, prior: MatchState): MatchState {
    UndoneState(h, prior).(currentPartnershipRuns := Some(PartnershipRunsSince(h)),
                           currentPartnershipBalls := Some(PartnershipBallsSince(h)),
                           isFreeHit := FreeHitAfter(h))
  }

  /** The corrected state agrees with the replay in every counter, the
      partnership and the free hit. */
  lemma CorrectedUndoMatchesReplay(h: seq<Ball>, prior: MatchState, m: MatchMeta)
    requires forall k :: 0 <= k < |h| ==> Recorded(h[k])
    ensures var u := UndoneStateCorrected(h, prior);
      var s := Replay(h, m);
      && u.totalRuns == s.totalRuns && u.totalWickets == s.totalWickets && u.legalBalls == s.legalBalls
      && u.oversBowled == s.oversBowled && u.ballsInCurrentOver == s.ballsInCurrentOver
      && u.currentPartnershipRuns == s.currentPartnershipRuns
      && u.currentPartnershipBalls == s.currentPartnershipBalls
      && u.isFreeHit == s.isFreeHit
  {
    ReplayCounters(h, m);
    ReplayPartnershipAndFreeHit(h, m);
    var s := Replay(h, m);
    DivMod6(s.legalBalls, s.oversBowled, s.ballsInCurrentOver);
  }

  function SampleBall(n: int, runs: nat, extras: Extras, isWicket: bool): Ball {
    var extra := if extras == Wide || extras == NoBall then 1 else 0;
    Ball(n, 0, n, runs + extra, Some(if extras == NoExtra then runs else 0), extra, extras, isWicket,
         if isWicket then Some("bowled") else None, if isWicket then Some("S") else None, None,
         "S", "N", "B", false, 0)
  }

  /** As written, undo counts the partnership from the start of the innings:
      after a four, a wicket and a single it reports 5 runs in 3 balls where
      the processor has 1 run in 1 ball. */
  lemma UndoPartnershipIgnoresWickets(prior: MatchState, m: MatchMeta)
    ensures var h := [SampleBall(1, 4, NoExtra, false), SampleBall(2, 0, NoExtra, true), SampleBall(3, 1, NoExtra, false)];
      && UndoneState(h, prior).currentPartnershipRuns == Some(5)
      && UndoneState(h, prior).currentPartnershipBalls == Some(3)
      && Replay(h, m).currentPartnershipRuns == Some(1)
      && Replay(h, m).currentPartnershipBalls == Some(1)
  {
    var h := [SampleBall(1, 4, NoExtra, false), SampleBall(2, 0, NoExtra, true), SampleBall(3, 1, NoExtra, false)];
    var h1 := [h[0]];
    var h2 := [h[0], h[1]];
    assert h1[..0] == [] && h2[..1] == h1 && h[..2] == h2;
    assert SumRuns(h1) == 4 && SumRuns(h2) == 4 && SumRuns(h) == 5;
    assert CountLegal(h1) == 1 && CountLegal(h2) == 2 && CountLegal(h) == 3;
    assert PartnershipRunsSince(h2) == 0 && PartnershipRunsSince(h) == 1;
    assert PartnershipBallsSince(h2) == 0 && PartnershipBallsSince(h) == 1;
    ReplayPartnershipAndFreeHit(h, m);
  }

  /** As written, undo drops a free hit when the last remaining ball is a
      wide after a no-ball; the processor keeps it. */
  lemma UndoFreeHitLostAfterWide(prior: MatchState, m: MatchMeta)
    ensures var h := [SampleBall(1, 0, NoBall, false), SampleBall(2, 0, Wide, false)];
      !UndoneState(h, prior).isFreeHit && Replay(h, m).isFreeHit
  {
    var h := [SampleBall(1, 0, NoBall, false), SampleBall(2, 0, Wide, false)];
    var h1 := [h[0]];
    assert h1[..0] == [] && h[..1] == h1;
    assert FreeHitAfter(h1) && FreeHitAfter(h);
    ReplayPartnershipAndFreeHit(h, m);
  }

  // ---------------------------------------------------------------------
  // handleStartInnings2

  datatype Start = Start(panel: Panel, alert: Option<string>, write: Option<MatchData>)

  /** handleStartInnings2: refused without a saved first innings; otherwise
      the second innings starts from the prepared metadata and state with
      no balls, and the screen's selections are cleared. */
  function HandleStartInnings2(data: MatchData, panel: Panel, now: int): (r: Start)
    ensures data.innings1.None? <==> r.write.None?
    ensures data.innings1.None? ==> r == Start(panel, Some("Innings 1 data not found"), None)
    ensures r.write.Some? ==>
      var w := r.write.value;
      && w.balls == [] && w.meta.innings == 2 && w.meta.status == Live
      && w.meta.battingTeam == data.meta.bowlingTeam && w.meta.bowlingTeam == data.meta.battingTeam
      && w.meta.targetScore == Some(data.state.totalRuns + 1)
      && w.state.totalRuns == 0 && w.state.legalBalls == 0 && w.state.currentStriker.None?
      && w.innings1 == data.innings1 && w.lastUpdatedAt == now
      && r.panel == panel.(striker := "", nonStriker := "", bowler := "") && r.alert.None?
    // The written record is the stored one with the prepared metadata and
    // the fresh state that keeps the batting order, and no balls.
    ensures r.write.Some? ==>
      var prepared := InningsManager.PrepareInnings2State(data);
      && r.write.value == data.(meta := prepared.meta, state := prepared.state, balls := [], lastUpdatedAt := now)
      && r.write.value.state == FreshState(if data.state.battingOrder.Some? then data.state.battingOrder.value else [])
      && r.write.value.squads == data.squads && r.write.value.innings2 == data.innings2
  {
    if data.innings1.None? then Start(panel, Some("Innings 1 data not found"), None)
    else
      var prepared := InningsManager.PrepareInnings2State(data);
      Start(panel.(striker := "", nonStriker := "", bowler := ""), None,
            Some(data.(meta := prepared.meta, state := prepared.state, balls := [], lastUpdatedAt := now)))
  }
}
