/** Statistics derived from a list of recorded deliveries: a batsman's and a
    bowler's figures, the fall of wickets, the partnerships and the extras
    breakdown, plus run rates.  Each loop of the original is a method proved
    equal to a reference function over the ball list; the properties of
    the statistics are lemmas about those functions. */
module StatsCalculator {
  import opened Types
  import BallProcessor

  // =====================================================================
  // Batsman statistics

  /** Runs off the bat: the recorded value, or for an old record without
      one, the ball's runs unless they were byes or leg-byes. */
  function RunsOffBat(b: Ball): nat {
    match b.runsByBatsman
    case Some(r) => r
    case None => if b.IsBye() || b.IsLegBye() then 0 else b.runsScored
  }

  function RunOutText(b: Ball): string {
    if Present(b.fielder) then "run out (" + b.fielder.value + ")" else "run out"
  }

  /** The dismissal text for a recorded wicket kind; an unknown kind reads "out". */
  function HowOutText(b: Ball): (s: string)
    requires Present(b.wicketKind)
    ensures s != ""
  {
    var k := b.wicketKind.value;
    if k == "bowled" then "b " + b.bowler
    else if k == "caught" then
      (if Present(b.fielder) then "c " + b.fielder.value + " b " + b.bowler else "c & b " + b.bowler)
    else if k == "lbw" then "lbw b " + b.bowler
    else if k == "stumped" then
      (if Present(b.fielder) then "st " + b.fielder.value + " b " + b.bowler else "st b " + b.bowler)
    else if k == "run_out" then RunOutText(b)
    else if k == "hit_wicket" then "hit wicket b " + b.bowler
    else "out"
  }

  /** The running totals of the batsman loop. */
  datatype BatAcc = BatAcc(runs: nat, balls: nat, fours: nat, sixes: nat, isOut: bool, howOut: string)

  /** Whether the ball dismisses `name`. */
  predicate DismissedOn(b: Ball, name: string) {
    b.isWicket && b.playerOut == Some(name)
  }

  /** One ball's effect on `name`'s running totals: as striker it adds runs
      off the bat, a legal ball faced, boundaries and a dismissal; a
      dismissal at the non-striker's end reads as a run out. */
  function BatStep(a: BatAcc, b: Ball, name: string): BatAcc {
    var a1 := StrikerStep(a, b, name);
    if b.nonStriker == name && DismissedOn(b, name) then a1.(isOut := true, howOut := RunOutText(b)) else a1
  }

  /** The part of a ball's effect that applies when `name` is on strike. */
  function StrikerStep(a: BatAcc, b: Ball, name: string): BatAcc {
    if b.striker == name then
      var r := RunsOffBat(b);
      BatAcc(
        a.runs + r,
        a.balls + (if b.IsLegal() then 1 else 0),
        a.fours + (if r == 4 then 1 else 0),
        a.sixes + (if r == 6 then 1 else 0),
        a.isOut || DismissedOn(b, name),
        if DismissedOn(b, name) && Present(b.wicketKind) then HowOutText(b) else a.howOut)
    else a
  }

  function BatFold(bs: seq<Ball>, name: string): BatAcc {
    if bs == [] then BatAcc(0, 0, 0, 0, false, "")
    else BatStep(BatFold(bs[..|bs| - 1], name), bs[|bs| - 1], name)
  }

  /** Runs per hundred balls, zero before a ball is faced. */
  function StrikeRate(runs: nat, balls: nat): (r: real)
    ensures balls == 0 ==> r == 0.0
    ensures balls > 0 ==> r * balls as real == 100.0 * runs as real
  {
    if balls > 0 then runs as real / balls as real * 100.0 else 0.0
  }

  function BatsmanStatsOf(bs: seq<Ball>, name: string): BatsmanStats {
    var a := BatFold(bs, name);
    BatsmanStats(name, a.runs, a.balls, a.fours, a.sixes, StrikeRate(a.runs, a.balls), a.isOut,
                 if a.isOut && a.howOut != "" then Some(a.howOut) else None)
  }

  /** calculateBatsmanStats */
  method CalculateBatsmanStats(balls: seq<Ball>, playerName: string) returns (stats: BatsmanStats)
    ensures stats == BatsmanStatsOf(balls, playerName)
  {
    var runs: nat, ballsFaced: nat, fours: nat, sixes: nat := 0, 0, 0, 0;
    var isOut := false;
    var howOut := "";
    var i := 0;
    while i < |balls|
      invariant 0 <= i <= |balls|
      invariant BatAcc(runs, ballsFaced, fours, sixes, isOut, howOut) == BatFold(balls[..i], playerName)
    {
      var ball := balls[i];
      ghost var before := BatAcc(runs, ballsFaced, fours, sixes, isOut, howOut);
      if ball.striker == playerName {
        if !ball.IsWide() && !ball.IsNoBall() {
          ballsFaced := ballsFaced + 1;
        }
        var runsOffBat := match ball.runsByBatsman
          case Some(r) => r
          case None => if ball.IsBye() || ball.IsLegBye() then 0 else ball.runsScored;
        runs := runs + runsOffBat;
        if runsOffBat == 4 { fours := fours + 1; }
        if runsOffBat == 6 { sixes := sixes + 1; }
        if ball.isWicket && ball.playerOut == Some(playerName) {
          isOut := true;
          if Present(ball.wicketKind) {
            howOut := HowOutText(ball);
          }
        }
      }
      assert BatAcc(runs, ballsFaced, fours, sixes, isOut, howOut) == StrikerStep(before, ball, playerName);
      if ball.nonStriker == playerName && ball.isWicket && ball.playerOut == Some(playerName) {
        isOut := true;
        howOut := RunOutText(ball);
      }
      assert BatAcc(runs, ballsFaced, fours, sixes, isOut, howOut) == BatStep(before, ball, playerName);
      assert balls[..i + 1][..i] == balls[..i];
      i := i + 1;
    }
    assert balls[..i] == balls;
    var strikeRate := if ballsFaced > 0 then runs as real / ballsFaced as real * 100.0 else 0.0;
    stats := BatsmanStats(playerName, runs, ballsFaced, fours, sixes, strikeRate, isOut,
                          if isOut && howOut != "" then Some(howOut) else None);
  }

  /** Boundaries are part of the runs, legal balls faced are a subset of the
      deliveries, and a dismissal text is only given to a batsman who is out. */
  lemma {:induction false} BatsmanStatsBounds(bs: seq<Ball>, name: string)
    ensures var st := BatsmanStatsOf(bs, name);
      && 4 * st.fours + 6 * st.sixes <= st.runs
      && st.balls <= |bs|
      && (st.howOut.Some? ==> st.isOut)
  {
    if bs != [] {
      BatsmanStatsBounds(bs[..|bs| - 1], name);
    }
  }

  /** A batsman is out exactly when some delivery with them at either end
      dismisses them by name. */
  lemma {:induction false} BatsmanOutIff(bs: seq<Ball>, name: string)
    ensures BatsmanStatsOf(bs, name).isOut <==>
      exists i :: 0 <= i < |bs| && DismissedOn(bs[i], name) && (bs[i].striker == name || bs[i].nonStriker == name)
  {
    if bs != [] {
      var init := bs[..|bs| - 1];
      BatsmanOutIff(init, name);
      if exists i :: 0 <= i < |init| && DismissedOn(init[i], name) && (init[i].striker == name || init[i].nonStriker == name) {
        var i :| 0 <= i < |init| && DismissedOn(init[i], name) && (init[i].striker == name || init[i].nonStriker == name);
        assert bs[i] == init[i];
      }
      if exists i :: 0 <= i < |bs| && DismissedOn(bs[i], name) && (bs[i].striker == name || bs[i].nonStriker == name) {
        var i :| 0 <= i < |bs| && DismissedOn(bs[i], name) && (bs[i].striker == name || bs[i].nonStriker == name);
        if i < |init| {
          assert init[i] == bs[i];
        }
      }
    }
  }

  /** A player who was never at the crease has empty figures. */
  lemma {:induction false} BatsmanAbsent(bs: seq<Ball>, name: string)
    requires forall i :: 0 <= i < |bs| ==> bs[i].striker != name && bs[i].nonStriker != name
    ensures BatsmanStatsOf(bs, name) == BatsmanStats(name, 0, 0, 0, 0, 0.0, false, None)
  {
    if bs != [] {
      BatsmanAbsent(bs[..|bs| - 1], name);
    }
  }

  // =====================================================================
  // Bowler statistics

  /** The deliveries bowled by `name`, in order. */
  function BowledBy(bs: seq<Ball>, name: string): (r: seq<Ball>)
    ensures |r| <= |bs|
    ensures forall k :: 0 <= k < |r| ==> r[k].bowler == name
  {
    if bs == [] then []
    else BowledBy(bs[..|bs| - 1], name) + (if bs[|bs| - 1].bowler == name then [bs[|bs| - 1]] else [])
  }

  /** Wickets credited to the bowler: every wicket except a run out. */
  function BowlerWickets(bs: seq<Ball>): (n: nat)
    ensures n <= CountWickets(bs)
  {
    if bs == [] then 0
    else
      var b := bs[|bs| - 1];
      BowlerWickets(bs[..|bs| - 1]) + (if b.isWicket && b.wicketKind != Some("run_out") then 1 else 0)
  }

  function CountWides(bs: seq<Ball>): nat {
    if bs == [] then 0 else CountWides(bs[..|bs| - 1]) + (if bs[|bs| - 1].IsWide() then 1 else 0)
  }

  function CountNoBalls(bs: seq<Ball>): nat {
    if bs == [] then 0 else CountNoBalls(bs[..|bs| - 1]) + (if bs[|bs| - 1].IsNoBall() then 1 else 0)
  }

  /** The balls grouped by over number. */
  function OverGroups(bs: seq<Ball>): map<int, seq<Ball>> {
    if bs == [] then map[]
    else
      var g := OverGroups(bs[..|bs| - 1]);
      var b := bs[|bs| - 1];
      g[b.overNumber := (if b.overNumber in g then g[b.overNumber] else []) + [b]]
  }

  /** The over numbers in order of first appearance. */
  function OverOrder(bs: seq<Ball>): (keys: seq<int>)
    ensures forall o :: o in keys <==> o in OverGroups(bs)
    ensures forall i, j :: 0 <= i < j < |keys| ==> keys[i] != keys[j]
  {
    if bs == [] then []
    else
      var keys := OverOrder(bs[..|bs| - 1]);
      var o := bs[|bs| - 1].overNumber;
      if o in keys then keys else keys + [o]
  }

  /** Six legal balls and no run conceded. */
  predicate IsMaiden(over: seq<Ball>) {
    CountLegal(over) == 6 && SumRuns(over) == 0
  }

  function CountMaidens(keys: seq<int>, groups: map<int, seq<Ball>>): nat
    requires forall i :: 0 <= i < |keys| ==> keys[i] in groups
  {
    if keys == [] then 0
    else CountMaidens(keys[..|keys| - 1], groups) + (if IsMaiden(groups[keys[|keys| - 1]]) then 1 else 0)
  }

  /** Runs conceded per six legal balls, zero before a legal ball is bowled. */
  function Economy(runs: nat, balls: nat): (r: real)
    ensures balls == 0 ==> r == 0.0
    ensures balls > 0 ==> r * balls as real == 6.0 * runs as real
  {
    if balls > 0 then runs as real / balls as real * 6.0 else 0.0
  }

  function BowlerStatsOf(bs: seq<Ball>, name: string): BowlerStats {
    var mine := BowledBy(bs, name);
    var legal := CountLegal(mine);
    BowlerStats(name, legal / 6, legal % 6, SumRuns(mine), BowlerWickets(mine),
                Economy(SumRuns(mine), legal),
                CountMaidens(OverOrder(mine), OverGroups(mine)),
                CountWides(mine), CountNoBalls(mine))
  }

  /** The maiden pass of calculateBowlerStats over the grouped balls. */
  method CountMaidenOvers(overKeys: seq<int>, overBalls: map<int, seq<Ball>>) returns (maidens: nat)
    requires forall j :: 0 <= j < |overKeys| ==> overKeys[j] in overBalls
    ensures maidens == CountMaidens(overKeys, overBalls)
  {
    maidens := 0;
    var k := 0;
    while k < |overKeys|
      invariant 0 <= k <= |overKeys|
      invariant maidens == CountMaidens(overKeys[..k], overBalls)
    {
      var overBallsArray := overBalls[overKeys[k]];
      var legalBallsInOver := CountLegal(overBallsArray);
      var runsInOver := SumRuns(overBallsArray);
      if legalBallsInOver == 6 && runsInOver == 0 {
        maidens := maidens + 1;
      }
      assert overKeys[..k + 1][..k] == overKeys[..k];
      k := k + 1;
    }
    assert overKeys[..k] == overKeys;
  }

  /** The first pass of calculateBowlerStats: the bowler's figures and
      their balls grouped by over. */
  method TallyBowlerBalls(balls: seq<Ball>, playerName: string)
    returns (ballsBowled: nat, runs: nat, wickets: nat, wides: nat, noBalls: nat,
             overBalls: map<int, seq<Ball>>, overKeys: seq<int>)
    ensures var mine := BowledBy(balls, playerName);
      && ballsBowled == CountLegal(mine) && runs == SumRuns(mine) && wickets == BowlerWickets(mine)
      && wides == CountWides(mine) && noBalls == CountNoBalls(mine)
      && overBalls == OverGroups(mine) && overKeys == OverOrder(mine)
  {
    ballsBowled, runs, wickets, wides, noBalls := 0, 0, 0, 0, 0;
    overBalls := map[];
    overKeys := [];
    ghost var mine: seq<Ball> := [];
    var i := 0;
    while i < |balls|
      invariant 0 <= i <= |balls|
      invariant mine == BowledBy(balls[..i], playerName)
      invariant ballsBowled == CountLegal(mine) && runs == SumRuns(mine) && wickets == BowlerWickets(mine)
      invariant wides == CountWides(mine) && noBalls == CountNoBalls(mine)
      invariant overBalls == OverGroups(mine) && overKeys == OverOrder(mine)
    {
      var ball := balls[i];
      BowledByStep(balls, i, playerName);
      if ball.bowler == playerName {
        BowlerFoldsSnoc(mine, ball);
        mine := mine + [ball];
        if !ball.IsWide() && !ball.IsNoBall() {
          ballsBowled := ballsBowled + 1;
        }
        runs := runs + ball.runsScored;
        if ball.isWicket && ball.wicketKind != Some("run_out") {
          wickets := wickets + 1;
        }
        if ball.IsWide() { wides := wides + 1; }
        if ball.IsNoBall() { noBalls := noBalls + 1; }
        // overBalls[ball.overNumber] ??= [], then push
        var group := if ball.overNumber in overBalls then overBalls[ball.overNumber] else [];
        if ball.overNumber !in overBalls {
          overKeys := overKeys + [ball.overNumber];
        }
        overBalls := overBalls[ball.overNumber := group + [ball]];
      }
      i := i + 1;
    }
    assert balls[..i] == balls;
  }

  /** One more ball of the list adds it to the bowler's balls when it is theirs. */
  lemma BowledByStep(balls: seq<Ball>, i: nat, name: string)
    requires i < |balls|
    ensures BowledBy(balls[..i + 1], name) ==
      if balls[i].bowler == name then BowledBy(balls[..i], name) + [balls[i]] else BowledBy(balls[..i], name)
  {
    assert balls[..i + 1][..i] == balls[..i];
  }

  /** calculateBowlerStats: one pass accumulating the figures and grouping
      the bowler's balls by over, then a pass over the groups counting maidens.
      The groups are visited in order of first appearance; the count does not
      depend on the order. */
  method CalculateBowlerStats(balls: seq<Ball>, playerName: string) returns (stats: BowlerStats)
    ensures stats == BowlerStatsOf(balls, playerName)
  {
    var ballsBowled, runs, wickets, wides, noBalls, overBalls, overKeys := TallyBowlerBalls(balls, playerName);
    var maidens := CountMaidenOvers(overKeys, overBalls);

    var economy := if ballsBowled > 0 then runs as real / ballsBowled as real * 6.0 else 0.0;
    stats := BowlerStats(playerName, ballsBowled / 6, ballsBowled % 6, runs, wickets, economy, maidens, wides, noBalls);
  }

  /** How each of the bowler's running figures grows by one more ball. */
  lemma BowlerFoldsSnoc(s: seq<Ball>, b: Ball)
    ensures CountLegal(s + [b]) == CountLegal(s) + (if b.IsLegal() then 1 else 0)
    ensures SumRuns(s + [b]) == SumRuns(s) + b.runsScored
    ensures BowlerWickets(s + [b]) == BowlerWickets(s) + (if b.isWicket && b.wicketKind != Some("run_out") then 1 else 0)
    ensures CountWides(s + [b]) == CountWides(s) + (if b.IsWide() then 1 else 0)
    ensures CountNoBalls(s + [b]) == CountNoBalls(s) + (if b.IsNoBall() then 1 else 0)
    ensures OverGroups(s + [b]) ==
      OverGroups(s)[b.overNumber := (if b.overNumber in OverGroups(s) then OverGroups(s)[b.overNumber] else []) + [b]]
    ensures OverOrder(s + [b]) == if b.overNumber in OverOrder(s) then OverOrder(s) else OverOrder(s) + [b.overNumber]
  {
    assert (s + [b])[..|s|] == s;
  }

  // ---------------------------------------------------------------------
  // Maidens never exceed the completed overs

  /** Legal balls summed over the groups named by `keys`. */
  function GroupLegal(keys: seq<int>, groups: map<int, seq<Ball>>): nat
    requires forall i :: 0 <= i < |keys| ==> keys[i] in groups
  {
    if keys == [] then 0
    else GroupLegal(keys[..|keys| - 1], groups) + CountLegal(groups[keys[|keys| - 1]])
  }

  lemma {:induction false} GroupLegalFrame(keys: seq<int>, g1: map<int, seq<Ball>>, g2: map<int, seq<Ball>>)
    requires forall i :: 0 <= i < |keys| ==> keys[i] in g1 && keys[i] in g2 && g1[keys[i]] == g2[keys[i]]
    ensures GroupLegal(keys, g1) == GroupLegal(keys, g2)
  {
    if keys != [] {
      GroupLegalFrame(keys[..|keys| - 1], g1, g2);
    }
  }

  /** Extending one group by a ball adds that ball's legality to the sum. */
  lemma {:induction false} GroupLegalExtend(keys: seq<int>, g: map<int, seq<Ball>>, o: int, b: Ball)
    requires forall i :: 0 <= i < |keys| ==> keys[i] in g
    requires forall i, j :: 0 <= i < j < |keys| ==> keys[i] != keys[j]
    requires o in keys
    ensures GroupLegal(keys, g[o := g[o] + [b]]) == GroupLegal(keys, g) + (if b.IsLegal() then 1 else 0)
  {
    var g' := g[o := g[o] + [b]];
    var init := keys[..|keys| - 1];
    var last := keys[|keys| - 1];
    assert (g[o] + [b])[..|g[o]|] == g[o];
    if last == o {
      assert o !in init;
      GroupLegalFrame(init, g', g);
    } else {
      assert o in init;
      GroupLegalExtend(init, g, o, b);
    }
  }

  /** The groups partition the balls: their legal balls add up to all legal balls. */
  lemma {:induction false} GroupLegalTotal(bs: seq<Ball>)
    ensures GroupLegal(OverOrder(bs), OverGroups(bs)) == CountLegal(bs)
  {
    if bs != [] {
      GroupLegalTotal(bs[..|bs| - 1]);
      GroupLegalSnoc(bs);
    }
  }

  /** One more ball adds that ball's legality to the groups' legal balls. */
  lemma GroupLegalSnoc(bs: seq<Ball>)
    requires bs != []
    ensures GroupLegal(OverOrder(bs), OverGroups(bs))
         == GroupLegal(OverOrder(bs[..|bs| - 1]), OverGroups(bs[..|bs| - 1])) + (if bs[|bs| - 1].IsLegal() then 1 else 0)
  {
    var init := bs[..|bs| - 1];
    OverSnoc(bs);
    OverKeysGrouped(init);
    GroupLegalStep(OverOrder(init), OverGroups(init), OverOrder(bs), OverGroups(bs), bs[|bs| - 1]);
  }

  lemma OverKeysGrouped(bs: seq<Ball>)
    ensures forall i :: 0 <= i < |OverOrder(bs)| ==> OverOrder(bs)[i] in OverGroups(bs)
  {
    var keys := OverOrder(bs);
    forall i | 0 <= i < |keys| ensures keys[i] in OverGroups(bs) {
      assert keys[i] in keys;
    }
  }

  /** The over groups and their order after one more ball. */
  lemma OverSnoc(bs: seq<Ball>)
    requires bs != []
    ensures var init := bs[..|bs| - 1]; var o := bs[|bs| - 1].overNumber;
      && OverGroups(bs) == OverGroups(init)[o := (if o in OverGroups(init) then OverGroups(init)[o] else []) + [bs[|bs| - 1]]]
      && OverOrder(bs) == if o in OverOrder(init) then OverOrder(init) else OverOrder(init) + [o]
  {
  }

  /** Filing one more ball under its over adds that ball's legality to the sum. */
  lemma GroupLegalStep(keys: seq<int>, g: map<int, seq<Ball>>, keys2: seq<int>, g2: map<int, seq<Ball>>, b: Ball)
    requires forall i :: 0 <= i < |keys| ==> keys[i] in g
    requires forall o :: o in g ==> o in keys
    requires forall i, j :: 0 <= i < j < |keys| ==> keys[i] != keys[j]
    requires keys2 == if b.overNumber in keys then keys else keys + [b.overNumber]
    requires g2 == g[b.overNumber := (if b.overNumber in g then g[b.overNumber] else []) + [b]]
    ensures forall i :: 0 <= i < |keys2| ==> keys2[i] in g2
    ensures GroupLegal(keys2, g2) == GroupLegal(keys, g) + (if b.IsLegal() then 1 else 0)
  {
    var o := b.overNumber;
    if o in keys {
      GroupLegalExtend(keys, g, o, b);
    } else {
      assert [] + [b] == [b];
      GroupLegalNewKey(keys, g, o, b);
    }
  }

  /** Opening a new group with one ball adds that ball's legality to the sum. */
  lemma GroupLegalNewKey(keys: seq<int>, g: map<int, seq<Ball>>, o: int, b: Ball)
    requires forall i :: 0 <= i < |keys| ==> keys[i] in g
    requires o !in keys
    ensures GroupLegal(keys + [o], g[o := [b]]) == GroupLegal(keys, g) + (if b.IsLegal() then 1 else 0)
  {
    var k2 := keys + [o];
    var g2 := g[o := [b]];
    assert k2[..|keys|] == keys;
    assert GroupLegal(k2, g2) == GroupLegal(keys, g2) + CountLegal(g2[o]);
    assert GroupLegal(keys, g2) == GroupLegal(keys, g) by {
      GroupLegalFrame(keys, g2, g);
    }
    assert CountLegal([b]) == (if b.IsLegal() then 1 else 0) by {
      assert [b][..0] == [];
    }
  }

  lemma {:induction false} MaidensWithinGroups(keys: seq<int>, groups: map<int, seq<Ball>>)
    requires forall i :: 0 <= i < |keys| ==> keys[i] in groups
    ensures 6 * CountMaidens(keys, groups) <= GroupLegal(keys, groups)
  {
    if keys != [] {
      MaidensWithinGroups(keys[..|keys| - 1], groups);
    }
  }

  /** Every maiden takes six of the bowler's legal balls, so a bowler has
      no more maidens than completed overs; wickets credited never exceed
      the wickets that fell to the bowler's deliveries, and the figures only
      count the bowler's own deliveries. */
  lemma BowlerStatsBounds(bs: seq<Ball>, name: string)
    ensures var st := BowlerStatsOf(bs, name);
      && st.maidens <= st.overs
      && st.balls < 6
      && 6 * st.overs + st.balls == CountLegal(BowledBy(bs, name))
      && st.wickets <= CountWickets(BowledBy(bs, name))
      && st.runs == SumRuns(BowledBy(bs, name))
  {
    var mine := BowledBy(bs, name);
    GroupLegalTotal(mine);
    MaidensWithinGroups(OverOrder(mine), OverGroups(mine));
  }

  // =====================================================================
  // Fall of wickets

  /** A wicket with a named (non-empty) dismissed player. */
  predicate Falls(b: Ball) {
    b.isWicket && Present(b.playerOut)
  }

  function FowEntry(b: Ball, score: nat, wicketNumber: nat): FallOfWicket
    requires Falls(b)
  {
    FallOfWicket(b.playerOut.value, score, wicketNumber, b.overNumber, b.ballInOver,
                 if Present(b.wicketKind) then b.wicketKind.value else "out",
                 b.bowler, if Present(b.fielder) then b.fielder else None)
  }

  /** One entry per fallen wicket, with the team score including that ball
      and the running wicket number. */
  function FallOfWicketsOf(bs: seq<Ball>): seq<FallOfWicket> {
    if bs == [] then []
    else
      var p := FallOfWicketsOf(bs[..|bs| - 1]);
      if Falls(bs[|bs| - 1]) then p + [FowEntry(bs[|bs| - 1], SumRuns(bs), |p| + 1)] else p
  }

  /** calculateFallOfWickets */
  method CalculateFallOfWickets(balls: seq<Ball>) returns (fallOfWickets: seq<FallOfWicket>)
    ensures fallOfWickets == FallOfWicketsOf(balls)
  {
    fallOfWickets := [];
    var wicketCount: nat := 0;
    var totalRuns: nat := 0;
    var i := 0;
    while i < |balls|
      invariant 0 <= i <= |balls|
      invariant fallOfWickets == FallOfWicketsOf(balls[..i])
      invariant totalRuns == SumRuns(balls[..i]) && wicketCount == |fallOfWickets|
    {
      var ball := balls[i];
      assert balls[..i + 1][..i] == balls[..i];
      totalRuns := totalRuns + ball.runsScored;
      if ball.isWicket && Present(ball.playerOut) {
        wicketCount := wicketCount + 1;
        var fow := FallOfWicket(ball.playerOut.value, totalRuns, wicketCount, ball.overNumber, ball.ballInOver,
                                if Present(ball.wicketKind) then ball.wicketKind.value else "out",
                                ball.bowler, None);
        if Present(ball.fielder) {
          fow := fow.(fielder := ball.fielder);
        }
        fallOfWickets := fallOfWickets + [fow];
      }
      i := i + 1;
    }
    assert balls[..i] == balls;
  }

  lemma {:induction false} SumRunsPrefix(bs: seq<Ball>, n: nat)
    requires n <= |bs|
    ensures SumRuns(bs[..n]) <= SumRuns(bs)
  {
    if n < |bs| {
      assert bs[..|bs| - 1][..n] == bs[..n];
      SumRunsPrefix(bs[..|bs| - 1], n);
      assert SumRuns(bs) == SumRuns(bs[..|bs| - 1]) + bs[|bs| - 1].runsScored;
    } else {
      assert bs[..n] == bs;
    }
  }

  /** Wickets are numbered 1, 2, ... in order; the score at each fall never
      decreases and never exceeds the innings total; there is at most one
      entry per wicket ball. */
  lemma {:induction false} FallOfWicketsFacts(bs: seq<Ball>)
    ensures var f := FallOfWicketsOf(bs);
      && |f| <= CountWickets(bs)
      && (forall k :: 0 <= k < |f| ==> f[k].wicketNumber == k + 1 && f[k].score <= SumRuns(bs))
      && (forall j, k :: 0 <= j < k < |f| ==> f[j].score <= f[k].score)
  {
    if bs != [] {
      var init := bs[..|bs| - 1];
      FallOfWicketsFacts(init);
      SumRunsPrefix(bs, |bs| - 1);
    }
  }

  // =====================================================================
  // Partnerships

  /** The two batsmen of a ball are the pair on record: the sorted pairs
      agree, i.e. the same two names in either order. */
  predicate SamePair(a1: string, a2: string, c1: string, c2: string) {
    (a1 == c1 && a2 == c2) || (a1 == c2 && a2 == c1)
  }

  /** The running state of the partnership loop; an unset batsman is "". */
  datatype PState = PState(b1: string, b2: string, runs: nat, balls: nat, start: nat, done: seq<Partnership>)

  function PStep(p: PState, b: Ball): PState {
    var p1 := if p.b1 == "" && p.b2 == "" then p.(b1 := b.striker, b2 := b.nonStriker) else p;
    var p2 :=
      if !SamePair(b.striker, b.nonStriker, p1.b1, p1.b2) then
        var done :=
          if p1.b1 != "" && p1.b2 != "" then
            p1.done + [Partnership(p1.b1, p1.b2, p1.runs, p1.balls, p1.start, Some(p1.start + 1), false)]
          else p1.done;
        PState(b.striker, b.nonStriker, 0, 0, p1.start + 1, done)
      else p1;
    p2.(runs := p2.runs + b.runsScored, balls := p2.balls + (if b.IsLegal() then 1 else 0))
  }

  function PFold(bs: seq<Ball>): PState {
    if bs == [] then PState("", "", 0, 0, 0, []) else PStep(PFold(bs[..|bs| - 1]), bs[|bs| - 1])
  }

  /** The closed partnerships followed by the current one, if both its
      batsmen are set. */
  function PartnershipsOf(bs: seq<Ball>): seq<Partnership> {
    var p := PFold(bs);
    if p.b1 != "" && p.b2 != "" then p.done + [Partnership(p.b1, p.b2, p.runs, p.balls, p.start, None, true)]
    else p.done
  }

  /** calculatePartnerships */
  method CalculatePartnerships(balls: seq<Ball>) returns (partnerships: seq<Partnership>)
    ensures partnerships == PartnershipsOf(balls)
  {
    partnerships := [];
    var currentBatsman1, currentBatsman2 := "", "";
    var currentPartnershipRuns: nat, currentPartnershipBalls: nat, currentStartWicket: nat := 0, 0, 0;
    var i := 0;
    while i < |balls|
      invariant 0 <= i <= |balls|
      invariant PState(currentBatsman1, currentBatsman2, currentPartnershipRuns, currentPartnershipBalls,
                       currentStartWicket, partnerships) == PFold(balls[..i])
    {
      var ball := balls[i];
      assert balls[..i + 1][..i] == balls[..i];
      ghost var before := PFold(balls[..i]);
      if currentBatsman1 == "" && currentBatsman2 == "" {
        currentBatsman1 := ball.striker;
        currentBatsman2 := ball.nonStriker;
      }
      ghost var p1 := PState(currentBatsman1, currentBatsman2, currentPartnershipRuns, currentPartnershipBalls,
                             currentStartWicket, partnerships);
      assert p1 == if before.b1 == "" && before.b2 == "" then before.(b1 := ball.striker, b2 := ball.nonStriker) else before;
      if !SamePair(ball.striker, ball.nonStriker, currentBatsman1, currentBatsman2) {
        if currentBatsman1 != "" && currentBatsman2 != "" {
          partnerships := partnerships + [Partnership(currentBatsman1, currentBatsman2, currentPartnershipRuns,
            currentPartnershipBalls, currentStartWicket, Some(currentStartWicket + 1), false)];
        }
        currentBatsman1 := ball.striker;
        currentBatsman2 := ball.nonStriker;
        currentPartnershipRuns := 0;
        currentPartnershipBalls := 0;
        currentStartWicket := currentStartWicket + 1;
      }
      assert PStep(before, ball) == PState(currentBatsman1, currentBatsman2, currentPartnershipRuns + ball.runsScored,
        currentPartnershipBalls + (if ball.IsLegal() then 1 else 0), currentStartWicket, partnerships);
      currentPartnershipRuns := currentPartnershipRuns + ball.runsScored;
      if !ball.IsWide() && !ball.IsNoBall() {
        currentPartnershipBalls := currentPartnershipBalls + 1;
      }
      i := i + 1;
    }
    assert balls[..i] == balls;
    if currentBatsman1 != "" && currentBatsman2 != "" {
      partnerships := partnerships + [Partnership(currentBatsman1, currentBatsman2, currentPartnershipRuns,
        currentPartnershipBalls, currentStartWicket, None, true)];
    }
  }

  function SumPartnershipRuns(ps: seq<Partnership>): nat {
    if ps == [] then 0 else SumPartnershipRuns(ps[..|ps| - 1]) + ps[|ps| - 1].runs
  }

  function SumPartnershipBalls(ps: seq<Partnership>): nat {
    if ps == [] then 0 else SumPartnershipBalls(ps[..|ps| - 1]) + ps[|ps| - 1].balls
  }

  /** Every delivery names both batsmen. */
  predicate Named(bs: seq<Ball>) {
    forall i :: 0 <= i < |bs| ==> bs[i].striker != "" && bs[i].nonStriker != ""
  }

  /** Closed partnerships numbered from 0, each ending at the next wicket. */
  predicate ClosedInOrder(done: seq<Partnership>) {
    forall k :: 0 <= k < |done| ==>
      done[k].startWicket == k && done[k].endWicket == Some(k + 1) && !done[k].isActive
  }

  lemma {:induction false} PFoldInvariant(bs: seq<Ball>)
    requires Named(bs)
    ensures var p := PFold(bs);
      && (bs != [] ==> p.b1 != "" && p.b2 != "")
      && p.start == |p.done|
      && ClosedInOrder(p.done)
      && SumPartnershipRuns(p.done) + p.runs == SumRuns(bs)
      && SumPartnershipBalls(p.done) + p.balls == CountLegal(bs)
  {
    if bs != [] {
      var init := bs[..|bs| - 1];
      assert Named(init) by {
        forall i | 0 <= i < |init| ensures init[i].striker != "" && init[i].nonStriker != "" {
          assert init[i] == bs[i];
        }
      }
      PFoldInvariant(init);
      PStepKeeps(PFold(init), bs[|bs| - 1], SumRuns(init), CountLegal(init));
    }
  }

  /** One named ball keeps the partnership invariant and adds its runs and
      its legality to the totals. */
  lemma PStepKeeps(p: PState, b: Ball, runs: nat, legal: nat)
    requires b.striker != "" && b.nonStriker != ""
    requires (p.b1 != "" && p.b2 != "") || p == PState("", "", 0, 0, 0, [])
    requires p.start == |p.done| && ClosedInOrder(p.done)
    requires SumPartnershipRuns(p.done) + p.runs == runs && SumPartnershipBalls(p.done) + p.balls == legal
    ensures var q := PStep(p, b);
      && q.b1 != "" && q.b2 != ""
      && q.start == |q.done|
      && ClosedInOrder(q.done)
      && SumPartnershipRuns(q.done) + q.runs == runs + b.runsScored
      && SumPartnershipBalls(q.done) + q.balls == legal + (if b.IsLegal() then 1 else 0)
  {
    var p1 := if p.b1 == "" && p.b2 == "" then p.(b1 := b.striker, b2 := b.nonStriker) else p;
    assert p1.b1 != "" && p1.b2 != "";
    if !SamePair(b.striker, b.nonStriker, p1.b1, p1.b2) {
      CloseOne(p1.done, Partnership(p1.b1, p1.b2, p1.runs, p1.balls, p1.start, Some(p1.start + 1), false));
    }
  }

  /** Closing the current partnership appends it as the next numbered one. */
  lemma CloseOne(done: seq<Partnership>, c: Partnership)
    requires ClosedInOrder(done)
    requires c.startWicket == |done| && c.endWicket == Some(|done| + 1) && !c.isActive
    ensures ClosedInOrder(done + [c])
    ensures SumPartnershipRuns(done + [c]) == SumPartnershipRuns(done) + c.runs
    ensures SumPartnershipBalls(done + [c]) == SumPartnershipBalls(done) + c.balls
  {
    assert (done + [c])[..|done|] == done;
  }

  /** With every ball naming both batsmen: one partnership per wicket
      boundary, numbered from 0, all closed except the last, which is the
      active one; together they account for every run and every legal ball. */
  lemma PartnershipsFacts(bs: seq<Ball>)
    requires Named(bs)
    ensures var ps := PartnershipsOf(bs);
      && (bs == [] <==> ps == [])
      && (forall k :: 0 <= k < |ps| ==> ps[k].startWicket == k)
      && (forall k :: 0 <= k < |ps| - 1 ==> ps[k].endWicket == Some(k + 1) && !ps[k].isActive)
      && (ps != [] ==> ps[|ps| - 1].isActive && ps[|ps| - 1].endWicket.None?)
      && SumPartnershipRuns(ps) == SumRuns(bs)
      && SumPartnershipBalls(ps) == CountLegal(bs)
  {
    PFoldInvariant(bs);
    var p := PFold(bs);
    if bs != [] {
      var last := Partnership(p.b1, p.b2, p.runs, p.balls, p.start, None, true);
      assert (p.done + [last])[..|p.done|] == p.done;
    }
  }

  // =====================================================================
  // Extras

  function WideRuns(bs: seq<Ball>): nat {
    if bs == [] then 0 else WideRuns(bs[..|bs| - 1]) + (if bs[|bs| - 1].IsWide() then bs[|bs| - 1].runsScored else 0)
  }

  function ByeRuns(bs: seq<Ball>): nat {
    if bs == [] then 0 else ByeRuns(bs[..|bs| - 1]) + (if bs[|bs| - 1].IsBye() then bs[|bs| - 1].runsScored else 0)
  }

  function LegByeRuns(bs: seq<Ball>): nat {
    if bs == [] then 0 else LegByeRuns(bs[..|bs| - 1]) + (if bs[|bs| - 1].IsLegBye() then bs[|bs| - 1].runsScored else 0)
  }

  /** Wides and byes count all their runs, a no-ball counts its one-run penalty. */
  function ExtrasOf(bs: seq<Ball>): (e: ExtrasBreakdown)
    ensures e.total == e.wides + e.noBalls + e.byes + e.legByes
  {
    ExtrasBreakdown(WideRuns(bs), CountNoBalls(bs), ByeRuns(bs), LegByeRuns(bs),
                    WideRuns(bs) + CountNoBalls(bs) + ByeRuns(bs) + LegByeRuns(bs))
  }

  /** calculateExtras */
  method CalculateExtras(balls: seq<Ball>) returns (e: ExtrasBreakdown)
    ensures e == ExtrasOf(balls)
  {
    var wides: nat, noBalls: nat, byes: nat, legByes: nat := 0, 0, 0, 0;
    var i := 0;
    while i < |balls|
      invariant 0 <= i <= |balls|
      invariant wides == WideRuns(balls[..i]) && noBalls == CountNoBalls(balls[..i])
      invariant byes == ByeRuns(balls[..i]) && legByes == LegByeRuns(balls[..i])
    {
      var ball := balls[i];
      assert balls[..i + 1][..i] == balls[..i];
      if ball.IsWide() { wides := wides + ball.runsScored; }
      if ball.IsNoBall() { noBalls := noBalls + 1; }
      if ball.IsBye() { byes := byes + ball.runsScored; }
      if ball.IsLegBye() { legByes := legByes + ball.runsScored; }
      i := i + 1;
    }
    assert balls[..i] == balls;
    e := ExtrasBreakdown(wides, noBalls, byes, legByes, wides + noBalls + byes + legByes);
  }

  /** What a ball contributes to the extras total. */
  function ExtrasPart(b: Ball): nat {
    (if b.IsWide() || b.IsBye() || b.IsLegBye() then b.runsScored else 0) + (if b.IsNoBall() then 1 else 0)
  }

  /** A ball whose runs split exactly into runs off the bat and extras. */
  predicate Balanced(b: Ball) {
    RunsOffBat(b) + ExtrasPart(b) == b.runsScored
  }

  function SumBatRuns(bs: seq<Ball>): nat {
    if bs == [] then 0 else SumBatRuns(bs[..|bs| - 1]) + RunsOffBat(bs[|bs| - 1])
  }

  /** Every ball the delivery processor records is balanced. */
  lemma RecordedBallBalanced(s: MatchState, inp: BallProcessor.BallInput, n: int, st: string, ns: string, bw: string)
    ensures Balanced(BallProcessor.RecordBall(s, inp, n, st, ns, bw))
  {
  }

  /** For balanced balls the innings total is the extras total plus the runs
      off the bat. */
  lemma {:induction false} TotalIsExtrasPlusBat(bs: seq<Ball>)
    requires forall i :: 0 <= i < |bs| ==> Balanced(bs[i])
    ensures SumRuns(bs) == ExtrasOf(bs).total + SumBatRuns(bs)
  {
    if bs != [] {
      TotalIsExtrasPlusBat(bs[..|bs| - 1]);
      assert Balanced(bs[|bs| - 1]);
    }
  }

  // =====================================================================
  // Rates

  /** calculateRunRate: runs per over of six balls, zero with no balls. */
  function RunRate(runs: int, balls: int): (r: real)
    ensures balls == 0 ==> r == 0.0
    ensures balls != 0 ==> r * balls as real == 6.0 * runs as real
  {
    if balls == 0 then 0.0 else runs as real / (balls as real / 6.0)
  }

  /** calculateRequiredRunRate: the runs still needed per remaining over;
      zero when no balls remain or nothing more is needed. */
  function RequiredRunRate(target: int, runsScored: int, ballsRemaining: int): (r: real)
    ensures ballsRemaining == 0 || target - runsScored <= 0 ==> r == 0.0
    ensures ballsRemaining != 0 && target - runsScored > 0 ==>
      r * ballsRemaining as real == 6.0 * (target - runsScored) as real
  {
    if ballsRemaining == 0 then 0.0
    else if target - runsScored <= 0 then 0.0
    else (target - runsScored) as real / (ballsRemaining as real / 6.0)
  }

  /** Scoring at the required rate for the remaining balls reaches the
      target exactly; the rate is positive exactly when the chase is on. */
  lemma RequiredRateReachesTarget(target: int, runsScored: int, ballsRemaining: nat)
    ensures RequiredRunRate(target, runsScored, ballsRemaining) > 0.0 <==> ballsRemaining > 0 && target > runsScored
    ensures ballsRemaining > 0 && target > runsScored ==>
      runsScored as real + RequiredRunRate(target, runsScored, ballsRemaining) * (ballsRemaining as real / 6.0) == target as real
  {
  }

  // =====================================================================
  // Whole-innings tables

  /** The batting table: the squad players who faced a legal ball or were
      dismissed, each with their figures. */
  function AllBatsmanStatsOf(bs: seq<Ball>, squad: seq<string>): (stats: map<string, BatsmanStats>)
    ensures forall name :: name in stats <==>
      name in squad && (BatsmanStatsOf(bs, name).balls > 0 || BatsmanStatsOf(bs, name).isOut)
    ensures forall name :: name in stats ==> stats[name] == BatsmanStatsOf(bs, name)
  {
    if squad == [] then map[]
    else
      var stats := AllBatsmanStatsOf(bs, squad[..|squad| - 1]);
      var name := squad[|squad| - 1];
      var st := BatsmanStatsOf(bs, name);
      assert squad == squad[..|squad| - 1] + [name];
      if st.balls > 0 || st.isOut then stats[name := st] else stats
  }

  /** calculateAllBatsmanStats */
  method CalculateAllBatsmanStats(balls: seq<Ball>, squad: seq<string>) returns (stats: map<string, BatsmanStats>)
    ensures stats == AllBatsmanStatsOf(balls, squad)
  {
    stats := map[];
    var i := 0;
    while i < |squad|
      invariant 0 <= i <= |squad|
      invariant stats == AllBatsmanStatsOf(balls, squad[..i])
    {
      var playerName := squad[i];
      var playerStats := CalculateBatsmanStats(balls, playerName);
      if playerStats.balls > 0 || playerStats.isOut {
        stats := stats[playerName := playerStats];
      }
      assert squad[..i + 1][..i] == squad[..i];
      i := i + 1;
    }
    assert squad[..i] == squad;
  }

  /** The bowling table: the squad players who bowled at least one legal
      ball, each with their figures. */
  function AllBowlerStatsOf(bs: seq<Ball>, squad: seq<string>): (stats: map<string, BowlerStats>)
    ensures forall name :: name in stats <==> name in squad && CountLegal(BowledBy(bs, name)) > 0
    ensures forall name :: name in stats ==> stats[name] == BowlerStatsOf(bs, name)
  {
    if squad == [] then map[]
    else
      var stats := AllBowlerStatsOf(bs, squad[..|squad| - 1]);
      var name := squad[|squad| - 1];
      var st := BowlerStatsOf(bs, name);
      assert squad == squad[..|squad| - 1] + [name];
      if st.balls > 0 || st.overs > 0 then stats[name := st] else stats
  }

  /** calculateAllBowlerStats */
  method CalculateAllBowlerStats(balls: seq<Ball>, squad: seq<string>) returns (stats: map<string, BowlerStats>)
    ensures stats == AllBowlerStatsOf(balls, squad)
  {
    stats := map[];
    var i := 0;
    while i < |squad|
      invariant 0 <= i <= |squad|
      invariant stats == AllBowlerStatsOf(balls, squad[..i])
    {
      var playerName := squad[i];
      var playerStats := CalculateBowlerStats(balls, playerName);
      if playerStats.balls > 0 || playerStats.overs > 0 {
        stats := stats[playerName := playerStats];
      }
      assert squad[..i + 1][..i] == squad[..i];
      i := i + 1;
    }
    assert squad[..i] == squad;
  }

  /** A batsman has legal balls faced exactly when some legal delivery had
      them on strike. */
  lemma {:induction false} BatsmanFacedIff(bs: seq<Ball>, name: string)
    ensures BatsmanStatsOf(bs, name).balls > 0 <==> exists i :: 0 <= i < |bs| && bs[i].striker == name && bs[i].IsLegal()
  {
    if bs != [] {
      var init := bs[..|bs| - 1];
      BatsmanFacedIff(init, name);
      if exists i :: 0 <= i < |init| && init[i].striker == name && init[i].IsLegal() {
        var i :| 0 <= i < |init| && init[i].striker == name && init[i].IsLegal();
        assert bs[i] == init[i];
      }
      if exists i :: 0 <= i < |bs| && bs[i].striker == name && bs[i].IsLegal() {
        var i :| 0 <= i < |bs| && bs[i].striker == name && bs[i].IsLegal();
        if i < |init| {
          assert init[i] == bs[i];
        }
      }
    }
  }

  /** getCurrentPartnership: the live partnership's runs and legal balls,
      zero where unset. */
  datatype RunsAndBalls = RunsAndBalls(runs: nat, balls: nat)

  function GetCurrentPartnership(state: MatchState): RunsAndBalls {
    RunsAndBalls(OrZero(state.currentPartnershipRuns), OrZero(state.currentPartnershipBalls))
  }

  /** A delivery adds its runs (and, if legal, a ball) to the live
      partnership; a wicket starts a new one from zero. */
  lemma CurrentPartnershipAfterDelivery(s: MatchState, m: MatchMeta, inp: BallProcessor.BallInput,
                                        n: int, st: string, ns: string, bw: string)
    ensures var r := BallProcessor.Deliver(s, m, inp, n, st, ns, bw);
      var before := GetCurrentPartnership(s);
      var after := GetCurrentPartnership(r.newState);
      && (inp.isWicket ==> after == RunsAndBalls(0, 0))
      && (!inp.isWicket ==> after.runs == before.runs + r.newBall.runsScored)
      && (!inp.isWicket ==> after.balls == before.balls + (if r.newBall.IsLegal() then 1 else 0))
  {
  }
}
