/** The viewer's post-match scorecard: the two innings it shows, the team
    names in its header and tabs, the overs text and the three leading
    batters and bowlers of an innings.  When the match record holds both
    saved innings they are shown as saved; otherwise the ball list is split
    where the batting and bowling sides swap roles and each part is scored
    from its balls. */
module PostMatchScorecard {
  import opened Types
  import Text
  import Sorting
  import StatsCalculator

  /** What the scorecard shows for one innings. */
  datatype InningsView = InningsView(
    balls: seq<Ball>,
    batStats: map<string, BatsmanStats>,
    bowlStats: map<string, BowlerStats>,
    fow: seq<FallOfWicket>,
    extras: ExtrasBreakdown,
    score: nat,
    wickets: nat,
    overs: string)

  datatype Scorecard = Scorecard(team1Name: string, team2Name: string, innings1: InningsView, innings2: InningsView)

  // =====================================================================
  // Overs text

  /** `${overs}.${balls}` */
  function OversNotation(overs: nat, balls: nat): string {
    Text.NatToString(overs) + "." + Text.NatToString(balls)
  }

  /** calculateOvers: complete overs and the balls of the current one,
      counting neither wides nor no-balls. */
  function CalculateOvers(bs: seq<Ball>): string {
    OversNotation(CountLegal(bs) / 6, CountLegal(bs) % 6)
  }

  /** The text splits at its one dot into the two numerals. */
  lemma OversNotationSplits(overs: nat, balls: nat)
    ensures Text.Split(OversNotation(overs, balls), '.') == [Text.NatToString(overs), Text.NatToString(balls)]
  {
    var o := Text.NatToString(overs);
    var b := Text.NatToString(balls);
    assert !Text.IsDigit('.');
    assert '.' !in o && '.' !in b;
    Text.SplitConcat(o, b, '.');
    assert OversNotation(overs, balls) == o + ['.'] + b;
  }

  /** Reading the overs text back gives the number of legal balls: six per
      complete over plus fewer than six in the current one. */
  lemma CalculateOversRoundTrip(bs: seq<Ball>)
    ensures var p := Text.Split(CalculateOvers(bs), '.');
      && |p| == 2
      && (forall i :: 0 <= i < |p[0]| ==> Text.IsDigit(p[0][i]))
      && (forall i :: 0 <= i < |p[1]| ==> Text.IsDigit(p[1][i]))
      && Text.DigitsValue(p[1]) < 6
      && 6 * Text.DigitsValue(p[0]) + Text.DigitsValue(p[1]) == CountLegal(bs)
  {
    var n := CountLegal(bs);
    OversNotationSplits(n / 6, n % 6);
    Text.NatToStringRoundTrip(n / 6);
    Text.NatToStringRoundTrip(n % 6);
  }

  /** A saved innings whose over counters agree with its legal-ball count
      shows the same overs text as one rebuilt from its balls. */
  lemma SavedOversAgree(d: InningsData, bs: seq<Ball>)
    requires d.ballsInCurrentOver < 6 && d.legalBalls == 6 * d.oversBowled + d.ballsInCurrentOver
    requires CountLegal(bs) == d.legalBalls
    ensures OversNotation(d.oversBowled, d.ballsInCurrentOver) == CalculateOvers(bs)
  {
    assert CountLegal(bs) / 6 == d.oversBowled;
    assert CountLegal(bs) % 6 == d.ballsInCurrentOver;
  }

  // =====================================================================
  // Splitting the ball list into innings

  /** The players at either batting end of some ball. */
  function Batters(bs: seq<Ball>): set<string> {
    if bs == [] then {} else Batters(bs[..|bs| - 1]) + {bs[|bs| - 1].striker, bs[|bs| - 1].nonStriker}
  }

  /** The players who bowled some ball. */
  function Bowlers(bs: seq<Ball>): set<string> {
    if bs == [] then {} else Bowlers(bs[..|bs| - 1]) + {bs[|bs| - 1].bowler}
  }

  lemma {:induction false} BattersIff(bs: seq<Ball>, x: string)
    ensures x in Batters(bs) <==> exists j :: 0 <= j < |bs| && (bs[j].striker == x || bs[j].nonStriker == x)
  {
    if bs != [] {
      var init := bs[..|bs| - 1];
      BattersIff(init, x);
      if exists j :: 0 <= j < |init| && (init[j].striker == x || init[j].nonStriker == x) {
        var j :| 0 <= j < |init| && (init[j].striker == x || init[j].nonStriker == x);
        assert bs[j] == init[j];
      }
      if exists j :: 0 <= j < |bs| && (bs[j].striker == x || bs[j].nonStriker == x) {
        var j :| 0 <= j < |bs| && (bs[j].striker == x || bs[j].nonStriker == x);
        if j < |init| {
          assert init[j] == bs[j];
        }
      }
    }
  }

  lemma {:induction false} BowlersIff(bs: seq<Ball>, x: string)
    ensures x in Bowlers(bs) <==> exists j :: 0 <= j < |bs| && bs[j].bowler == x
  {
    if bs != [] {
      var init := bs[..|bs| - 1];
      BowlersIff(init, x);
      if exists j :: 0 <= j < |init| && init[j].bowler == x {
        var j :| 0 <= j < |init| && init[j].bowler == x;
        assert bs[j] == init[j];
      }
      if exists j :: 0 <= j < |bs| && bs[j].bowler == x {
        var j :| 0 <= j < |bs| && bs[j].bowler == x;
        if j < |init| {
          assert init[j] == bs[j];
        }
      }
    }
  }

  /** Ball `i` shows the sides swapped: its striker bowled earlier, or its
      bowler batted earlier. */
  predicate RoleReversed(bs: seq<Ball>, i: nat)
    requires i < |bs|
  {
    bs[i].striker in Bowlers(bs[..i]) || bs[i].bowler in Batters(bs[..i])
  }

  /** The first ball at or after `i` that shows the sides swapped, or the
      length when none does. */
  function ScanFrom(bs: seq<Ball>, i: nat): (k: nat)
    requires 1 <= i <= |bs|
    ensures i <= k <= |bs|
    ensures k < |bs| ==> RoleReversed(bs, k)
    ensures forall j :: i <= j < k ==> !RoleReversed(bs, j)
    decreases |bs| - i
  {
    if i == |bs| then |bs|
    else if RoleReversed(bs, i) then i
    else ScanFrom(bs, i + 1)
  }

  /** Where the second innings starts: the first ball after the first one
      that shows the sides swapped; the whole list is the first innings when
      none does. */
  function SplitPoint(bs: seq<Ball>): (k: nat)
    ensures k <= |bs|
    ensures bs != [] ==> 1 <= k
    ensures k < |bs| ==> RoleReversed(bs, k)
    ensures forall j :: 1 <= j < k ==> !RoleReversed(bs, j)
  {
    if bs == [] then 0 else ScanFrom(bs, 1)
  }

  /** The split loop: the sets of first-innings batters and bowlers grow
      ball by ball until a ball shows the sides swapped. */
  method SplitIndex(balls: seq<Ball>) returns (splitIndex: nat)
    ensures splitIndex == SplitPoint(balls)
  {
    splitIndex := |balls|;
    if |balls| > 0 {
      var p1Batters: set<string> := {balls[0].striker, balls[0].nonStriker};
      var p1Bowlers: set<string> := {balls[0].bowler};
      assert balls[..1][..0] == [];
      var i := 1;
      while i < |balls|
        invariant 1 <= i <= |balls|
        invariant p1Batters == Batters(balls[..i]) && p1Bowlers == Bowlers(balls[..i])
        invariant ScanFrom(balls, i) == ScanFrom(balls, 1)
        invariant splitIndex == |balls|
      {
        var b := balls[i];
        if b.striker in p1Bowlers || b.bowler in p1Batters {
          splitIndex := i;
          break;
        }
        p1Batters := p1Batters + {b.striker, b.nonStriker};
        p1Bowlers := p1Bowlers + {b.bowler};
        assert balls[..i + 1][..i] == balls[..i];
        i := i + 1;
      }
    }
  }

  /** The split is right when the first innings never shows the sides
      swapped (nobody both bats and bowls in it) and the second innings'
      first ball does: its striker bowled, or its bowler batted, in the
      first. */
  lemma {:induction false} SplitRecoversInnings(first: seq<Ball>, second: seq<Ball>)
    requires first != []
    requires Batters(first) !! Bowlers(first)
    requires second != [] ==> second[0].striker in Bowlers(first) || second[0].bowler in Batters(first)
    ensures SplitPoint(first + second) == |first|
  {
    var bs := first + second;
    forall j | 1 <= j < |first|
      ensures !RoleReversed(bs, j)
    {
      assert bs[..j] == first[..j];
      var b := bs[j];
      assert b == first[j];
      SidesWithinPrefix(first, j);
      BattersIff(first, b.striker);
      BowlersIff(first, b.bowler);
    }
    if second != [] {
      assert bs[..|first|] == first;
      assert bs[|first|] == second[0];
      assert RoleReversed(bs, |first|);
    } else {
      assert bs == first;
    }
  }

  /** The players of a prefix are players of the whole list. */
  lemma SidesWithinPrefix(bs: seq<Ball>, n: nat)
    requires n <= |bs|
    ensures Batters(bs[..n]) <= Batters(bs) && Bowlers(bs[..n]) <= Bowlers(bs)
  {
    forall x | x in Batters(bs[..n])
      ensures x in Batters(bs)
    {
      BattersIff(bs[..n], x);
      var j :| 0 <= j < n && (bs[..n][j].striker == x || bs[..n][j].nonStriker == x);
      BattersIff(bs, x);
      assert bs[j] == bs[..n][j];
    }
    forall x | x in Bowlers(bs[..n])
      ensures x in Bowlers(bs)
    {
      BowlersIff(bs[..n], x);
      var j :| 0 <= j < n && bs[..n][j].bowler == x;
      BowlersIff(bs, x);
      assert bs[j] == bs[..n][j];
    }
  }

  // =====================================================================
  // Players of an innings

  /** Striker then non-striker of every ball, in order. */
  function BatterNames(bs: seq<Ball>): (r: seq<string>)
    ensures |r| == 2 * |bs|
  {
    if bs == [] then [] else BatterNames(bs[..|bs| - 1]) + [bs[|bs| - 1].striker, bs[|bs| - 1].nonStriker]
  }

  /** The bowler of every ball, in order. */
  function BowlerNames(bs: seq<Ball>): (r: seq<string>)
    ensures |r| == |bs|
  {
    if bs == [] then [] else BowlerNames(bs[..|bs| - 1]) + [bs[|bs| - 1].bowler]
  }

  /** getPlayersFromBalls: the batting and bowling squads, each player once,
      in order of first appearance. */
  function BattingSquad(bs: seq<Ball>): seq<string> {
    Dedup(BatterNames(bs))
  }

  function BowlingSquad(bs: seq<Ball>): seq<string> {
    Dedup(BowlerNames(bs))
  }

  lemma {:induction false} BatterNamesHold(bs: seq<Ball>, i: nat)
    requires i < |bs|
    ensures bs[i].striker in BatterNames(bs) && bs[i].nonStriker in BatterNames(bs)
  {
    var init := bs[..|bs| - 1];
    if i < |init| {
      BatterNamesHold(init, i);
      assert init[i] == bs[i];
    }
  }

  lemma {:induction false} BowlerNamesHold(bs: seq<Ball>, i: nat)
    requires i < |bs|
    ensures bs[i].bowler in BowlerNames(bs)
  {
    var init := bs[..|bs| - 1];
    if i < |init| {
      BowlerNamesHold(init, i);
      assert init[i] == bs[i];
    }
  }

  /** Bowling a legal ball puts it among the bowler's legal deliveries. */
  lemma {:induction false} BowledLegal(bs: seq<Ball>, i: nat)
    requires i < |bs| && bs[i].IsLegal()
    ensures CountLegal(StatsCalculator.BowledBy(bs, bs[i].bowler)) > 0
  {
    var name := bs[i].bowler;
    var init := bs[..|bs| - 1];
    var last := bs[|bs| - 1];
    var prior := StatsCalculator.BowledBy(init, name);
    if i < |init| {
      assert init[i] == bs[i];
      BowledLegal(init, i);
    }
    if last.bowler == name {
      var s := prior + [last];
      assert StatsCalculator.BowledBy(bs, name) == s;
      assert s[..|s| - 1] == prior;
      assert CountLegal(s) == CountLegal(prior) + (if last.IsLegal() then 1 else 0);
    } else {
      assert StatsCalculator.BowledBy(bs, name) == prior;
    }
  }

  // =====================================================================
  // Team names

  /** `squad.some(s => s.toLowerCase() === p.toLowerCase())` */
  predicate InSquad(p: string, squad: seq<string>) {
    exists s :: s in squad && Text.SameIgnoringCase(s, p)
  }

  /** countMatches: how many of the players are in the squad. */
  function CountMatches(players: seq<string>, squad: seq<string>): (n: nat)
    ensures n <= |players|
    ensures n == |players| <==> forall p :: p in players ==> InSquad(p, squad)
    ensures n == 0 <==> forall p :: p in players ==> !InSquad(p, squad)
  {
    if players == [] then 0
    else
      var init := players[..|players| - 1];
      assert players == init + [players[|players| - 1]];
      CountMatches(init, squad) + (if InSquad(players[|players| - 1], squad) then 1 else 0)
  }

  /** Squad membership ignores case. */
  lemma InSquadIgnoresCase(p: string, squad: seq<string>)
    ensures InSquad(p, squad) <==> InSquad(Text.ToLower(p), squad)
  {
    Text.ToLowerIdempotent(p);
  }

  /** The header names: the team whose squad holds more of the first
      innings' batters batted first; on a tie, the saved batting teams or
      the plain labels. */
  function TeamNames(m: MatchData, innings1Batters: seq<string>): (string, string) {
    var a := CountMatches(innings1Batters, m.squads.teamA);
    var b := CountMatches(innings1Batters, m.squads.teamB);
    if a > b then (m.meta.teamA, m.meta.teamB)
    else if b > a then (m.meta.teamB, m.meta.teamA)
    else
      (if m.innings1.Some? && m.innings1.value.battingTeam != "" then m.innings1.value.battingTeam else "Innings 1",
       if m.innings2.Some? && m.innings2.value.battingTeam != "" then m.innings2.value.battingTeam else "Innings 2")
  }

  /** When every first-innings batter is in one squad and none in the other,
      that squad's team is named as batting first and the other second. */
  lemma NamedBySquads(m: MatchData, batters: seq<string>)
    requires batters != []
    ensures (forall p :: p in batters ==> InSquad(p, m.squads.teamA) && !InSquad(p, m.squads.teamB)) ==>
      TeamNames(m, batters) == (m.meta.teamA, m.meta.teamB)
    ensures (forall p :: p in batters ==> InSquad(p, m.squads.teamB) && !InSquad(p, m.squads.teamA)) ==>
      TeamNames(m, batters) == (m.meta.teamB, m.meta.teamA)
  {
  }

  /** With as many batters in each squad, the names come from the saved
      innings where they exist and are otherwise the plain labels. */
  lemma NamesOnEqualCounts(m: MatchData, batters: seq<string>)
    requires CountMatches(batters, m.squads.teamA) == CountMatches(batters, m.squads.teamB)
    ensures m.innings1.None? ==> TeamNames(m, batters).0 == "Innings 1"
    ensures m.innings2.None? ==> TeamNames(m, batters).1 == "Innings 2"
    ensures m.innings1.Some? && m.innings1.value.battingTeam != "" ==>
      TeamNames(m, batters).0 == m.innings1.value.battingTeam
  {
  }

  // =====================================================================
  // The scorecard

  /** An innings as saved by the scorer, shown without its balls. */
  function SavedView(d: InningsData): InningsView {
    InningsView([], d.batsmanStats, d.bowlerStats, d.fallOfWickets, d.extras, d.totalRuns, d.totalWickets,
                OversNotation(d.oversBowled, d.ballsInCurrentOver))
  }

  /** An innings scored from its balls, with every player who appears in
      them as the squad. */
  function RebuiltView(bs: seq<Ball>): InningsView {
    InningsView(bs,
                StatsCalculator.AllBatsmanStatsOf(bs, BattingSquad(bs)),
                StatsCalculator.AllBowlerStatsOf(bs, BowlingSquad(bs)),
                StatsCalculator.FallOfWicketsOf(bs),
                StatsCalculator.ExtrasOf(bs),
                SumRuns(bs), CountWickets(bs), CalculateOvers(bs))
  }

  /** The processed match the scorecard renders. */
  function ScorecardOf(m: MatchData): Scorecard {
    if m.innings1.Some? && m.innings2.Some? then
      Scorecard(m.innings1.value.battingTeam, m.innings2.value.battingTeam,
                SavedView(m.innings1.value), SavedView(m.innings2.value))
    else
      var k := SplitPoint(m.balls);
      var names := TeamNames(m, BattingSquad(m.balls[..k]));
      Scorecard(names.0, names.1, RebuiltView(m.balls[..k]), RebuiltView(m.balls[k..]))
  }

  /** The scorecard computation, with the split loop and the statistics
      loops. */
  method ProcessMatch(m: MatchData) returns (c: Scorecard)
    ensures c == ScorecardOf(m)
  {
    if m.innings1.Some? && m.innings2.Some? {
      return Scorecard(m.innings1.value.battingTeam, m.innings2.value.battingTeam,
                       SavedView(m.innings1.value), SavedView(m.innings2.value));
    }
    var splitIndex := SplitIndex(m.balls);
    var balls1 := m.balls[..splitIndex];
    var balls2 := m.balls[splitIndex..];
    var innings1 := Rebuild(balls1);
    var innings2 := Rebuild(balls2);
    var names := TeamNames(m, BattingSquad(balls1));
    c := Scorecard(names.0, names.1, innings1, innings2);
  }

  method Rebuild(bs: seq<Ball>) returns (v: InningsView)
    ensures v == RebuiltView(bs)
  {
    var batStats := StatsCalculator.CalculateAllBatsmanStats(bs, BattingSquad(bs));
    var bowlStats := StatsCalculator.CalculateAllBowlerStats(bs, BowlingSquad(bs));
    var fow := StatsCalculator.CalculateFallOfWickets(bs);
    var extras := StatsCalculator.CalculateExtras(bs);
    v := InningsView(bs, batStats, bowlStats, fow, extras, SumRuns(bs), CountWickets(bs), CalculateOvers(bs));
  }

  /** With both innings saved, their totals, tables, fall of wickets,
      extras and batting teams are shown as saved. */
  lemma SavedInningsShown(m: MatchData)
    requires m.innings1.Some? && m.innings2.Some?
    ensures var c := ScorecardOf(m);
      && c.team1Name == m.innings1.value.battingTeam && c.team2Name == m.innings2.value.battingTeam
      && c.innings1.score == m.innings1.value.totalRuns && c.innings2.score == m.innings2.value.totalRuns
      && c.innings1.wickets == m.innings1.value.totalWickets && c.innings2.wickets == m.innings2.value.totalWickets
      && c.innings1.batStats == m.innings1.value.batsmanStats && c.innings2.bowlStats == m.innings2.value.bowlerStats
      && c.innings1.fow == m.innings1.value.fallOfWickets && c.innings2.extras == m.innings2.value.extras
  {
  }

  lemma {:induction false} FoldsAppend(a: seq<Ball>, b: seq<Ball>)
    ensures SumRuns(a + b) == SumRuns(a) + SumRuns(b)
    ensures CountWickets(a + b) == CountWickets(a) + CountWickets(b)
    ensures CountLegal(a + b) == CountLegal(a) + CountLegal(b)
  {
    if b != [] {
      var init := b[..|b| - 1];
      FoldsAppend(a, init);
      assert (a + b)[..|a + b| - 1] == a + init;
    } else {
      assert a + b == a;
    }
  }

  /** Without both saved innings, the two innings partition the ball list in
      order, the first is non-empty when any ball was bowled, and their
      runs, wickets and legal balls add up to the whole match's. */
  lemma RebuiltInningsPartition(m: MatchData)
    requires !(m.innings1.Some? && m.innings2.Some?)
    ensures var c := ScorecardOf(m);
      && c.innings1.balls + c.innings2.balls == m.balls
      && (m.balls != [] ==> c.innings1.balls != [])
      && c.innings1.score + c.innings2.score == SumRuns(m.balls)
      && c.innings1.wickets + c.innings2.wickets == CountWickets(m.balls)
  {
    var k := SplitPoint(m.balls);
    assert m.balls[..k] + m.balls[k..] == m.balls;
    FoldsAppend(m.balls[..k], m.balls[k..]);
  }

  /** Every player who faced or bowled a legal ball of a rebuilt innings has
      a row in its batting or bowling table. */
  lemma LegalPlayersListed(bs: seq<Ball>, i: nat)
    requires i < |bs| && bs[i].IsLegal()
    ensures bs[i].striker in RebuiltView(bs).batStats
    ensures bs[i].bowler in RebuiltView(bs).bowlStats
  {
    BatterNamesHold(bs, i);
    BowlerNamesHold(bs, i);
    StatsCalculator.BatsmanFacedIff(bs, bs[i].striker);
    BowledLegal(bs, i);
  }

  // =====================================================================
  // Top performers

  /** Batters by runs descending, then balls ascending. */
  function BatKey(s: BatsmanStats): (real, real) {
    (-(s.runs as real), s.balls as real)
  }

  /** Bowlers by wickets descending, then runs ascending. */
  function BowlKey(s: BowlerStats): (real, real) {
    (-(s.wickets as real), s.runs as real)
  }

  /** In a sorted sequence, every element of a prefix has a key no greater
      than any element after it. */
  lemma PrefixAhead<T>(s: seq<T>, key: T -> (real, real), k: nat)
    requires Sorting.SortedBy(s, key) && k <= |s|
    ensures forall i, x :: 0 <= i < k && x in multiset(s) - multiset(s[..k]) ==> Sorting.KeyLe(key(s[i]), key(x))
  {
    var rest := s[k..];
    assert s == s[..k] + rest;
    assert multiset(s) - multiset(s[..k]) == multiset(rest);
    forall i, x | 0 <= i < k && x in multiset(rest)
      ensures Sorting.KeyLe(key(s[i]), key(x))
    {
      var j :| 0 <= j < |rest| && rest[j] == x;
      assert s[k + j] == x;
    }
  }

  /** The first `n` after a stable sort: drawn from the input, in key order,
      and none left out ranks ahead of one taken. */
  lemma TopFacts<T>(arr: seq<T>, key: T -> (real, real), n: nat)
    ensures var r := Sorting.Take(Sorting.SortByKey(arr, key), n);
      && multiset(r) <= multiset(arr)
      && Sorting.SortedBy(r, key)
      && forall i, x :: 0 <= i < |r| && x in multiset(arr) - multiset(r) ==> Sorting.KeyLe(key(r[i]), key(x))
  {
    var s := Sorting.SortByKey(arr, key);
    var r := Sorting.Take(s, n);
    PrefixAhead(s, key, |r|);
    assert s == r + s[|r|..];
    assert multiset(s) == multiset(r) + multiset(s[|r|..]);
  }

  /** `a` is listed before `b` among batters. */
  predicate BatsAhead(a: BatsmanStats, b: BatsmanStats) {
    a.runs > b.runs || (a.runs == b.runs && a.balls <= b.balls)
  }

  /** `a` is listed before `b` among bowlers. */
  predicate BowlsAhead(a: BowlerStats, b: BowlerStats) {
    a.wickets > b.wickets || (a.wickets == b.wickets && a.runs <= b.runs)
  }

  lemma BatKeyOrder(a: BatsmanStats, b: BatsmanStats)
    ensures Sorting.KeyLe(BatKey(a), BatKey(b)) <==> BatsAhead(a, b)
  {
  }

  lemma BowlKeyOrder(a: BowlerStats, b: BowlerStats)
    ensures Sorting.KeyLe(BowlKey(a), BowlKey(b)) <==> BowlsAhead(a, b)
  {
  }

  lemma TopBattersFacts(arr: seq<BatsmanStats>)
    ensures var r := Sorting.Take(Sorting.SortByKey(arr, BatKey), 3);
      && (forall i, j :: 0 <= i < j < |r| ==> BatsAhead(r[i], r[j]))
      && (forall i, x :: 0 <= i < |r| && x in multiset(arr) - multiset(r) ==> BatsAhead(r[i], x))
  {
    var r := Sorting.Take(Sorting.SortByKey(arr, BatKey), 3);
    TopFacts(arr, BatKey, 3);
    forall i, j | 0 <= i < j < |r|
      ensures BatsAhead(r[i], r[j])
    {
      BatKeyOrder(r[i], r[j]);
    }
    forall i, x | 0 <= i < |r| && x in multiset(arr) - multiset(r)
      ensures BatsAhead(r[i], x)
    {
      BatKeyOrder(r[i], x);
    }
  }

  lemma TopBowlersFacts(arr: seq<BowlerStats>)
    ensures var r := Sorting.Take(Sorting.SortByKey(arr, BowlKey), 3);
      && (forall i, j :: 0 <= i < j < |r| ==> BowlsAhead(r[i], r[j]))
      && (forall i, x :: 0 <= i < |r| && x in multiset(arr) - multiset(r) ==> BowlsAhead(r[i], x))
  {
    var r := Sorting.Take(Sorting.SortByKey(arr, BowlKey), 3);
    TopFacts(arr, BowlKey, 3);
    forall i, j | 0 <= i < j < |r|
      ensures BowlsAhead(r[i], r[j])
    {
      BowlKeyOrder(r[i], r[j]);
    }
    forall i, x | 0 <= i < |r| && x in multiset(arr) - multiset(r)
      ensures BowlsAhead(r[i], x)
    {
      BowlKeyOrder(r[i], x);
    }
  }

  /** getTopPerformers for batters: at most three, most runs first, fewer
      balls first among equal runs, and nobody left out ahead of anyone
      shown. */
  function TopBatters(arr: seq<BatsmanStats>): (r: seq<BatsmanStats>)
    ensures |r| == if |arr| < 3 then |arr| else 3
    ensures multiset(r) <= multiset(arr)
    ensures forall i, j :: 0 <= i < j < |r| ==> BatsAhead(r[i], r[j])
    ensures forall i, x :: 0 <= i < |r| && x in multiset(arr) - multiset(r) ==> BatsAhead(r[i], x)
  {
    TopFacts(arr, BatKey, 3);
    TopBattersFacts(arr);
    Sorting.Take(Sorting.SortByKey(arr, BatKey), 3)
  }

  /** getTopPerformers for bowlers: at most three, most wickets first, fewer
      runs first among equal wickets, and nobody left out ahead of anyone
      shown. */
  function TopBowlers(arr: seq<BowlerStats>): (r: seq<BowlerStats>)
    ensures |r| == if |arr| < 3 then |arr| else 3
    ensures multiset(r) <= multiset(arr)
    ensures forall i, j :: 0 <= i < j < |r| ==> BowlsAhead(r[i], r[j])
    ensures forall i, x :: 0 <= i < |r| && x in multiset(arr) - multiset(r) ==> BowlsAhead(r[i], x)
  {
    TopFacts(arr, BowlKey, 3);
    TopBowlersFacts(arr);
    Sorting.Take(Sorting.SortByKey(arr, BowlKey), 3)
  }
}
