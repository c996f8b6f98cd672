/** Records shared by the admin and viewer apps: deliveries, live match state,
    match metadata, innings snapshots, statistics records and tournament
    fixtures/standings.  Optional fields of the original records are `Option`s,
    and a JavaScript "truthy string" test is `Present`. */
module Types {

  datatype Option<T> = None | Some(value: T)

  datatype Result<T> = Success(value: T) | Failure(error: string)

  /** `x ?? 0` */
  function OrZero(o: Option<nat>): nat {
    match o
    case Some(n) => n
    case None => 0
  }

  /** A string that JavaScript treats as true: present and non-empty. */
  predicate Present(o: Option<string>) {
    o.Some? && o.value != ""
  }

  /** `x || ""` for a nullable name. */
  function OrEmpty(o: Option<string>): string {
    match o
    case Some(s) => s
    case None => ""
  }

  /** The five-way extras classification of a delivery; at most one of the
      record's extras flags can be true. */
  datatype Extras = NoExtra | Wide | NoBall | Bye | LegBye

  datatype WicketKind = Bowled | Caught | RunOut | Lbw | Stumped | HitWicket

  /** The string a wicket kind is stored as. */
  function KindName(k: WicketKind): (s: string)
    ensures s != ""
  {
    match k
    case Bowled => "bowled"
    case Caught => "caught"
    case RunOut => "run_out"
    case Lbw => "lbw"
    case Stumped => "stumped"
    case HitWicket => "hit_wicket"
  }

  /** One recorded delivery.  `wicketKind` is kept as the stored string. */
  datatype Ball = Ball(
    ballNumber: int,
    overNumber: int,
    ballInOver: int,
    runsScored: nat,
    runsByBatsman: Option<nat>,
    extraRuns: nat,
    extras: Extras,
    isWicket: bool,
    wicketKind: Option<string>,
    playerOut: Option<string>,
    fielder: Option<string>,
    striker: string,
    nonStriker: string,
    bowler: string,
    isFreeHit: bool,
    partnershipRuns: nat)
  {
    predicate IsWide() { extras == Wide }
    predicate IsNoBall() { extras == NoBall }
    predicate IsBye() { extras == Bye }
    predicate IsLegBye() { extras == LegBye }
    /** Neither a wide nor a no-ball: counts towards the over. */
    predicate IsLegal() { !IsWide() && !IsNoBall() }
  }

  datatype Status = NotStarted | Live | InningsBreak | Completed

  datatype ResultType = Runs | Wickets | Tie | NoResult

  datatype MatchMeta = MatchMeta(
    teamA: string,
    teamB: string,
    oversPerInnings: int,
    status: Status,
    innings: int,
    battingTeam: string,
    bowlingTeam: string,
    winningTeam: Option<string>,
    targetScore: Option<int>,
    matchResult: Option<string>,
    matchResultType: Option<ResultType>)

  datatype MatchState = MatchState(
    totalRuns: nat,
    totalWickets: nat,
    legalBalls: nat,
    oversBowled: nat,
    ballsInCurrentOver: nat,
    currentStriker: Option<string>,
    currentNonStriker: Option<string>,
    currentBowler: Option<string>,
    isFreeHit: bool,
    battingOrder: Option<seq<string>>,
    nextBatsmanIndex: Option<nat>,
    lastOverBowler: Option<string>,
    currentPartnershipRuns: Option<nat>,
    currentPartnershipBalls: Option<nat>)

  /** The state every new innings starts from: all counters zero, no players
      selected, no free hit.  Match creation uses an empty batting order; the
      second innings carries the first innings' order over. */
  function FreshState(battingOrder: seq<string>): (s: MatchState)
    ensures s.totalRuns == 0 && s.totalWickets == 0 && s.legalBalls == 0
    ensures s.oversBowled == 0 && s.ballsInCurrentOver == 0
    ensures s.currentStriker.None? && s.currentNonStriker.None? && s.currentBowler.None?
    ensures s.lastOverBowler.None? && !s.isFreeHit
    ensures s.battingOrder == Some(battingOrder) && s.nextBatsmanIndex == Some(0)
    ensures s.currentPartnershipRuns == Some(0) && s.currentPartnershipBalls == Some(0)
  {
    MatchState(0, 0, 0, 0, 0, None, None, None, false, Some(battingOrder), Some(0), None, Some(0), Some(0))
  }

  datatype BatsmanStats = BatsmanStats(
    name: string,
    runs: nat,
    balls: nat,
    fours: nat,
    sixes: nat,
    strikeRate: real,
    isOut: bool,
    howOut: Option<string>)

  datatype BowlerStats = BowlerStats(
    name: string,
    overs: nat,
    balls: nat,
    runs: nat,
    wickets: nat,
    economy: real,
    maidens: nat,
    wides: nat,
    noBalls: nat)

  datatype FallOfWicket = FallOfWicket(
    playerOut: string,
    score: nat,
    wicketNumber: nat,
    oversBowled: int,
    ballsInOver: int,
    wicketKind: string,
    bowler: string,
    fielder: Option<string>)

  datatype Partnership = Partnership(
    batsman1: string,
    batsman2: string,
    runs: nat,
    balls: nat,
    startWicket: nat,
    endWicket: Option<nat>,
    isActive: bool)

  datatype ExtrasBreakdown = ExtrasBreakdown(wides: nat, noBalls: nat, byes: nat, legByes: nat, total: nat)

  datatype InningsData = InningsData(
    battingTeam: string,
    bowlingTeam: string,
    totalRuns: nat,
    totalWickets: nat,
    oversBowled: nat,
    ballsInCurrentOver: nat,
    legalBalls: nat,
    fallOfWickets: seq<FallOfWicket>,
    partnerships: seq<Partnership>,
    batsmanStats: map<string, BatsmanStats>,
    bowlerStats: map<string, BowlerStats>,
    extras: ExtrasBreakdown)

  datatype Squads = Squads(teamA: seq<string>, teamB: seq<string>)

  datatype MatchData = MatchData(
    meta: MatchMeta,
    squads: Squads,
    state: MatchState,
    balls: seq<Ball>,
    innings1: Option<InningsData>,
    innings2: Option<InningsData>,
    lastUpdatedAt: int)

  /** The scoring lock written when an admin creates a match. */
  datatype Lock = Lock(adminId: string, adminUsername: string, lockedAt: int)

  /** The tournament and fixture a tournament match plays, as the optional
      `tournamentId` and `fixtureId` fields of its stored record. */
  datatype FixtureLink = FixtureLink(tournamentId: string, fixtureId: string)

  /** A match record as the admin app stores it, with its administrative
      fields; `tournament` is None when the record has no tournament fields. */
  datatype StoredMatch = StoredMatch(matchId: string, createdBy: string, lock: Lock, data: MatchData,
                                     tournament: Option<FixtureLink>)

  datatype Group = GroupA | GroupB | Semi | Final

  function GroupName(g: Group): string {
    match g
    case GroupA => "A"
    case GroupB => "B"
    case Semi => "SEMI"
    case Final => "FINAL"
  }

  datatype FixtureStatus = Scheduled | FixtureLive | FixtureCompleted

  datatype TournamentFixture = TournamentFixture(
    id: string,
    teamA_id: string,
    teamB_id: string,
    group: Group,
    status: FixtureStatus,
    matchId: Option<string>)

  datatype GroupStandings = GroupStandings(
    team_id: string,
    played: nat,
    won: nat,
    lost: nat,
    tied: nat,
    points: nat,
    nrr: real)

  datatype TournamentState = TournamentState(
    groupA: seq<string>,
    groupB: seq<string>,
    isSetupComplete: bool,
    fixtures: map<string, TournamentFixture>)

  // ---------------------------------------------------------------------
  // Folds over a ball list, defined from the end so that a loop over a
  // prefix extends them one ball at a time.

  /** Total of `runsScored`. */
  function SumRuns(bs: seq<Ball>): nat {
    if bs == [] then 0 else SumRuns(bs[..|bs| - 1]) + bs[|bs| - 1].runsScored
  }

  /** Number of legal deliveries (neither wide nor no-ball). */
  function CountLegal(bs: seq<Ball>): (n: nat)
    ensures n <= |bs|
  {
    if bs == [] then 0 else CountLegal(bs[..|bs| - 1]) + (if bs[|bs| - 1].IsLegal() then 1 else 0)
  }

  /** Number of deliveries with `isWicket`. */
  function CountWickets(bs: seq<Ball>): (n: nat)
    ensures n <= |bs|
  {
    if bs == [] then 0 else CountWickets(bs[..|bs| - 1]) + (if bs[|bs| - 1].isWicket then 1 else 0)
  }

  /** Distinct elements in order of first occurrence (a JavaScript `Set`
      turned back into an array, or the key order of a record). */
  function Dedup(xs: seq<string>): (r: seq<string>)
    ensures forall x :: x in r <==> x in xs
    ensures forall i, j :: 0 <= i < j < |r| ==> r[i] != r[j]
  {
    if xs == [] then []
    else
      var r := Dedup(xs[..|xs| - 1]);
      if xs[|xs| - 1] in r then r else r + [xs[|xs| - 1]]
  }
}
