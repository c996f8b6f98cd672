/** The tournament screen of the admin app: choosing the four teams of each
    group, turning the two groups into one fixture table keyed by fixture
    id, and starting a fixture's match.  The team and player lists are
    inputs; the clock is a parameter. */
module TournamentDashboard {
  import opened Types
  import Text
  import TournamentAdmin
  import CreateMatch
  import ScoringDashboard

  // =====================================================================
  // Group selection

  datatype Side = SideA | SideB

  /** `list.filter(id => id !== x)` */
  function Without(s: seq<string>, x: string): (r: seq<string>)
    ensures |r| <= |s|
    ensures forall y :: y in r <==> y in s && y != x
  {
    if s == [] then []
    else
      var r := Without(s[..|s| - 1], x);
      assert s == s[..|s| - 1] + [s[|s| - 1]];
      if s[|s| - 1] == x then r else r + [s[|s| - 1]]
  }

  /** Dropping an element from a duplicate-free list keeps it so. */
  lemma {:induction false} WithoutDistinct(s: seq<string>, x: string)
    requires TournamentAdmin.Distinct(s)
    ensures TournamentAdmin.Distinct(Without(s, x))
  {
    if s != [] {
      var init := s[..|s| - 1];
      assert TournamentAdmin.Distinct(init) by {
        forall a, b | 0 <= a < |init| && 0 <= b < |init| && a != b
          ensures init[a] != init[b]
        {
          assert init[a] == s[a] && init[b] == s[b];
        }
      }
      WithoutDistinct(init, x);
      var last := s[|s| - 1];
      forall k | 0 <= k < |init| ensures init[k] != last {
        assert init[k] == s[k];
      }
      assert s == init + [last];
      if last != x {
        AppendDistinct(Without(init, x), last);
      }
    }
  }

  /** Removing an element that was added last restores the list. */
  lemma {:induction false} WithoutAppended(s: seq<string>, x: string)
    requires x !in s
    ensures Without(s + [x], x) == s
  {
    var t := s + [x];
    assert t[..|t| - 1] == s;
    WithoutAbsent(s, x);
  }

  lemma {:induction false} WithoutAbsent(s: seq<string>, x: string)
    requires x !in s
    ensures Without(s, x) == s
  {
    if s != [] {
      WithoutAbsent(s[..|s| - 1], x);
      assert s == s[..|s| - 1] + [s[|s| - 1]];
    }
  }

  /** The selection the setup screen holds. */
  datatype Selection = Selection(groupA: seq<string>, groupB: seq<string>)

  /** Each group holds at most four teams, none twice, and no team is in
      both groups. */
  predicate SelectionOk(s: Selection) {
    && |s.groupA| <= 4 && |s.groupB| <= 4
    && TournamentAdmin.Distinct(s.groupA) && TournamentAdmin.Distinct(s.groupB)
    && (forall t :: t in s.groupA ==> t !in s.groupB)
  }

  /** handleToggleGroupSelection: a selected team leaves its group; an
      unselected one joins it when the group has room and the team is not
      in the other group; otherwise nothing changes. */
  function Toggle(s: Selection, teamId: string, side: Side): (r: Selection)
    ensures side == SideA ==> r.groupB == s.groupB
    ensures side == SideB ==> r.groupA == s.groupA
    ensures side == SideA ==> (teamId in r.groupA <==> teamId !in s.groupA && |s.groupA| < 4 && teamId !in s.groupB)
    ensures side == SideB ==> (teamId in r.groupB <==> teamId !in s.groupB && |s.groupB| < 4 && teamId !in s.groupA)
    ensures forall t :: t != teamId ==> (t in r.groupA <==> t in s.groupA) && (t in r.groupB <==> t in s.groupB)
  {
    match side
    case SideA =>
      if teamId in s.groupA then s.(groupA := Without(s.groupA, teamId))
      else if |s.groupA| < 4 && teamId !in s.groupB then s.(groupA := s.groupA + [teamId])
      else s
    case SideB =>
      if teamId in s.groupB then s.(groupB := Without(s.groupB, teamId))
      else if |s.groupB| < 4 && teamId !in s.groupA then s.(groupB := s.groupB + [teamId])
      else s
  }

  /** Toggling keeps the groups disjoint, duplicate-free and at most four
      teams each. */
  lemma ToggleKeepsSelectionOk(s: Selection, teamId: string, side: Side)
    requires SelectionOk(s)
    ensures SelectionOk(Toggle(s, teamId, side))
  {
    var r := Toggle(s, teamId, side);
    match side
    case SideA =>
      if teamId in s.groupA {
        WithoutDistinct(s.groupA, teamId);
      } else if |s.groupA| < 4 && teamId !in s.groupB {
        AppendDistinct(s.groupA, teamId);
      }
    case SideB =>
      if teamId in s.groupB {
        WithoutDistinct(s.groupB, teamId);
      } else if |s.groupB| < 4 && teamId !in s.groupA {
        AppendDistinct(s.groupB, teamId);
      }
  }

  lemma AppendDistinct(s: seq<string>, x: string)
    requires TournamentAdmin.Distinct(s) && x !in s
    ensures TournamentAdmin.Distinct(s + [x])
  {
    var t := s + [x];
    forall a, b | 0 <= a < |t| && 0 <= b < |t| && a != b
      ensures t[a] != t[b]
    {
      if a < |s| && b < |s| {
        assert t[a] == s[a] && t[b] == s[b];
      }
    }
  }

  /** Selecting a team and then clicking it again restores the selection. */
  lemma ToggleTwiceRestores(s: Selection, teamId: string, side: Side)
    requires side == SideA ==> teamId !in s.groupA && |s.groupA| < 4 && teamId !in s.groupB
    requires side == SideB ==> teamId !in s.groupB && |s.groupB| < 4 && teamId !in s.groupA
    ensures Toggle(Toggle(s, teamId, side), teamId, side) == s
  {
    match side
    case SideA => WithoutAppended(s.groupA, teamId);
    case SideB => WithoutAppended(s.groupB, teamId);
  }

  // =====================================================================
  // Tournament setup

  /** The fixtures stored under their ids, later ones replacing earlier
      ones with the same id. */
  function FixtureTable(fs: seq<TournamentFixture>): (m: map<string, TournamentFixture>)
    ensures forall id :: id in m <==> exists k :: 0 <= k < |fs| && fs[k].id == id
    ensures forall k :: 0 <= k < |fs| ==> fs[k].id in m
  {
    if fs == [] then map[]
    else
      var init := fs[..|fs| - 1];
      var m := FixtureTable(init);
      assert forall k :: 0 <= k < |init| ==> init[k] == fs[k];
      m[fs[|fs| - 1].id := fs[|fs| - 1]]
  }

  /** The loop that fills the fixture table. */
  method IndexFixtures(fs: seq<TournamentFixture>) returns (fixturesObj: map<string, TournamentFixture>)
    ensures fixturesObj == FixtureTable(fs)
  {
    fixturesObj := map[];
    var i := 0;
    while i < |fs|
      invariant 0 <= i <= |fs|
      invariant fixturesObj == FixtureTable(fs[..i])
    {
      fixturesObj := fixturesObj[fs[i].id := fs[i]];
      assert fs[..i + 1][..i] == fs[..i];
      i := i + 1;
    }
    assert fs[..i] == fs;
  }

  predicate DistinctIds(fs: seq<TournamentFixture>) {
    forall k1, k2 :: 0 <= k1 < k2 < |fs| ==> fs[k1].id != fs[k2].id
  }

  /** With distinct ids every fixture is stored under its own id and the
      table has one entry per fixture. */
  lemma {:induction false} FixtureTableOfDistinct(fs: seq<TournamentFixture>)
    requires DistinctIds(fs)
    ensures |FixtureTable(fs)| == |fs|
    ensures forall k :: 0 <= k < |fs| ==> FixtureTable(fs)[fs[k].id] == fs[k]
  {
    if fs != [] {
      var init := fs[..|fs| - 1];
      var last := fs[|fs| - 1];
      DistinctInit(fs);
      FixtureTableOfDistinct(init);
      var m := FixtureTable(init);
      assert last.id !in m by {
        forall k | 0 <= k < |init| ensures init[k].id != last.id {
          assert init[k] == fs[k];
        }
      }
      assert FixtureTable(fs) == m[last.id := last];
      forall k | 0 <= k < |fs| ensures FixtureTable(fs)[fs[k].id] == fs[k] {
        if k < |init| {
          assert init[k] == fs[k];
          assert m[fs[k].id] == fs[k];
          assert fs[k].id != last.id;
        }
      }
    }
  }

  /** Without its last fixture the list still has distinct ids, none of
      them the last fixture's. */
  lemma DistinctInit(fs: seq<TournamentFixture>)
    requires DistinctIds(fs) && fs != []
    ensures DistinctIds(fs[..|fs| - 1])
    ensures forall k :: 0 <= k < |fs| - 1 ==> fs[k].id != fs[|fs| - 1].id
  {
    var init := fs[..|fs| - 1];
    forall k1, k2 | 0 <= k1 < k2 < |init| ensures init[k1].id != init[k2].id {
      assert init[k1] == fs[k1] && init[k2] == fs[k2];
    }
    forall k | 0 <= k < |init| ensures fs[k].id != fs[|fs| - 1].id {
      assert init[k] == fs[k];
    }
  }

  /** handleSetup: with exactly four teams in each group, both groups'
      fixtures in one table keyed by id; otherwise the alert. */
  function SetupOf(s: Selection): (r: Result<TournamentState>)
    ensures r.Failure? <==> |s.groupA| != 4 || |s.groupB| != 4
    ensures r.Failure? ==> r.error == "Please assign exactly 4 teams to each group."
    ensures r.Success? ==>
      r.value.groupA == s.groupA && r.value.groupB == s.groupB && r.value.isSetupComplete
  {
    if |s.groupA| != 4 || |s.groupB| != 4 then Failure("Please assign exactly 4 teams to each group.")
    else
      Success(TournamentState(s.groupA, s.groupB, true,
        FixtureTable(TournamentAdmin.GroupFixtures(s.groupA, GroupA) + TournamentAdmin.GroupFixtures(s.groupB, GroupB))))
  }

  predicate NoSeparator(teams: seq<string>) {
    forall k :: 0 <= k < |teams| ==> '_' !in teams[k]
  }

  /** The fixtures of one group of distinct '_'-free teams have distinct
      ids, all naming that group. */
  lemma GroupIdsDistinct(teams: seq<string>, g: Group)
    requires TournamentAdmin.Distinct(teams) && NoSeparator(teams)
    ensures DistinctIds(TournamentAdmin.GroupFixtures(teams, g))
    ensures forall k :: 0 <= k < |TournamentAdmin.GroupFixtures(teams, g)| ==>
      exists a, b :: '_' !in a && '_' !in b && TournamentAdmin.GroupFixtures(teams, g)[k].id == TournamentAdmin.FixtureId(g, a, b)
  {
    var r := TournamentAdmin.GroupFixtures(teams, g);
    var ps := TournamentAdmin.Upto(|teams|, |teams|);
    TournamentAdmin.GroupFixturesPairs(teams, g);
    forall k | 0 <= k < |r|
      ensures exists a, b :: '_' !in a && '_' !in b && r[k].id == TournamentAdmin.FixtureId(g, a, b)
    {
      assert r[k].id == TournamentAdmin.FixtureId(g, teams[ps[k].0], teams[ps[k].1]);
    }
    forall k1, k2 | 0 <= k1 < k2 < |r|
      ensures r[k1].id != r[k2].id
    {
      TournamentAdmin.NoRepeatedPair(teams, g, k1, k2);
      if r[k1].id == r[k2].id {
        TournamentAdmin.FixtureIdInjective(g, r[k1].teamA_id, r[k1].teamB_id, g, r[k2].teamA_id, r[k2].teamB_id);
      }
    }
  }

  /** Fixtures of different groups never share an id. */
  lemma GroupsIdsApart(ta: seq<string>, tb: seq<string>)
    requires TournamentAdmin.Distinct(ta) && NoSeparator(ta) && TournamentAdmin.Distinct(tb) && NoSeparator(tb)
    ensures DistinctIds(TournamentAdmin.GroupFixtures(ta, GroupA) + TournamentAdmin.GroupFixtures(tb, GroupB))
  {
    var fa := TournamentAdmin.GroupFixtures(ta, GroupA);
    var fb := TournamentAdmin.GroupFixtures(tb, GroupB);
    var fs := fa + fb;
    GroupIdsDistinct(ta, GroupA);
    GroupIdsDistinct(tb, GroupB);
    forall k1, k2 | 0 <= k1 < k2 < |fs|
      ensures fs[k1].id != fs[k2].id
    {
      if k2 < |fa| {
        assert fs[k1] == fa[k1] && fs[k2] == fa[k2];
      } else if k1 >= |fa| {
        assert fs[k1] == fb[k1 - |fa|] && fs[k2] == fb[k2 - |fa|];
      } else {
        assert fs[k1] == fa[k1] && fs[k2] == fb[k2 - |fa|];
        var a1, b1 :| '_' !in a1 && '_' !in b1 && fa[k1].id == TournamentAdmin.FixtureId(GroupA, a1, b1);
        var a2, b2 :| '_' !in a2 && '_' !in b2 && fb[k2 - |fa|].id == TournamentAdmin.FixtureId(GroupB, a2, b2);
        if fa[k1].id == fb[k2 - |fa|].id {
          TournamentAdmin.FixtureIdInjective(GroupA, a1, b1, GroupB, a2, b2);
        }
      }
    }
  }

  /** Four teams make six scheduled fixtures. */
  lemma GroupOfFour(teams: seq<string>, g: Group)
    requires |teams| == 4
    ensures |TournamentAdmin.GroupFixtures(teams, g)| == 6
    ensures forall k :: 0 <= k < 6 ==> TournamentAdmin.GroupFixtures(teams, g)[k].status == Scheduled
  {
    TournamentAdmin.GroupFixturesShape(teams, g);
  }

  /** A valid selection of '_'-free team ids sets up twelve fixtures, six
      per group, each scheduled and stored under its own id. */
  lemma SetupTwelveFixtures(s: Selection)
    requires SelectionOk(s) && |s.groupA| == 4 && |s.groupB| == 4
    requires NoSeparator(s.groupA) && NoSeparator(s.groupB)
    ensures SetupOf(s).Success?
    ensures var t := SetupOf(s).value.fixtures;
      var fs := TournamentAdmin.GroupFixtures(s.groupA, GroupA) + TournamentAdmin.GroupFixtures(s.groupB, GroupB);
      && |fs| == 12 && |t| == 12
      && (forall k :: 0 <= k < 12 ==> t[fs[k].id] == fs[k] && fs[k].status == Scheduled)
  {
    var fa := TournamentAdmin.GroupFixtures(s.groupA, GroupA);
    var fb := TournamentAdmin.GroupFixtures(s.groupB, GroupB);
    var fs := fa + fb;
    GroupOfFour(s.groupA, GroupA);
    GroupOfFour(s.groupB, GroupB);
    GroupsIdsApart(s.groupA, s.groupB);
    FixtureTableOfDistinct(fs);
    forall k | 0 <= k < |fs| ensures fs[k].status == Scheduled {
      if k < 6 {
        assert fs[k] == fa[k];
      } else {
        assert fs[k] == fb[k - 6];
      }
    }
  }

  /** The setup screen's state and its two actions. */
  class SetupScreen {
    var selectedGroupA: seq<string>
    var selectedGroupB: seq<string>

    function Current(): Selection
      reads this
    {
      Selection(selectedGroupA, selectedGroupB)
    }

    constructor()
      ensures Current() == Selection([], [])
      ensures SelectionOk(Current())
    {
      selectedGroupA := [];
      selectedGroupB := [];
    }

    /** handleToggleGroupSelection */
    method HandleToggleGroupSelection(teamId: string, group: Side)
      modifies this
      ensures Current() == Toggle(old(Current()), teamId, group)
      ensures old(SelectionOk(Current())) ==> SelectionOk(Current())
    {
      if SelectionOk(Current()) {
        ToggleKeepsSelectionOk(Current(), teamId, group);
      }
      if group == SideA {
        if teamId in selectedGroupA {
          selectedGroupA := Without(selectedGroupA, teamId);
        } else if |selectedGroupA| < 4 && teamId !in selectedGroupB {
          selectedGroupA := selectedGroupA + [teamId];
        }
      } else {
        if teamId in selectedGroupB {
          selectedGroupB := Without(selectedGroupB, teamId);
        } else if |selectedGroupB| < 4 && teamId !in selectedGroupA {
          selectedGroupB := selectedGroupB + [teamId];
        }
      }
    }

    /** handleSetup: the tournament record to write, built with the
        fixture-table loop. */
    method HandleSetup() returns (r: Result<TournamentState>)
      ensures r == SetupOf(Current())
    {
      if |selectedGroupA| != 4 || |selectedGroupB| != 4 {
        return Failure("Please assign exactly 4 teams to each group.");
      }
      var fixturesA := TournamentAdmin.GenerateGroupFixtures(selectedGroupA, GroupA);
      var fixturesB := TournamentAdmin.GenerateGroupFixtures(selectedGroupB, GroupB);
      var fixturesObj := IndexFixtures(fixturesA + fixturesB);
      r := Success(TournamentState(selectedGroupA, selectedGroupB, true, fixturesObj));
    }
  }

  // =====================================================================
  // Starting a fixture's match

  /** An entry of the bundled team list and of the bundled player list. */
  datatype Team = Team(team_id: string, name: string)
  datatype Player = Player(team_id: string, name: string)

  /** `teams.find(t => t.team_id === id)` */
  function FindTeam(teams: seq<Team>, id: string): (r: Option<Team>)
    ensures r.None? <==> forall k :: 0 <= k < |teams| ==> teams[k].team_id != id
    ensures r.Some? ==>
      exists k :: (0 <= k < |teams| && teams[k] == r.value && teams[k].team_id == id &&
                   forall j :: 0 <= j < k ==> teams[j].team_id != id)
  {
    if teams == [] then None
    else if teams[0].team_id == id then Some(teams[0])
    else
      var r := FindTeam(teams[1..], id);
      assert forall k :: 1 <= k < |teams| ==> teams[k] == teams[1..][k - 1];
      if r.Some? then
        var k :| 0 <= k < |teams[1..]| && teams[1..][k] == r.value && teams[1..][k].team_id == id &&
          forall j :: 0 <= j < k ==> teams[1..][j].team_id != id;
        assert teams[k + 1] == teams[1..][k];
        r
      else r
  }

  /** The names of a team's players, in list order. */
  function SquadOf(players: seq<Player>, teamId: string): (r: seq<string>)
    ensures |r| <= |players|
    ensures forall x :: x in r <==> exists k :: 0 <= k < |players| && players[k].team_id == teamId && players[k].name == x
  {
    if players == [] then []
    else
      var init := players[..|players| - 1];
      var p := players[|players| - 1];
      assert forall k :: 0 <= k < |init| ==> init[k] == players[k];
      SquadOf(init, teamId) + (if p.team_id == teamId then [p.name] else [])
  }

  /** The side that bats first: the toss winner if they chose to bat, else
      the team that is not the toss winner. */
  function BattingTeam(teamA: Team, teamB: Team, tossWinner: string, batFirst: bool): string {
    if batFirst then tossWinner
    else if tossWinner == teamA.name then teamB.name
    else teamA.name
  }

  /** The other side. */
  function BowlingTeam(teamA: Team, teamB: Team, battingTeam: string): string {
    if battingTeam == teamA.name then teamB.name else teamA.name
  }

  /** With the toss winner one of two differently named teams, the side
      that bats first is the toss winner exactly when they chose to bat,
      and the two sides are the two teams. */
  lemma TossDecidesSides(teamA: Team, teamB: Team, tossWinner: string, batFirst: bool)
    requires teamA.name != teamB.name && (tossWinner == teamA.name || tossWinner == teamB.name)
    ensures var bat := BattingTeam(teamA, teamB, tossWinner, batFirst);
      var bowl := BowlingTeam(teamA, teamB, bat);
      && (bat == tossWinner <==> batFirst)
      && bat != bowl
      && {bat, bowl} == {teamA.name, teamB.name}
  {
  }

  /** What starting a match writes: the new match record and the fixture
      table with that fixture live and linked to it. */
  datatype Kickoff = Kickoff(stored: StoredMatch, fixtures: map<string, TournamentFixture>)

  /** `match_${fixture.id}_${now}` */
  function KickoffMatchId(fixture: TournamentFixture, now: int): string {
    "match_" + fixture.id + "_" + Text.IntToString(now)
  }

  /** handleStartMatch: nothing when either team is missing from the team
      list; otherwise the new live match and the updated fixture. */
  function HandleStartMatch(fixtures: map<string, TournamentFixture>, teams: seq<Team>, players: seq<Player>,
                            fixture: TournamentFixture, tossWinner: string, batFirst: bool, overs: int,
                            adminId: string, adminUsername: string, now: int): (r: Option<Kickoff>)
    ensures r.None? <==> FindTeam(teams, fixture.teamA_id).None? || FindTeam(teams, fixture.teamB_id).None?
    ensures r.Some? ==>
      var teamA := FindTeam(teams, fixture.teamA_id).value;
      var teamB := FindTeam(teams, fixture.teamB_id).value;
      var d := r.value.stored.data;
      && r.value.stored.matchId == KickoffMatchId(fixture, now)
      && r.value.stored.createdBy == adminId && r.value.stored.lock == Lock(adminId, adminUsername, now)
      && d.meta.teamA == teamA.name && d.meta.teamB == teamB.name
      && d.meta.battingTeam == BattingTeam(teamA, teamB, tossWinner, batFirst)
      && d.meta.bowlingTeam == BowlingTeam(teamA, teamB, d.meta.battingTeam)
      && d.meta.status == Live && d.meta.innings == 1 && d.meta.oversPerInnings == overs
      && d.squads == Squads(SquadOf(players, teamA.team_id), SquadOf(players, teamB.team_id))
      && d.state == FreshState([]) && d.balls == []
      && r.value.stored.tournament.None?
      && fixture.id in r.value.fixtures
      && r.value.fixtures[fixture.id].status == FixtureLive
      && r.value.fixtures[fixture.id].matchId == Some(r.value.stored.matchId)
      && (forall id :: id != fixture.id ==> (id in r.value.fixtures <==> id in fixtures))
      && (forall id :: id != fixture.id && id in fixtures ==> r.value.fixtures[id] == fixtures[id])
  {
    var a := FindTeam(teams, fixture.teamA_id);
    var b := FindTeam(teams, fixture.teamB_id);
    if a.None? || b.None? then None
    else
      var teamA := a.value;
      var teamB := b.value;
      var matchId := KickoffMatchId(fixture, now);
      var battingTeam := BattingTeam(teamA, teamB, tossWinner, batFirst);
      var bowlingTeam := BowlingTeam(teamA, teamB, battingTeam);
      var data := MatchData(
        MatchMeta(teamA.name, teamB.name, overs, Live, 1, battingTeam, bowlingTeam, None, None, None, None),
        Squads(SquadOf(players, teamA.team_id), SquadOf(players, teamB.team_id)),
        FreshState([]),
        [],
        None, None,
        now);
      var stored := if fixture.id in fixtures then fixtures[fixture.id] else fixture;
      Some(Kickoff(StoredMatch(matchId, adminId, Lock(adminId, adminUsername, now), data, None),
                   fixtures[fixture.id := stored.(status := FixtureLive, matchId := Some(matchId))]))
  }

  /** When team A bats first, a kicked-off match is the match the creation
      form builds from the same names, squads and overs. */
  lemma KickoffLikeCreate(fixtures: map<string, TournamentFixture>, teams: seq<Team>, players: seq<Player>,
                          fixture: TournamentFixture, tossWinner: string, batFirst: bool, overs: int,
                          adminId: string, adminUsername: string, now: int)
    requires var r := HandleStartMatch(fixtures, teams, players, fixture, tossWinner, batFirst, overs, adminId, adminUsername, now);
      r.Some? && r.value.stored.data.meta.battingTeam == r.value.stored.data.meta.teamA
    requires FindTeam(teams, fixture.teamA_id).value.name != FindTeam(teams, fixture.teamB_id).value.name
    ensures var r := HandleStartMatch(fixtures, teams, players, fixture, tossWinner, batFirst, overs, adminId, adminUsername, now);
      var d := r.value.stored.data;
      d == CreateMatch.NewMatchData(CreateMatch.MatchForm(d.meta.teamA, d.meta.teamB, overs, "", ""),
                                    d.squads.teamA, d.squads.teamB, now)
  {
  }

  /** The tournament whose fixtures the kickoff updates. */
  const TournamentId := "vcl2026"

  /** As written, the kicked-off match record has no tournament or fixture
      id, so however it is scored later, no submitted delivery completes
      its fixture: the fixture stays live even after the match ends. */
  lemma KickoffNeverCompletesFixture(fixtures: map<string, TournamentFixture>, teams: seq<Team>, players: seq<Player>,
                                     fixture: TournamentFixture, tossWinner: string, batFirst: bool, overs: int,
                                     adminId: string, adminUsername: string, now: int,
                                     data: MatchData, panel: ScoringDashboard.Panel, form: ScoringDashboard.Form, later: int)
    requires HandleStartMatch(fixtures, teams, players, fixture, tossWinner, batFirst, overs, adminId, adminUsername, now).Some?
    ensures var k := HandleStartMatch(fixtures, teams, players, fixture, tossWinner, batFirst, overs, adminId, adminUsername, now).value;
      ScoringDashboard.SubmitBall(data, panel, form, k.stored.tournament, later).completeFixture.None?
  {
  }

  /** handleStartMatch as evidently intended: the same kickoff, with the
      match record also carrying the tournament and the fixture it plays. */
  function HandleStartMatchLinked(fixtures: map<string, TournamentFixture>, teams: seq<Team>, players: seq<Player>,
                                  fixture: TournamentFixture, tossWinner: string, batFirst: bool, overs: int,
                                  adminId: string, adminUsername: string, now: int): (r: Option<Kickoff>)
    ensures var w := HandleStartMatch(fixtures, teams, players, fixture, tossWinner, batFirst, overs, adminId, adminUsername, now);
      && (r.None? <==> w.None?)
      && (r.Some? ==> r.value.fixtures == w.value.fixtures
                      && r.value.stored.data == w.value.stored.data
                      && r.value.stored.tournament == Some(FixtureLink(TournamentId, fixture.id)))
  {
    match HandleStartMatch(fixtures, teams, players, fixture, tossWinner, batFirst, overs, adminId, adminUsername, now)
    case None => None
    case Some(k) => Some(k.(stored := k.stored.(tournament := Some(FixtureLink(TournamentId, fixture.id)))))
  }

  /** With the link stored, a delivery that ends the match completes exactly
      the fixture that was started, which the kickoff keeps in the table. */
  lemma LinkedKickoffCompletesFixture(fixtures: map<string, TournamentFixture>, teams: seq<Team>, players: seq<Player>,
                                      fixture: TournamentFixture, tossWinner: string, batFirst: bool, overs: int,
                                      adminId: string, adminUsername: string, now: int,
                                      data: MatchData, panel: ScoringDashboard.Panel, form: ScoringDashboard.Form, later: int)
    requires HandleStartMatchLinked(fixtures, teams, players, fixture, tossWinner, batFirst, overs, adminId, adminUsername, now).Some?
    ensures var k := HandleStartMatchLinked(fixtures, teams, players, fixture, tossWinner, batFirst, overs, adminId, adminUsername, now).value;
      var s := ScoringDashboard.SubmitBall(data, panel, form, k.stored.tournament, later);
      && fixture.id in k.fixtures
      && (s.write.Some? && s.write.value.meta.status == Completed ==>
            s.completeFixture == (if fixture.id != "" then Some(FixtureLink(TournamentId, fixture.id)) else None))
  {
  }
}
