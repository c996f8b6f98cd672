/** The viewer's points table.  It walks the fixtures like the admin's
    table, with the same played, tie and win updates, but keeps no run-rate
    totals and sorts by points alone.  The viewer's round-robin generator is
    the admin's, letter for letter, and is modelled there. */
module TournamentViewer {
  import opened Types
  import Sorting
  import TournamentAdmin

  /** One fixture of the walk: a counted fixture adds a match played to
      each side that has a row, then its result. */
  function ViewerStep(st: map<string, GroupStandings>, f: TournamentFixture, matches: map<string, MatchData>)
    : Result<map<string, GroupStandings>>
  {
    if !TournamentAdmin.Counted(f, matches) then Success(st)
    else TournamentAdmin.RecordResult(TournamentAdmin.RecordPlayed(st, f), f, matches[f.matchId.value])
  }

  /** The walk over a list of fixtures; the first error ends it. */
  function ViewerTally(st: map<string, GroupStandings>, fixtures: seq<TournamentFixture>, matches: map<string, MatchData>)
    : Result<map<string, GroupStandings>>
  {
    if fixtures == [] then Success(st)
    else
      match ViewerTally(st, fixtures[..|fixtures| - 1], matches)
      case Failure(e) => Failure(e)
      case Success(st1) => ViewerStep(st1, fixtures[|fixtures| - 1], matches)
  }

  /** The viewer's walk is the admin's walk with the run-rate totals
      dropped: the same error, or the same rows. */
  lemma {:induction false} ViewerTallyAgrees(t: TournamentAdmin.Table, fixtures: seq<TournamentFixture>,
                                             matches: map<string, MatchData>)
    ensures ViewerTally(t.standings, fixtures, matches).Failure? <==> TournamentAdmin.Tally(t, fixtures, matches).Failure?
    ensures ViewerTally(t.standings, fixtures, matches).Failure? ==>
      ViewerTally(t.standings, fixtures, matches).error == TournamentAdmin.Tally(t, fixtures, matches).error
    ensures ViewerTally(t.standings, fixtures, matches).Success? ==>
      ViewerTally(t.standings, fixtures, matches).value == TournamentAdmin.Tally(t, fixtures, matches).value.standings
  {
    if fixtures != [] {
      ViewerTallyAgrees(t, fixtures[..|fixtures| - 1], matches);
    }
  }

  /** `b.points - a.points`: points descending, equal points in the order
      the rows came. */
  function ViewerKey(s: GroupStandings): (real, real) {
    (-(s.points as real), 0.0)
  }

  /** The table calculateStandings returns in the viewer. */
  function ViewerStandingsOf(teamIds: seq<string>, fixtures: seq<TournamentFixture>, matches: map<string, MatchData>)
    : Result<seq<GroupStandings>>
  {
    var t0 := TournamentAdmin.Table(TournamentAdmin.InitStandings(teamIds), TournamentAdmin.InitNrr(teamIds));
    TournamentAdmin.InitOk(teamIds);
    TournamentAdmin.TallyOk(t0, fixtures, matches, TournamentAdmin.Ids(teamIds));
    ViewerTallyAgrees(t0, fixtures, matches);
    match ViewerTally(t0.standings, fixtures, matches)
    case Failure(e) => Failure(e)
    case Success(st) => Success(Sorting.SortByKey(TournamentAdmin.Rows(st, Dedup(teamIds)), ViewerKey))
  }

  /** The first `forEach`: a zero row per team. */
  method InitialRows(teamIds: seq<string>) returns (standings: map<string, GroupStandings>)
    ensures standings == TournamentAdmin.InitStandings(teamIds)
  {
    standings := map[];
    var i := 0;
    while i < |teamIds|
      invariant 0 <= i <= |teamIds|
      invariant standings == TournamentAdmin.InitStandings(teamIds[..i])
    {
      TournamentAdmin.InitStep(teamIds, i);
      standings := standings[teamIds[i] := TournamentAdmin.ZeroRow(teamIds[i])];
      i := i + 1;
    }
    assert teamIds[..i] == teamIds;
  }

  /** The second `forEach`: the walk over the fixtures, stopped by the
      first error. */
  method WalkFixtures(st0: map<string, GroupStandings>, fixtures: seq<TournamentFixture>, matches: map<string, MatchData>)
    returns (r: Result<map<string, GroupStandings>>)
    ensures r == ViewerTally(st0, fixtures, matches)
  {
    var standings := st0;
    var k := 0;
    while k < |fixtures|
      invariant 0 <= k <= |fixtures|
      invariant ViewerTally(st0, fixtures[..k], matches) == Success(standings)
    {
      assert fixtures[..k + 1][..k] == fixtures[..k];
      var step := ViewerStep(standings, fixtures[k], matches);
      if step.Failure? {
        ViewerFailureStays(st0, fixtures, k + 1, matches);
        return Failure(step.error);
      }
      standings := step.value;
      k := k + 1;
    }
    assert fixtures[..k] == fixtures;
    r := Success(standings);
  }

  /** calculateStandings (viewer): zero rows for the listed teams, the walk
      over the fixtures, and the sort by points. */
  method CalculateStandings(teamIds: seq<string>, fixtures: seq<TournamentFixture>, matches: map<string, MatchData>)
    returns (r: Result<seq<GroupStandings>>)
    ensures r == ViewerStandingsOf(teamIds, fixtures, matches)
  {
    var standings := InitialRows(teamIds);
    var tally := WalkFixtures(standings, fixtures, matches);
    if tally.Failure? {
      return Failure(tally.error);
    }
    var t0 := TournamentAdmin.Table(standings, TournamentAdmin.InitNrr(teamIds));
    TournamentAdmin.InitOk(teamIds);
    TournamentAdmin.TallyOk(t0, fixtures, matches, TournamentAdmin.Ids(teamIds));
    ViewerTallyAgrees(t0, fixtures, matches);
    var rows := TournamentAdmin.Rows(tally.value, Dedup(teamIds));
    r := Success(Sorting.SortByKey(rows, ViewerKey));
  }

  /** Once the walk has failed, later fixtures do not change the error. */
  lemma {:induction false} ViewerFailureStays(st: map<string, GroupStandings>, fixtures: seq<TournamentFixture>, n: nat,
                                              matches: map<string, MatchData>)
    requires n <= |fixtures| && ViewerTally(st, fixtures[..n], matches).Failure?
    ensures ViewerTally(st, fixtures, matches) == ViewerTally(st, fixtures[..n], matches)
  {
    if n < |fixtures| {
      var prefix := fixtures[..|fixtures| - 1];
      assert prefix[..n] == fixtures[..n];
      ViewerFailureStays(st, prefix, n, matches);
    } else {
      assert fixtures[..n] == fixtures;
    }
  }

  /** The viewer's table fails exactly when the admin's does: on a counted
      drawn fixture with a side that has no row. */
  lemma ViewerFail(teamIds: seq<string>, fixtures: seq<TournamentFixture>, matches: map<string, MatchData>)
    ensures ViewerStandingsOf(teamIds, fixtures, matches).Failure? <==>
      TournamentAdmin.StandingsOf(teamIds, fixtures, matches).Failure?
    ensures ViewerStandingsOf(teamIds, fixtures, matches).Failure? <==>
      exists k :: 0 <= k < |fixtures| && TournamentAdmin.Orphaned(fixtures[k], matches, TournamentAdmin.Ids(teamIds))
  {
    var t0 := TournamentAdmin.Table(TournamentAdmin.InitStandings(teamIds), TournamentAdmin.InitNrr(teamIds));
    ViewerTallyAgrees(t0, fixtures, matches);
    TournamentAdmin.StandingsFail(teamIds, fixtures, matches);
  }

  /** Otherwise one consistent row per listed team, with a net run rate
      of 0, sorted by points descending. */
  lemma ViewerRows(teamIds: seq<string>, fixtures: seq<TournamentFixture>, matches: map<string, MatchData>)
    requires ViewerStandingsOf(teamIds, fixtures, matches).Success?
    ensures var r := ViewerStandingsOf(teamIds, fixtures, matches).value;
      && |r| == |Dedup(teamIds)|
      && (forall k :: 0 <= k < |r| ==> r[k].team_id in teamIds && TournamentAdmin.RowOk(r[k], r[k].team_id) && r[k].nrr == 0.0)
      && (forall tid :: tid in teamIds ==> exists k :: 0 <= k < |r| && r[k].team_id == tid)
      && (forall i, j :: 0 <= i < j < |r| ==> r[i].points >= r[j].points)
  {
    var t0 := TournamentAdmin.Table(TournamentAdmin.InitStandings(teamIds), TournamentAdmin.InitNrr(teamIds));
    TournamentAdmin.InitOk(teamIds);
    TournamentAdmin.TallyOk(t0, fixtures, matches, TournamentAdmin.Ids(teamIds));
    ViewerTallyAgrees(t0, fixtures, matches);
    var st := ViewerTally(t0.standings, fixtures, matches).value;
    var r := ViewerStandingsOf(teamIds, fixtures, matches).value;
    TournamentAdmin.Reordered(st, teamIds, r);
    assert Sorting.SortedBy(r, ViewerKey);
    forall i, j | 0 <= i < j < |r| ensures r[i].points >= r[j].points {
      assert Sorting.KeyLe(ViewerKey(r[i]), ViewerKey(r[j]));
    }
  }

  /** `row` is some row of `a` with its net run rate set to 0. */
  predicate ShownWithoutRate(row: GroupStandings, a: seq<GroupStandings>) {
    exists j :: 0 <= j < |a| && a[j].team_id == row.team_id && row == a[j].(nrr := 0.0)
  }

  /** Rows taken from the tallied counts match, team by team, final rows
      that differ from them only in the net run rate. */
  lemma SameCounts(t: TournamentAdmin.Table, teamIds: seq<string>, v: seq<GroupStandings>, a: seq<GroupStandings>)
    requires forall tid :: tid in t.standings ==> t.standings[tid].nrr == 0.0
    requires forall k :: 0 <= k < |v| ==>
      v[k].team_id in teamIds && v[k].team_id in t.standings && v[k] == t.standings[v[k].team_id]
    requires forall tid :: tid in teamIds ==> exists j :: 0 <= j < |a| && a[j].team_id == tid
    requires forall j :: 0 <= j < |a| ==>
      a[j].team_id in t.standings && a[j].team_id in t.nrr && a[j] == TournamentAdmin.FinalRow(t, a[j].team_id)
    ensures forall k :: 0 <= k < |v| ==> ShownWithoutRate(v[k], a)
  {
    forall k | 0 <= k < |v|
      ensures ShownWithoutRate(v[k], a)
    {
      var tid := v[k].team_id;
      assert tid in teamIds;
      var j :| 0 <= j < |a| && a[j].team_id == tid;
      assert a[j] == t.standings[tid].(nrr := a[j].nrr);
      assert v[k] == a[j].(nrr := 0.0);
    }
  }

  /** The viewer shows the admin's counts: each of its rows is the admin's
      row for the same team with the net run rate left at 0. */
  lemma ViewerMatchesAdmin(teamIds: seq<string>, fixtures: seq<TournamentFixture>, matches: map<string, MatchData>)
    requires ViewerStandingsOf(teamIds, fixtures, matches).Success?
    ensures TournamentAdmin.StandingsOf(teamIds, fixtures, matches).Success?
    ensures var v := ViewerStandingsOf(teamIds, fixtures, matches).value;
      var a := TournamentAdmin.StandingsOf(teamIds, fixtures, matches).value;
      && |v| == |a|
      && forall k :: 0 <= k < |v| ==> ShownWithoutRate(v[k], a)
  {
    ViewerFail(teamIds, fixtures, matches);
    var t0 := TournamentAdmin.Table(TournamentAdmin.InitStandings(teamIds), TournamentAdmin.InitNrr(teamIds));
    TournamentAdmin.InitOk(teamIds);
    TournamentAdmin.TallyOk(t0, fixtures, matches, TournamentAdmin.Ids(teamIds));
    ViewerTallyAgrees(t0, fixtures, matches);
    var t := TournamentAdmin.Tally(t0, fixtures, matches).value;
    var v := ViewerStandingsOf(teamIds, fixtures, matches).value;
    TournamentAdmin.Reordered(t.standings, teamIds, v);
    TournamentAdmin.StandingsRows(teamIds, fixtures, matches);
    SameCounts(t, teamIds, v, TournamentAdmin.StandingsOf(teamIds, fixtures, matches).value);
  }

  // ---------------------------------------------------------------------
  // The tie branch with the row checks the other branches have

  /** The viewer's table fails for group A as soon as a tied match of
      group B is in the list, as it is when the whole fixture list is
      passed. */
  lemma ViewerTieInOtherGroupFails()
    ensures var meta := MatchMeta("Blues", "Reds", 5, Completed, 2, "Reds", "Blues", Some("Tie"), Some(41),
                                  Some("Match tied"), Some(Tie));
      var m := MatchData(meta, Squads([], []), FreshState([]), [], None, None, 0);
      var f := TournamentFixture("fix_B_b1_b2", "b1", "b2", GroupB, FixtureCompleted, Some("m1"));
      ViewerStandingsOf(["a1", "a2", "a3", "a4"], [f], map["m1" := m]).Failure?
  {
    var meta := MatchMeta("Blues", "Reds", 5, Completed, 2, "Reds", "Blues", Some("Tie"), Some(41),
                          Some("Match tied"), Some(Tie));
    var m := MatchData(meta, Squads([], []), FreshState([]), [], None, None, 0);
    var f := TournamentFixture("fix_B_b1_b2", "b1", "b2", GroupB, FixtureCompleted, Some("m1"));
    TournamentAdmin.TieInOtherGroupFails();
    ViewerFail(["a1", "a2", "a3", "a4"], [f], map["m1" := m]);
  }

  function ViewerStepGuarded(st: map<string, GroupStandings>, f: TournamentFixture, matches: map<string, MatchData>)
    : map<string, GroupStandings>
  {
    if !TournamentAdmin.Counted(f, matches) then st
    else TournamentAdmin.RecordResultGuarded(TournamentAdmin.RecordPlayed(st, f), f, matches[f.matchId.value])
  }

  function ViewerTallyGuarded(st: map<string, GroupStandings>, fixtures: seq<TournamentFixture>, matches: map<string, MatchData>)
    : map<string, GroupStandings>
  {
    if fixtures == [] then st
    else ViewerStepGuarded(ViewerTallyGuarded(st, fixtures[..|fixtures| - 1], matches), fixtures[|fixtures| - 1], matches)
  }

  /** Where the unguarded walk succeeds, the guarded walk gives the same
      rows. */
  lemma {:induction false} ViewerGuardedAgrees(st: map<string, GroupStandings>, fixtures: seq<TournamentFixture>,
                                               matches: map<string, MatchData>)
    requires ViewerTally(st, fixtures, matches).Success?
    ensures ViewerTallyGuarded(st, fixtures, matches) == ViewerTally(st, fixtures, matches).value
  {
    if fixtures != [] {
      ViewerGuardedAgrees(st, fixtures[..|fixtures| - 1], matches);
    }
  }

  lemma {:induction false} ViewerGuardedKeys(st: map<string, GroupStandings>, fixtures: seq<TournamentFixture>,
                                             matches: map<string, MatchData>)
    ensures ViewerTallyGuarded(st, fixtures, matches).Keys == st.Keys
  {
    if fixtures != [] {
      ViewerGuardedKeys(st, fixtures[..|fixtures| - 1], matches);
      var st1 := ViewerTallyGuarded(st, fixtures[..|fixtures| - 1], matches);
      TournamentAdmin.GuardedStepKeys(TournamentAdmin.Table(st1, map[]), fixtures[|fixtures| - 1], matches);
    }
  }

  /** The guarded rows of a group do not depend on the fixtures of the
      other group mixed into the list. */
  lemma ViewerOtherGroupsIgnored(st: map<string, GroupStandings>, fixtures: seq<TournamentFixture>,
                                 other: TournamentFixture, matches: map<string, MatchData>)
    requires other.teamA_id !in st && other.teamB_id !in st
    ensures ViewerTallyGuarded(st, fixtures + [other], matches) == ViewerTallyGuarded(st, fixtures, matches)
  {
    assert (fixtures + [other])[..|fixtures|] == fixtures;
    ViewerGuardedKeys(st, fixtures, matches);
  }
}
