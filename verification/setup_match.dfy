/** The single-match setup screen: the same form checks and roster reading
    as match creation, building the match record alone (no id, owner or
    lock), with team A batting first. */
module SetupMatch {
  import opened Types
  import Text
  import CreateMatch

  /** handleStart: the match record, or the alert that stops the start. */
  function HandleStart(teamA: string, teamB: string, overs: int, rosterA: string, rosterB: string, now: int): (r: Result<MatchData>)
    ensures (teamA == "" || teamB == "" || rosterA == "" || rosterB == "") ==> r == Failure("Please fill in all fields")
    ensures r.Success? <==>
      teamA != "" && teamB != "" && rosterA != "" && rosterB != "" &&
      |Text.ParseRoster(rosterA)| >= 2 && |Text.ParseRoster(rosterB)| >= 2
    ensures r.Failure? && teamA != "" && teamB != "" && rosterA != "" && rosterB != "" ==>
      r.error == "Each team needs at least 2 players."
    ensures r.Success? ==>
      && r.value.meta.teamA == teamA && r.value.meta.teamB == teamB
      && r.value.meta.battingTeam == teamA && r.value.meta.bowlingTeam == teamB
      && r.value.meta.status == Live && r.value.meta.innings == 1 && r.value.meta.oversPerInnings == overs
      && r.value.squads == Squads(Text.ParseRoster(rosterA), Text.ParseRoster(rosterB))
      && r.value.state == FreshState([]) && r.value.balls == []
      && r.value.innings1.None? && r.value.innings2.None?
  {
    if teamA == "" || teamB == "" || rosterA == "" || rosterB == "" then Failure("Please fill in all fields")
    else
      var squadA := Text.ParseRoster(rosterA);
      var squadB := Text.ParseRoster(rosterB);
      if |squadA| < 2 || |squadB| < 2 then Failure("Each team needs at least 2 players.")
      else
        Success(MatchData(
          MatchMeta(teamA, teamB, overs, Live, 1, teamA, teamB, None, None, None, None),
          Squads(squadA, squadB),
          MatchState(0, 0, 0, 0, 0, None, None, None, false, Some([]), Some(0), None, Some(0), Some(0)),
          [],
          None, None,
          now))
  }

  /** The setup screen and match creation accept the same forms, reject
      the rest with the same alert, and build the same match record. */
  lemma SameAsCreate(form: CreateMatch.MatchForm, adminId: string, adminUsername: string, matchId: string, now: int)
    ensures var s := HandleStart(form.teamA, form.teamB, form.overs, form.rosterA, form.rosterB, now);
      var c := CreateMatch.HandleCreate(form, adminId, adminUsername, matchId, now);
      && (s.Success? <==> c.Success?)
      && (s.Failure? ==> s.error == c.error)
      && (s.Success? ==> s.value == c.value.data)
  {
  }
}
