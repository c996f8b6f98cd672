/** Match creation in the admin app: the form is checked, each roster is
    read as one player per line, and a live first-innings match is built
    with team A batting, a fresh scoring state, no balls, and the creating
    admin as owner and lock holder.  The match id and the clock are
    parameters. */
module CreateMatch {
  import opened Types
  import Text
  import BallProcessor
  import CricketRules

  /** The creation form's fields. */
  datatype MatchForm = MatchForm(teamA: string, teamB: string, overs: int, rosterA: string, rosterB: string)

  /** Both team names and both rosters were filled in. */
  predicate Filled(form: MatchForm) {
    form.teamA != "" && form.teamB != "" && form.rosterA != "" && form.rosterB != ""
  }

  /** The match record before its first ball. */
  function NewMatchData(form: MatchForm, squadA: seq<string>, squadB: seq<string>, now: int): MatchData {
    MatchData(
      MatchMeta(form.teamA, form.teamB, form.overs, Live, 1, form.teamA, form.teamB, None, None, None, None),
      Squads(squadA, squadB),
      FreshState([]),
      [],
      None, None,
      now)
  }

  /** handleCreate: the stored match, or the alert that stops creation. */
  function HandleCreate(form: MatchForm, adminId: string, adminUsername: string, matchId: string, now: int): (r: Result<StoredMatch>)
    ensures !Filled(form) ==> r == Failure("Please fill in all fields")
    ensures Filled(form) ==>
      (r.Failure? <==> |Text.ParseRoster(form.rosterA)| < 2 || |Text.ParseRoster(form.rosterB)| < 2)
    ensures Filled(form) && r.Failure? ==> r.error == "Each team needs at least 2 players."
    ensures r.Success? ==>
      && r.value.matchId == matchId
      && r.value.createdBy == adminId
      && r.value.lock == Lock(adminId, adminUsername, now)
      && r.value.data.squads == Squads(Text.ParseRoster(form.rosterA), Text.ParseRoster(form.rosterB))
      && r.value.data.meta.battingTeam == form.teamA && r.value.data.meta.bowlingTeam == form.teamB
      && r.value.data.meta.status == Live && r.value.data.meta.innings == 1
      && r.value.data.meta.oversPerInnings == form.overs
      && r.value.data.balls == []
      && r.value.tournament.None?
  {
    if !Filled(form) then Failure("Please fill in all fields")
    else
      var squadA := Text.ParseRoster(form.rosterA);
      var squadB := Text.ParseRoster(form.rosterB);
      if |squadA| < 2 || |squadB| < 2 then Failure("Each team needs at least 2 players.")
      else Success(StoredMatch(matchId, adminId, Lock(adminId, adminUsername, now), NewMatchData(form, squadA, squadB, now), None))
  }

  /** A created match has at least two named players per side, each a
      trimmed name on one line. */
  lemma CreatedSquads(form: MatchForm, adminId: string, adminUsername: string, matchId: string, now: int)
    requires HandleCreate(form, adminId, adminUsername, matchId, now).Success?
    ensures var sq := HandleCreate(form, adminId, adminUsername, matchId, now).value.data.squads;
      && |sq.teamA| >= 2 && |sq.teamB| >= 2
      && (forall k :: 0 <= k < |sq.teamA| ==> sq.teamA[k] != "" && Text.Trimmed(sq.teamA[k]) && '\n' !in sq.teamA[k])
      && (forall k :: 0 <= k < |sq.teamB| ==> sq.teamB[k] != "" && Text.Trimmed(sq.teamB[k]) && '\n' !in sq.teamB[k])
  {
  }

  /** A roster of white space only passes the first check but holds no
      player, so creation stops at the squad-size check. */
  lemma BlankRosterRejected(form: MatchForm, adminId: string, adminUsername: string, matchId: string, now: int)
    requires Filled(form) && Text.AllSpace(form.rosterA)
    ensures HandleCreate(form, adminId, adminUsername, matchId, now) == Failure("Each team needs at least 2 players.")
  {
    BlankRosterEmpty(form.rosterA);
  }

  lemma BlankRosterEmpty(roster: string)
    requires Text.AllSpace(roster)
    ensures Text.ParseRoster(roster) == []
  {
    var lines := Text.Split(roster, '\n');
    BlankLinesEmpty(roster, lines);
  }

  /** Every line of a blank roster is blank, so none is kept. */
  lemma {:induction false} BlankLinesEmpty(roster: string, lines: seq<string>)
    requires Text.AllSpace(roster) && lines == Text.Split(roster, '\n')
    ensures Text.TrimNonEmpty(lines) == []
  {
    BlankPieces(roster);
    BlankTrimmed(lines);
  }

  lemma {:induction false} BlankPieces(s: string)
    requires Text.AllSpace(s)
    ensures forall k :: 0 <= k < |Text.Split(s, '\n')| ==> Text.AllSpace(Text.Split(s, '\n')[k])
  {
    if s != [] {
      BlankPieces(s[1..]);
      var rest := Text.Split(s[1..], '\n');
      if s[0] != '\n' {
        assert Text.AllSpace([s[0]] + rest[0]);
      }
    }
  }

  lemma {:induction false} BlankTrimmed(lines: seq<string>)
    requires forall k :: 0 <= k < |lines| ==> Text.AllSpace(lines[k])
    ensures Text.TrimNonEmpty(lines) == []
  {
    if lines != [] {
      BlankTrimmed(lines[..|lines| - 1]);
      Text.TrimEmpty(lines[|lines| - 1]);
    }
  }

  /** Rosters typed one name per line become the squads unchanged. */
  lemma RostersBecomeSquads(form: MatchForm, namesA: seq<string>, namesB: seq<string>,
                            adminId: string, adminUsername: string, matchId: string, now: int)
    requires |namesA| >= 2 && |namesB| >= 2
    requires forall k :: 0 <= k < |namesA| ==> namesA[k] != "" && Text.Trimmed(namesA[k]) && '\n' !in namesA[k]
    requires forall k :: 0 <= k < |namesB| ==> namesB[k] != "" && Text.Trimmed(namesB[k]) && '\n' !in namesB[k]
    requires form.teamA != "" && form.teamB != ""
    requires form.rosterA == Text.Join(namesA, '\n') && form.rosterB == Text.Join(namesB, '\n')
    ensures var r := HandleCreate(form, adminId, adminUsername, matchId, now);
      r.Success? && r.value.data.squads == Squads(namesA, namesB)
  {
    Text.ParseRosterRoundTrip(namesA);
    Text.ParseRosterRoundTrip(namesB);
    assert form.rosterA != "" by {
      assert |Text.ParseRoster(form.rosterA)| >= 2;
    }
    assert form.rosterB != "" by {
      assert |Text.ParseRoster(form.rosterB)| >= 2;
    }
  }

  /** A new match starts from a consistent scoring state that needs a
      striker before the first ball, and an over limit above zero does not
      end its innings at once. */
  lemma CreatedMatchReady(form: MatchForm, adminId: string, adminUsername: string, matchId: string, now: int)
    requires HandleCreate(form, adminId, adminUsername, matchId, now).Success?
    ensures var d := HandleCreate(form, adminId, adminUsername, matchId, now).value.data;
      && BallProcessor.CountersOk(d.state)
      && d.state == FreshState([])
      && CricketRules.CanProgressMatch(d.state) == CricketRules.Invalid("Please select a striker")
      && (form.overs > 0 <==> !CricketRules.IsInningsComplete(d.state, d.meta))
  {
  }
}
