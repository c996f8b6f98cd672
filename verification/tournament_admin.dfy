/** League tables of the admin app: round-robin fixture generation for a
    group, and the group standings with points and net run rate. */
module TournamentAdmin {
  import opened Types
  import opened Text
  import Sorting

  // ---------------------------------------------------------------------
  // Round-robin fixtures

  /** The index pairs (i, j) with i < j < k, in the order of the inner loop. */
  function Row(i: nat, k: nat): (r: seq<(nat, nat)>)
    ensures |r| == if k > i then k - i - 1 else 0
    ensures forall q :: 0 <= q < |r| ==> r[q] == (i, i + 1 + q)
  {
    if k <= i + 1 then [] else Row(i, k - 1) + [(i, k - 1)]
  }

  /** Lexicographic order on index pairs. */
  predicate PairLt(p: (nat, nat), q: (nat, nat)) {
    p.0 < q.0 || (p.0 == q.0 && p.1 < q.1)
  }

  /** The index pairs visited by the outer loop's first `m` rounds over
      `n` teams, every one i < j < n. */
  function Upto(n: nat, m: nat): (r: seq<(nat, nat)>)
    requires m <= n
    ensures forall q :: 0 <= q < |r| ==> r[q].0 < m && r[q].0 < r[q].1 < n
  {
    if m == 0 then [] else Upto(n, m - 1) + Row(m - 1, n)
  }

  /** After m rounds, m(2n - m - 1)/2 pairs; n(n-1)/2 once m = n. */
  lemma {:induction false} UptoCount(n: nat, m: nat)
    requires m <= n
    ensures 2 * |Upto(n, m)| == m * (2 * n - m - 1)
  {
    if m > 0 {
      UptoCount(n, m - 1);
      assert |Row(m - 1, n)| == n - m;
      assert (m - 1) * (2 * n - m) + 2 * (n - m) == m * (2 * n - m - 1);
    }
  }

  /** The pairs come in strictly increasing order. */
  lemma {:induction false} UptoOrdered(n: nat, m: nat)
    requires m <= n
    ensures forall q1, q2 :: 0 <= q1 < q2 < |Upto(n, m)| ==> PairLt(Upto(n, m)[q1], Upto(n, m)[q2])
  {
    if m > 0 {
      UptoOrdered(n, m - 1);
      var prev := Upto(n, m - 1);
      var row := Row(m - 1, n);
      var r := Upto(n, m);
      forall q1, q2 | 0 <= q1 < q2 < |r| ensures PairLt(r[q1], r[q2]) {
        if q2 < |prev| {
          assert r[q1] == prev[q1] && r[q2] == prev[q2];
        } else if q1 < |prev| {
          assert r[q1] == prev[q1] && r[q2] == row[q2 - |prev|];
        } else {
          assert r[q1] == row[q1 - |prev|] && r[q2] == row[q2 - |prev|];
        }
      }
    }
  }

  /** Every pair i < j of the first m rows is visited. */
  lemma {:induction false} UptoComplete(n: nat, m: nat, i: nat, j: nat)
    requires i < m <= n && i < j < n
    ensures (i, j) in Upto(n, m)
  {
    var prev := Upto(n, m - 1);
    if i == m - 1 {
      var row := Row(m - 1, n);
      assert row[j - i - 1] == (i, j);
      assert Upto(n, m)[|prev| + (j - i - 1)] == (i, j);
    } else {
      UptoComplete(n, m - 1, i, j);
    }
  }

  /** `fix_${groupName}_${a}_${b}` */
  function FixtureId(g: Group, a: string, b: string): string {
    "fix_" + GroupName(g) + "_" + a + "_" + b
  }

  /** The scheduled fixture between teams i and j of a group. */
  function FixtureOf(teams: seq<string>, g: Group, p: (nat, nat)): TournamentFixture
    requires p.0 < |teams| && p.1 < |teams|
  {
    TournamentFixture(FixtureId(g, teams[p.0], teams[p.1]), teams[p.0], teams[p.1], g, Scheduled, None)
  }

  /** The fixtures the inner loop adds for team i before reaching team k. */
  function RowFixtures(teams: seq<string>, g: Group, i: nat, k: nat): (r: seq<TournamentFixture>)
    requires i < |teams| && k <= |teams|
  {
    if k <= i + 1 then [] else RowFixtures(teams, g, i, k - 1) + [FixtureOf(teams, g, (i, k - 1))]
  }

  /** The fixtures of the outer loop's first m rounds. */
  function UptoFixtures(teams: seq<string>, g: Group, m: nat): (r: seq<TournamentFixture>)
    requires m <= |teams|
  {
    if m == 0 then [] else UptoFixtures(teams, g, m - 1) + RowFixtures(teams, g, m - 1, |teams|)
  }

  /** The fixture list of a group. */
  function GroupFixtures(teams: seq<string>, g: Group): seq<TournamentFixture> {
    UptoFixtures(teams, g, |teams|)
  }

  /** The inner loop's fixtures for team i pair it with each later team in turn. */
  lemma {:induction false} RowFixturesAt(teams: seq<string>, g: Group, i: nat, k: nat)
    requires i < |teams| && k <= |teams|
    ensures |RowFixtures(teams, g, i, k)| == |Row(i, k)|
    ensures forall q :: 0 <= q < |Row(i, k)| ==> RowFixtures(teams, g, i, k)[q] == FixtureOf(teams, g, Row(i, k)[q])
  {
    if k > i + 1 {
      RowFixturesAt(teams, g, i, k - 1);
    }
  }

  lemma {:induction false} UptoFixturesAt(teams: seq<string>, g: Group, m: nat)
    requires m <= |teams|
    ensures |UptoFixtures(teams, g, m)| == |Upto(|teams|, m)|
    ensures forall q :: 0 <= q < |Upto(|teams|, m)| ==>
      UptoFixtures(teams, g, m)[q] == FixtureOf(teams, g, Upto(|teams|, m)[q])
  {
    if m > 0 {
      var prev := Upto(|teams|, m - 1);
      var row := Row(m - 1, |teams|);
      UptoFixturesAt(teams, g, m - 1);
      RowFixturesAt(teams, g, m - 1, |teams|);
      FixturesConcat(teams, g, UptoFixtures(teams, g, m - 1), RowFixtures(teams, g, m - 1, |teams|), prev, row);
    }
  }

  /** Two fixture lists that follow their pair lists concatenate to one
      that follows the concatenated pairs. */
  lemma FixturesConcat(teams: seq<string>, g: Group, a: seq<TournamentFixture>, b: seq<TournamentFixture>,
                       p: seq<(nat, nat)>, q: seq<(nat, nat)>)
    requires |a| == |p| && |b| == |q|
    requires forall k :: 0 <= k < |p| ==> p[k].0 < |teams| && p[k].1 < |teams| && a[k] == FixtureOf(teams, g, p[k])
    requires forall k :: 0 <= k < |q| ==> q[k].0 < |teams| && q[k].1 < |teams| && b[k] == FixtureOf(teams, g, q[k])
    ensures forall k :: 0 <= k < |p + q| ==>
      (p + q)[k].0 < |teams| && (p + q)[k].1 < |teams| && (a + b)[k] == FixtureOf(teams, g, (p + q)[k])
  {
    forall k | 0 <= k < |p + q|
      ensures (p + q)[k].0 < |teams| && (p + q)[k].1 < |teams| && (a + b)[k] == FixtureOf(teams, g, (p + q)[k])
    {
      if k < |p| {
        assert (a + b)[k] == a[k] && (p + q)[k] == p[k];
      } else {
        assert (a + b)[k] == b[k - |p|] && (p + q)[k] == q[k - |p|];
      }
    }
  }

  /** The group's fixture list is the fixture of each index pair i < j, in
      loop order. */
  lemma GroupFixturesPairs(teams: seq<string>, g: Group)
    ensures |GroupFixtures(teams, g)| == |Upto(|teams|, |teams|)|
    ensures forall q :: 0 <= q < |Upto(|teams|, |teams|)| ==>
      GroupFixtures(teams, g)[q] == FixtureOf(teams, g, Upto(|teams|, |teams|)[q])
  {
    UptoFixturesAt(teams, g, |teams|);
  }

  /** One more step of the inner loop adds the fixture of teams i and j. */
  lemma RowFixturesSnoc(teams: seq<string>, g: Group, i: nat, j: nat)
    requires i < j < |teams|
    ensures RowFixtures(teams, g, i, j + 1) == RowFixtures(teams, g, i, j) + [FixtureOf(teams, g, (i, j))]
  {
  }

  /** generateGroupFixtures: every team meets every later team once. */
  method GenerateGroupFixtures(groupTeams: seq<string>, groupName: Group) returns (fixtures: seq<TournamentFixture>)
    ensures fixtures == GroupFixtures(groupTeams, groupName)
  {
    var n := |groupTeams|;
    fixtures := [];
    var i := 0;
    while i < n
      invariant 0 <= i <= n
      invariant fixtures == UptoFixtures(groupTeams, groupName, i)
    {
      fixtures := AddRowFixtures(groupTeams, groupName, i, fixtures);
      i := i + 1;
    }
  }

  /** The inner loop of generateGroupFixtures: team i against each later
      team in turn, appended to the list so far. */
  method AddRowFixtures(groupTeams: seq<string>, groupName: Group, i: nat, done: seq<TournamentFixture>)
    returns (fixtures: seq<TournamentFixture>)
    requires i < |groupTeams|
    ensures fixtures == done + RowFixtures(groupTeams, groupName, i, |groupTeams|)
  {
    fixtures := done;
    var j := i + 1;
    while j < |groupTeams|
      invariant i + 1 <= j <= |groupTeams|
      invariant fixtures == done + RowFixtures(groupTeams, groupName, i, j)
    {
      // the scheduled fixture of teams i and j, under its fix_ id
      var fixture := FixtureOf(groupTeams, groupName, (i, j));
      RowFixturesSnoc(groupTeams, groupName, i, j);
      assert done + (RowFixtures(groupTeams, groupName, i, j) + [fixture]) == fixtures + [fixture];
      fixtures := fixtures + [fixture];
      j := j + 1;
    }
  }

  /** The shape of a group's fixture list: n(n-1)/2 scheduled fixtures of
      this group, each pairing teams[i] with a later teams[j], with the
      pairs in loop order. */
  lemma GroupFixturesShape(teams: seq<string>, g: Group)
    ensures var r := GroupFixtures(teams, g);
      && 2 * |r| == |teams| * (|teams| - 1)
      && (forall k :: 0 <= k < |r| ==>
            && r[k].group == g && r[k].status == Scheduled && r[k].matchId.None?
            && (exists i, j :: 0 <= i < j < |teams| && r[k].teamA_id == teams[i] && r[k].teamB_id == teams[j]))
  {
    var n := |teams|;
    var ps := Upto(n, n);
    var r := GroupFixtures(teams, g);
    GroupFixturesPairs(teams, g);
    UptoCount(n, n);
    forall k | 0 <= k < |r|
      ensures r[k].group == g && r[k].status == Scheduled && r[k].matchId.None?
      ensures exists i, j :: 0 <= i < j < n && r[k].teamA_id == teams[i] && r[k].teamB_id == teams[j]
    {
      var i, j := ps[k].0, ps[k].1;
      assert r[k].teamA_id == teams[i] && r[k].teamB_id == teams[j];
    }
  }

  /** Two fixtures between the same two teams, in either order. */
  predicate SameTeams(f1: TournamentFixture, f2: TournamentFixture) {
    (f1.teamA_id == f2.teamA_id && f1.teamB_id == f2.teamB_id) ||
    (f1.teamA_id == f2.teamB_id && f1.teamB_id == f2.teamA_id)
  }

  predicate Distinct(teams: seq<string>) {
    forall a, b :: 0 <= a < |teams| && 0 <= b < |teams| && a != b ==> teams[a] != teams[b]
  }

  /** Two different index pairs i < j of distinct teams name different
      pairs of teams, in either order. */
  lemma PairsNameDifferentTeams(teams: seq<string>, p: (nat, nat), q: (nat, nat))
    requires Distinct(teams)
    requires p.0 < p.1 < |teams| && q.0 < q.1 < |teams| && PairLt(p, q)
    ensures !(teams[p.0] == teams[q.0] && teams[p.1] == teams[q.1])
    ensures !(teams[p.0] == teams[q.1] && teams[p.1] == teams[q.0])
  {
    assert teams[p.0] == teams[q.0] ==> p.0 == q.0;
    assert teams[p.1] == teams[q.1] ==> p.1 == q.1;
    assert teams[p.0] == teams[q.1] ==> p.0 == q.1;
  }

  lemma NoSelfPairing(teams: seq<string>, g: Group, k: nat)
    requires Distinct(teams) && k < |GroupFixtures(teams, g)|
    ensures GroupFixtures(teams, g)[k].teamA_id != GroupFixtures(teams, g)[k].teamB_id
  {
    var ps := Upto(|teams|, |teams|);
    GroupFixturesPairs(teams, g);
  }

  lemma NoRepeatedPair(teams: seq<string>, g: Group, k1: nat, k2: nat)
    requires Distinct(teams) && k1 < k2 < |GroupFixtures(teams, g)|
    ensures !SameTeams(GroupFixtures(teams, g)[k1], GroupFixtures(teams, g)[k2])
  {
    var ps := Upto(|teams|, |teams|);
    GroupFixturesPairs(teams, g);
    UptoOrdered(|teams|, |teams|);
    assert PairLt(ps[k1], ps[k2]);
    PairsNameDifferentTeams(teams, ps[k1], ps[k2]);
  }

  /** The position of the fixture between teams a < b. */
  lemma EveryPairMeets(teams: seq<string>, g: Group, a: nat, b: nat) returns (k: nat)
    requires a < b < |teams|
    ensures k < |GroupFixtures(teams, g)|
    ensures GroupFixtures(teams, g)[k].teamA_id == teams[a] && GroupFixtures(teams, g)[k].teamB_id == teams[b]
  {
    var ps := Upto(|teams|, |teams|);
    GroupFixturesPairs(teams, g);
    UptoComplete(|teams|, |teams|, a, b);
    k :| 0 <= k < |ps| && ps[k] == (a, b);
  }

  /** Some fixture of the list has `x` as side A and `y` as side B. */
  predicate Meets(r: seq<TournamentFixture>, x: string, y: string) {
    exists k :: 0 <= k < |r| && r[k].teamA_id == x && r[k].teamB_id == y
  }

  /** With distinct teams the list is a round robin: no team meets itself,
      no two fixtures share their pair of teams, and every two teams meet. */
  lemma RoundRobin(teams: seq<string>, g: Group)
    requires Distinct(teams)
    ensures var r := GroupFixtures(teams, g);
      && (forall k :: 0 <= k < |r| ==> r[k].teamA_id != r[k].teamB_id)
      && (forall k1, k2 :: 0 <= k1 < k2 < |r| ==> !SameTeams(r[k1], r[k2]))
      && (forall a, b :: 0 <= a < b < |teams| ==> Meets(r, teams[a], teams[b]))
  {
    var r := GroupFixtures(teams, g);
    forall k | 0 <= k < |r| ensures r[k].teamA_id != r[k].teamB_id {
      NoSelfPairing(teams, g, k);
    }
    forall k1, k2 | 0 <= k1 < k2 < |r| ensures !SameTeams(r[k1], r[k2]) {
      NoRepeatedPair(teams, g, k1, k2);
    }
    forall a, b | 0 <= a < b < |teams|
      ensures Meets(r, teams[a], teams[b])
    {
      var k := EveryPairMeets(teams, g, a, b);
      assert 0 <= k < |r| && r[k].teamA_id == teams[a] && r[k].teamB_id == teams[b];
    }
  }

  lemma GroupNameInjective(g1: Group, g2: Group)
    requires GroupName(g1) == GroupName(g2)
    ensures g1 == g2
  {
    match g1
    case GroupA => assert GroupName(g2)[0] == 'A';
    case GroupB => assert GroupName(g2)[0] == 'B';
    case Semi => assert GroupName(g2)[0] == 'S';
    case Final => assert GroupName(g2)[0] == 'F';
  }

  lemma GroupNameHasNoSeparator(g: Group)
    ensures '_' !in GroupName(g)
  {
    match g
    case GroupA =>
    case GroupB =>
    case Semi =>
    case Final =>
  }

  /** `name_a_b` splits into its three parts. */
  lemma ThreePieces(name: string, a: string, b: string)
    requires '_' !in name && '_' !in a && '_' !in b
    ensures Split(name + ['_'] + (a + ['_'] + b), '_') == [name, a, b]
  {
    SplitConcat(a, b, '_');
    SplitCons(name, a + ['_'] + b, '_');
  }

  /** A fixture id splits on '_' into its four parts when the team ids
      hold no '_'. */
  lemma FixtureIdPieces(g: Group, a: string, b: string)
    requires '_' !in a && '_' !in b
    ensures Split(FixtureId(g, a, b), '_') == ["fix", GroupName(g), a, b]
  {
    var name := GroupName(g);
    GroupNameHasNoSeparator(g);
    var y := name + ['_'] + (a + ['_'] + b);
    ThreePieces(name, a, b);
    SplitCons("fix", y, '_');
    assert FixtureId(g, a, b) == "fix" + ['_'] + y;
  }

  /** With '_'-free team ids, the id determines the group and both teams. */
  lemma FixtureIdInjective(g1: Group, a1: string, b1: string, g2: Group, a2: string, b2: string)
    requires '_' !in a1 && '_' !in b1 && '_' !in a2 && '_' !in b2
    requires FixtureId(g1, a1, b1) == FixtureId(g2, a2, b2)
    ensures g1 == g2 && a1 == a2 && b1 == b2
  {
    FixtureIdPieces(g1, a1, b1);
    FixtureIdPieces(g2, a2, b2);
    GroupNameInjective(g1, g2);
  }

  /** Team ids with '_' can give two fixtures the same id. */
  lemma FixtureIdCollision()
    ensures FixtureId(GroupA, "a", "b_c") == FixtureId(GroupA, "a_b", "c")
  {
  }

  // ---------------------------------------------------------------------
  // Standings

  /** The running totals behind a team's net run rate. */
  datatype NrrData = NrrData(runsScored: real, oversFaced: real, runsConceded: real, oversBowled: real)

  function ZeroRow(tid: string): GroupStandings {
    GroupStandings(tid, 0, 0, 0, 0, 0, 0.0)
  }

  const ZeroNrr := NrrData(0.0, 0.0, 0.0, 0.0)

  /** The rows after initialisation: one zero row per listed team. */
  function InitStandings(teamIds: seq<string>): (st: map<string, GroupStandings>)
    ensures forall tid :: tid in st <==> tid in teamIds
    ensures forall tid :: tid in st ==> st[tid] == ZeroRow(tid)
  {
    if teamIds == [] then map[]
    else
      var last := teamIds[|teamIds| - 1];
      assert teamIds == teamIds[..|teamIds| - 1] + [last];
      InitStandings(teamIds[..|teamIds| - 1])[last := ZeroRow(last)]
  }

  function InitNrr(teamIds: seq<string>): (nrr: map<string, NrrData>)
    ensures forall tid :: tid in nrr <==> tid in teamIds
    ensures forall tid :: tid in nrr ==> nrr[tid] == ZeroNrr
  {
    if teamIds == [] then map[]
    else
      var last := teamIds[|teamIds| - 1];
      assert teamIds == teamIds[..|teamIds| - 1] + [last];
      InitNrr(teamIds[..|teamIds| - 1])[last := ZeroNrr]
  }

  /** A fixture that counts: completed, linked to a match, and the match is
      known. */
  predicate Counted(f: TournamentFixture, matches: map<string, MatchData>) {
    f.status == FixtureCompleted && Present(f.matchId) && f.matchId.value in matches
  }

  predicate Drawn(m: MatchData) {
    m.meta.matchResultType == Some(Tie) || m.meta.matchResultType == Some(NoResult)
  }

  function AddPlayed(st: map<string, GroupStandings>, tid: string): map<string, GroupStandings> {
    if tid in st then st[tid := st[tid].(played := st[tid].played + 1)] else st
  }

  /** Both sides of a counted fixture have played once more. */
  function RecordPlayed(st: map<string, GroupStandings>, f: TournamentFixture): map<string, GroupStandings> {
    AddPlayed(AddPlayed(st, f.teamA_id), f.teamB_id)
  }

  function AddTie(st: map<string, GroupStandings>, tid: string): map<string, GroupStandings>
    requires tid in st
  {
    st[tid := st[tid].(points := st[tid].points + 1, tied := st[tid].tied + 1)]
  }

  function AddWin(st: map<string, GroupStandings>, tid: string): map<string, GroupStandings> {
    if tid in st then st[tid := st[tid].(won := st[tid].won + 1, points := st[tid].points + 2)] else st
  }

  function AddLoss(st: map<string, GroupStandings>, tid: string): map<string, GroupStandings> {
    if tid in st then st[tid := st[tid].(lost := st[tid].lost + 1)] else st
  }

  /** The winner is side A when the winning name is team A's name, else
      side B; the loser is the other side. */
  function WinnerId(f: TournamentFixture, m: MatchData): string
    requires Present(m.meta.winningTeam)
  {
    if m.meta.winningTeam.value == m.meta.teamA then f.teamA_id else f.teamB_id
  }

  function LoserId(f: TournamentFixture, m: MatchData): string
    requires Present(m.meta.winningTeam)
  {
    if WinnerId(f, m) == f.teamA_id then f.teamB_id else f.teamA_id
  }

  /** A decided match: two points and a win to the winner's row, a loss to
      the loser's, each only if the row exists. */
  function RecordWin(st: map<string, GroupStandings>, f: TournamentFixture, m: MatchData): map<string, GroupStandings> {
    if Present(m.meta.winningTeam) then AddLoss(AddWin(st, WinnerId(f, m)), LoserId(f, m)) else st
  }

  /** The JavaScript error raised when a row that does not exist is updated. */
  const MissingRow := "TypeError: Cannot read properties of undefined (reading 'points')"

  /** The result part of a counted fixture.  A tie or no-result adds a
      point and a tie to both rows without checking that they exist. */
  function RecordResult(st: map<string, GroupStandings>, f: TournamentFixture, m: MatchData): (r: Result<map<string, GroupStandings>>)
    ensures r.Failure? <==> Drawn(m) && (f.teamA_id !in st || f.teamB_id !in st)
    ensures r.Success? ==> r.value.Keys == st.Keys
  {
    if Drawn(m) then
      if f.teamA_id !in st then Failure(MissingRow)
      else
        var st1 := AddTie(st, f.teamA_id);
        if f.teamB_id !in st1 then Failure(MissingRow) else Success(AddTie(st1, f.teamB_id))
    else Success(RecordWin(st, f, m))
  }

  /** Overs as a decimal: whole overs plus the balls of the unfinished one. */
  function OversOf(i: InningsData): (o: real)
    ensures o >= 0.0
  {
    i.oversBowled as real + i.ballsInCurrentOver as real / 6.0
  }

  function AddBatting(nrr: map<string, NrrData>, tid: string, runs: real, overs: real): map<string, NrrData> {
    if tid in nrr then nrr[tid := nrr[tid].(runsScored := nrr[tid].runsScored + runs, oversFaced := nrr[tid].oversFaced + overs)]
    else nrr
  }

  function AddBowling(nrr: map<string, NrrData>, tid: string, runs: real, overs: real): map<string, NrrData> {
    if tid in nrr then nrr[tid := nrr[tid].(runsConceded := nrr[tid].runsConceded + runs, oversBowled := nrr[tid].oversBowled + overs)]
    else nrr
  }

  /** The side that batted first is side A when the first innings' batting
      team is team A's name, else side B. */
  function FirstBattingId(f: TournamentFixture, m: MatchData): string
    requires m.innings1.Some?
  {
    if m.innings1.value.battingTeam == m.meta.teamA then f.teamA_id else f.teamB_id
  }

  /** With both innings saved, each side is credited with the runs and
      overs it batted and charged with those it bowled. */
  function RecordNrr(nrr: map<string, NrrData>, f: TournamentFixture, m: MatchData): (r: map<string, NrrData>)
    ensures r.Keys == nrr.Keys
  {
    if m.innings1.Some? && m.innings2.Some? then
      var i1 := m.innings1.value;
      var i2 := m.innings2.value;
      var t1 := FirstBattingId(f, m);
      var t2 := if t1 == f.teamA_id then f.teamB_id else f.teamA_id;
      var n1 := AddBatting(nrr, t1, i1.totalRuns as real, OversOf(i1));
      var n2 := AddBatting(n1, t2, i2.totalRuns as real, OversOf(i2));
      var n3 := AddBowling(n2, t1, i2.totalRuns as real, OversOf(i2));
      AddBowling(n3, t2, i1.totalRuns as real, OversOf(i1))
    else nrr
  }

  /** The two records calculateStandings updates as it walks the fixtures. */
  datatype Table = Table(standings: map<string, GroupStandings>, nrr: map<string, NrrData>)

  /** One fixture of the walk. */
  function FixtureStep(t: Table, f: TournamentFixture, matches: map<string, MatchData>): Result<Table> {
    if !Counted(f, matches) then Success(t)
    else
      var m := matches[f.matchId.value];
      match RecordResult(RecordPlayed(t.standings, f), f, m)
      case Failure(e) => Failure(e)
      case Success(st) => Success(Table(st, RecordNrr(t.nrr, f, m)))
  }

  /** The walk over a list of fixtures; the first error ends it. */
  function Tally(t: Table, fixtures: seq<TournamentFixture>, matches: map<string, MatchData>): Result<Table> {
    if fixtures == [] then Success(t)
    else
      match Tally(t, fixtures[..|fixtures| - 1], matches)
      case Failure(e) => Failure(e)
      case Success(t1) => FixtureStep(t1, fixtures[|fixtures| - 1], matches)
  }

  function NetRunRate(d: NrrData): real
    requires d.oversFaced > 0.0 && d.oversBowled > 0.0
  {
    d.runsScored / d.oversFaced - d.runsConceded / d.oversBowled
  }

  predicate HasRates(d: NrrData) {
    d.oversFaced > 0.0 && d.oversBowled > 0.0
  }

  /** The final pass over the listed teams: a team that has both batted and
      bowled gets its net run rate. */
  function ApplyNrr(st: map<string, GroupStandings>, nrr: map<string, NrrData>, tids: seq<string>): (r: map<string, GroupStandings>)
    ensures r.Keys == st.Keys
  {
    if tids == [] then st
    else
      var st1 := ApplyNrr(st, nrr, tids[..|tids| - 1]);
      var tid := tids[|tids| - 1];
      if tid in nrr && tid in st1 && HasRates(nrr[tid]) then st1[tid := st1[tid].(nrr := NetRunRate(nrr[tid]))]
      else st1
  }

  /** Only the net run rate changes: it becomes the team's rate when it is
      listed and has both batted and bowled, and stays as it was otherwise. */
  lemma {:induction false} ApplyNrrRow(st: map<string, GroupStandings>, nrr: map<string, NrrData>, tids: seq<string>, tid: string)
    requires tid in st
    ensures ApplyNrr(st, nrr, tids)[tid] ==
      st[tid].(nrr := if tid in tids && tid in nrr && HasRates(nrr[tid]) then NetRunRate(nrr[tid]) else st[tid].nrr)
  {
    if tids != [] {
      var prefix := tids[..|tids| - 1];
      assert tids == prefix + [tids[|tids| - 1]];
      ApplyNrrRow(st, nrr, prefix, tid);
    }
  }

  /** `Object.values(standings)`: the rows in the order their teams were
      first listed. */
  function Rows(st: map<string, GroupStandings>, keys: seq<string>): (r: seq<GroupStandings>)
    requires forall k :: 0 <= k < |keys| ==> keys[k] in st
    ensures |r| == |keys| && forall k :: 0 <= k < |keys| ==> r[k] == st[keys[k]]
  {
    if keys == [] then [] else Rows(st, keys[..|keys| - 1]) + [st[keys[|keys| - 1]]]
  }

  /** Points descending, then net run rate descending. */
  function StandingsKey(s: GroupStandings): (real, real) {
    (-(s.points as real), -s.nrr)
  }

  /** A row is consistent: it belongs to its key, earns two points a win
      and one a tie, and has no more results than matches played. */
  predicate RowOk(s: GroupStandings, tid: string) {
    s.team_id == tid && s.points == 2 * s.won + s.tied && s.won + s.lost + s.tied <= s.played
  }

  /** The invariant of the walk, for the listed teams `ids`. */
  predicate TableOk(t: Table, ids: set<string>) {
    && t.standings.Keys == ids && t.nrr.Keys == ids
    && (forall tid :: tid in t.standings ==> RowOk(t.standings[tid], tid) && t.standings[tid].nrr == 0.0)
  }

  lemma InitOk(teamIds: seq<string>)
    ensures TableOk(Table(InitStandings(teamIds), InitNrr(teamIds)), set tid | tid in teamIds)
  {
  }

  /** A fixture fails exactly when its match was drawn and a side has no row. */
  predicate Orphaned(f: TournamentFixture, matches: map<string, MatchData>, ids: set<string>) {
    Counted(f, matches) && Drawn(matches[f.matchId.value]) && (f.teamA_id !in ids || f.teamB_id !in ids)
  }

  /** One row after a counted fixture: each side gains one match played
      and exactly one result, so the row stays consistent. */
  lemma StepRow(st: map<string, GroupStandings>, f: TournamentFixture, m: MatchData, tid: string)
    requires tid in st && RowOk(st[tid], tid) && st[tid].nrr == 0.0
    requires RecordResult(RecordPlayed(st, f), f, m).Success?
    ensures RowOk(RecordResult(RecordPlayed(st, f), f, m).value[tid], tid)
    ensures RecordResult(RecordPlayed(st, f), f, m).value[tid].nrr == 0.0
  {
    var p := RecordPlayed(st, f);
    var n := (if tid == f.teamA_id then 1 else 0) + (if tid == f.teamB_id then 1 else 0);
    PlayedRow(st, f, tid);
    if Drawn(m) {
      TiedRow(p, f, m, tid);
    } else {
      DecidedRow(p, f, m, tid);
    }
  }

  lemma PlayedRow(st: map<string, GroupStandings>, f: TournamentFixture, tid: string)
    requires tid in st
    ensures tid in RecordPlayed(st, f)
    ensures RecordPlayed(st, f)[tid] ==
      st[tid].(played := st[tid].played + (if tid == f.teamA_id then 1 else 0) + (if tid == f.teamB_id then 1 else 0))
  {
  }

  lemma TiedRow(p: map<string, GroupStandings>, f: TournamentFixture, m: MatchData, tid: string)
    requires tid in p && Drawn(m) && RecordResult(p, f, m).Success?
    ensures var n := (if tid == f.teamA_id then 1 else 0) + (if tid == f.teamB_id then 1 else 0);
      RecordResult(p, f, m).value[tid] == p[tid].(points := p[tid].points + n, tied := p[tid].tied + n)
  {
  }

  lemma DecidedRow(p: map<string, GroupStandings>, f: TournamentFixture, m: MatchData, tid: string)
    requires tid in p && !Drawn(m)
    ensures var n := (if tid == f.teamA_id then 1 else 0) + (if tid == f.teamB_id then 1 else 0);
      var r := RecordResult(p, f, m).value[tid];
      && r.played == p[tid].played && r.tied == p[tid].tied && r.nrr == p[tid].nrr && r.team_id == p[tid].team_id
      && r.won - p[tid].won + r.lost - p[tid].lost == (if Present(m.meta.winningTeam) then n else 0)
      && r.won >= p[tid].won && r.lost >= p[tid].lost
      && r.points == p[tid].points + 2 * (r.won - p[tid].won)
  {
    if Present(m.meta.winningTeam) {
      var n := (if tid == f.teamA_id then 1 else 0) + (if tid == f.teamB_id then 1 else 0);
      var wins := if tid == WinnerId(f, m) then 1 else 0;
      var losses := if tid == LoserId(f, m) then 1 else 0;
      assert wins + losses == n;
      assert RecordWin(p, f, m)[tid] == p[tid].(won := p[tid].won + wins, points := p[tid].points + 2 * wins, lost := p[tid].lost + losses);
    }
  }

  /** So one fixture keeps every row consistent, and fails exactly when it
      is orphaned. */
  lemma StepOk(t: Table, f: TournamentFixture, matches: map<string, MatchData>, ids: set<string>)
    requires TableOk(t, ids)
    ensures FixtureStep(t, f, matches).Failure? <==> Orphaned(f, matches, ids)
    ensures FixtureStep(t, f, matches).Success? ==> TableOk(FixtureStep(t, f, matches).value, ids)
  {
    if Counted(f, matches) {
      var m := matches[f.matchId.value];
      var res := RecordResult(RecordPlayed(t.standings, f), f, m);
      if res.Success? {
        forall tid | tid in res.value
          ensures RowOk(res.value[tid], tid) && res.value[tid].nrr == 0.0
        {
          StepRow(t.standings, f, m, tid);
        }
      }
    }
  }

  /** The walk keeps the invariant, and fails exactly when some fixture is
      orphaned. */
  lemma {:induction false} TallyOk(t: Table, fixtures: seq<TournamentFixture>, matches: map<string, MatchData>, ids: set<string>)
    requires TableOk(t, ids)
    ensures Tally(t, fixtures, matches).Success? ==> TableOk(Tally(t, fixtures, matches).value, ids)
    ensures Tally(t, fixtures, matches).Failure? <==> exists k :: 0 <= k < |fixtures| && Orphaned(fixtures[k], matches, ids)
  {
    if fixtures != [] {
      var prefix := fixtures[..|fixtures| - 1];
      var last := fixtures[|fixtures| - 1];
      TallyOk(t, prefix, matches, ids);
      var r := Tally(t, prefix, matches);
      if r.Success? {
        StepOk(r.value, last, matches, ids);
      }
      if exists k :: 0 <= k < |fixtures| && Orphaned(fixtures[k], matches, ids) {
        var k :| 0 <= k < |fixtures| && Orphaned(fixtures[k], matches, ids);
        if k < |prefix| {
          assert prefix[k] == fixtures[k];
        }
      } else {
        forall k | 0 <= k < |prefix| ensures !Orphaned(prefix[k], matches, ids) {
          assert prefix[k] == fixtures[k];
        }
      }
    }
  }

  /** Once the walk has failed, later fixtures do not change the error. */
  lemma {:induction false} TallyFailureStays(t: Table, fixtures: seq<TournamentFixture>, n: nat, matches: map<string, MatchData>)
    requires n <= |fixtures| && Tally(t, fixtures[..n], matches).Failure?
    ensures Tally(t, fixtures, matches) == Tally(t, fixtures[..n], matches)
  {
    if n < |fixtures| {
      var prefix := fixtures[..|fixtures| - 1];
      assert prefix[..n] == fixtures[..n];
      TallyFailureStays(t, prefix, n, matches);
    } else {
      assert fixtures[..n] == fixtures;
    }
  }

  function Ids(teamIds: seq<string>): set<string> {
    set tid | tid in teamIds
  }

  /** The table calculateStandings returns: the walk over all fixtures from
      the initial rows, net run rates applied, rows sorted. */
  function StandingsOf(teamIds: seq<string>, fixtures: seq<TournamentFixture>, matches: map<string, MatchData>): Result<seq<GroupStandings>> {
    var t0 := Table(InitStandings(teamIds), InitNrr(teamIds));
    InitOk(teamIds);
    TallyOk(t0, fixtures, matches, Ids(teamIds));
    match Tally(t0, fixtures, matches)
    case Failure(e) => Failure(e)
    case Success(t) =>
      var final := ApplyNrr(t.standings, t.nrr, teamIds);
      Success(Sorting.SortByKey(Rows(final, Dedup(teamIds)), StandingsKey))
  }

  /** One more listed team adds its zero row and zero run-rate totals. */
  lemma InitStep(teamIds: seq<string>, i: nat)
    requires i < |teamIds|
    ensures InitStandings(teamIds[..i + 1]) == InitStandings(teamIds[..i])[teamIds[i] := ZeroRow(teamIds[i])]
    ensures InitNrr(teamIds[..i + 1]) == InitNrr(teamIds[..i])[teamIds[i] := ZeroNrr]
  {
    assert teamIds[..i + 1][..i] == teamIds[..i];
  }

  /** The first `forEach`: a zero row and zero run-rate totals per team. */
  method InitialRows(teamIds: seq<string>) returns (standings: map<string, GroupStandings>, nrrData: map<string, NrrData>)
    ensures standings == InitStandings(teamIds) && nrrData == InitNrr(teamIds)
  {
    standings := map[];
    nrrData := map[];
    var i := 0;
    while i < |teamIds|
      invariant 0 <= i <= |teamIds|
      invariant standings == InitStandings(teamIds[..i]) && nrrData == InitNrr(teamIds[..i])
    {
      InitStep(teamIds, i);
      standings := standings[teamIds[i] := ZeroRow(teamIds[i])];
      nrrData := nrrData[teamIds[i] := ZeroNrr];
      i := i + 1;
    }
    assert teamIds[..i] == teamIds;
  }

  /** The second `forEach`: the walk over the fixtures, stopped by the
      first error. */
  method WalkFixtures(t0: Table, fixtures: seq<TournamentFixture>, matches: map<string, MatchData>) returns (r: Result<Table>)
    ensures r == Tally(t0, fixtures, matches)
  {
    var standings := t0.standings;
    var nrrData := t0.nrr;
    var k := 0;
    while k < |fixtures|
      invariant 0 <= k <= |fixtures|
      invariant Tally(t0, fixtures[..k], matches) == Success(Table(standings, nrrData))
    {
      assert fixtures[..k + 1][..k] == fixtures[..k];
      var step := FixtureStep(Table(standings, nrrData), fixtures[k], matches);
      if step.Failure? {
        TallyFailureStays(t0, fixtures, k + 1, matches);
        return Failure(step.error);
      }
      standings := step.value.standings;
      nrrData := step.value.nrr;
      k := k + 1;
    }
    assert fixtures[..k] == fixtures;
    r := Success(Table(standings, nrrData));
  }

  /** The third `forEach`: net run rates for teams that batted and bowled. */
  method ApplyRates(tallied: map<string, GroupStandings>, nrrData: map<string, NrrData>, teamIds: seq<string>)
    returns (standings: map<string, GroupStandings>)
    requires forall k :: 0 <= k < |teamIds| ==> teamIds[k] in tallied && teamIds[k] in nrrData
    ensures standings == ApplyNrr(tallied, nrrData, teamIds)
  {
    standings := tallied;
    var j := 0;
    while j < |teamIds|
      invariant 0 <= j <= |teamIds|
      invariant standings == ApplyNrr(tallied, nrrData, teamIds[..j])
    {
      assert teamIds[..j + 1][..j] == teamIds[..j];
      var tid := teamIds[j];
      var data := nrrData[tid];
      if data.oversFaced > 0.0 && data.oversBowled > 0.0 {
        var runRate := data.runsScored / data.oversFaced;
        var concededRate := data.runsConceded / data.oversBowled;
        standings := standings[tid := standings[tid].(nrr := runRate - concededRate)];
      }
      j := j + 1;
    }
    assert teamIds[..j] == teamIds;
  }

  /** calculateStandings (admin): zero rows for the listed teams, the walk
      over the fixtures, net run rates, and the sort. */
  method CalculateStandings(teamIds: seq<string>, fixtures: seq<TournamentFixture>, matches: map<string, MatchData>)
    returns (r: Result<seq<GroupStandings>>)
    ensures r == StandingsOf(teamIds, fixtures, matches)
  {
    var standings, nrrData := InitialRows(teamIds);
    var tally := WalkFixtures(Table(standings, nrrData), fixtures, matches);
    if tally.Failure? {
      return Failure(tally.error);
    }
    InitOk(teamIds);
    TallyOk(Table(standings, nrrData), fixtures, matches, Ids(teamIds));
    standings := ApplyRates(tally.value.standings, tally.value.nrr, teamIds);
    var rows := Rows(standings, Dedup(teamIds));
    r := Success(Sorting.SortByKey(rows, StandingsKey));
  }

  /** The row a team ends with: its tallied counts and, when it has both
      batted and bowled, its net run rate, else 0. */
  function FinalRow(t: Table, tid: string): GroupStandings
    requires tid in t.standings && tid in t.nrr
  {
    t.standings[tid].(nrr := if HasRates(t.nrr[tid]) then NetRunRate(t.nrr[tid]) else 0.0)
  }

  /** The table fails exactly when a counted drawn fixture has a side
      without a row. */
  lemma StandingsFail(teamIds: seq<string>, fixtures: seq<TournamentFixture>, matches: map<string, MatchData>)
    ensures StandingsOf(teamIds, fixtures, matches).Failure? <==>
      exists k :: 0 <= k < |fixtures| && Orphaned(fixtures[k], matches, Ids(teamIds))
  {
    InitOk(teamIds);
    TallyOk(Table(InitStandings(teamIds), InitNrr(teamIds)), fixtures, matches, Ids(teamIds));
  }

  /** After the last pass, each listed team's row is its final row. */
  lemma FinalRows(t: Table, teamIds: seq<string>)
    requires TableOk(t, Ids(teamIds))
    ensures var final := ApplyNrr(t.standings, t.nrr, teamIds);
      forall tid :: tid in teamIds ==> tid in final && final[tid] == FinalRow(t, tid) && RowOk(final[tid], tid)
  {
    forall tid | tid in teamIds
      ensures ApplyNrr(t.standings, t.nrr, teamIds)[tid] == FinalRow(t, tid)
    {
      ApplyNrrRow(t.standings, t.nrr, teamIds, tid);
    }
  }

  /** `Object.values` of a table, reordered by a sort: every row is the
      consistent row of a listed team, and every listed team has one. */
  lemma Reordered(byId: map<string, GroupStandings>, teamIds: seq<string>, sorted: seq<GroupStandings>)
    requires forall tid :: tid in teamIds ==> tid in byId && RowOk(byId[tid], tid)
    requires multiset(sorted) == multiset(Rows(byId, Dedup(teamIds)))
    ensures |sorted| == |Dedup(teamIds)|
    ensures forall k :: 0 <= k < |sorted| ==>
      && sorted[k].team_id in teamIds && sorted[k].team_id in byId
      && RowOk(sorted[k], sorted[k].team_id) && sorted[k] == byId[sorted[k].team_id]
    ensures forall tid :: tid in teamIds ==> exists k :: 0 <= k < |sorted| && sorted[k].team_id == tid
  {
    var keys := Dedup(teamIds);
    var rows := Rows(byId, keys);
    assert |sorted| == |multiset(sorted)| == |multiset(rows)| == |rows|;
    ReorderedFrom(byId, teamIds, sorted);
    ReorderedCovers(byId, teamIds, sorted);
  }

  lemma ReorderedFrom(byId: map<string, GroupStandings>, teamIds: seq<string>, sorted: seq<GroupStandings>)
    requires forall tid :: tid in teamIds ==> tid in byId && RowOk(byId[tid], tid)
    requires multiset(sorted) == multiset(Rows(byId, Dedup(teamIds)))
    ensures forall k :: 0 <= k < |sorted| ==>
      && sorted[k].team_id in teamIds && sorted[k].team_id in byId
      && RowOk(sorted[k], sorted[k].team_id) && sorted[k] == byId[sorted[k].team_id]
  {
    var keys := Dedup(teamIds);
    var rows := Rows(byId, keys);
    forall k | 0 <= k < |sorted|
      ensures && sorted[k].team_id in teamIds && sorted[k].team_id in byId
              && RowOk(sorted[k], sorted[k].team_id) && sorted[k] == byId[sorted[k].team_id]
    {
      assert sorted[k] in multiset(rows);
      var q :| 0 <= q < |rows| && rows[q] == sorted[k];
      var tid := keys[q];
      assert tid in teamIds;
      assert sorted[k] == byId[tid] && RowOk(byId[tid], tid);
    }
  }

  lemma ReorderedCovers(byId: map<string, GroupStandings>, teamIds: seq<string>, sorted: seq<GroupStandings>)
    requires forall tid :: tid in teamIds ==> tid in byId && RowOk(byId[tid], tid)
    requires multiset(sorted) == multiset(Rows(byId, Dedup(teamIds)))
    ensures forall tid :: tid in teamIds ==> exists k :: 0 <= k < |sorted| && sorted[k].team_id == tid
  {
    var keys := Dedup(teamIds);
    var rows := Rows(byId, keys);
    forall tid | tid in teamIds
      ensures exists k :: 0 <= k < |sorted| && sorted[k].team_id == tid
    {
      assert tid in keys;
      var q :| 0 <= q < |keys| && keys[q] == tid;
      assert rows[q] in multiset(sorted);
      var k :| 0 <= k < |sorted| && rows[q] == sorted[k];
    }
  }

  /** The walk over the fixtures from the initial rows. */
  function TallyFrom(teamIds: seq<string>, fixtures: seq<TournamentFixture>, matches: map<string, MatchData>): Result<Table> {
    Tally(Table(InitStandings(teamIds), InitNrr(teamIds)), fixtures, matches)
  }

  /** Otherwise it has one consistent row per listed team, each the team's
      tallied row with its net run rate. */
  lemma StandingsRows(teamIds: seq<string>, fixtures: seq<TournamentFixture>, matches: map<string, MatchData>)
    requires StandingsOf(teamIds, fixtures, matches).Success?
    ensures TallyFrom(teamIds, fixtures, matches).Success?
    ensures var r := StandingsOf(teamIds, fixtures, matches).value;
      var t := TallyFrom(teamIds, fixtures, matches).value;
      && TableOk(t, Ids(teamIds))
      && |r| == |Dedup(teamIds)|
      && (forall k :: 0 <= k < |r| ==>
            && r[k].team_id in teamIds
            && RowOk(r[k], r[k].team_id)
            && r[k] == FinalRow(t, r[k].team_id))
      && (forall tid :: tid in teamIds ==> exists k :: 0 <= k < |r| && r[k].team_id == tid)
  {
    InitOk(teamIds);
    TallyOk(Table(InitStandings(teamIds), InitNrr(teamIds)), fixtures, matches, Ids(teamIds));
    var t := TallyFrom(teamIds, fixtures, matches).value;
    FinalRows(t, teamIds);
    Reordered(ApplyNrr(t.standings, t.nrr, teamIds), teamIds, StandingsOf(teamIds, fixtures, matches).value);
  }

  /** The rows are sorted by points and then net run rate, both descending. */
  lemma StandingsOrder(teamIds: seq<string>, fixtures: seq<TournamentFixture>, matches: map<string, MatchData>)
    requires StandingsOf(teamIds, fixtures, matches).Success?
    ensures var r := StandingsOf(teamIds, fixtures, matches).value;
      forall i, j :: 0 <= i < j < |r| ==>
        r[i].points > r[j].points || (r[i].points == r[j].points && r[i].nrr >= r[j].nrr)
  {
    var r := StandingsOf(teamIds, fixtures, matches).value;
    assert Sorting.SortedBy(r, StandingsKey);
    forall i, j | 0 <= i < j < |r|
      ensures r[i].points > r[j].points || (r[i].points == r[j].points && r[i].nrr >= r[j].nrr)
    {
      assert Sorting.KeyLe(StandingsKey(r[i]), StandingsKey(r[j]));
    }
  }

  /** Teams level on points and net run rate keep the order of the listed
      team ids: before the sort the rows follow the ids without repeats,
      and the sort keeps rows with equal keys in that order. */
  lemma StandingsTiesKeepListOrder(teamIds: seq<string>, fixtures: seq<TournamentFixture>,
                                   matches: map<string, MatchData>, q: (real, real))
    requires StandingsOf(teamIds, fixtures, matches).Success?
    ensures TallyFrom(teamIds, fixtures, matches).Success?
    ensures var t := TallyFrom(teamIds, fixtures, matches).value;
      var final := ApplyNrr(t.standings, t.nrr, teamIds);
      forall k :: 0 <= k < |Dedup(teamIds)| ==> Dedup(teamIds)[k] in final && final[Dedup(teamIds)[k]].team_id == Dedup(teamIds)[k]
    ensures var t := TallyFrom(teamIds, fixtures, matches).value;
      var unsorted := Rows(ApplyNrr(t.standings, t.nrr, teamIds), Dedup(teamIds));
      Sorting.WithKey(StandingsOf(teamIds, fixtures, matches).value, StandingsKey, q)
        == Sorting.WithKey(unsorted, StandingsKey, q)
  {
    InitOk(teamIds);
    TallyOk(Table(InitStandings(teamIds), InitNrr(teamIds)), fixtures, matches, Ids(teamIds));
    var t := TallyFrom(teamIds, fixtures, matches).value;
    FinalRows(t, teamIds);
    var final := ApplyNrr(t.standings, t.nrr, teamIds);
    forall k | 0 <= k < |Dedup(teamIds)|
      ensures Dedup(teamIds)[k] in final && final[Dedup(teamIds)[k]].team_id == Dedup(teamIds)[k]
    {
      assert Dedup(teamIds)[k] in teamIds;
    }
    Sorting.SortStable(Rows(final, Dedup(teamIds)), StandingsKey, q);
  }

  // ---------------------------------------------------------------------
  // The tie branch with the row checks the other branches have

  /** A point and a tie to the row, if the row exists. */
  function AddTieIfListed(st: map<string, GroupStandings>, tid: string): map<string, GroupStandings> {
    if tid in st then AddTie(st, tid) else st
  }

  function RecordResultGuarded(st: map<string, GroupStandings>, f: TournamentFixture, m: MatchData): map<string, GroupStandings> {
    if Drawn(m) then AddTieIfListed(AddTieIfListed(st, f.teamA_id), f.teamB_id) else RecordWin(st, f, m)
  }

  function FixtureStepGuarded(t: Table, f: TournamentFixture, matches: map<string, MatchData>): Table {
    if !Counted(f, matches) then t
    else
      var m := matches[f.matchId.value];
      Table(RecordResultGuarded(RecordPlayed(t.standings, f), f, m), RecordNrr(t.nrr, f, m))
  }

  function TallyGuarded(t: Table, fixtures: seq<TournamentFixture>, matches: map<string, MatchData>): Table {
    if fixtures == [] then t
    else FixtureStepGuarded(TallyGuarded(t, fixtures[..|fixtures| - 1], matches), fixtures[|fixtures| - 1], matches)
  }

  /** Where the unguarded walk succeeds, the guarded walk gives the same
      table. */
  lemma {:induction false} GuardedAgrees(t: Table, fixtures: seq<TournamentFixture>, matches: map<string, MatchData>)
    requires Tally(t, fixtures, matches).Success?
    ensures TallyGuarded(t, fixtures, matches) == Tally(t, fixtures, matches).value
  {
    if fixtures != [] {
      var prefix := fixtures[..|fixtures| - 1];
      GuardedAgrees(t, prefix, matches);
    }
  }

  /** A fixture between two teams outside the group leaves the group's
      table as it is. */
  lemma OtherGroupIgnored(t: Table, f: TournamentFixture, matches: map<string, MatchData>)
    requires f.teamA_id !in t.standings && f.teamB_id !in t.standings
    requires f.teamA_id !in t.nrr && f.teamB_id !in t.nrr
    ensures FixtureStepGuarded(t, f, matches) == t
  {
  }

  /** So the guarded table of a group does not depend on the fixtures of
      the other group mixed into the list. */
  lemma {:induction false} OtherGroupsIgnored(t: Table, fixtures: seq<TournamentFixture>, other: TournamentFixture,
                                              matches: map<string, MatchData>)
    requires other.teamA_id !in t.standings && other.teamB_id !in t.standings
    requires other.teamA_id !in t.nrr && other.teamB_id !in t.nrr
    ensures TallyGuarded(t, fixtures + [other], matches) == TallyGuarded(t, fixtures, matches)
  {
    assert (fixtures + [other])[..|fixtures|] == fixtures;
    GuardedKeys(t, fixtures, matches);
    OtherGroupIgnored(TallyGuarded(t, fixtures, matches), other, matches);
  }

  lemma {:induction false} GuardedKeys(t: Table, fixtures: seq<TournamentFixture>, matches: map<string, MatchData>)
    ensures TallyGuarded(t, fixtures, matches).standings.Keys == t.standings.Keys
    ensures TallyGuarded(t, fixtures, matches).nrr.Keys == t.nrr.Keys
  {
    if fixtures != [] {
      GuardedKeys(t, fixtures[..|fixtures| - 1], matches);
      GuardedStepKeys(TallyGuarded(t, fixtures[..|fixtures| - 1], matches), fixtures[|fixtures| - 1], matches);
    }
  }

  /** The guarded step updates rows and totals but adds or removes none. */
  lemma GuardedStepKeys(t: Table, f: TournamentFixture, matches: map<string, MatchData>)
    ensures FixtureStepGuarded(t, f, matches).standings.Keys == t.standings.Keys
    ensures FixtureStepGuarded(t, f, matches).nrr.Keys == t.nrr.Keys
  {
    if Counted(f, matches) {
      var m := matches[f.matchId.value];
      var p := RecordPlayed(t.standings, f);
      assert p.Keys == t.standings.Keys by {
        assert AddPlayed(t.standings, f.teamA_id).Keys == t.standings.Keys;
      }
      if Drawn(m) {
        assert AddTieIfListed(p, f.teamA_id).Keys == p.Keys;
        assert AddTieIfListed(AddTieIfListed(p, f.teamA_id), f.teamB_id).Keys == p.Keys;
      } else if Present(m.meta.winningTeam) {
        assert AddWin(p, WinnerId(f, m)).Keys == p.Keys;
        assert RecordWin(p, f, m).Keys == p.Keys;
      }
    }
  }

  /** The as-written table fails for group A as soon as a tied match of
      group B is in the list, as it is when both groups' fixtures are
      passed together. */
  lemma TieInOtherGroupFails()
    ensures var meta := MatchMeta("Blues", "Reds", 5, Completed, 2, "Reds", "Blues", Some("Tie"), Some(41),
                                  Some("Match tied"), Some(Tie));
      var m := MatchData(meta, Squads([], []), FreshState([]), [], None, None, 0);
      var f := TournamentFixture("fix_B_b1_b2", "b1", "b2", GroupB, FixtureCompleted, Some("m1"));
      StandingsOf(["a1", "a2", "a3", "a4"], [f], map["m1" := m]).Failure?
  {
    var meta := MatchMeta("Blues", "Reds", 5, Completed, 2, "Reds", "Blues", Some("Tie"), Some(41),
                          Some("Match tied"), Some(Tie));
    var m := MatchData(meta, Squads([], []), FreshState([]), [], None, None, 0);
    var f := TournamentFixture("fix_B_b1_b2", "b1", "b2", GroupB, FixtureCompleted, Some("m1"));
    var ids := ["a1", "a2", "a3", "a4"];
    assert "b1" !in ids by {
      assert "b1"[0] != "a1"[0] && "b1"[0] != "a2"[0] && "b1"[0] != "a3"[0] && "b1"[0] != "a4"[0];
    }
    assert Orphaned(f, map["m1" := m], Ids(ids));
    assert [f][0] == f;
    StandingsFail(ids, [f], map["m1" := m]);
  }
}
