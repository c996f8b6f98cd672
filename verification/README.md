# Cricket scoring: a verified model

This project models the scoring core of a two-app cricket system, in Dafny. In the
admin app, a scorer creates a match, selects the batsmen and the bowler, and enters
deliveries one at a time. Each delivery goes through a state machine. That machine
updates runs, wickets, the legal-ball and over counters, strike, the free hit and the
current partnership. It ends the innings or the match when overs, wickets or a chased
target say so.

The same app also:

- saves innings snapshots with batting, bowling, fall-of-wickets, partnership and
  extras figures computed from the ball list;
- undoes the last delivery by rebuilding the state from the remaining balls;
- runs a two-group tournament. It generates round-robin fixtures, indexes them by id,
  starts tournament matches from a toss, and computes group standings with points
  and net run rate.

The viewer app shows a post-match scorecard. It uses the saved innings when both
exist. Otherwise it splits the ball list into two innings by role reversal and
recomputes every table. It also computes the same group standings, without net run
rate.

The model follows the source's own form:

- Pure helpers are Dafny functions.
- Loops that update variables (`forEach`, `for`) are methods with loop invariants,
  proved equal to a reference function.
- Each screen handler is a function from the screen's state and the stored match to
  the next screen state and the record it writes. The one screen whose handlers
  mutate several pieces of state is a class.
- Firebase reads and writes become inputs and outputs. `Date.now()` becomes a `now`
  parameter, and a generated match id becomes a parameter.

Modules:

- `Types`: the shared records (`Ball`, `MatchState`, `MatchMeta`, `MatchData`,
  `InningsData`, the statistics and tournament records) and small folds over balls.
- `Text`: number rendering, splitting, trimming and ASCII lower-casing of strings.
- `Sorting`: a stable sort by a two-part key, standing in for `Array.prototype.sort`.
- `BallProcessor`, `CricketRules`, `InningsManager`, `StatsCalculator`,
  `TournamentAdmin`: the admin app's library files.
- `TournamentViewer`: the viewer's standings.
- `ScoringDashboard`, `CreateMatch`, `SetupMatch`, `TournamentDashboard`: the admin
  screens' handlers.
- `PostMatchScorecard`: the viewer's scorecard.

## Model

| member | source | states |
|---|---|---|
| BallProcessor.ProcessBallDelivery | cricket-admin/src/lib/ballProcessor.ts:29-190 | the step-by-step processing of a delivery yields exactly the reference result `Deliver`: recorded ball, next state, next metadata and the six change flags |
| BallProcessor.CountDelivery | cricket-admin/src/lib/ballProcessor.ts:78-97 | runs and partnership grow by the ball's runs; a legal ball adds a legal ball, a ball of the over and a partnership ball and clears the free hit; a no-ball grants it; nothing else changes |
| BallProcessor.AdvanceState | cricket-admin/src/lib/ballProcessor.ts:78-151 | counting, wicket, odd-run rotation and over completion together reach the reference next state; the over completes exactly when the sixth legal ball is bowled; strike changes on odd bat runs or an over end |
| BallProcessor.CheckCompletion | cricket-admin/src/lib/ballProcessor.ts:153-173 | the innings completes exactly on overs used up, ten wickets, or a chased non-zero target in the second innings; status follows the reference (innings break after the first, completed after the second) |
| BallProcessor.SwapEnds | cricket-admin/src/lib/ballProcessor.ts:195-201 | striker and non-striker exchange places and no other field changes |
| BallProcessor.HandleStrikeRotation | cricket-admin/src/lib/ballProcessor.ts:195-201 | the rotated state is the end swap |
| BallProcessor.HandleWicket | cricket-admin/src/lib/ballProcessor.ts:206-225 | one more wicket and next-batsman index; the dismissed end (chosen by role) is emptied; the partnership restarts at zero; nothing else changes |
| BallProcessor.HandleOverCompletion | cricket-admin/src/lib/ballProcessor.ts:230-243 | one more over, ball count reset, the bowler becomes the last-over bowler and is cleared, ends swap; nothing else changes |
| BallProcessor.SwapEndsInvolution | cricket-admin/src/lib/ballProcessor.ts:195-201 | swapping ends twice restores the state |
| BallProcessor.DeliveredBall | cricket-admin/src/lib/ballProcessor.ts:46-75 | the recorded ball carries runs including the one-run wide/no-ball penalty, bat runs (none for wides, byes, leg-byes), the over and ball position, the wicket details only on a wicket, and the players |
| BallProcessor.DeliveredRuns | cricket-admin/src/lib/ballProcessor.ts:78-84 | team runs grow by exactly the ball's runs; the partnership grows by them too, or restarts at zero runs and balls on a wicket |
| BallProcessor.DeliveredCounters | cricket-admin/src/lib/ballProcessor.ts:87-151 | legal balls grow by one exactly for a legal ball, and the invariant "legal balls = 6 × overs + balls in over, balls in over < 6" is preserved |
| BallProcessor.DeliveredFreeHit | cricket-admin/src/lib/ballProcessor.ts:87-97 | a no-ball sets the free hit, a legal ball clears it, a wide keeps it |
| BallProcessor.DeliveredWicket | cricket-admin/src/lib/ballProcessor.ts:103-121 | a wicket adds one wicket and one batsman index and empties the dismissed end, chosen by name or the literal "striker", on whichever side it stands after an over-end swap |
| BallProcessor.DeliveredStrike | cricket-admin/src/lib/ballProcessor.ts:125-151 | without a wicket the ends change exactly when one, and only one, of "odd bat runs" and "over completed" holds |
| BallProcessor.OddByesAndLastBallOfOver | cricket-admin/src/lib/ballProcessor.ts:125-151 | odd byes, leg-byes or wides never rotate strike mid-over, and odd bat runs off the last ball of an over leave the striker on strike |
| BallProcessor.DeliveredOverEnd | cricket-admin/src/lib/ballProcessor.ts:138-151 | at an over end the state's current bowler (not the argument) becomes the last-over bowler and the bowler slot is cleared |
| BallProcessor.DeliveredStatus | cricket-admin/src/lib/ballProcessor.ts:153-175 | innings completion and the new status in terms of overs, wickets and target, and status untouched otherwise |
| CricketRules.ValidateBowlerSelection | cricket-admin/src/lib/cricketRules.ts:7-26 | valid exactly when no last-over bowler is recorded or the proposal differs from it; the error names the bowler |
| CricketRules.NoConsecutiveOvers | cricket-admin/src/lib/cricketRules.ts:7-26 | after a delivery that completes an over, its bowler is refused for the next over and every other bowler is accepted |
| CricketRules.ValidateBattingOrder | cricket-admin/src/lib/cricketRules.ts:31-62 | valid exactly when there is no batting order, or the player is in the squad and not already out; each refusal has its message |
| CricketRules.IsInningsComplete | cricket-admin/src/lib/cricketRules.ts:67-79 | complete exactly when the overs are used up or ten wickets are down |
| CricketRules.InningsBreakIsCompletion | cricket-admin/src/lib/inningsManager.ts:13-23 | the innings-break test is completion in the first innings |
| CricketRules.GetNextBatsman | cricket-admin/src/lib/cricketRules.ts:84-107 | none without a batting order; otherwise the first player at or after the index who has no figures or is not out, and none only when no such player exists |
| CricketRules.CanProgressMatch | cricket-admin/src/lib/cricketRules.ts:112-130 | valid exactly when striker, non-striker and bowler are selected and the two batsmen differ; a missing striker, then a missing non-striker, is reported first |
| CricketRules.DeliveryBlocksUntilReselected | cricket-admin/src/lib/cricketRules.ts:112-130 | after a wicket or an over end, no delivery is accepted until the dismissed end or the bowler is chosen again |
| CricketRules.FirstBowlerOfOver | cricket-admin/src/lib/cricketRules.ts:141-148 | none exactly when no ball of that over was recorded; otherwise the bowler of the earliest such ball |
| CricketRules.GetLastOverBowler | cricket-admin/src/lib/cricketRules.ts:135-149 | none before the first over; otherwise the bowler of the first recorded ball of the previous over, and none only when that over has no ball |
| CricketRules.LastOverBowlerKept | cricket-admin/src/lib/cricketRules.ts:135-149 | once the previous over has a recorded ball, balls added later leave the last-over bowler unchanged |
| CricketRules.IsTargetChased | cricket-admin/src/lib/cricketRules.ts:154-157 | the same test as the second innings' early end |
| InningsManager.ShouldTransitionToInningsBreak | cricket-admin/src/lib/inningsManager.ts:13-23 | true exactly in the first innings with overs used up or ten wickets down |
| InningsManager.InningsBreakAgreesWithDelivery | cricket-admin/src/lib/inningsManager.ts:13-23 | a first-innings delivery moves the match to the innings break exactly when this test holds of the new state |
| InningsManager.SaveInningsData | cricket-admin/src/lib/inningsManager.ts:28-55 | the snapshot copies teams and totals from the state; it has a batting row, with the player's figures over the balls, exactly for each batting-squad player who faced a ball or is out, and a bowling row, with the figures over the balls, exactly for each bowling-squad player who bowled a legal ball; its fall of wickets, partnerships and extras are those of the balls, with balanced extras and wickets numbered 1, 2, … |
| InningsManager.PrepareInnings2State | cricket-admin/src/lib/inningsManager.ts:60-98 | sides swap, the target is first-innings runs plus one, the match is live in innings 2 with other metadata kept, and the state is fresh with the batting order kept |
| InningsManager.ChaseNeedsMoreThanFirstInnings | cricket-admin/src/lib/inningsManager.ts:60-98 | in the prepared second innings the chase succeeds exactly when the runs exceed the first innings' |
| InningsManager.CalculateMatchResult | cricket-admin/src/lib/inningsManager.ts:103-142 | tie, wickets and runs results exactly by the comparison of totals; the winner and the margin (ten minus wickets lost, or the run difference) with singular/plural units |
| InningsManager.ChaseExample | cricket-admin/src/lib/inningsManager.ts:126-133 | a chase six down reads "Australia won by 4 wickets" |
| InningsManager.DefenceExample | cricket-admin/src/lib/inningsManager.ts:135-141 | a one-run defence reads "India won by 1 run" |
| InningsManager.ShouldEndInnings2Early | cricket-admin/src/lib/inningsManager.ts:147-153 | true exactly when a non-zero target is set and reached |
| InningsManager.EarlyEndAgreesWithDelivery | cricket-admin/src/lib/ballProcessor.ts:168-173 | the processor's chase test is this one |
| InningsManager.GetMatchSummary | cricket-admin/src/lib/inningsManager.ts:158-185 | one non-empty line per status: not started, batting, chasing, innings break with or without the first-innings score, the recorded result or "Match completed" |
| InningsManager.SummaryShowsResult | cricket-admin/src/lib/inningsManager.ts:180-182 | a completed match whose result was recorded from its two innings shows that result's text |
| StatsCalculator.HowOutText | cricket-admin/src/lib/statsCalculator.ts:33-49 | every dismissal kind has a non-empty description |
| StatsCalculator.StrikeRate | cricket-admin/src/lib/statsCalculator.ts:60 | zero without balls faced; otherwise runs per hundred balls |
| StatsCalculator.CalculateBatsmanStats | cricket-admin/src/lib/statsCalculator.ts:6-78 | the loop computes the fold `BatsmanStatsOf` of the ball list |
| StatsCalculator.BatsmanStatsBounds | cricket-admin/src/lib/statsCalculator.ts:14-58 | fours and sixes account for at most the runs, balls faced are at most the deliveries, and a dismissal text implies out |
| StatsCalculator.BatsmanOutIff | cricket-admin/src/lib/statsCalculator.ts:31-57 | out exactly when some delivery with the player at either end dismisses them by name |
| StatsCalculator.BatsmanAbsent | cricket-admin/src/lib/statsCalculator.ts:14-75 | a player at neither end of any ball has zero figures and is not out |
| StatsCalculator.BatsmanFacedIff | cricket-admin/src/lib/statsCalculator.ts:16-20 | balls faced is positive exactly when the player was striker for a legal ball |
| StatsCalculator.BowledBy | cricket-admin/src/lib/statsCalculator.ts:95 | the selected balls are all the bowler's, and at most the whole list |
| StatsCalculator.BowlerWickets | cricket-admin/src/lib/statsCalculator.ts:105-107 | credited wickets are at most the wickets that fell |
| StatsCalculator.OverOrder | cricket-admin/src/lib/statsCalculator.ts:114-117 | the over keys are exactly the grouped overs, without repetition |
| StatsCalculator.Economy | cricket-admin/src/lib/statsCalculator.ts:134 | zero without legal balls; otherwise runs per six balls |
| StatsCalculator.CountMaidenOvers | cricket-admin/src/lib/statsCalculator.ts:122-130 | the loop counts the overs of six legal balls and no runs |
| StatsCalculator.TallyBowlerBalls | cricket-admin/src/lib/statsCalculator.ts:94-119 | the loop's counters are the legal balls, runs, credited wickets, wides and no-balls of the bowler's balls, and its groups are the bowler's balls by over |
| StatsCalculator.CalculateBowlerStats | cricket-admin/src/lib/statsCalculator.ts:83-147 | the computation yields the reference figures `BowlerStatsOf` |
| StatsCalculator.BowlerFoldsSnoc | cricket-admin/src/lib/statsCalculator.ts:94-119 | one more ball adds its share to each counter and appends it to its over's group |
| StatsCalculator.GroupLegalTotal | cricket-admin/src/lib/statsCalculator.ts:114-123 | the legal balls counted over the over groups are all the legal balls |
| StatsCalculator.MaidensWithinGroups | cricket-admin/src/lib/statsCalculator.ts:122-130 | six legal balls per maiden fit within the grouped legal balls |
| StatsCalculator.BowlerStatsBounds | cricket-admin/src/lib/statsCalculator.ts:83-147 | maidens at most overs, balls under six, six × overs + balls = legal balls bowled, wickets at most the wickets that fell, runs all conceded |
| StatsCalculator.CalculateFallOfWickets | cricket-admin/src/lib/statsCalculator.ts:152-182 | the loop computes the fall-of-wickets list `FallOfWicketsOf` |
| StatsCalculator.FallOfWicketsFacts | cricket-admin/src/lib/statsCalculator.ts:152-182 | at most one entry per wicket, numbered 1, 2, … with scores not above the total and never decreasing |
| StatsCalculator.CalculatePartnerships | cricket-admin/src/lib/statsCalculator.ts:187-248 | the loop computes the partnership list `PartnershipsOf` |
| StatsCalculator.PFoldInvariant | cricket-admin/src/lib/statsCalculator.ts:195-245 | the running partnership and the closed ones account for all runs and legal balls; closed ones are numbered in order |
| StatsCalculator.PartnershipsFacts | cricket-admin/src/lib/statsCalculator.ts:187-248 | none exactly for no balls; partnership k starts at wicket k, all but the last ended at wicket k + 1, the last is active; their runs and balls sum to the innings' runs and legal balls |
| StatsCalculator.ExtrasOf | cricket-admin/src/lib/statsCalculator.ts:253-279 | the extras total is the sum of its four parts |
| StatsCalculator.CalculateExtras | cricket-admin/src/lib/statsCalculator.ts:253-279 | the loop computes `ExtrasOf` |
| StatsCalculator.RecordedBallBalanced | cricket-admin/src/lib/ballProcessor.ts:46-75 | every recorded ball's runs are its extras part plus its bat runs |
| StatsCalculator.TotalIsExtrasPlusBat | cricket-admin/src/lib/statsCalculator.ts:253-279 | over balanced balls, total runs are the extras total plus the bat runs |
| StatsCalculator.RunRate | cricket-admin/src/lib/statsCalculator.ts:284-288 | zero without balls; otherwise runs per six balls |
| StatsCalculator.RequiredRunRate | cricket-admin/src/lib/statsCalculator.ts:293-303 | zero when no balls remain or the target is reached; otherwise the runs still needed per six remaining balls |
| StatsCalculator.RequiredRateReachesTarget | cricket-admin/src/lib/statsCalculator.ts:293-303 | the required rate is positive exactly while balls remain and runs are needed, and scoring at it over the remaining balls reaches the target |
| StatsCalculator.AllBatsmanStatsOf | cricket-admin/src/lib/statsCalculator.ts:308-320 | a squad member has a row exactly when they faced a ball or are out, and the row is their figures |
| StatsCalculator.CalculateAllBatsmanStats | cricket-admin/src/lib/statsCalculator.ts:308-320 | the loop computes `AllBatsmanStatsOf` |
| StatsCalculator.AllBowlerStatsOf | cricket-admin/src/lib/statsCalculator.ts:325-337 | a squad member has a row exactly when they bowled a legal ball, and the row is their figures |
| StatsCalculator.CalculateAllBowlerStats | cricket-admin/src/lib/statsCalculator.ts:325-337 | the loop computes `AllBowlerStatsOf` |
| StatsCalculator.CurrentPartnershipAfterDelivery | cricket-admin/src/lib/statsCalculator.ts:342-347 | after a delivery the current partnership restarts at a wicket and otherwise grows by the ball's runs and legal ball |
| Text.NatToString | cricket-admin/src/lib/inningsManager.ts:130 | decimal digits with no leading zero |
| Text.NatToStringRoundTrip | cricket-admin/src/lib/inningsManager.ts:130 | reading the digits back gives the number |
| Text.NatToStringInjective | cricket-admin/src/lib/inningsManager.ts:130 | different numbers render differently |
| Text.IntToString | cricket-admin/src/lib/inningsManager.ts:127-130 | a negative number renders as a minus sign and its magnitude |
| Text.Split | cricket-admin/src/components/CreateMatch.tsx:26 | at least one piece, none containing the separator |
| Text.JoinSplit | cricket-admin/src/components/CreateMatch.tsx:26 | joining the pieces with the separator gives back the string |
| Text.SplitJoin | cricket-admin/src/components/CreateMatch.tsx:26 | splitting separator-free pieces joined by the separator gives back the pieces |
| Text.Trim | cricket-admin/src/components/CreateMatch.tsx:26 | the result has no white space at either end and is the input with its leading and trailing white space removed |
| Text.TrimIdempotent | cricket-admin/src/components/CreateMatch.tsx:26 | trimming twice is trimming once |
| Text.TrimEmpty | cricket-admin/src/components/CreateMatch.tsx:26 | trimming gives "" exactly for white space only |
| Text.ParseRoster | cricket-admin/src/components/CreateMatch.tsx:26-27 | every parsed name is non-empty, trimmed and on one line |
| Text.ParseRosterRoundTrip | cricket-admin/src/components/CreateMatch.tsx:26-27 | names typed one per line are read back unchanged |
| Text.ParseRosterTwoLines | cricket-admin/src/components/CreateMatch.tsx:26-27 | two non-blank lines give their two trimmed names |
| Text.ToLower | cricket-viewer/src/components/PostMatchScorecard.tsx:117 | same length, each character lower-cased |
| Text.ToLowerIdempotent | cricket-viewer/src/components/PostMatchScorecard.tsx:117 | lower-casing twice is lower-casing once |
| Sorting.SortByKey | cricket-admin/src/lib/tournamentUtils.ts:115-118 | the result is a permutation of the input, sorted by the key |
| Sorting.SortSorted | cricket-admin/src/lib/tournamentUtils.ts:115-118 | an already sorted list is returned unchanged |
| Sorting.SortStable | cricket-admin/src/lib/tournamentUtils.ts:115-118 | the sort is stable: for every key, the elements with that key come out in the order they went in |
| Sorting.Take | cricket-viewer/src/components/PostMatchScorecard.tsx:261 | the first n elements, or all of them when fewer |
| ScoringDashboard.HandleUpdatePlayer | cricket-admin/src/components/ScoringDashboard.tsx:52-91 | a batsman already at the other end is refused with its alert; a bowler refused by the consecutive-overs rule sets the error; otherwise exactly that selection changes on screen and in the written state |
| ScoringDashboard.DifferentEndsKept | cricket-admin/src/components/ScoringDashboard.tsx:52-91 | from distinct selections, no change makes striker and non-striker the same |
| ScoringDashboard.Active | cricket-admin/src/components/ScoringDashboard.tsx:97-99 | a player is selected exactly when the screen or the stored state names one |
| ScoringDashboard.SubmitBall | cricket-admin/src/components/ScoringDashboard.tsx:93-198 | nothing is written, with the alert, exactly when a player is missing; otherwise the form is reset |
| ScoringDashboard.SubmitAppendsOneBall | cricket-admin/src/components/ScoringDashboard.tsx:93-198 | exactly one ball is appended after the history, numbered next, with the selected players, the dismissed player at the chosen end, a fielder only for a catch, run out or stumping; the written record is the stored one with that ball (the processor's recorded ball) appended, the processor's state, the same squads and the submission time; selections follow the state; a completed match whose stored record carries a tournament and fixture id completes that fixture |
| ScoringDashboard.SubmitSavesInnings | cricket-admin/src/components/ScoringDashboard.tsx:134-181 | a first innings that ends is saved from the new state and all balls; a second innings that ends, with the first saved, is saved the same way, the first innings is kept and the result is recorded; a second innings that ends with no first innings saved attaches nothing; otherwise saved innings stay |
| ScoringDashboard.UndoOf | cricket-admin/src/components/ScoringDashboard.tsx:200-260 | nothing without a ball; otherwise the last ball is removed and metadata, squads and innings are kept; the rebuilt state counts the remaining balls' runs, wickets and legal balls (overs and balls of the over consistent with them), takes the players from the last remaining ball (the stored ones when none remains), has a free hit exactly when that ball was a no-ball, recomputes the last-over bowler from the remaining balls, carries over the batting order and next batsman index, and counts the partnership over all remaining balls; the selections follow the rebuilt state |
| ScoringDashboard.HandleUndo | cricket-admin/src/components/ScoringDashboard.tsx:200-260 | the loop over the remaining balls computes `UndoOf` |
| ScoringDashboard.UndoAfterSubmit | cricket-admin/src/components/ScoringDashboard.tsx:93-260 | submitting a ball and undoing it restores the ball list |
| ScoringDashboard.DeliveredIsRecorded | cricket-admin/src/lib/ballProcessor.ts:46-75 | every recorded ball has the form the undo rebuild relies on |
| ScoringDashboard.ReplayCounters | cricket-admin/src/lib/ballProcessor.ts:78-151 | redelivering recorded balls keeps the counters consistent and totals their runs, wickets and legal balls |
| ScoringDashboard.UndoMatchesReplay | cricket-admin/src/components/ScoringDashboard.tsx:204-244 | the runs, wickets, legal balls, overs and balls of the over rebuilt by undo equal those the processor reaches by redelivering the remaining balls |
| ScoringDashboard.ReplayPartnershipAndFreeHit | cricket-admin/src/lib/ballProcessor.ts:81-121 | redelivering restarts the partnership at each wicket and carries the free hit through wides |
| ScoringDashboard.CorrectedUndoMatchesReplay | cricket-admin/src/components/ScoringDashboard.tsx:204-246 | the corrected rebuild agrees with redelivery in every counter, the partnership and the free hit |
| ScoringDashboard.UndoPartnershipIgnoresWickets | cricket-admin/src/components/ScoringDashboard.tsx:204-215 | after a four, a wicket and a single, the rebuild reports a 5-run, 3-ball partnership where redelivery has 1 run in 1 ball |
| ScoringDashboard.UndoFreeHitLostAfterWide | cricket-admin/src/components/ScoringDashboard.tsx:246 | after a no-ball then a wide, the rebuild drops the free hit that redelivery keeps |
| ScoringDashboard.HandleStartInnings2 | cricket-admin/src/components/ScoringDashboard.tsx:262-282 | refused with its alert exactly without a saved first innings; otherwise the written record is the stored one with the prepared second-innings metadata (swapped sides, the target), a fresh state that keeps the batting order, no balls and the submission time, with squads and the saved first innings kept; the selections are cleared |
| CreateMatch.HandleCreate | cricket-admin/src/components/CreateMatch.tsx:20-88 | the fill-in alert exactly for an empty field; then the squad-size alert exactly when a roster has fewer than two names; otherwise a live first-innings match with the parsed squads, team A batting, no balls, and the admin as owner and lock holder; the record has no tournament fields |
| CreateMatch.CreatedSquads | cricket-admin/src/components/CreateMatch.tsx:26-32 | a created match has at least two non-empty trimmed one-line names per side |
| CreateMatch.BlankRosterRejected | cricket-admin/src/components/CreateMatch.tsx:21-32 | a roster of white space passes the first check but is refused by the squad-size check |
| CreateMatch.RostersBecomeSquads | cricket-admin/src/components/CreateMatch.tsx:26-59 | rosters typed one name per line become the squads unchanged |
| CreateMatch.CreatedMatchReady | cricket-admin/src/components/CreateMatch.tsx:60-76 | a new match starts from consistent counters, needs a striker before the first ball, and is complete at once exactly when its over limit is not positive |
| SetupMatch.HandleStart | cricket-admin/src/components/SetupMatch.tsx:13-59 | the same two alerts under the same conditions; otherwise the live first-innings match record with team A batting |
| SetupMatch.SameAsCreate | cricket-admin/src/components/SetupMatch.tsx:13-59 | the setup screen and match creation accept the same forms, give the same alerts and build the same match record |
| TournamentAdmin.Upto | cricket-admin/src/lib/tournamentUtils.ts:8-18 | every pair (i, j) has i < j within the group |
| TournamentAdmin.UptoCount | cricket-admin/src/lib/tournamentUtils.ts:8-18 | a group of n teams has n(n − 1)/2 pairs |
| TournamentAdmin.UptoOrdered | cricket-admin/src/lib/tournamentUtils.ts:8-18 | the pairs come in lexicographic order |
| TournamentAdmin.UptoComplete | cricket-admin/src/lib/tournamentUtils.ts:8-18 | every pair i < j occurs |
| TournamentAdmin.GenerateGroupFixtures | cricket-admin/src/lib/tournamentUtils.ts:5-20 | the nested loops compute the fixture list, one per pair in order |
| TournamentAdmin.AddRowFixtures | cricket-admin/src/lib/tournamentUtils.ts:9-17 | the inner loop appends team i's scheduled fixture against each later team, in order |
| TournamentAdmin.GroupFixturesShape | cricket-admin/src/lib/tournamentUtils.ts:10-16 | every fixture is a scheduled, unlinked fixture of the group between an earlier and a later team |
| TournamentAdmin.NoSelfPairing | cricket-admin/src/lib/tournamentUtils.ts:8-18 | with distinct team ids no team plays itself |
| TournamentAdmin.NoRepeatedPair | cricket-admin/src/lib/tournamentUtils.ts:8-18 | with distinct team ids no two fixtures involve the same two teams |
| TournamentAdmin.EveryPairMeets | cricket-admin/src/lib/tournamentUtils.ts:8-18 | each earlier team meets each later team, with the earlier one as team A |
| TournamentAdmin.RoundRobin | cricket-admin/src/lib/tournamentUtils.ts:7-18 | with distinct team ids, no team plays itself, no two fixtures repeat a pairing, and every two teams meet |
| TournamentAdmin.FixtureIdPieces | cricket-admin/src/lib/tournamentUtils.ts:11 | the fixture id splits at "_" into "fix", the group and the two team ids when the ids hold no "_" |
| TournamentAdmin.FixtureIdInjective | cricket-admin/src/lib/tournamentUtils.ts:11 | for team ids without "_", the id determines the group and both teams |
| TournamentAdmin.FixtureIdCollision | cricket-admin/src/lib/tournamentUtils.ts:11 | team ids with "_" can give two different fixtures the same id |
| TournamentAdmin.InitStandings | cricket-admin/src/lib/tournamentUtils.ts:32-35 | a zero row for exactly the listed teams |
| TournamentAdmin.InitNrr | cricket-admin/src/lib/tournamentUtils.ts:32-35 | zero run-rate totals for exactly the listed teams |
| TournamentAdmin.InitialRows | cricket-admin/src/lib/tournamentUtils.ts:32-35 | the loop builds the initial rows and totals |
| TournamentAdmin.RecordResult | cricket-admin/src/lib/tournamentUtils.ts:83-100 | the step fails (the unguarded update throws) exactly for a tie or no result involving a team without a row; otherwise the rows keep their keys |
| TournamentAdmin.OversOf | cricket-admin/src/lib/tournamentUtils.ts:55-56 | overs as a fraction are never negative |
| TournamentAdmin.RecordNrr | cricket-admin/src/lib/tournamentUtils.ts:50-81 | the run-rate totals keep their keys |
| TournamentAdmin.WalkFixtures | cricket-admin/src/lib/tournamentUtils.ts:37-102 | the loop over fixtures computes the reference tally, stopping at the first failure |
| TournamentAdmin.ApplyRates | cricket-admin/src/lib/tournamentUtils.ts:104-112 | the loop sets net run rates as the reference does, keeping the rows' keys |
| TournamentAdmin.ApplyNrrRow | cricket-admin/src/lib/tournamentUtils.ts:104-112 | a listed team with runs both faced and bowled gets its scoring rate minus its conceding rate; any other row is unchanged |
| TournamentAdmin.CalculateStandings | cricket-admin/src/lib/tournamentUtils.ts:22-119 | the whole computation yields the reference `StandingsOf` |
| TournamentAdmin.StepOk | cricket-admin/src/lib/tournamentUtils.ts:37-102 | one fixture fails exactly when it is a counted tie with a team without a row; otherwise rows stay consistent (points = 2 × won + tied, played ≥ won + lost + tied) |
| TournamentAdmin.TallyOk | cricket-admin/src/lib/tournamentUtils.ts:37-102 | the walk fails exactly when some fixture is such a tie, and otherwise keeps every row consistent |
| TournamentAdmin.TallyFailureStays | cricket-admin/src/lib/tournamentUtils.ts:37-102 | once a prefix fails, later fixtures do not change the outcome |
| TournamentAdmin.StandingsFail | cricket-admin/src/lib/tournamentUtils.ts:22-119 | the standings fail exactly when a counted tie involves a team outside the group |
| TournamentAdmin.Reordered | cricket-admin/src/lib/tournamentUtils.ts:115 | a permutation of the table's rows holds one consistent row per listed team and nothing else |
| TournamentAdmin.StandingsRows | cricket-admin/src/lib/tournamentUtils.ts:22-119 | the standings have one row per listed team, each its final consistent row |
| TournamentAdmin.StandingsOrder | cricket-admin/src/lib/tournamentUtils.ts:115-118 | the rows are ordered by points, then net run rate, both descending |
| TournamentAdmin.StandingsTiesKeepListOrder | cricket-admin/src/lib/tournamentUtils.ts:114-119 | before the sort the rows follow the listed team ids without repeats, and rows level on points and net run rate keep that order after it |
| TournamentAdmin.GuardedAgrees | cricket-admin/src/lib/tournamentUtils.ts:83-87 | where the as-written walk succeeds, the walk with the tie branch guarded gives the same table |
| TournamentAdmin.OtherGroupsIgnored | cricket-admin/src/lib/tournamentUtils.ts:83-87 | with the guard, a fixture between teams outside the group leaves the table unchanged |
| TournamentAdmin.GuardedKeys | cricket-admin/src/lib/tournamentUtils.ts:83-87 | with the guard, the walk never adds or removes rows |
| TournamentAdmin.TieInOtherGroupFails | cricket-admin/src/lib/tournamentUtils.ts:83-87 | as written, group A's standings fail once a tied group-B match is in the fixture list |
| TournamentViewer.ViewerTallyAgrees | cricket-viewer/src/lib/tournamentUtils.ts:34-70 | the viewer's walk fails exactly when the admin's does, and otherwise gives the admin's played, won, lost, tied and points |
| TournamentViewer.InitialRows | cricket-viewer/src/lib/tournamentUtils.ts:30-32 | the loop builds the admin's initial rows |
| TournamentViewer.WalkFixtures | cricket-viewer/src/lib/tournamentUtils.ts:34-70 | the loop computes the viewer's reference tally |
| TournamentViewer.CalculateStandings | cricket-viewer/src/lib/tournamentUtils.ts:22-73 | the whole computation yields the reference `ViewerStandingsOf` |
| TournamentViewer.ViewerFailureStays | cricket-viewer/src/lib/tournamentUtils.ts:34-70 | once a prefix fails, later fixtures do not change the outcome |
| TournamentViewer.ViewerFail | cricket-viewer/src/lib/tournamentUtils.ts:22-73 | the viewer fails exactly when the admin fails, that is, for a counted tie outside the group |
| TournamentViewer.ViewerRows | cricket-viewer/src/lib/tournamentUtils.ts:22-73 | one consistent row per listed team, with a zero run rate, sorted by points descending |
| TournamentViewer.ViewerMatchesAdmin | cricket-viewer/src/lib/tournamentUtils.ts:22-73 | whenever the viewer succeeds, so does the admin, and each viewer row is an admin row with the run rate set to zero |
| TournamentViewer.ViewerTieInOtherGroupFails | cricket-viewer/src/lib/tournamentUtils.ts:50-54 | as written, group A's viewer standings fail once a tied group-B match is listed |
| TournamentViewer.ViewerGuardedAgrees | cricket-viewer/src/lib/tournamentUtils.ts:50-54 | where the as-written walk succeeds, the guarded walk gives the same rows |
| TournamentViewer.ViewerGuardedKeys | cricket-viewer/src/lib/tournamentUtils.ts:50-54 | with the guard, the walk never adds or removes rows |
| TournamentViewer.ViewerOtherGroupsIgnored | cricket-viewer/src/lib/tournamentUtils.ts:50-54 | with the guard, a fixture between teams outside the group leaves the rows unchanged |
| TournamentDashboard.Without | cricket-admin/src/components/TournamentDashboard.tsx:134 | removes exactly the given team and keeps the rest |
| TournamentDashboard.WithoutAppended | cricket-admin/src/components/TournamentDashboard.tsx:134-135 | removing a team just appended to a list without it restores the list |
| TournamentDashboard.Toggle | cricket-admin/src/components/TournamentDashboard.tsx:132-140 | only the chosen group changes, and only for that team: a selected team leaves; an unselected one joins exactly when the group has under four teams and the team is not in the other group |
| TournamentDashboard.ToggleKeepsSelectionOk | cricket-admin/src/components/TournamentDashboard.tsx:132-140 | groups stay duplicate-free, at most four, and disjoint |
| TournamentDashboard.ToggleTwiceRestores | cricket-admin/src/components/TournamentDashboard.tsx:132-140 | a team that can join a group, toggled in and then out again, leaves the selection as it was |
| TournamentDashboard.SetupScreen.constructor | cricket-admin/src/components/TournamentDashboard.tsx:132-140 | the screen starts with both groups empty and a valid selection |
| TournamentDashboard.SetupScreen.HandleToggleGroupSelection | cricket-admin/src/components/TournamentDashboard.tsx:132-140 | the screen's selection becomes the toggled selection and stays valid |
| TournamentDashboard.FixtureTable | cricket-admin/src/components/TournamentDashboard.tsx:66-67 | the table's keys are exactly the fixture ids |
| TournamentDashboard.IndexFixtures | cricket-admin/src/components/TournamentDashboard.tsx:66-67 | the loop builds `FixtureTable` |
| TournamentDashboard.FixtureTableOfDistinct | cricket-admin/src/components/TournamentDashboard.tsx:66-67 | with distinct ids, no fixture is overwritten: one entry per fixture, each under its own id |
| TournamentDashboard.SetupOf | cricket-admin/src/components/TournamentDashboard.tsx:57-78 | the alert exactly when a group does not have four teams; otherwise the selected groups, marked as set up |
| TournamentDashboard.SetupScreen.HandleSetup | cricket-admin/src/components/TournamentDashboard.tsx:57-78 | setting up from the screen gives `SetupOf` of its selection |
| TournamentDashboard.GroupIdsDistinct | cricket-admin/src/lib/tournamentUtils.ts:11 | for distinct team ids without "_", a group's fixture ids are distinct |
| TournamentDashboard.GroupsIdsApart | cricket-admin/src/components/TournamentDashboard.tsx:63-67 | the two groups' fixture ids are also distinct from each other |
| TournamentDashboard.GroupOfFour | cricket-admin/src/components/TournamentDashboard.tsx:63-64 | a group of four teams has six scheduled fixtures |
| TournamentDashboard.SetupTwelveFixtures | cricket-admin/src/components/TournamentDashboard.tsx:57-78 | a valid selection of four and four ids without "_" is set up with twelve fixtures, each stored under its own id |
| TournamentDashboard.FindTeam | cricket-admin/src/components/TournamentDashboard.tsx:82-84 | none exactly when no team has the id; otherwise the first team with it |
| TournamentDashboard.SquadOf | cricket-admin/src/components/TournamentDashboard.tsx:87-88 | exactly the names of the team's players |
| TournamentDashboard.TossDecidesSides | cricket-admin/src/components/TournamentDashboard.tsx:94-95 | the toss winner bats exactly when choosing to bat first, and the two sides are the two teams |
| TournamentDashboard.HandleStartMatch | cricket-admin/src/components/TournamentDashboard.tsx:80-130 | nothing when a team is missing; otherwise the live match with its id, lock, sides from the toss, the squads and a fresh state, no tournament or fixture id on the record, and the fixture set live and linked to it with every other fixture untouched |
| TournamentDashboard.KickoffNeverCompletesFixture | cricket-admin/src/components/TournamentDashboard.tsx:97-120 | as written, however the kicked-off match is later scored, no submitted delivery completes its fixture, because the record has no tournament or fixture id |
| TournamentDashboard.HandleStartMatchLinked | cricket-admin/src/components/TournamentDashboard.tsx:97-126 | the corrected kickoff: nothing exactly when the kickoff gives nothing; otherwise the same match data and fixture table, with the record naming the tournament and the started fixture |
| TournamentDashboard.LinkedKickoffCompletesFixture | cricket-admin/src/components/ScoringDashboard.tsx:186-191 | with the corrected kickoff, a delivery that ends the match completes exactly the started fixture (when its id is not empty), and that fixture is in the table |
| TournamentDashboard.KickoffLikeCreate | cricket-admin/src/components/TournamentDashboard.tsx:98-120 | when team A bats first, the kicked-off match is the one match creation builds from the same names, squads and overs |
| PostMatchScorecard.OversNotationSplits | cricket-viewer/src/components/PostMatchScorecard.tsx:42 | the overs text splits at "." into the overs and the balls |
| PostMatchScorecard.CalculateOversRoundTrip | cricket-viewer/src/components/PostMatchScorecard.tsx:250-253 | the overs text reads back as six × overs + balls = the legal balls, with balls under six |
| PostMatchScorecard.SavedOversAgree | cricket-viewer/src/components/PostMatchScorecard.tsx:42-52 | saved overs and balls consistent with the legal balls show the same text as the recomputation |
| PostMatchScorecard.SplitIndex | cricket-viewer/src/components/PostMatchScorecard.tsx:61-89 | the scan loop finds the split point |
| PostMatchScorecard.SplitPoint | cricket-viewer/src/components/PostMatchScorecard.tsx:61-89 | the first innings is non-empty, no earlier ball reverses roles, and the split is at the first ball whose striker bowled or whose bowler batted earlier |
| PostMatchScorecard.SplitRecoversInnings | cricket-viewer/src/components/PostMatchScorecard.tsx:61-92 | when no first-innings player both batted and bowled, and the second innings' first ball has a first-innings bowler on strike or a first-innings batter bowling, the split falls exactly between the innings |
| PostMatchScorecard.BattersIff | cricket-viewer/src/components/PostMatchScorecard.tsx:97-109 | a player is a batter exactly when at either end of some ball |
| PostMatchScorecard.BowlersIff | cricket-viewer/src/components/PostMatchScorecard.tsx:97-109 | a player is a bowler exactly when bowling some ball |
| PostMatchScorecard.CountMatches | cricket-viewer/src/components/PostMatchScorecard.tsx:116-117 | at most the players; all of them exactly when each is in the squad ignoring case; none exactly when none is |
| PostMatchScorecard.InSquadIgnoresCase | cricket-viewer/src/components/PostMatchScorecard.tsx:116-117 | squad membership ignores the case of the player's name |
| PostMatchScorecard.NamedBySquads | cricket-viewer/src/components/PostMatchScorecard.tsx:119-131 | batters all from squad A name the innings A then B; all from squad B name them B then A |
| PostMatchScorecard.NamesOnEqualCounts | cricket-viewer/src/components/PostMatchScorecard.tsx:123-136 | on equal counts the default names stay unless saved innings name the batting teams |
| PostMatchScorecard.ProcessMatch | cricket-viewer/src/components/PostMatchScorecard.tsx:30-164 | the computation yields the reference scorecard |
| PostMatchScorecard.Rebuild | cricket-viewer/src/components/PostMatchScorecard.tsx:141-163 | the innings view recomputed from balls is the reference one |
| PostMatchScorecard.SavedInningsShown | cricket-viewer/src/components/PostMatchScorecard.tsx:30-55 | with both innings saved, their names, scores, wickets, tables, fall of wickets and extras are shown as saved |
| PostMatchScorecard.RebuiltInningsPartition | cricket-viewer/src/components/PostMatchScorecard.tsx:61-163 | otherwise the two innings partition the balls in order, the first is non-empty when any ball was bowled, and runs and wickets add up to the match's |
| PostMatchScorecard.LegalPlayersListed | cricket-viewer/src/components/PostMatchScorecard.tsx:97-156 | whoever faced or bowled a legal ball of a rebuilt innings has a batting or bowling row |
| PostMatchScorecard.TopBatters | cricket-viewer/src/components/PostMatchScorecard.tsx:255-261 | at most three batters from the table, ordered by runs descending then balls ascending, none behind a batter left out |
| PostMatchScorecard.TopBowlers | cricket-viewer/src/components/PostMatchScorecard.tsx:262-267 | at most three bowlers from the table, ordered by wickets descending then runs ascending, none behind a bowler left out |
| Types.FreshState | cricket-admin/src/components/CreateMatch.tsx:60-75 | a state with zero counts, no selected players or last bowler, no free hit, the given batting order from index 0, and a zero partnership |

## Left out

- Firebase reads and writes, the match lock's expiry, React state, JSX rendering and
  `alert` are not modelled. A handler's alert is a returned string, and what it
  writes is a returned record.
- `Date.now()` and `Math.random()` are parameters. One `now` stands for every clock
  read in a handler, and a generated match id is given as a parameter.
- Floating point is exact rationals (`real`), so `toFixed(2)` rounding is not
  modelled:
  - StatsCalculator.StrikeRate, StatsCalculator.Economy, StatsCalculator.RunRate and
    StatsCalculator.RequiredRunRate state the unrounded rate;
  - TournamentAdmin.OversOf and the net run rate are exact fractions.
- JavaScript `toLowerCase` is ASCII only (Text.ToLower). Unicode case mapping is not
  modelled.
- `Object.values` order is the order of the listed team ids without repeats. JSON key
  order is not modelled, and the property maps of the statistics tables are maps.
- `Array.prototype.sort` is a stable insertion sort (Sorting.SortByKey). The
  comparator's sign is the order on a two-part key.
- `null`, `undefined` and `""` are the same "no player" for selections (Types.Present).
  Missing optional numbers are `Option`.
- The viewer's `statsCalculator.ts` is not part of this model. The scorecard uses the
  admin's statistics functions.
- The viewer's `generateGroupFixtures` is not modelled separately. Its text is
  identical to the admin's.
- ScoringDashboard.HandleUndo keeps the stored `nextBatsmanIndex` and batting order
  rather than recomputing them, as the source does.
- CreateMatch.HandleCreate, SetupMatch.HandleStart and TournamentDashboard.HandleStartMatch
  take the overs per innings as an integer. The screens read them with `Number(...)` and
  `parseInt(...)`, so a fractional value or `NaN` (non-numeric text) can reach
  `oversPerInnings`; with `NaN` the overs test never completes an innings. Non-integer
  and `NaN` overs are not modelled.
- ScoringDashboard.InputOf drops the wicket kind when replaying a ball, because the
  state does not depend on it.
- ScoringDashboard.SubmitBall does not model the missing `match.state` guard: the
  state is always present here.
- TournamentDashboard.HandleStartMatch: a fixture id missing from the table is stored
  from the argument fixture, where the database would create a partial entry.
- ScoringDashboard.SubmitBall takes the stored record's optional `tournamentId` and
  `fixtureId` as its `link` argument (Types.StoredMatch's `tournament`).
- TournamentDashboard: the team and player lists are inputs. Fetching them from JSON
  files is not modelled.
- PostMatchScorecard.SplitRecoversInnings covers only matches whose second innings
  opens with a role reversal on its first ball. The heuristic can split late in other
  cases, and that is not characterised.
- The screens of the viewer app other than the scorecard, the admin's match list, and
  login are not modelled.

## Findings

| source | as written | input that shows it | evidently intended | confidence | as-written member | corrected member |
|---|---|---|---|---|---|---|
| cricket-admin/src/lib/tournamentUtils.ts:83-87 | the tie/no-result branch updates both teams' rows without checking that they exist, while the dashboard passes both groups' fixtures to each group's standings (cricket-admin/src/components/TournamentDashboard.tsx:199-200) | group A standings with a completed, tied group-B fixture in the list: the update of a missing row throws (such a fixture comes from the database; no code in this model marks a fixture completed, see the kickoff row) | guard the tie branch as the win branch is guarded, so that other groups' fixtures are ignored | not executed | TournamentAdmin.TieInOtherGroupFails | TournamentAdmin.OtherGroupsIgnored |
| cricket-viewer/src/lib/tournamentUtils.ts:50-54 | the same unguarded tie branch in the viewer, called with all fixtures for each group | group A standings with a completed, tied group-B fixture (as above, a completed fixture is not produced by the code modelled here) | the same guard | not executed | TournamentViewer.ViewerTieInOtherGroupFails | TournamentViewer.ViewerOtherGroupsIgnored |
| cricket-admin/src/components/ScoringDashboard.tsx:204-215 | undo sums the partnership over every remaining ball, not since the last wicket | a four, a wicket, a single, then undo of a fourth ball: 5 runs in 3 balls instead of 1 run in 1 ball | the partnership restarts at each wicket, as the delivery processor does | not executed | ScoringDashboard.UndoPartnershipIgnoresWickets | ScoringDashboard.CorrectedUndoMatchesReplay |
| cricket-admin/src/components/ScoringDashboard.tsx:246 | undo sets the free hit from the last remaining ball being a no-ball only | a no-ball, then a wide, then undo of a third ball: the free hit is lost | a wide keeps a pending free hit, as the delivery processor does | not executed | ScoringDashboard.UndoFreeHitLostAfterWide | ScoringDashboard.CorrectedUndoMatchesReplay |
| cricket-admin/src/components/TournamentDashboard.tsx:97-126 | the kicked-off match record has no `tournamentId` or `fixtureId`, which the scoring screen (cricket-admin/src/components/ScoringDashboard.tsx:186-191) needs to mark the fixture completed | start any fixture and score the match to its end: the fixture stays live | the match record names the tournament (`vcl2026`) and the fixture it plays | not executed | TournamentDashboard.KickoffNeverCompletesFixture | TournamentDashboard.LinkedKickoffCompletesFixture |
