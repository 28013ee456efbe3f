# TickerSix competition backend: a verified model

TickerSix runs rated head-to-head Battles between lineups of six tokenised equities. Its backend keeps
a rating ledger, League standings, a Ranked queue and League memberships, indexed evidence, achievements
and a settlement planner. This project models those parts in Dafny and proves what they promise over all
inputs and all runs.

Tables are maps and sequences in a class (`Rating.RatingLedger`, `Tables.Database`, `Evidence.Projection`).
Each database transaction is one method that changes everything or nothing and is proved equal to a function
on the tables' value; the promises are proved of that function, of every step, and of whole runs. The modules named `...Meaning` say,
independently of those functions' bodies, when each operation succeeds and what it leaves behind. Loops of the
source are loops here.

| part | files |
|---|---|
| rating ledger | `Elo`, `Rating`, `RatingRuns`, `RatingSnapshots`, `RatingAgreement`, `RatingMeaning` |
| League standings | `Standings`, `StandingsBounds`, `StandingsTable`, `StandingsOrder`, `StandingsTheorems`, `StandingsErrors`, `StandingsErrorOrder`, `StandingsAccounting`, `StandingsMeaning` |
| pairing engines | `Pairing`, `Swiss`, `SwissMeaning` |
| queue, memberships, reservations, pairings, exposures | `Tables`, `League`, `RankedQueue`, `LeagueBattles`, `LeagueInvariants`, `RankedInvariants`, `LeaguePairingInvariants`, `ObligationRuns`, `ObligationTheorems`, `ObligationResults`, `LeagueConfirmations`, `EveryRun`, `ObligationWitnesses`, `RankedMeaning`, `LeagueMeaning` |
| settlement planner and the program it drives | `Settlement`, `SettlementOrder`, `SettlementChain`, `SettlementProgress`, `SettlementTermination`, `SettlementBatches`, `PriceReturn`, `SettlementWitnesses`, `SettlementMeaning` |
| lineup scores and indexed evidence | `Evidence`, `EvidenceMeaning` |
| achievements | `Achievements`, `AchievementReruns`, `AchievementMeaning` |
| number formats and paging | `Decimal`, `Base58`, `Leaderboard` |
| shared | `Wrappers`, `Sequences`, `Arithmetic` |

## What the code does that its documentation does not say

- Settlement can stall in three ways, and `SettlementTermination.FinishesExactly` says that these are all:
  an end with a quorum whose start is unavailable, or will be, is planned in every batch and refused every time
  (`programs/tickersix/src/instructions/price.rs:289`, `programs/tickersix/src/instructions/pyth.rs:717`); so is an
  end whose return does not fit 64 bits (`programs/tickersix/src/instructions/price.rs:323`); and a Battle whose two
  sides chose different assets has one list of six in the snapshot, which can make the planner score or void what the
  program refuses. `SettlementWitnesses` gives a round for each. Five batches suffice otherwise.
- One batch is order-sensitive exactly when an asset has both phases due with a quorum, or a Battle is scored or
  voided on assets that only become final or lost in the same batch (`SettlementBatches.OrderMattersExactly`).
- An unavailable phase can still be finalized by hand under Pyth, and only there; not an end whose recorded price
  overflows the return, because Pyth evidence is recorded once (`SettlementBatches.UnavailableRecoversExactly`,
  `SettlementWitnesses.FarEndIsLost`).
- One waiting Battle whose rating snapshot differs from the ledger stops the worker for all wallets
  (`RatingSnapshots.DrainStops`).
- Ranked and League pairing ids come from separate sequences but share the seeds of the Battle account, so two
  pairings with one id in one round exclude each other (`ObligationResults.SharedAddressExcludes`); a run reaches two
  such pairings (`ObligationWitnesses.SharedAddressArises`).
- If the indexer stores an exposure before the coordinator confirms, the pairing is never confirmed, in either mode
  (`ObligationResults.EarlyExposureStrandsPairing`, `LeagueConfirmations.EarlyExposureStrandsPairing`,
  `ObligationWitnesses.EarlyExposureArises`).
- The indexer and the standings refuse negative scores, which falling lineups do have
  (`Evidence.TruthfulAcceptedExactly`, `Evidence.FallingBattleRefused`).
- Which error is returned for a faulty standings input or settlement snapshot depends on its order; whether
  one is returned does not (`StandingsErrorOrder.ErrorDependsExactly`, `SettlementOrder.AnswerDependsExactly`).
- The wide decimal parser is documented as exact; it rounds down beyond nine places
  (`DecimalQ9.ExactExactly`, `DecimalQ9.DigitLost`).
- The achievements for 25 and 100 Battles are given only on a win (`Achievements.VeteranExactly`). Rerunning a wallet
  is said to be safe; an unlock earned across an open Battle stays when that Battle is lost
  (`AchievementReruns.RerunAgreesExactly`, `Achievements.OpenBattleKeepsStreak`).

## Assumptions

- A transaction is atomic and runs alone: advisory and row locks are not modelled. There is one active season.
- A Market Round's window never changes, and its queue closes before it starts, which is before it ends
  (`backend/migrations/0001_identity_profiles_rounds_and_ratings.sql:81-82`). League terms are registered once, and
  a Battle account keeps its round, players and mode.
- Rating runs are over a fixed list of Battles with at most one per wallet and round; a void is a final row
  with a void result.
- SHA-256 tie-break keys are arbitrary functions. The Battle address is an injective function of Market Round
  and pairing id. The Elo expected score is any curve into [0, 1].
- Settlement ends from any state of a round whose deadlines have passed, with prices and evidence fixed; the flag of a
  Battle's unavailable prices is read over the six assets its snapshot lists. The void of unavailable prices reads the
  revealed lineups, the scoring of a side its own.
- Wallets are natural numbers in the order of their 32 bytes.

## Model

| member | source | states |
|---|---|---|
| `Rating.RatingLedger.ApplyNext` | backend/src/rating.rs:78-169 | one worker transaction: the earliest ready rated Battle is applied, or none is, and a refusal or an error changes no table |
| `Rating.RatingLedger.ApplyBattle` | backend/src/rating.rs:121-157 | rating rows are created if missing, snapshots validated, and the Battle applied by its kind of result; the tables end up either fully updated or as they were |
| `Rating.RatingLedger.ApplyPlayed` | backend/src/rating.rs:465-537 | a played Battle adds two events and changes both rows, from the two ratings before it, or changes nothing |
| `Rating.RatingLedger.ApplyForfeit` | backend/src/rating.rs:539-599 | a one-sided forfeit adds one event and changes the forfeiter's row, or changes nothing |
| `Rating.RatingLedger.ApplyBothForfeit` | backend/src/rating.rs:601-658 | a double forfeit adds two penalty events, or changes nothing |
| `Rating.RatingLedger.EventStatus` | backend/src/rating.rs:256-279 | the number of a Battle's events and the kind stored for each wallet |
| `Rating.RatingLedger.PriorRatingChainResolved` | backend/src/rating.rs:310-368 | the loop over both players' earlier rated Battles gives the verdict of the first one that is open, incomplete or in error |
| `Rating.RatingLedger.ReconcileProjection` | backend/src/rating.rs:842-881 | reconciliation counts exactly the rows that disagree with the event log |
| `Rating.RatingLedger.RowMatches` | backend/src/rating.rs:883-890 | one row agrees with the log when it shows the latest rating and as many games as the log has played events |
| `Rating.ChosenIsReady` | backend/src/rating.rs:87-128 | the Battle chosen is ready and effective, and every one before it in (round, key) order is skipped; if none is chosen, all are skipped |
| `RatingRuns.Confluence` | backend/src/rating.rs:78-169 | for every interleaving of Battles becoming final and worker calls, once all are final and the worker finds nothing, the rating rows and every Battle's events are those of one pass in round order |
| `RatingRuns.ExactlyOnce` | backend/src/rating.rs:99-111 | in every reachable state a Battle has no events or exactly its own, so conflicting events are never reported |
| `RatingRuns.SnapshotsAreSafe` | backend/src/rating.rs:433-463 | coordinator snapshots taken from the sequential pass are never refused as mismatched |
| `RatingRuns.OneBattlePerApplication` | backend/src/rating.rs:86-168 | a reported application marks exactly one new Battle done and every other call leaves the tables unchanged, so effects are applied at most once per Battle |
| `RatingSnapshots.WorkerFailsExactly` | backend/src/rating.rs:78-169 | with everything final and ratings within 32 bits, a call fails exactly when the first waiting (effective, not applied) Battle has a snapshot that differs from the sequential pass, changes nothing then, and is idle exactly when nothing waits |
| `RatingSnapshots.DrainReachesExactly` | backend/src/rating.rs:78-169 | as many calls as Battles are left reach the sequential ledger if and only if every waiting Battle's snapshots are those of the sequential pass |
| `RatingSnapshots.DrainStops` | backend/src/rating.rs:433-463 | otherwise everything before the first such Battle is applied, nothing waiting from it on, and every later call fails |
| `RatingRuns.IdleMeansDone` | backend/src/rating.rs:310-368 | waiting for earlier chains never deadlocks: an idle worker over final Battles has done every effective one |
| `RatingRuns.NoPlayedInRound` | backend/migrations/0001_identity_profiles_rounds_and_ratings.sql:123-129 | the one-played-event-per-wallet-and-round index is never violated by a ready Battle |
| `RatingRuns.EventsShape` | backend/src/rating.rs:281-308 | the events a Battle writes are one or two, of its players, and are what the completeness check accepts |
| `RatingRuns.FoldBounds` | backend/src/rating.rs:660-697 | after n Battles a rating is at least the floor and at most 1500 + 64n |
| `RatingAgreement.LedgerAgreement` | backend/src/rating.rs:465-666 | in every state of every run each row shows its latest event by (round, id), or 1500 without events; its games are wins + draws + losses = its played events; floor <= rating <= peak; and events are in round order per wallet |
| `RatingAgreement.NoDrift` | backend/src/rating.rs:842-890 | reconciliation of any reachable state reports no mismatch |
| `RatingAgreement.ForfeitChargesForfeiter` | backend/src/rating.rs:539-599 | a forfeit writes one penalty of the forfeiter, no game is counted and the opponent's row is untouched |
| `RatingMeaning.WorkerApplies` | backend/src/rating.rs:78-169 | a call that reports an application has applied one finished rated Battle without events: its winner gets the win and its loser the loss, each rated against the other's earlier rating with K 64, 32 or 24 by games and a floor of 100; a forfeit costs eight points and no game; both events, rows and the report say so, and no other wallet changes |
| `RatingMeaning.WinnerGains` | backend/src/rating.rs:183-190 | PLAYER_A never lowers player A's rating nor raises player B's from the floor up, and PLAYER_B the other way round |
| `RatingMeaning.RecordsAreResults` | backend/src/rating.rs:465-537 | in every reachable state a wallet's wins, draws and losses count its applied Battles won, drawn and lost by their stored results |
| `RatingMeaning.SnapshotsMean` | backend/src/rating.rs:433-463 | either player's rating snapshots, of Battle or pairing, and the formula version are checked whenever they are there |
| `RatingMeaning.RefusalMeans` | backend/src/rating.rs:433-537 | an application is refused for one player twice, a wrong snapshot, a rating beyond 32 bits, a played event of the round already there, or too many games, in this order, and else never |
| `RatingMeaning.CompleteMeans` | backend/src/rating.rs:281-308 | the events that complete each result: two played ones, the penalty of whoever forfeited, or both penalties |
| `RatingMeaning.NewcomerMeans` | backend/migrations/0001_identity_profiles_rounds_and_ratings.sql:26-40 | a wallet without a row is rated 1500 and has played nothing |
| `RatingMeaning.ChainMeans` | backend/src/rating.rs:310-368 | an earlier Battle lets later ones pass exactly when it is void or its events are complete; an unknown result is an error |
| `RatingMeaning.PriorChainMeans` | backend/src/rating.rs:310-368 | the verdict is that of the first rated Battle of either player in an earlier round that does not let pass |
| `RatingMeaning.JudgeMeans` | backend/src/rating.rs:87-128 | which rows are passed over, which are errors and which are ready |
| `RatingMeaning.DriftIsFound` | backend/src/rating.rs:842-890 | in a reachable state reconciliation reports a row written over with another rating or number of games, and it alone |
| `Elo.UpdateBounds` | crates/protocol/src/lib.rs:380-418 | an update moves a rating by at most K in the direction of the outcome, never under the floor, and fails exactly above 32 bits, whatever the expected-score curve |
| `Elo.ZeroSum` | crates/protocol/src/lib.rs:380-418 | with equal K and a symmetric curve, what one player gains before the floor the other loses |
| `StandingsTheorems.CalculateStandings` | backend/src/standings.rs:121-393 | the first fault met is returned; otherwise the table is a permutation of the members' lines, ranked from one and strictly sorted by (points, SOS, head-to-head among members tied on both, margin, hash, wallet) |
| `StandingsMeaning.RowMeans` | backend/src/standings.rs:165-302 | a member's row counts the Battles won, drawn and lost by their results, a forfeit a win for the other and a double forfeit a loss for both, the byes, three points per win and bye and one per draw, and the sum over its played Battles of own score minus opponent's, each held between -50000000 and 50000000 |
| `StandingsMeaning.SosMeans` | backend/src/standings.rs:304-319 | its strength of schedule adds the points of each distinct member met in a Battle that was not void |
| `StandingsMeaning.HeadToHeadMeans` | backend/src/standings.rs:400-410 | its head-to-head adds three points per win and one per draw against those with the same points and strength of schedule |
| `StandingsMeaning.WinMargin` | backend/src/standings.rs:240-279 | an accepted played win never lowers the winner's margin nor raises the loser's |
| `StandingsMeaning.RowsInOrder` | backend/src/standings.rs:321-368 | of two rows the earlier has more points, or else the higher SOS, or else head-to-head, or else margin, or else the lower hash, or else wallet |
| `StandingsMeaning.AloneMeans` | backend/src/standings.rs:150-264 | a Battle by itself is refused for its round, an unknown player, one player twice, a missing or negative score, or a result not in the order of the scores, in this order |
| `StandingsMeaning.ByeAloneMeans` | backend/src/standings.rs:283-302 | a bye by itself is refused for its round, an unknown wallet, a Battle in its round, or points beyond 32 bits, in this order |
| `StandingsTheorems.OrderIndependent` | backend/src/standings.rs:121-393 | permuting members, Battles and byes changes neither whether a table is produced nor any row of it, for every tie-break hash |
| `StandingsTheorems.AcceptedIff` | backend/src/standings.rs:127-319 | a table is produced exactly for inputs with distinct members, known and different players, one Battle or bye per member and round in range, and points and SOS within 32 bits; said without reference to order |
| `StandingsTheorems.TableUnique` | backend/src/standings.rs:321-392 | at most one list of rows is the sorted table of given lines |
| `StandingsErrors.BattleErrorsExactly` | backend/src/standings.rs:150-281 | an error arises from some order of the Battles if and only if one Battle has it on its own, or it is a repeated participation and two Battles clash, or it is overflow and some member's best points, one faultless Battle in each other round, and one more Battle exceed 32 bits |
| `StandingsErrorOrder.ByeErrorsExactly` | backend/src/standings.rs:283-302 | with faultless Battles, an error arises from some order of the byes if and only if one bye has it on its own, or a faultless bye is repeated, or a member's free byes exceed 32 bits |
| `StandingsErrorOrder.ErrorDependsExactly` | backend/src/standings.rs:127-302 | the answer for an input changes under some reordering if and only if the members are faultless and the first of Battles and byes to hold a fault holds two kinds |
| `StandingsTheorems.ErrorKindDependsOnOrder` | backend/src/standings.rs:151-163 | two faulty Battles give one error or the other |
| `StandingsTheorems.RankRows` | backend/src/standings.rs:370-392 | rows are numbered from one, and the head-to-head recomputed for output is the one sorted by |
| `StandingsOrder.OrderMembers` | backend/src/standings.rs:321-368 | the points/SOS sort followed by re-sorting each tied group is a permutation of the members, strictly sorted by the single order |
| `StandingsOrder.SortGroup` | backend/src/standings.rs:341-366 | re-sorting one tied group permutes it and orders it by head-to-head within it, margin, hash and wallet |
| `StandingsOrder.HeadToHeadWithinGroup` | backend/src/standings.rs:400-410 | the saturating fold is the plain sum of the points against the group: it never saturates |
| `StandingsOrder.FinalOrderForTieGroup` | backend/src/standings.rs:412-425 | the group recomputed for output holds the members with the given points and SOS |
| `StandingsOrder.SliceIsTieGroup` | backend/src/standings.rs:331-341 | a slice between two boundaries of the first sort is a whole tied group |
| `StandingsTable.TallyBattles` | backend/src/standings.rs:150-281 | the loop over Battles stops at the first fault, or leaves every member the record of its Battles |
| `StandingsTable.TallyByes` | backend/src/standings.rs:283-302 | the loop over byes stops at the first fault, or adds three points per bye |
| `StandingsTable.AddSchedules` | backend/src/standings.rs:304-319 | each member gets the sum of its distinct non-void opponents' final points; overflow exactly when one exceeds 32 bits |
| `StandingsTable.BattleFits` | backend/src/standings.rs:179-280 | no count, head-to-head entry or margin leaves its integer type when an accepted Battle is added |
| `StandingsBounds.CountsFit` | backend/src/standings.rs:179-280 | with one Battle per positive 32-bit round, game counts and margins cannot overflow |
| `StandingsBounds.HeadWithinPoints` | backend/src/standings.rs:400-410 | head-to-head points over distinct members never exceed League points |
| `StandingsAccounting.PointsAreResults` | backend/src/standings.rs:170-302 | points = 3 wins + draws + 3 byes for every member |
| `StandingsAccounting.MarginsSumToZero` | backend/src/standings.rs:265-279 | capped margins of all members sum to zero |
| `StandingsAccounting.PointsAreDistributed` | backend/src/standings.rs:170-180 | the members' Battle points are exactly those the Battles award, none lost or invented |
| `StandingsAccounting.BuchholzCountsEachOnce` | backend/src/standings.rs:304-319 | SOS counts every distinct member met in a non-void Battle once |
| `StandingsAccounting.CandidatePoints` | backend/src/league.rs:1896-1946 | the pairing engine's points map fails exactly on an unrecognised result or points over 32 bits, and otherwise holds the points of the standings |
| `StandingsAccounting.CandidatesAgreeWithStandings` | backend/src/league.rs:1896-2018 | from the same facts the pairing engine and the standings compute the same points |
| `RankedPairing.PairRanked` | crates/protocol/src/lib.rs:510-554 | the index-removing loop returns the greedy pairing and the one leftover, if any |
| `RankedPairing.PairsPartition` | crates/protocol/src/lib.rs:510-554 | every player is in exactly one pair, except one just when the count is odd |
| `RankedPairing.PairsAreGreedy` | crates/protocol/src/lib.rs:510-554 | each pair joins the lowest remaining rating to its cheapest partner: no recent rematch if avoidable, then the nearest rating |
| `RankedPairing.PairsPermuted` | crates/protocol/src/lib.rs:510-554 | the pairing depends on the set of players, not on their order |
| `SwissPairing.PairSwiss` | crates/protocol/src/lib.rs:561-630 | the loop over bye candidates computes the planned pairing |
| `SwissPairing.SearchPairing` | crates/protocol/src/lib.rs:632-691 | the backtracking loop computes the specified search |
| `SwissPairing.SearchDecides` | crates/protocol/src/lib.rs:632-691 | the search fails exactly when no complete pairing of the remaining players, free of repeats if asked, exists |
| `SwissPairing.SwissPairsEveryone` | crates/protocol/src/lib.rs:561-630 | pairing always succeeds, and everybody is in one pair except one bye just when the count is odd |
| `SwissPairing.SwissAvoidsRepeats` | crates/protocol/src/lib.rs:561-630 | a meeting is repeated only if no candidate for the bye leaves a complete pairing without repeats |
| `SwissPairing.ByeIsFair` | crates/protocol/src/lib.rs:565-600 | the bye goes to the lowest score without one if there is such a player, and never a second time while somebody has had none |
| `SwissMeaning.SwissMeans` | crates/protocol/src/lib.rs:561-691 | no meeting is repeated if some eligible bye allows that; the bye is then the first such one by points and hash, and otherwise the first of all; and the leader by points and hash meets an opponent such that no allowed one nearer in points, then rating, then hash leaves the rest a complete pairing, and so on among those who remain |
| `LeagueOperations.ValidateSchedule` | backend/src/league.rs:314-346 | the two loops find the first faulty entry, then any overlap of half-open windows |
| `LeagueOperations.AssignSchedule` | backend/src/league.rs:728-808 | a schedule is stored whole or not at all, with every error of the source |
| `LeagueOperations.RequestJoin` | backend/src/league.rs:1351-1503 | a join stores the membership and one reservation per scheduled round, or nothing |
| `LeagueOperations.ConfirmJoin` | backend/src/league.rs:1594-1655 | a join seen on chain activates the membership and its reservations |
| `LeagueOperations.RequestLeave` | backend/src/league.rs:1508-1590 | a leave request moves the membership and its reservations together |
| `LeagueOperations.ConfirmLeave` | backend/src/league.rs:1659-1710 | a leave seen on chain ends the membership and cancels its reservations |
| `LeagueOperations.ExpirePendingMemberships` | backend/src/league.rs:1721-1751 | every lapsed join intent expires and its pending reservations are released; the count is returned |
| `LeagueInvariants.JoinKeeps` | backend/src/league.rs:1351-1503 | a join keeps every League invariant |
| `LeagueInvariants.InsertNeverConflicts` | backend/src/league.rs:1413-1487 | once the overlap queries are clear, the reservation insert never finds a round still held |
| `LeagueInvariants.AssignKeeps` | backend/src/league.rs:728-808 | replacing a schedule orphans no reservation |
| `LeagueInvariants.ScheduleFixed` | backend/src/league.rs:750-799 | a League's schedule does not change while it has a live member |
| `LeagueInvariants.ScheduleCoversEveryRound` | backend/src/league.rs:314-346 | an accepted schedule gives each League round exactly one Market Round |
| `LeagueMeaning.EntriesMean` | backend/src/league.rs:314-335 | the first faulty entry decides: a number or Market Round not positive, an empty window, a Market Round or a League round met before |
| `LeagueMeaning.ScheduleMeans` | backend/src/league.rs:310-346 | otherwise two windows with an instant in common do, and touching ones do not |
| `LeagueMeaning.SlotsMean` | backend/src/league.rs:760-799 | the first entry decides whose round is not on chain, scheduled, open before its start, at the entry's times and later than now and the registration's close, or meets another rated League's round |
| `LeagueMeaning.AssignAnswers` | backend/src/league.rs:728-799 | what stands in the way of a schedule, in order |
| `LeagueMeaning.AssignStores` | backend/src/league.rs:800-808 | an accepted schedule is stored entry by entry in place of the earlier one |
| `LeagueMeaning.ExpiryMeans` | backend/src/league.rs:1721-1751 | exactly the lapsed join intents expire, and exactly their pending reservations are released |
| `LeagueMeaning.JoinRequestAnswers` | backend/src/league.rs:1351-1487 | what stands in the way of a join, in order; an overlap means another live rated membership, a live reservation or a live queue entry with a meeting window |
| `LeagueMeaning.JoinRequestStores` | backend/src/league.rs:1413-1503 | a join leaves a membership pending for fifteen minutes, earlier byes kept, and a pending reservation of every scheduled round |
| `LeagueMeaning.JoinSeenMeans` | backend/src/league.rs:1594-1655 | a join seen on chain activates exactly a pending or active membership and its pending reservations |
| `LeagueMeaning.LeaveRequestMeans` | backend/src/league.rs:1508-1590 | exactly an active member may ask to leave while registration is open; membership and reservations move |
| `LeagueMeaning.LeaveSeenMeans` | backend/src/league.rs:1659-1710 | a leave seen on chain ends exactly a leaving membership and cancels its reservations |
| `LeagueBattles.CreateLeaguePairings` | backend/src/league.rs:816-1003 | pairing a League round stores a run, its pairings and the bye together, returns the stored run on a retry, or stores nothing |
| `LeagueBattles.ConfirmLeagueCoordinatorBattle` | backend/src/league.rs:1168-1347 | a confirmation writes the Battle row, both exposures and the pairing's status, or nothing |
| `LeagueBattles.UpsertRatedExposure` | backend/src/indexer.rs:585-609 | an exposure is inserted, found identical, or refused |
| `LeaguePairingInvariants.PairingKeeps` | backend/src/league.rs:816-1049 | League rounds are paired once and in order, and nobody twice in a run |
| `LeaguePairingInvariants.EveryMemberPlaced` | backend/src/league.rs:883-1003 | a League run pairs every active member or gives that member the bye |
| `LeaguePairingInvariants.LeagueDuelsApart` | backend/src/league.rs:898-1003 | in a League run no wallet is in two pairings |
| `LeagueMeaning.PairAnswers` | backend/src/league.rs:816-960 | what stands in the way of pairing a League round, in order: it is the one in play, the earlier one is resolved, its Market Round is on chain and closed but not started; then two members or more are active and all numbers fit 16 bits; a retry returns the stored run |
| `LeagueMeaning.PairStores` | backend/src/league.rs:898-1003 | the run is stored with its round and bye, the bye is counted once, and only the pairings change besides |
| `LeagueMeaning.PairStoresDuels` | backend/src/league.rs:950-1003 | one pending pairing is stored for each pair of the roster's plan, with the ratings of the moment |
| `RankedOperations.JoinQueue` | backend/src/ranked.rs:213-284 | queue admission with every check of the source, in its order |
| `RankedOperations.LeaveQueue` | backend/src/ranked.rs:286-346 | a queued entry is cancelled before the cutoff, or an error is returned |
| `RankedOperations.RunMatchmaker` | backend/src/ranked.rs:427-593 | the matchmaker freezes, blocks, pairs and stores in one transaction, or returns the stored run |
| `RankedOperations.MatchEligible` | backend/src/ranked.rs:514-569 | the loops over pairs and the leftover store consecutive pairings and mark the entries |
| `RankedOperations.ConfirmCoordinatorBattle` | backend/src/ranked.rs:664-802 | a confirmation writes the Battle row, both exposures, the pairing and both entries, or nothing |
| `RankedInvariants.PlanPartition` | backend/src/ranked.rs:445-569 | the queued wallets are exactly the paired, at most one unmatched, and the blocked, without overlap |
| `RankedInvariants.MatchmakerKeeps` | backend/src/ranked.rs:427-593 | a matchmaker run keeps pairings and queue entries in agreement |
| `RankedInvariants.ConfirmKeeps` | backend/src/ranked.rs:664-802 | a confirmation keeps pairings and queue entries in agreement |
| `RankedMeaning.JoinAnswers` | backend/src/ranked.rs:213-284 | what stands in the way of queueing, the first of: unknown, invalid or ineligible round, its close, an exposure, a live League reservation with a meeting window, an earlier Battle, a pairing; otherwise it succeeds |
| `RankedMeaning.JoinStores` | backend/src/ranked.rs:213-284 | a successful join leaves a queued entry, or the one already waiting, and changes nothing else |
| `RankedMeaning.LeaveAnswers` | backend/src/ranked.rs:286-346 | a leave succeeds exactly before the close of a valid round for a queued or unmatched entry |
| `RankedMeaning.LeaveStores` | backend/src/ranked.rs:304-323 | a successful leave cancels the entry, and changes no other entry or table |
| `RankedMeaning.LeaversStayOut` | backend/src/ranked.rs:286-346 | whoever left a queue and does not rejoin it is in no Ranked pairing of the round in any continuation |
| `RankedMeaning.MatchAnswers` | backend/src/ranked.rs:427-445 | a round is matched exactly from its queue's close until its start |
| `RankedMeaning.RunPairs` | backend/src/ranked.rs:445-569 | a first run stores itself and one pending pairing for each pair, with the frozen ratings: the field is who waits and is not barred, and each pair joins the lowest rating left to its preferred opponent |
| `RankedMeaning.RunFreezes` | backend/src/ranked.rs:445-513 | a run freezes rating and games of everybody waiting, blocks exactly the exposed, held and unresolved, and touches no other entry |
| `RankedMeaning.ConfirmAnswers` | backend/src/ranked.rs:664-776 | what stands in the way of a confirmation, in order: an unknown pairing or round, another Battle, no on-chain round, another address, an exposure or another Battle row |
| `RankedMeaning.LeagueConfirmAnswers` | backend/src/league.rs:1168-1300 | the same of a League confirmation |
| `RankedMeaning.ConfirmStores` | backend/src/ranked.rs:664-802 | a first confirmation stores the Battle of the two players, both exposures, the created pairing and both entries, and nothing else; any other changes nothing |
| `RankedMeaning.LeagueConfirmStores` | backend/src/league.rs:1168-1347 | a first League confirmation stores the Battle, both exposures and the created pairing, and nothing else; any other changes nothing |
| `RankedMeaning.ExposureStores` | backend/src/indexer.rs:585-609 | an exposure is stored exactly when the wallet has none in the round and the Battle is known, and accepted again exactly when it is the same |
| `ObligationRuns.StepKeeps` | backend/src/league.rs:1351-1751 | each of the seventeen kinds of transaction, committed or refused, keeps every invariant of both modes |
| `ObligationTheorems.Reachable` | backend/src/ranked.rs:213-802 | every state reachable from empty tables by any interleaving keeps every invariant |
| `ObligationTheorems.StepStaysClosed` | backend/src/ranked.rs:427-593 | once a round has been matched its queue stays closed and empty |
| `EveryRun.ObligationsNeverOverlap` | backend/src/league.rs:2157-2232 | in every reachable state no wallet has two live reservations with overlapping windows, nor a live queue entry overlapping one |
| `EveryRun.MembershipsAreReserved` | backend/src/league.rs:1351-1751 | in every reachable state a live membership has its reservation of matching status for each scheduled round, a live reservation belongs to such a membership, and capacity is respected |
| `EveryRun.CreatedPairingsAreExposed` | backend/src/ranked.rs:664-802 | in every reachable state a created pairing of either mode has its own Battle row and both exposures at it |
| `EveryRun.RunsComeAfterClose` | backend/src/ranked.rs:939-955 | no round is matched before its queue closes, and a matched one has nobody queued |
| `EveryRun.MatchesAreFinal` | backend/src/ranked.rs:1263-1347 | whatever happens after a round was matched, the stored run keeps its pairs, unmatched and blocked wallets |
| `ObligationResults.ExposuresAreWriteOnce` | backend/src/indexer.rs:585-609 | over every run a (round, wallet) exposure once written is never changed or removed |
| `ObligationResults.ReservationCheckNeverFires` | backend/src/ranked.rs:482-498 | a queued wallet never has an overlapping League reservation, so the matchmaker's own check blocks nobody |
| `ObligationResults.PairingsClearOfReservations` | backend/src/ranked.rs:1175-1200 | a Ranked pairing never overlaps a live reservation of either player |
| `ObligationResults.OneCreatedPairing` | backend/src/ranked.rs:1156-1173 | across both modes a wallet has at most one created pairing in a Market Round |
| `ObligationResults.SharedAddressExcludes` | crates/relay/src/lib.rs:682-723 | a Ranked and a League pairing with one id in one round name the same Battle account, so at most one of them is ever created |
| `ObligationResults.ConfirmationRepeats` | backend/src/ranked.rs:664-802 | a repeated confirmation succeeds and changes nothing, and one for another Battle is refused |
| `ObligationResults.ConfirmableExactly` | backend/src/ranked.rs:695-776 | a pending pairing can be confirmed if and only if its round is on chain, neither wallet is exposed yet and the Battle row is absent or its own |
| `ObligationResults.EarlyExposureStrandsPairing` | backend/src/ranked.rs:761-776 | an exposure indexed before the confirmation, even for the Ranked pairing's own Battle, leaves the pairing pending in every continuation |
| `LeagueConfirmations.RunStores` | backend/src/league.rs:883-1003 | in every reachable state League pairings name stored rounds and two different wallets, and a pending one names no Battle |
| `LeagueConfirmations.ConfirmationRepeats` | backend/src/league.rs:1168-1347 | a repeated League confirmation succeeds and changes nothing, and one for another Battle is refused |
| `LeagueConfirmations.ConfirmableExactly` | backend/src/league.rs:1213-1328 | a pending League pairing can be confirmed if and only if its round is on chain, neither wallet is exposed yet and the Battle row is absent or its own |
| `LeagueConfirmations.EarlyExposureStrandsPairing` | backend/src/league.rs:1282-1328 | an exposure indexed before the confirmation leaves a League pairing pending in every continuation |
| `ObligationWitnesses.SharedAddressArises` | crates/relay/src/lib.rs:682-723 | from empty tables a run in order of time reaches a Ranked and a League pairing of one round, both pending under the same id |
| `ObligationWitnesses.EarlyExposureArises` | backend/src/indexer.rs:585-609 | in either mode a run from empty tables indexes a pending pairing's own Battle and one exposure first, and the pairing then stays pending whatever follows |
| `ObligationResults.RunEmptiesQueue` | backend/src/ranked.rs:445-569 | a run leaves no entry of its round queued or half-way |
| `ObligationResults.FreshRunIsStored` | backend/src/ranked.rs:1284-1347 | reading the stored run back gives exactly what the run returned |
| `ObligationResults.DecisionIsFinal` | backend/src/ranked.rs:1263-1347 | the stored run and its decision are the same after any continuation |
| `ObligationResults.RetryIsIdentical` | backend/src/ranked.rs:437-443 | a later matchmaker call for the round adds no rows and reports the same run and decision |
| `Settlement.PlanSettlement` | backend/src/settlement.rs:136-226 | the loops over the sorted copies push exactly the specified actions, or return the first fault |
| `Settlement.PlanPhase` | backend/src/settlement.rs:228-257 | one phase adds at most one action, by status, deadline and quorum |
| `Settlement.ValidateSnapshot` | backend/src/settlement.rs:269-314 | the growing id lists find the first fault |
| `SettlementOrder.PlanPermuted` | backend/src/settlement.rs:150-217 | reordering assets and Battles changes neither acceptance nor the plan |
| `SettlementOrder.AnswerDependsExactly` | backend/src/settlement.rs:269-314 | the answer for a snapshot, error included, changes under some reordering if and only if its Battles both repeat an id that has a valid selection and hold an invalid selection, and nothing is refused before them |
| `SettlementOrder.PlannedIsOpen` | backend/src/settlement.rs:150-217 | no resolved phase, Battle or side is planned, and a side only when all its assets are final in both phases |
| `SettlementMeaning.FaultMeans` | backend/src/settlement.rs:269-314 | why a snapshot is refused, in order |
| `SettlementMeaning.BattlesMean` | backend/src/settlement.rs:283-300 | the first Battle decides that repeats an id or does not select six different assets of the round |
| `SettlementMeaning.PlannedExactly` | backend/src/settlement.rs:136-257 | an instruction is planned if and only if there is that to do: past its deadline a phase is finalized with a quorum and marked without; a Battle is voided, forfeited past its deadline, finalized when both sides are scored, or its unscored sides scored when its six assets are final; and a round with nothing left is closed |
| `SettlementMeaning.PlanAscends` | backend/src/settlement.rs:150-217 | assets come before Battles, by ascending id, starts before ends and side 0 before side 1 |
| `SettlementMeaning.AssetMeans` | programs/tickersix/src/instructions/price.rs:250-431 | when the program finalizes a phase or marks it, under either source |
| `SettlementMeaning.BattleMeans` | programs/tickersix/src/instructions/battle.rs:444-690 | what it does with a Battle: who has not revealed forfeits, a revealed side that lost a price voids it, and a side is scored when its own six are final |
| `SettlementMeaning.ApplyMeans` | programs/tickersix/src/instructions/round.rs:448-497 | an instruction changes only its own asset or Battle; a round with everything resolved closes, voided if a phase is unavailable |
| `SettlementProgress.WorkDone` | backend/src/settlement.rs:150-201 | executing the planned work settles every due phase and then every Battle as its lineups and its listed assets allow, each side by its own six |
| `SettlementTermination.StageDrops` | backend/src/settlement.rs:136-226 | with deadlines passed, nothing stuck and every Battle readable, every batch strictly lowers the stage until the round is finished; it is voided if and only if a phase was unavailable |
| `SettlementTermination.FiveBatches` | backend/src/settlement.rs:136-226 | under the same conditions five batches finish the round |
| `SettlementTermination.NeverFinishes` | programs/tickersix/src/instructions/price.rs:289-323 | an end with a quorum whose start cannot become final, or whose return does not fit 64 bits, is planned in every batch and refused every time |
| `SettlementTermination.NeverResolved` | programs/tickersix/src/instructions/battle.rs:444-690 | a Battle whose listed assets mislead the planner stays unresolved after any number of batches |
| `SettlementTermination.FinishesExactly` | programs/tickersix/src/instructions/pyth.rs:691-767 | planning and sending finishes the round if and only if no asset is stuck (an end with a quorum whose start cannot become final or whose return overflows) and every pending Battle is readable (its listed assets lead to instructions its own lineups allow) |
| `SettlementTermination.EqualLineupsAreReadable` | programs/tickersix/src/instructions/battle.rs:444-690 | a Battle whose revealed sides chose exactly the listed assets is readable, so then only stuck assets stall a round |
| `SettlementTermination.OneListForTwoLineups` | backend/src/settlement.rs:283-300 | the six listed assets cover both lineups if and only if both sides chose the same six |
| `SettlementBatches.RunIsSafe` | programs/tickersix/src/instructions/battle.rs:444-535 | over every run, whoever sends what, resolved phases and Battles stay resolved, final phases stay final, and a side is scored only when its own six assets are final in both phases |
| `SettlementBatches.NeverActedOnAgain` | backend/src/settlement.rs:150-257 | a phase or Battle once resolved is never planned again, however long after |
| `SettlementBatches.UnavailableStays` | programs/tickersix/src/instructions/price.rs:364-431 | outside Pyth a phase marked unavailable stays so over every run |
| `SettlementBatches.UnreturnableStays` | programs/tickersix/src/instructions/pyth.rs:715-731 | a Pyth end whose recorded price and fixed start price give no return is not final after any run |
| `SettlementBatches.UnavailableRecoversExactly` | programs/tickersix/src/instructions/pyth.rs:546-767 | a phase marked unavailable, start or end, is final after some run if and only if the source is Pyth and, for an end, its recorded price and a fixed start price, if there are both, give a return; evidence is recorded once |
| `SettlementBatches.PairCommutes` | backend/src/settlement.rs:150-201 | two ready and compatible instructions may be executed in either order; a scoring is ready when its own side's assets do not become final in the batch |
| `SettlementBatches.BatchOrderIrrelevant` | backend/src/settlement.rs:150-201 | a batch with no chained asset (both phases due with a quorum and a return that fits) and no racing Battle has one effect in every order |
| `SettlementBatches.OrderMattersExactly` | backend/src/settlement.rs:150-201 | the order of a batch is irrelevant if and only if no asset is chained and no Battle is racing (planned to be scored or voided on assets that become final or lost in the same batch) |
| `PriceReturn.ReturnExactly` | crates/protocol/src/lib.rs:172-186 | the return of two positive prices exists exactly when the end is less than 2^63 billionths above the start, and is never below minus one |
| `PriceReturn.ReturnIs` | crates/protocol/src/lib.rs:172-186 | the return is the change over the start price in billionths, its fraction dropped |
| `SettlementWitnesses.UnavailableStartStalls` | programs/tickersix/src/instructions/price.rs:289-294 | one asset with an unavailable start and a quorum for its end: no number of batches finishes the round |
| `SettlementWitnesses.HugeReturnStalls` | programs/tickersix/src/instructions/price.rs:323 | start price 1 and end price 9223372038: no number of batches finishes the round |
| `SettlementWitnesses.FarEndIsLost` | programs/tickersix/src/instructions/pyth.rs:768-806 | a Pyth end with evidence of a price too far above its start can be marked unavailable, and no run then makes it final |
| `SettlementWitnesses.UnlistedAssetStalls` | programs/tickersix/src/instructions/battle.rs:444-690 | two lineups over seven assets, the unlisted one unavailable: nothing is stuck, yet no number of batches finishes the round |
| `SettlementWitnesses.UnlistedAssetRaces` | programs/tickersix/src/instructions/battle.rs:444-535 | two lineups over seven assets, the unlisted one due: nothing is chained, yet another order of the batch has another effect |
| `LineupScore.ScoredExactly` | crates/protocol/src/lib.rs:189-239 | a lineup is scored exactly when it has six different assets, the captain among them |
| `EvidenceMeaning.ScoreMeans` | crates/protocol/src/lib.rs:189-217 | a valid lineup scores a seventh of its six returns and the captain's once more, the fraction dropped |
| `LineupScore.ScoreWithinReturns` | crates/protocol/src/lib.rs:189-217 | the score of a valid lineup never overflows and lies between its lowest and highest return |
| `LineupScore.ScoreSymmetric` | crates/protocol/src/lib.rs:189-217 | opposite returns give the opposite score |
| `LineupScore.ScorePermuted` | crates/protocol/src/lib.rs:189-217 | listing the assets in another order, each with its return, changes nothing |
| `LineupScore.ProofScore` | backend/src/proof.rs:685-694 | the proof layer's own sum is the indexer's score on every lineup that passed its checks |
| `Evidence.FactsAcceptedExactly` | backend/src/battle_facts.rs:60-124 | facts are accepted exactly when current, with a slot, and reproducing both scores |
| `Evidence.Projection.UpsertBattle` | backend/src/indexer.rs:375-480 | the row unless a newer one is stored, then the facts, in one transaction; a conflict undoes both |
| `Evidence.EvidenceHolds` | backend/src/indexer.rs:375-553 | over every sequence of upserts, stale, repeated or conflicting, stored facts never change, and every finished played rated League row has facts reproducing its scores and a result matching their order |
| `Evidence.StaleKeepsRow` | backend/src/indexer.rs:398-414 | an upsert older than the stored row leaves the row alone |
| `Evidence.UpsertRepeats` | backend/src/indexer.rs:375-553 | repeating an upsert changes nothing |
| `EvidenceMeaning.UpsertStores` | backend/src/indexer.rs:375-553 | after an accepted account that is new or no older, the row holds exactly its fields, a commitment it does not tell of is kept, its facts are stored, and nothing else changes; an older account changes no row |
| `EvidenceMeaning.RefusalKeeps` | backend/src/indexer.rs:375-553 | a refused account changes nothing |
| `EvidenceMeaning.AcceptedExactly` | backend/src/indexer.rs:162-231 | which accounts are accepted, for every mode, stage, result, scores and facts |
| `Evidence.TruthfulAcceptedExactly` | backend/src/indexer.rs:162-231 | a truthful account of a finished played rated League Battle, with current facts that reproduce both scores and a result in their order, is accepted if and only if neither score is below zero |
| `Evidence.FallingBattleRefused` | backend/src/indexer.rs:162-231 | a drawn Battle of two falling lineups is a truthful account, and is refused |
| `Evidence.FallingLineup` | crates/protocol/src/lib.rs:189-217 | a lineup of falling assets does score below zero |
| `Achievements.DeriveBattleUnlocks` | backend/src/achievements.rs:115-283 | one fact moves the counts and earns each code whose rule it meets and that is not known |
| `Achievements.ReconcileWallet` | backend/src/achievements.rs:317-406 | the replay loop stores the replayed unlocks and returns how many are new; it stores nothing exactly when a count does not fit 32 bits |
| `Achievements.InsertUnlocks` | backend/src/achievements.rs:354-368 | an unlock is inserted if its code is enabled and new, and each insertion is counted |
| `Achievements.DerivedIs` | backend/src/achievements.rs:150-282 | a code is earned by a fact if and only if its rule is met and it is not known |
| `Achievements.ReplayIs` | backend/src/achievements.rs:317-368 | after a replay a code is unlocked iff it was before or some fact met its rule, and then at the first such fact with the counts there |
| `AchievementMeaning.RuleMeans` | backend/src/achievements.rs:150-282 | the rule of each of the twelve codes, said of the facts up to the earning one |
| `AchievementMeaning.StateMeans` | backend/src/achievements.rs:124-145 | the counts: wins since the last loss, draw or own forfeit, Battles played, and wins, each up to 32 bits |
| `AchievementMeaning.ReplayMeans` | backend/src/achievements.rs:317-368 | a replay unlocks besides exactly the enabled codes some fact earns, each with the first such Battle and the counts there |
| `AchievementMeaning.StorableMeans` | backend/src/achievements.rs:384-396 | the counts are stored when each fits a signed 32-bit integer |
| `Achievements.IncrementalAgrees` | backend/src/achievements.rs:314-316 | replaying a history and later an extension of it equals one replay of the extension |
| `Achievements.SecondRunAgreesExactly` | backend/src/achievements.rs:317-368 | a run over one history and then over another agrees with one run over the second if and only if every enabled code not unlocked before that the first earns is earned at the same Battle and counts in the second |
| `AchievementReruns.RerunAgreesExactly` | backend/src/achievements.rs:327-350 | when open Battles have finished and new ones follow, the rerun agrees with one replay if and only if, before each newly unlocking fact, no Battle finished in the meantime was played and none was an own forfeit within the streak that reaches it |
| `Achievements.OpenBattleKeepsStreak` | backend/src/achievements.rs:327-350 | with an open Battle between wins that ends as a loss, the streak code stays unlocked although one run over the final history does not give it |
| `Achievements.RerunCreatesNone` | backend/src/achievements.rs:314-316 | a rerun unlocks nothing |
| `Achievements.StateIsCounts` | backend/src/achievements.rs:124-145 | the streak is the number of counted wins since the last loss, draw or own forfeit, and the totals are the counted Battles and wins, all up to the 32-bit maximum |
| `Achievements.UncountedChangeNothing` | backend/src/achievements.rs:120-122 | dropping replay, void, unofficial and unrated facts changes neither the counts nor the unlocks |
| `Achievements.VeteranExactly` | backend/src/achievements.rs:178-198 | the codes for 25 and 100 Battles are met if and only if some counted win has at least that many counted Battles up to and including it |
| `DecimalQ9.ParserIsExact` | crates/market-data/src/sponsors.rs:645-710 | the parser takes exactly the texts of numerals whose parts fit their types and whose value times a billion, rounded down, is positive and fits 128 bits, and returns the decimal text of that number |
| `DecimalQ9.ParsesNumeral` | crates/market-data/src/sponsors.rs:649-710 | a numeral in any spelling is parsed to the text of nine decimals of its real value, rounded down, or refused |
| `DecimalQ9.ParsedIsNumeral` | crates/market-data/src/sponsors.rs:649-735 | whatever is parsed is a numeral: sign, digits, point, digits, exponent |
| `DecimalQ9.ExactExactly` | crates/market-data/src/sponsors.rs:645-648 | nothing is lost exactly when the digits beyond the ninth place are zero; the comment there promises an exact result |
| `DecimalQ9.DigitLost` | crates/market-data/src/sponsors.rs:645-710 | 1.0000000001 is accepted and parsed to the text of one billion, which is not its value |
| `DecimalQ9.ExponentRead` | crates/market-data/src/sponsors.rs:712-735 | the exponent is read with its sign, or refused beyond 64 bits |
| `DecimalQ9.PowerOfTenIs` | crates/market-data/src/sponsors.rs:361-363 | the checked power of ten exists up to 10^38 |
| `DecimalQ9.PythAgreesWithText` | crates/market-data/src/sponsors.rs:345-359 | converting a mantissa and exponent succeeds with a price exactly when parsing their text gives that price and it fits 64 bits |
| `Base58.EncodeBase58` | app/wallet-client.js:23-40 | the three loops compute the base58 text: leading ones for leading zero bytes, then the numeral of the rest |
| `Base58.AlphabetIs` | app/wallet-client.js:12-13 | the alphabet is the digits and letters in the order of their codes without 0, I, O and l |
| `Base58.DecodeEncode` | app/wallet-client.js:23-40 | decoding the text of any byte string gives it back, empty and leading zero bytes included |
| `Base58.EncodingIsInjective` | app/wallet-client.js:23-40 | different byte strings have different texts |
| `Base58.EncodeDecode` | app/wallet-client.js:12-40 | the texts produced are exactly those over the alphabet, each of exactly its decoded bytes |
| `Leaderboard.GlobalLeaderboard` | backend/src/leaderboard.rs:81-137 | a page is the entries past the cursor up to the limit, with a cursor exactly when more follow; only a limit out of range fails |
| `Leaderboard.PagesAreTheList` | backend/src/leaderboard.rs:81-137 | following the cursors, the pages joined are the whole list, for every page size |
| `Leaderboard.FullInOrder` | backend/src/leaderboard.rs:90-110 | the list is strictly ordered by rating down, then wallet up |
| `Leaderboard.FullOrder` | backend/src/leaderboard.rs:101-110 | of two entries the earlier has the higher rating, or the same and the smaller wallet |
| `Leaderboard.PageMeans` | backend/src/leaderboard.rs:81-137 | a page holds the next entries after the cursor up to the limit, and the last one's cursor exactly when more follow |
| `Leaderboard.RanksAre` | backend/src/leaderboard.rs:91-99 | equal ratings share a rank, and otherwise the rank is the place in the list |
| `Leaderboard.FullHolds` | backend/src/leaderboard.rs:91-99 | the list holds exactly the players with enough games, each once |
| `Leaderboard.CursorExactly` | backend/src/leaderboard.rs:256-265 | a text is read as a rating and a wallet exactly when it is a signed 32-bit decimal, a colon and the base58 text of 32 bytes |
| `Leaderboard.CursorRoundTrip` | backend/src/leaderboard.rs:248-265 | decoding a cursor gives back its rating and wallet |

## Left out

- `apply_elo_update`: products and the one rounding are taken over the reals, so floating-point error is not captured.
- Standings sort indexes into the vector of states; the model sorts the states, whose wallets are distinct.
- `seed` hashing of pairings, standings inputs and entropy blocks: tie keys are arbitrary, so no claim is made about their values.
- `has_unresolved_previous_battle` and the rating and opponent history a matchmaker reads at the cutoff are parameters, so no admission liveness is claimed.
- The member address and the on-chain account checks of League membership are a parameter `matches`.
- `league_pairing_participants`, the status text of a pairing run, coordinator plans, joined and updated timestamps where nothing reads them, and catalogue queries.
- The reservation status RESOLVED, which the code never writes, is in the type only.
- `COALESCE` columns and timestamps of the Battle upsert that no validation reads.
- Quorum selection, attestation checks and account constraints of the program: a phase has a flag saying that compatible evidence exists. Attestor timing and new evidence during a termination run are fixed; safety over runs allows any sender.
- Private achievements, League achievements and the decoding of stored evidence JSON.
- `leaderboard_me`, display names, tiers and the win, draw and loss columns of a page. The wallet order of the page query is taken as the order of numbers.
- `parse_decimal_q9` of the protocol crate and confidence bounds.
- HTTP routing, streaming, metrics, JSON decoding, RPC clients, wallets' provider discovery and the user interface.
- Cryptography: Ed25519, AES-GCM, SHA-256, program-address derivation, random nonces.
