/** What applying one Battle does to ratings, records and the log, said from the stored result alone,
    and what the records then count over whole runs. */
module RatingMeaning {
  import opened Wrappers
  import opened Elo
  import opened Rating
  import opened RatingRuns
  import A = RatingAgreement

  // ----- one rating change -----

  /** The integer nearest to `x`, halves away from zero. */
  predicate Nearest(x: real, d: int) {
    && -0.5 <= d as real - x <= 0.5
    && (d as real - x == 0.5 ==> x > 0.0) && (d as real - x == -0.5 ==> x < 0.0)
  }

  /** 64 for the first five games, 32 up to the thirtieth, then 24. */
  predicate IsK(games: nat, k: int) {
    (games < 5 ==> k == 64) && (5 <= games < 30 ==> k == 32) && (games >= 30 ==> k == 24)
  }

  /** K times what the score exceeds the expected one by, for a gap of opponent's minus own rating. */
  function Excess(curve: Curve, gap: int, k: int, score: real): real { k as real * (score - curve(gap)) }

  predicate AtLeast(floor: int, x: int, r: int) { (x < floor ==> r == floor) && (x >= floor ==> r == x) }

  lemma RoundIsNearest(x: real)
    ensures Nearest(x, Round(x))
  {
  }

  /** A played side: the score moves the rating by K times what it exceeds the expected score by, and
      one game of that result is counted. */
  ghost predicate PlayedSide(curve: Curve, row: BattleRow, w: Wallet, o: Wallet, own: RatingRow, opponent: int,
                             score: real, own': RatingRow, e: RatingEvent) {
    && e.round == row.round && e.battle == row.key && e.wallet == w && e.opponent == o && e.kind == PlayedRatedBattle
    && e.before == own.rating && e.opponentRating == opponent && e.after == own'.rating
    && e.elo.Some? && IsK(own.ratedGames, e.elo.value.kFactor)
    && e.elo.value
         == EloUpdate(e.before, opponent, curve(opponent - e.before), score, e.elo.value.kFactor, e.delta, e.after)
    && Nearest(Excess(curve, opponent - own.rating, e.elo.value.kFactor, score), e.delta)
    && AtLeast(100, own.rating + e.delta, own'.rating)
    && own'.ratedGames == own.ratedGames + 1 && AtLeast(own.peak, own'.rating, own'.peak)
    && own'.wins == own.wins + (if score == 1.0 then 1 else 0)
    && own'.draws == own.draws + (if score == 0.5 then 1 else 0)
    && own'.losses == own.losses + (if score == 0.0 then 1 else 0)
  }

  /** A side that forfeited: eight points less, but not below 100, and no game. */
  predicate FinedSide(row: BattleRow, w: Wallet, o: Wallet, own: RatingRow, opponent: int, own': RatingRow,
                      e: RatingEvent) {
    && e.round == row.round && e.battle == row.key && e.wallet == w && e.opponent == o && e.kind == ForfeitPenalty
    && e.before == own.rating && e.opponentRating == opponent && e.after == own'.rating && e.elo == None
    && e.delta == own'.rating - own.rating
    && AtLeast(100, own.rating - 8, own'.rating) && AtLeast(own.peak, own'.rating, own'.peak)
    && own'.ratedGames == own.ratedGames && own'.wins == own.wins && own'.draws == own.draws
       && own'.losses == own.losses
  }

  predicate OthersKept(t: Tables, row: BattleRow, t': Tables, added: nat) {
    && t'.battles == t.battles && |t'.events| == |t.events| + added && t'.events[..|t.events|] == t.events
    && t'.ratings.Keys == t.ratings.Keys + {row.playerA, row.playerB}
    && forall w | w in t.ratings && w != row.playerA && w != row.playerB :: t'.ratings[w] == t.ratings[w]
  }

  /** What a result does, whoever won. */
  ghost predicate AppliedTo(curve: Curve, t: Tables, row: BattleRow, t': Tables) {
    var a, b, n := RowOf(t.ratings, row.playerA), RowOf(t.ratings, row.playerB), |t.events|;
    var a', b' := RowOf(t'.ratings, row.playerA), RowOf(t'.ratings, row.playerB);
    match row.result
    case Some(PlayerA) => OthersKept(t, row, t', 2)
      && PlayedSide(curve, row, row.playerA, row.playerB, a, b.rating, 1.0, a', t'.events[n])
      && PlayedSide(curve, row, row.playerB, row.playerA, b, a.rating, 0.0, b', t'.events[n + 1])
    case Some(PlayerB) => OthersKept(t, row, t', 2)
      && PlayedSide(curve, row, row.playerA, row.playerB, a, b.rating, 0.0, a', t'.events[n])
      && PlayedSide(curve, row, row.playerB, row.playerA, b, a.rating, 1.0, b', t'.events[n + 1])
    case Some(DrawGame) => OthersKept(t, row, t', 2)
      && PlayedSide(curve, row, row.playerA, row.playerB, a, b.rating, 0.5, a', t'.events[n])
      && PlayedSide(curve, row, row.playerB, row.playerA, b, a.rating, 0.5, b', t'.events[n + 1])
    case Some(ForfeitA) => OthersKept(t, row, t', 1)
      && FinedSide(row, row.playerA, row.playerB, a, b.rating, a', t'.events[n]) && b' == b
    case Some(ForfeitB) => OthersKept(t, row, t', 1)
      && FinedSide(row, row.playerB, row.playerA, b, a.rating, b', t'.events[n]) && a' == a
    case Some(BothForfeit) => OthersKept(t, row, t', 2)
      && FinedSide(row, row.playerA, row.playerB, a, b.rating, a', t'.events[n])
      && FinedSide(row, row.playerB, row.playerA, b, a.rating, b', t'.events[n + 1])
    case _ => false
  }

  lemma UpdateMeaning(curve: Curve, before: int, opponent: int, outcome: EloOutcome, games: nat)
    ensures var u := UncheckedUpdate(curve, before, opponent, outcome, games);
            && u == EloUpdate(before, opponent, curve(opponent - before), u.actualScore, u.kFactor, u.delta,
                              u.ratingAfter)
            && u.actualScore == (if outcome.Win? then 1.0 else if outcome.Draw? then 0.5 else 0.0)
            && IsK(games, u.kFactor) && AtLeast(100, before + u.delta, u.ratingAfter)
            && Nearest(Excess(curve, opponent - before, u.kFactor, u.actualScore), u.delta)
  {
    RoundIsNearest(Scaled(KFactor(games), ActualScore(outcome) - curve(opponent - before)));
  }

  lemma PlayedSideIs(curve: Curve, row: BattleRow, w: Wallet, o: Wallet, own: RatingRow, opponent: int,
                     outcome: EloOutcome)
    ensures var u := UncheckedUpdate(curve, own.rating, opponent, outcome, own.ratedGames);
            PlayedSide(curve, row, w, o, own, opponent,
                       if outcome.Win? then 1.0 else if outcome.Draw? then 0.5 else 0.0,
                       PlayedRow(own, u.ratingAfter, outcome), PlayedEvent(row, w, o, u))
  {
    UpdateMeaning(curve, own.rating, opponent, outcome, own.ratedGames);
    hide UncheckedUpdate, Nearest, IsK, Excess;
  }

  lemma FinedSideIs(row: BattleRow, w: Wallet, o: Wallet, own: RatingRow, opponent: int)
    ensures FinedSide(row, w, o, own, opponent, ForfeitRow(own), ForfeitEvent(row, w, o, own.rating, opponent))
  {
  }

  lemma EffectMeaning(curve: Curve, t: Tables, row: BattleRow)
    requires Effectful(row) && row.playerA != row.playerB
    ensures AppliedTo(curve, t, row, Applied(curve, t, row))
  {
    var a, b := RowOf(t.ratings, row.playerA), RowOf(t.ratings, row.playerB);
    AppliedKeeps(curve, t, row);
    hide UncheckedUpdate, PlayedSide, FinedSide, PlayedRow, PlayedEvent, ForfeitRow, ForfeitEvent, OthersKept;
    FinedSideIs(row, row.playerA, row.playerB, a, b.rating);
    FinedSideIs(row, row.playerB, row.playerA, b, a.rating);
    if Classify(row.result.value).Played? {
      var (outcomeA, outcomeB) := PlayedOutcomes(row.result.value);
      PlayedSideIs(curve, row, row.playerA, row.playerB, a, b.rating, outcomeA);
      PlayedSideIs(curve, row, row.playerB, row.playerA, b, a.rating, outcomeB);
    }
  }

  lemma AppliedKeeps(curve: Curve, t: Tables, row: BattleRow)
    requires Effectful(row) && row.playerA != row.playerB
    ensures var t', e := Applied(curve, t, row),
            EffectOn(curve, row, RowOf(t.ratings, row.playerA), RowOf(t.ratings, row.playerB));
            && OthersKept(t, row, t', |e.events|)
            && RowOf(t'.ratings, row.playerA) == e.rowA && RowOf(t'.ratings, row.playerB) == e.rowB
            && forall k :: 0 <= k < |e.events| ==> t'.events[|t.events| + k] == e.events[k]
  {
    hide EffectOn;
    assert Applied(curve, t, row).events[..|t.events|] == t.events;
  }

  /** A call that reports an application has applied that Battle's stored result, and reports it. */
  lemma WorkerApplies(curve: Curve, t: Tables)
    ensures var (t', r) := Worker(curve, t);
            r.Ok? && r.value.Some? ==>
              exists x :: 0 <= x < |t.battles| && AppliedTo(curve, t, t.battles[x], t')
                && var row := t.battles[x];
                   && row.rated && !row.replay && row.playerA != row.playerB
                   && (row.state == Finalized || row.state == Settled) && EventsOf(t.events, row.key) == []
                   && r.value.value == ApplyReport(row.key, row.round, t'.events[|t.events|].kind,
                                                   |t'.events| - |t.events|, RowOf(t'.ratings, row.playerA).rating,
                                                   RowOf(t'.ratings, row.playerB).rating)
  {
    ChosenIsReady(t, 0);
    if Worker(curve, t).1.Ok? && Worker(curve, t).1.value.Some? {
      var x := NextPick(t, 0).index;
      ReadyRow(t, x);
      hide EffectOn, Judge, NextPick;
      EffectMeaning(curve, t, t.battles[x]);
      ReportMeaning(curve, t, t.battles[x]);
    }
  }

  lemma ReadyRow(t: Tables, x: nat)
    requires x < |t.battles| && Judge(t, x).Ready?
    ensures var row := t.battles[x];
            row.rated && !row.replay && (row.state == Finalized || row.state == Settled)
              && EventsOf(t.events, row.key) == []
  {
  }

  lemma ReportMeaning(curve: Curve, t: Tables, row: BattleRow)
    requires Effectful(row) && row.playerA != row.playerB
    ensures var e := EffectOn(curve, row, RowOf(t.ratings, row.playerA), RowOf(t.ratings, row.playerB));
            var t' := Applied(curve, t, row);
            ReportOf(row, e) == ApplyReport(row.key, row.round, t'.events[|t.events|].kind, |t'.events| - |t.events|,
                                            RowOf(t'.ratings, row.playerA).rating,
                                              RowOf(t'.ratings, row.playerB).rating)
  {
    hide UncheckedUpdate;
  }

  /** The winner's rating never falls, and the loser's, once at the floor or above, never rises. */
  lemma WinnerGains(curve: Curve, t: Tables, row: BattleRow, t': Tables)
    requires AppliedTo(curve, t, row, t') && row.playerA != row.playerB
    ensures var a, b := RowOf(t.ratings, row.playerA), RowOf(t.ratings, row.playerB);
            var a', b' := RowOf(t'.ratings, row.playerA), RowOf(t'.ratings, row.playerB);
            && (row.result == Some(PlayerA) ==> a'.rating >= a.rating && (b.rating >= 100 ==> b'.rating <= b.rating))
            && (row.result == Some(PlayerB) ==> b'.rating >= b.rating && (a.rating >= 100 ==> a'.rating <= a.rating))
  {
    hide PlayedSide, FinedSide;
    forall w, o, own, opponent, score, own', e | PlayedSide(curve, row, w, o, own, opponent, score, own', e)
      ensures score == 1.0 ==> own'.rating >= own.rating
      ensures score == 0.0 && own.rating >= 100 ==> own'.rating <= own.rating
    {
      SideGains(curve, row, w, o, own, opponent, score, own', e);
    }
  }

  lemma SideGains(curve: Curve, row: BattleRow, w: Wallet, o: Wallet, own: RatingRow, opponent: int, score: real,
                  own': RatingRow, e: RatingEvent)
    requires PlayedSide(curve, row, w, o, own, opponent, score, own', e)
    ensures score == 1.0 ==> own'.rating >= own.rating
    ensures score == 0.0 && own.rating >= 100 ==> own'.rating <= own.rating
  {
    hide Nearest, IsK, Excess;
    if score == 1.0 || score == 0.0 { SideMoves(curve, own, opponent, score, e.elo.value.kFactor, e.delta); }
  }

  lemma SideMoves(curve: Curve, own: RatingRow, opponent: int, score: real, k: int, delta: int)
    requires IsK(own.ratedGames, k) && Nearest(Excess(curve, opponent - own.rating, k, score), delta)
    ensures score == 1.0 ==> delta >= 0
    ensures score == 0.0 ==> delta <= 0
  {
    if score == 1.0 || score == 0.0 {
      assert 0.0 <= curve(opponent - own.rating) <= 1.0;
      ScaledBounds(k, score - curve(opponent - own.rating));
    }
  }

  /** A snapshot of either player's rating, from the Battle or from its pairing, and the version of the
      formula are checked whenever they are there. */
  lemma SnapshotsMean(row: BattleRow, a: RatingRow, b: RatingRow)
    ensures SnapshotsAgree(row, a, b)
            <==> row.ratingABefore in {None, Some(a.rating)} && row.pairingRatingA in {None, Some(a.rating)}
                 && row.ratingBBefore in {None, Some(b.rating)} && row.pairingRatingB in {None, Some(b.rating)}
                 && row.formulaVersion in {None, Some(1)}
  {
  }

  /** Why an application is refused, the first of these: one player twice, a snapshot, a rating beyond 32 bits,
      a played event of either player in the round already, a game count beyond 32 bits. */
  lemma RefusalMeans(curve: Curve, t: Tables, row: BattleRow)
    requires Effectful(row)
    ensures var a, b := RowOf(t.ratings, row.playerA), RowOf(t.ratings, row.playerB);
            var played := row.result in {Some(PlayerA), Some(PlayerB), Some(DrawGame)};
            var scoreA := if row.result == Some(PlayerA) then Win else if row.result == Some(PlayerB) then Loss
              else Draw;
            var scoreB := if row.result == Some(PlayerA) then Loss else if row.result == Some(PlayerB) then Win
              else Draw;
            var again := exists k ::
                           0 <= k < |t.events| && t.events[k].round == row.round
                           && t.events[k].kind == PlayedRatedBattle && t.events[k].wallet in {row.playerA, row.playerB};
            Refusal(curve, t, row) ==
            if row.playerA == row.playerB then Some(InvalidState)
            else if !SnapshotsAgree(row, a, b) then Some(SnapshotMismatch)
            else if !played then None
            else if a.rating + UncheckedUpdate(curve, a.rating, b.rating, scoreA, a.ratedGames).delta > 0x7fff_ffff
                    || b.rating + UncheckedUpdate(curve, b.rating, a.rating, scoreB, b.ratedGames).delta > 0x7fff_ffff
            then Some(Math)
            else if again then Some(Storage)
            else if a.ratedGames >= 0x7fff_ffff || b.ratedGames >= 0x7fff_ffff then Some(Storage)
            else None
  {
    var a, b := RowOf(t.ratings, row.playerA), RowOf(t.ratings, row.playerB);
    if Classify(row.result.value).Played? {
      var (outcomeA, outcomeB) := PlayedOutcomes(row.result.value);
      UpdateBounds(curve, a.rating, b.rating, outcomeA, a.ratedGames);
      UpdateBounds(curve, b.rating, a.rating, outcomeB, b.ratedGames);
    }
    hide SnapshotsAgree, UncheckedUpdate;
  }

  /** The events a Battle's result calls for: two played ones, the penalty of whoever forfeited, or both. */
  lemma CompleteMeans(row: BattleRow, count: nat, kinds: map<Wallet, EventKind>)
    requires row.result.Some?
    ensures var playedA, playedB := row.playerA in kinds && kinds[row.playerA] == PlayedRatedBattle,
                                    row.playerB in kinds && kinds[row.playerB] == PlayedRatedBattle;
            var finedA, finedB := row.playerA in kinds && kinds[row.playerA] == ForfeitPenalty,
                                  row.playerB in kinds && kinds[row.playerB] == ForfeitPenalty;
            EffectsComplete(row, Classify(row.result.value), count, kinds) <==>
            match row.result.value
            case PlayerA | PlayerB | DrawGame => count == 2 && playedA && playedB
            case ForfeitA => count == 1 && finedA
            case ForfeitB => count == 1 && finedB
            case BothForfeit => count == 2 && finedA && finedB
            case Voided | Pending | OtherText => false
  {
  }

  // ----- which Battle is next -----

  /** A wallet without a row is rated 1500 and has played nothing. */
  lemma NewcomerMeans(ratings: map<Wallet, RatingRow>, w: Wallet)
    requires w !in ratings
    ensures RowOf(ratings, w) == RatingRow(1500, 0, 1500, 0, 0, 0)
  {
  }

  /** An earlier Battle lets later ones pass once it is void or its events are complete; an unknown result is
      an error. */
  lemma ChainMeans(events: seq<RatingEvent>, row: BattleRow)
    ensures ChainRow(events, row) ==
            if row.state in {Unresolved, VoidedState} || row.result.None? then Blocked
            else if row.result.value in {Pending, OtherText} then ChainError(InvalidResult)
            else if row.result.value == Voided || Complete(events, row, Classify(row.result.value)) then Continue
            else Blocked
  {
    hide Complete;
  }

  predicate EarlierOf(row: BattleRow, a: Wallet, b: Wallet, round: int) {
    row.rated && !row.replay && row.round < round && (row.playerA in {a, b} || row.playerB in {a, b})
  }

  /** The verdict over both players' rated Battles of earlier rounds is that of the first that does not let
      pass. */
  lemma {:induction false} PriorChainMeans(t: Tables, a: Wallet, b: Wallet, round: int, j: nat)
    requires j <= |t.battles|
    ensures PriorChain(t, a, b, round, j).Continue? <==>
            forall k :: j <= k < |t.battles| && EarlierOf(t.battles[k], a, b, round) ==>
              ChainRow(t.events, t.battles[k]).Continue?
    ensures !PriorChain(t, a, b, round, j).Continue? ==>
              exists k :: j <= k < |t.battles| && EarlierOf(t.battles[k], a, b, round)
                && PriorChain(t, a, b, round, j) == ChainRow(t.events, t.battles[k])
                && forall i :: j <= i < k && EarlierOf(t.battles[i], a, b, round) ==>
                     ChainRow(t.events, t.battles[i]).Continue?
    decreases |t.battles| - j
  {
    hide ChainRow;
    if j < |t.battles| {
      PriorChainMeans(t, a, b, round, j + 1);
      assert InPriorChain(t.battles[j], a, b, round) <==> EarlierOf(t.battles[j], a, b, round);
    }
  }

  /** A row is passed over unless it is final, rated and no replay; a void one and one whose events are complete
      are done, other events are a conflict; and one without events waits for its players' earlier
      Battles. */
  lemma JudgeMeans(t: Tables, i: nat)
    requires i < |t.battles|
    ensures var row := t.battles[i];
            var chain := PriorChain(t, row.playerA, row.playerB, row.round, 0);
            Judge(t, i) ==
            if !row.rated || row.replay || row.state in {Unresolved, VoidedState} || row.result in {None, Some(Pending)}
               then Skip
            else if row.result == Some(OtherText) then Fail(InvalidResult)
            else if row.result == Some(Voided)
                    then if EventsOf(t.events, row.key) == [] then Skip else Fail(ConflictingEvents)
            else if Complete(t.events, row, Classify(row.result.value)) then Skip
            else if EventsOf(t.events, row.key) != [] then Fail(ConflictingEvents)
            else if chain.Continue? then Ready
            else if chain.Blocked? then Skip
            else Fail(chain.error)
  {
    hide Complete, PriorChain, EventsOf;
  }

  // ----- records over whole runs -----

  datatype Score = Won | Drew | Lost

  /** The stored result of the Battle, for the wallet. */
  predicate Scored(row: BattleRow, w: Wallet, score: Score) {
    row.rated && !row.replay &&
    match score
    case Won => (row.result == Some(PlayerA) && row.playerA == w) || (row.result == Some(PlayerB) && row.playerB == w)
    case Drew => row.result == Some(DrawGame) && (row.playerA == w || row.playerB == w)
    case Lost => (row.result == Some(PlayerB) && row.playerA == w) || (row.result == Some(PlayerA) && row.playerB == w)
  }

  /** The applied Battles with that result for the wallet. */
  ghost function Applications(plan: seq<BattleRow>, t: Tables, w: Wallet, score: Score): set<nat> {
    set i: nat | i < |plan| && Done(t, plan, i) && Scored(plan[i], w, score)
  }

  function CountIn(row: RatingRow, score: Score): nat {
    match score
    case Won => row.wins
    case Drew => row.draws
    case Lost => row.losses
  }

  ghost predicate RecordHolds(plan: seq<BattleRow>, t: Tables, w: Wallet, score: Score) {
    CountIn(RowOf(t.ratings, w), score) == |Applications(plan, t, w, score)|
  }

  lemma CountAdds(curve: Curve, t: Tables, row: BattleRow, t': Tables, w: Wallet, score: Score)
    requires AppliedTo(curve, t, row, t') && row.playerA != row.playerB && row.rated && !row.replay
    ensures CountIn(RowOf(t'.ratings, w), score)
            == CountIn(RowOf(t.ratings, w), score) + if Scored(row, w, score) then 1 else 0
  {
    hide Nearest, IsK, AtLeast, Excess;
  }

  lemma ApplicationsAdd(plan: seq<BattleRow>, t: Tables, t': Tables, x: nat, w: Wallet, score: Score)
    requires x < |plan| && !Done(t, plan, x) && OnlyAdds(plan, t, t', x)
    ensures |Applications(plan, t', w, score)|
            == |Applications(plan, t, w, score)| + if Scored(plan[x], w, score) then 1 else 0
  {
    hide Done, Scored;
    var before, after := Applications(plan, t, w, score), Applications(plan, t', w, score);
    assert after == if Scored(plan[x], w, score) then before + {x} else before;
  }

  lemma AppliedRecord(curve: Curve, plan: seq<BattleRow>, t: Tables, w: Wallet, score: Score)
    requires Season(plan) && Inv(curve, plan, t) && RecordHolds(plan, t, w, score)
    ensures RecordHolds(plan, Worker(curve, t).0, w, score)
  {
    ChosenIsReady(t, 0);
    if NextPick(t, 0).Chosen? && Refusal(curve, t, t.battles[NextPick(t, 0).index]).None? {
      var x := NextPick(t, 0).index;
      hide Season, Inv, Judge, NextPick, Refusal, EffectOn, Applied, AppliedTo, Scored, Effectful, OnlyAdds, Done;
      AppliedInv(curve, plan, t, x);
      InvViews(curve, plan, t, x);
      SeasonRow(plan, x);
      ReadyRow(t, x);
      WaitsAt(plan, t, x);
      EffectMeaning(curve, t, t.battles[x]);
      SameScore(plan, t, x, w, score);
      CountAdds(curve, t, t.battles[x], Applied(curve, t, t.battles[x]), w, score);
      ApplicationsAdd(plan, t, Applied(curve, t, t.battles[x]), x, w, score);
    }
  }

  lemma WaitsAt(plan: seq<BattleRow>, t: Tables, x: nat)
    requires ReadyAt(plan, t, x)
    ensures x < |plan| && !Done(t, plan, x)
  {
  }

  lemma SameScore(plan: seq<BattleRow>, t: Tables, x: nat, w: Wallet, score: Score)
    requires x < |t.battles| && x < |plan| && Views(t.battles[x], plan[x]) && Judge(t, x).Ready?
    ensures Scored(t.battles[x], w, score) <==> Scored(plan[x], w, score)
  {
  }

  /** In every reachable state a wallet's wins, draws and losses count its applied Battles won, drawn and
      lost by their stored results. */
  lemma {:induction false} RecordsAreResults(curve: Curve, plan: seq<BattleRow>, run: seq<Tables>, k: nat, w: Wallet,
                                             score: Score)
    requires Season(plan) && IsRun(curve, plan, run) && k < |run|
    ensures CountIn(RowOf(run[k].ratings, w), score) == |Applications(plan, run[k], w, score)|
  {
    if k == 0 {
      assert Applications(plan, run[0], w, score) == {};
    } else {
      RecordsAreResults(curve, plan, run, k - 1, w, score);
      hide Season, Inv, Worker, Scored;
      Reachable(curve, plan, run, k - 1);
      assert Step(curve, plan, run[k - 1], run[k]);
      if run[k] == Worker(curve, run[k - 1]).0 {
        AppliedRecord(curve, plan, run[k - 1], w, score);
      } else {
        SameApplications(plan, run[k - 1], run[k], w, score);
      }
    }
  }

  lemma SameApplications(plan: seq<BattleRow>, t: Tables, t': Tables, w: Wallet, score: Score)
    requires t'.events == t.events
    ensures Applications(plan, t', w, score) == Applications(plan, t, w, score)
  {
    hide Scored;
  }

  // ----- reconciliation -----

  /** In a reachable state, a row written over with another rating or another number of games is
      reported, and it alone. */
  lemma DriftIsFound(curve: Curve, plan: seq<BattleRow>, run: seq<Tables>, k: nat, w: Wallet, row: RatingRow)
    requires Season(plan) && IsRun(curve, plan, run) && k < |run| && w in run[k].ratings
    ensures var t := run[k];
            Drifted(t.(ratings := t.ratings[w := row]), t.ratings.Keys)
            == if row.rating != t.ratings[w].rating || row.ratedGames != t.ratings[w].ratedGames then {w} else {}
  {
    hide Season, IsRun, LatestEvent, PlayedGames;
    var t := run[k];
    A.NoDrift(curve, plan, run, k);
    var d := t.(ratings := t.ratings[w := row]);
    forall v | v in t.ratings ensures ProjectionMatches(t, v) { assert v !in Drifted(t, t.ratings.Keys); }
    assert forall v :: v in t.ratings && v != w ==> (ProjectionMatches(d, v) <==> ProjectionMatches(t, v));
  }
}
