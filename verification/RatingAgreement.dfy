/** The mutable rating projection agrees with the append-only event log in every reachable
    state, so reconciliation never finds drift. */
module RatingAgreement {
  import opened Wrappers
  import opened Elo
  import opened Rating
  import opened RatingRuns

  /** A wallet's row is what the log says it is. */
  ghost predicate RowAgrees(row: RatingRow, events: seq<RatingEvent>, w: Wallet) {
    var last := LatestEvent(events, w);
    && row.rating == (if last.Some? then last.value.after else INITIAL_RATING)
    && row.ratedGames == PlayedGames(events, w)
    && row.ratedGames == row.wins + row.draws + row.losses
    && row.peak >= row.rating >= RATING_FLOOR
  }

  ghost predicate Agrees(t: Tables) {
    forall w: Wallet :: RowAgrees(RowOf(t.ratings, w), t.events, w)
  }

  /** Each wallet's events are appended in non-decreasing round order. */
  ghost predicate InRoundOrder(events: seq<RatingEvent>) {
    forall k, l :: 0 <= k < l < |events| && events[k].wallet == events[l].wallet ==> events[k].round <= events[l].round
  }

  lemma {:induction false} LatestIsListed(events: seq<RatingEvent>, w: Wallet)
    ensures var last := LatestEvent(events, w);
            last.Some? ==> last.value in events && last.value.wallet == w
  {
    if events != [] { LatestIsListed(events[..|events| - 1], w); }
  }

  lemma AppendOther(events: seq<RatingEvent>, e: RatingEvent, w: Wallet)
    requires e.wallet != w
    ensures LatestEvent(events + [e], w) == LatestEvent(events, w)
    ensures PlayedGames(events + [e], w) == PlayedGames(events, w)
  {
    assert (events + [e])[..|events|] == events;
  }

  lemma AppendOwn(events: seq<RatingEvent>, e: RatingEvent)
    requires forall k :: 0 <= k < |events| && events[k].wallet == e.wallet ==> events[k].round <= e.round
    ensures LatestEvent(events + [e], e.wallet) == Some(e)
    ensures PlayedGames(events + [e], e.wallet)
            == PlayedGames(events, e.wallet) + if e.kind == PlayedRatedBattle then 1 else 0
  {
    assert (events + [e])[..|events|] == events;
    LatestIsListed(events, e.wallet);
  }

  /** The wallet's events lie in rounds no later than the one being applied. */
  lemma EarlierRounds(curve: Curve, plan: seq<BattleRow>, t: Tables, x: nat, k: nat)
    requires Season(plan) && Inv(curve, plan, t) && ReadyAt(plan, t, x)
    requires k < |t.events| && plan[x].Has(t.events[k].wallet)
    ensures t.events[k].round <= plan[x].round
  {
    var i := EventOrigin(curve, plan, t, k);
    if plan[i].round > plan[x].round { assert Precedes(plan[x], plan[i]); }
  }

  ghost predicate RoundsUpTo(events: seq<RatingEvent>, w: Wallet, round: int) {
    forall k :: 0 <= k < |events| && events[k].wallet == w ==> events[k].round <= round
  }

  /** The log after a Battle's one or two events, seen by each wallet. */
  lemma LogAfter(events: seq<RatingEvent>, es: seq<RatingEvent>, round: int)
    requires 1 <= |es| <= 2 && (|es| == 2 ==> es[0].wallet != es[1].wallet)
    requires forall k :: 0 <= k < |es| ==> es[k].round == round && RoundsUpTo(events, es[k].wallet, round)
    ensures forall k :: 0 <= k < |es| ==>
              && LatestEvent(events + es, es[k].wallet) == Some(es[k])
              && PlayedGames(events + es, es[k].wallet)
                 == PlayedGames(events, es[k].wallet) + if es[k].kind == PlayedRatedBattle then 1 else 0
    ensures forall w: Wallet :: (forall k :: 0 <= k < |es| ==> es[k].wallet != w) ==> Unaffected(events, events + es, w)
  {
    hide LatestEvent, PlayedGames;
    AppendEach(events, es[0]);
    if |es| == 2 {
      var middle := events + [es[0]];
      AppendEach(middle, es[1]);
      assert events + es == middle + [es[1]];
      assert Unaffected(middle, events + es, es[0].wallet);
      assert Unaffected(events, middle, es[1].wallet);
      forall w: Wallet | w != es[0].wallet && w != es[1].wallet ensures Unaffected(events, events + es, w) {
        assert Unaffected(events, middle, w) && Unaffected(middle, events + es, w);
      }
    } else {
      assert es == [es[0]];
    }
  }

  ghost predicate Unaffected(events: seq<RatingEvent>, events': seq<RatingEvent>, w: Wallet) {
    LatestEvent(events', w) == LatestEvent(events, w) && PlayedGames(events', w) == PlayedGames(events, w)
  }

  lemma AppendEach(events: seq<RatingEvent>, e: RatingEvent)
    requires RoundsUpTo(events, e.wallet, e.round)
    ensures forall w: Wallet :: w != e.wallet ==> Unaffected(events, events + [e], w)
    ensures LatestEvent(events + [e], e.wallet) == Some(e)
    ensures PlayedGames(events + [e], e.wallet)
            == PlayedGames(events, e.wallet) + if e.kind == PlayedRatedBattle then 1 else 0
    ensures forall w, r :: w != e.wallet && RoundsUpTo(events, w, r) ==> RoundsUpTo(events + [e], w, r)
  {
    forall w: Wallet | w != e.wallet ensures Unaffected(events, events + [e], w) {
      AppendOther(events, e, w);
    }
    AppendOwn(events, e);
  }

  /** An effect's rows agree with the log it extends, for both players. */
  lemma EffectAgrees(curve: Curve, row: BattleRow, events: seq<RatingEvent>, a: RatingRow, b: RatingRow)
    requires Effectful(row) && row.playerA != row.playerB
    requires RowAgrees(a, events, row.playerA) && RowAgrees(b, events, row.playerB)
    requires RoundsUpTo(events, row.playerA, row.round) && RoundsUpTo(events, row.playerB, row.round)
    ensures var e := EffectOn(curve, row, a, b);
            && RowAgrees(e.rowA, events + e.events, row.playerA)
            && RowAgrees(e.rowB, events + e.events, row.playerB)
            && forall w :: !row.Has(w) ==> Unaffected(events, events + e.events, w)
  {
    hide LatestEvent, PlayedGames, UncheckedUpdate, RoundsUpTo;
    var e := EffectOn(curve, row, a, b);
    if Classify(row.result.value).Played? {
      var (outcomeA, outcomeB) := PlayedOutcomes(row.result.value);
      UpdateBounds(curve, a.rating, b.rating, outcomeA, a.ratedGames);
      UpdateBounds(curve, b.rating, a.rating, outcomeB, b.ratedGames);
    }
    LogAfter(events, e.events, row.round);
    var w0 := e.events[0].wallet;
    if |e.events| == 2 {
      assert e.events[1].wallet == row.playerB;
    } else {
      assert Unaffected(events, events + e.events, if w0 == row.playerA then row.playerB else row.playerA);
    }
  }

  lemma AppliedAgrees(curve: Curve, plan: seq<BattleRow>, t: Tables, x: nat)
    requires Season(plan) && Inv(curve, plan, t) && Agrees(t)
    requires x < |t.battles| && Judge(t, x).Ready?
    ensures Effectful(t.battles[x]) && Agrees(Applied(curve, t, t.battles[x]))
  {
    hide Season, Inv, Judge, EffectOn, RowAgrees, Effectful;
    AppliedInv(curve, plan, t, x);
    InvViews(curve, plan, t, x);
    SeasonRow(plan, x);
    var row := t.battles[x];
    var t' := Applied(curve, t, row);
    PlayersRoundsUpTo(curve, plan, t, x, row.playerA);
    PlayersRoundsUpTo(curve, plan, t, x, row.playerB);
    EffectAgrees(curve, row, t.events, RowOf(t.ratings, row.playerA), RowOf(t.ratings, row.playerB));
    forall w: Wallet ensures RowAgrees(RowOf(t'.ratings, w), t'.events, w) {
      if !row.Has(w) { SameRowAgrees(RowOf(t.ratings, w), t.events, t'.events, w); }
    }
  }

  lemma SameRowAgrees(row: RatingRow, events: seq<RatingEvent>, events': seq<RatingEvent>, w: Wallet)
    requires RowAgrees(row, events, w)
    requires Unaffected(events, events', w)
    ensures RowAgrees(row, events', w)
  {
  }

  lemma PlayersRoundsUpTo(curve: Curve, plan: seq<BattleRow>, t: Tables, x: nat, w: Wallet)
    requires Season(plan) && Inv(curve, plan, t) && ReadyAt(plan, t, x) && plan[x].Has(w)
    ensures RoundsUpTo(t.events, w, plan[x].round)
  {
    hide Season, Inv;
    forall k | 0 <= k < |t.events| && t.events[k].wallet == w ensures t.events[k].round <= plan[x].round {
      EarlierRounds(curve, plan, t, x, k);
    }
  }

  lemma AppliedInRoundOrder(curve: Curve, plan: seq<BattleRow>, t: Tables, x: nat)
    requires Season(plan) && Inv(curve, plan, t) && InRoundOrder(t.events)
    requires x < |t.battles| && Judge(t, x).Ready?
    ensures Effectful(t.battles[x]) && InRoundOrder(Applied(curve, t, t.battles[x]).events)
  {
    hide Season, Inv, Judge, EffectOn, Effectful;
    AppliedInv(curve, plan, t, x);
    InvViews(curve, plan, t, x);
    SeasonRow(plan, x);
    var row := t.battles[x];
    PlayersRoundsUpTo(curve, plan, t, x, row.playerA);
    PlayersRoundsUpTo(curve, plan, t, x, row.playerB);
    EventsShape(curve, row, RowOf(t.ratings, row.playerA), RowOf(t.ratings, row.playerB));
  }

  /** Agreement holds in every state of every run: each row shows its latest event by
      (round, id), counts exactly its played events, and stays between floor and peak. */
  lemma {:induction false} LedgerAgreement(curve: Curve, plan: seq<BattleRow>, run: seq<Tables>, k: nat)
    requires Season(plan) && IsRun(curve, plan, run) && k < |run|
    ensures Agrees(run[k]) && InRoundOrder(run[k].events)
  {
    hide Season, Inv, IsRun, Judge, Applied, Refusal, EffectOn, Follows;
    if k == 0 {
      StartAgrees(curve, plan, run);
    } else {
      LedgerAgreement(curve, plan, run, k - 1);
      Reachable(curve, plan, run, k - 1);
      RunStep(curve, plan, run, k);
      var t := run[k - 1];
      if run[k] == Worker(curve, t).0 {
        ChosenIsReady(t, 0);
        if NextPick(t, 0).Chosen? {
          AppliedAgrees(curve, plan, t, NextPick(t, 0).index);
          AppliedInRoundOrder(curve, plan, t, NextPick(t, 0).index);
        }
      }
    }
  }

  lemma StartAgrees(curve: Curve, plan: seq<BattleRow>, run: seq<Tables>)
    requires IsRun(curve, plan, run)
    ensures Agrees(run[0]) && InRoundOrder(run[0].events)
  {
  }

  lemma RunStep(curve: Curve, plan: seq<BattleRow>, run: seq<Tables>, k: nat)
    requires IsRun(curve, plan, run) && 0 < k < |run|
    ensures Step(curve, plan, run[k - 1], run[k])
  {
  }

  /** Reconciliation of a reachable state reports zero mismatches. */
  lemma NoDrift(curve: Curve, plan: seq<BattleRow>, run: seq<Tables>, k: nat)
    requires Season(plan) && IsRun(curve, plan, run) && k < |run|
    ensures Drifted(run[k], run[k].ratings.Keys) == {}
  {
    LedgerAgreement(curve, plan, run, k);
    forall w | w in run[k].ratings ensures ProjectionMatches(run[k], w) {
      assert RowAgrees(RowOf(run[k].ratings, w), run[k].events, w);
    }
  }

  /** A one-sided forfeit is charged to the forfeiter alone: one event, no played game, and
      every other wallet, the opponent included, keeps its row. */
  lemma ForfeitChargesForfeiter(curve: Curve, t: Tables, row: BattleRow, w: Wallet)
    requires row.playerA != row.playerB && Effectful(row)
    requires Classify(row.result.value).AForfeits? || Classify(row.result.value).BForfeits?
    ensures var forfeiter := if Classify(row.result.value).AForfeits? then row.playerA else row.playerB;
            var t' := Applied(curve, t, row);
            && |t'.events| == |t.events| + 1 && t'.events[..|t.events|] == t.events
            && t'.events[|t.events|].wallet == forfeiter && t'.events[|t.events|].kind == ForfeitPenalty
            && (w != forfeiter ==> RowOf(t'.ratings, w) == RowOf(t.ratings, w))
            && RowOf(t'.ratings, forfeiter).ratedGames == RowOf(t.ratings, forfeiter).ratedGames
            && RowOf(t'.ratings, forfeiter).rating == ForfeitRatingAfter(RowOf(t.ratings, forfeiter).rating)
  {
    assert Applied(curve, t, row).events[..|t.events|] == t.events;
  }
}
