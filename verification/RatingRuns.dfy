/** Whole runs of the rating worker: a fixed list of Battles becomes final in any order while
    the worker is invoked at any time. Every run reaches the ledger of the sequential fold. */
module RatingRuns {
  import opened Wrappers
  import opened Elo
  import opened Rating

  /** The Battles of a season with their eventual results, in (round, address) order. Each
      address occurs once, and a wallet has at most one rated Battle per Market Round. */
  ghost predicate Season(plan: seq<BattleRow>) {
    Planned(plan) && Sorted(plan) && OnePerRound(plan)
  }

  ghost predicate Planned(plan: seq<BattleRow>) {
    forall i :: 0 <= i < |plan| ==> PlannedRow(plan[i])
  }

  predicate PlannedRow(row: BattleRow) {
    && row.playerA != row.playerB
    && (InSequence(row) ==> row.Terminal() && !Classify(row.result.value).Unsupported?)
  }

  ghost predicate Sorted(plan: seq<BattleRow>) {
    forall i, j :: 0 <= i < j < |plan| ==> plan[i].round <= plan[j].round && plan[i].key != plan[j].key
  }

  ghost predicate OnePerRound(plan: seq<BattleRow>) {
    forall i, j ::
      0 <= i < j < |plan| && InSequence(plan[i]) && InSequence(plan[j]) && plan[i].Shares(plan[j])
      ==> plan[i].round != plan[j].round
  }

  predicate InSequence(row: BattleRow) { row.rated && !row.replay }

  /** The stored row is an earlier view of the planned one: same identity, and once it is
      terminal it shows the planned result. */
  ghost predicate Views(row: BattleRow, planned: BattleRow) {
    && row.key == planned.key && row.round == planned.round
    && row.rated == planned.rated && row.replay == planned.replay
    && row.playerA == planned.playerA && row.playerB == planned.playerB
    && (row.Terminal() ==> row.result == planned.result)
  }

  ghost predicate Follows(battles: seq<BattleRow>, plan: seq<BattleRow>) {
    |battles| == |plan| && forall i :: 0 <= i < |plan| ==> Views(battles[i], plan[i])
  }

  /** The indexer changes Battle rows; terminal rows stay terminal with their result. */
  ghost predicate IndexerStep(plan: seq<BattleRow>, t: Tables, t': Tables) {
    && t'.ratings == t.ratings && t'.events == t.events && Follows(t'.battles, plan)
    && forall i :: 0 <= i < |t.battles| && t.battles[i].Terminal() ==> i < |t'.battles| && t'.battles[i].Terminal()
  }

  ghost predicate Step(curve: Curve, plan: seq<BattleRow>, t: Tables, t': Tables) {
    IndexerStep(plan, t, t') || t' == Worker(curve, t).0
  }

  ghost predicate IsRun(curve: Curve, plan: seq<BattleRow>, run: seq<Tables>) {
    && run != [] && Follows(run[0].battles, plan) && run[0].ratings == map[] && run[0].events == []
    && forall k :: 0 < k < |run| ==> Step(curve, plan, run[k - 1], run[k])
  }

  ghost predicate AllFinal(t: Tables) {
    forall i :: 0 <= i < |t.battles| && InSequence(t.battles[i]) ==> t.battles[i].Terminal()
  }

  // ----- the reference: one pass over the planned list -----

  function FoldRatings(curve: Curve, plan: seq<BattleRow>, n: nat): map<Wallet, RatingRow>
    requires n <= |plan|
  {
    if n == 0 then map[]
    else
      var before, row := FoldRatings(curve, plan, n - 1), plan[n - 1];
      if !Effectful(row) then before
      else
        var e := EffectOn(curve, row, RowOf(before, row.playerA), RowOf(before, row.playerB));
        before[row.playerA := e.rowA][row.playerB := e.rowB]
  }

  function FoldRow(curve: Curve, plan: seq<BattleRow>, n: nat, w: Wallet): RatingRow
    requires n <= |plan|
  {
    RowOf(FoldRatings(curve, plan, n), w)
  }

  function FoldEffect(curve: Curve, plan: seq<BattleRow>, i: nat): Effect
    requires i < |plan| && Effectful(plan[i])
  {
    EffectOn(curve, plan[i], FoldRow(curve, plan, i, plan[i].playerA), FoldRow(curve, plan, i, plan[i].playerB))
  }

  function FoldEvents(curve: Curve, plan: seq<BattleRow>, i: nat): seq<RatingEvent>
    requires i < |plan|
  {
    if Effectful(plan[i]) then FoldEffect(curve, plan, i).events else []
  }

  lemma EventsShape(curve: Curve, row: BattleRow, a: RatingRow, b: RatingRow)
    requires Effectful(row) && row.playerA != row.playerB
    ensures var es := EffectOn(curve, row, a, b).events;
            && 1 <= |es| <= 2
            && (forall k :: 0 <= k < |es| ==>
                  es[k].battle == row.key && es[k].round == row.round && row.Has(es[k].wallet))
            && EffectsComplete(row, Classify(row.result.value), |es|, KindByWallet(es))
  {
    var es := EffectOn(curve, row, a, b).events;
    if |es| == 2 {
      assert es[..1] == [es[0]] && es[..1][..0] == [];
    } else {
      assert es[..0] == [];
    }
  }

  lemma {:induction false} FoldRowStable(curve: Curve, plan: seq<BattleRow>, m: nat, n: nat, w: Wallet)
    requires m <= n <= |plan|
    requires forall i :: m <= i < n && Effectful(plan[i]) ==> !plan[i].Has(w)
    ensures FoldRow(curve, plan, n, w) == FoldRow(curve, plan, m, w)
  {
    if m < n { FoldRowStable(curve, plan, m, n - 1, w); }
  }

  // ----- the event log under appends -----

  lemma {:induction false} EventsOfAppend(xs: seq<RatingEvent>, ys: seq<RatingEvent>, key: BattleKey)
    ensures EventsOf(xs + ys, key) == EventsOf(xs, key) + EventsOf(ys, key)
  {
    if ys == [] {
      assert xs + ys == xs;
    } else {
      var n := |ys| - 1;
      assert (xs + ys)[..|xs + ys| - 1] == xs + ys[..n];
      EventsOfAppend(xs, ys[..n], key);
    }
  }

  lemma {:induction false} EventsOfUniform(ys: seq<RatingEvent>, key: BattleKey, other: BattleKey)
    requires forall k :: 0 <= k < |ys| ==> ys[k].battle == key
    ensures EventsOf(ys, other) == if other == key then ys else []
  {
    if ys != [] {
      EventsOfUniform(ys[..|ys| - 1], key, other);
      assert ys == ys[..|ys| - 1] + [ys[|ys| - 1]];
    }
  }

  lemma {:induction false} EventIsListed(events: seq<RatingEvent>, k: nat)
    requires k < |events|
    ensures events[k] in EventsOf(events, events[k].battle)
  {
    if k < |events| - 1 { EventIsListed(events[..|events| - 1], k); }
  }

  // ----- the invariant -----

  /** Battle `i` of the plan has been applied. */
  predicate Done(t: Tables, plan: seq<BattleRow>, i: nat)
    requires i < |plan|
  {
    EventsOf(t.events, plan[i].key) != []
  }

  /** Every Battle has no events or exactly those of the sequential fold. */
  ghost predicate LogInv(curve: Curve, plan: seq<BattleRow>, t: Tables) {
    && (forall i :: 0 <= i < |plan| && Done(t, plan, i) ==>
          EventsOf(t.events, plan[i].key) == FoldEvents(curve, plan, i))
    && (forall k :: 0 <= k < |t.events| ==> Known(plan, t.events[k].battle))
  }

  ghost predicate LogDone(plan: seq<BattleRow>, t: Tables) {
    forall i :: 0 <= i < |plan| && Done(t, plan, i) ==> Effectful(plan[i])
  }

  ghost predicate Known(plan: seq<BattleRow>, key: BattleKey) {
    exists i :: 0 <= i < |plan| && plan[i].key == key
  }

  /** An applied Battle has every earlier effective Battle of its players applied. */
  ghost predicate OrderInv(plan: seq<BattleRow>, t: Tables) {
    forall i, j ::
      0 <= i < |plan| && 0 <= j < |plan| && Done(t, plan, j) && Precedes(plan[i], plan[j])
      ==> Done(t, plan, i)
  }

  /** An effective Battle in an earlier round with a player in common. */
  predicate Precedes(row: BattleRow, later: BattleRow) {
    Effectful(row) && row.Shares(later) && row.round < later.round
  }

  /** The first `p` planned Battles are done as far as `w` is concerned, and no later one is. */
  ghost predicate Frontier(t: Tables, plan: seq<BattleRow>, w: Wallet, p: nat) {
    && p <= |plan|
    && (forall i :: 0 <= i < p && Effectful(plan[i]) && plan[i].Has(w) ==> Done(t, plan, i))
    && (forall i :: p <= i < |plan| && plan[i].Has(w) ==> !Done(t, plan, i))
  }

  ghost predicate RowsInv(curve: Curve, plan: seq<BattleRow>, t: Tables) {
    forall w: Wallet, p: nat :: Frontier(t, plan, w, p) ==> RowOf(t.ratings, w) == FoldRow(curve, plan, p, w)
  }

  ghost predicate KeysInv(plan: seq<BattleRow>, t: Tables) {
    forall w: Wallet :: w in t.ratings <==> exists i :: 0 <= i < |plan| && Done(t, plan, i) && plan[i].Has(w)
  }

  ghost predicate Inv(curve: Curve, plan: seq<BattleRow>, t: Tables) {
    && Follows(t.battles, plan) && LogDone(plan, t) && LogInv(curve, plan, t)
    && OrderInv(plan, t) && RowsInv(curve, plan, t) && KeysInv(plan, t)
  }

  // ----- what Ready means -----

  lemma {:induction false} ChainCovers(t: Tables, a: Wallet, b: Wallet, round: int, j: nat, k: nat)
    requires j <= k < |t.battles|
    requires PriorChain(t, a, b, round, j).Continue?
    requires InPriorChain(t.battles[k], a, b, round)
    ensures ChainRow(t.events, t.battles[k]).Continue?
    decreases |t.battles| - j
  {
    if j < k { ChainCovers(t, a, b, round, j + 1, k); }
  }

  lemma KindsOfNothing(key: BattleKey, row: BattleRow, resolution: Resolution)
    ensures !EffectsComplete(row, resolution, |EventsOf([], key)|, KindByWallet([]))
  {
  }

  /** Battle `x` is effective, not done, and everything before it in its chain is done. */
  ghost predicate ReadyAt(plan: seq<BattleRow>, t: Tables, x: nat) {
    && x < |plan| && Effectful(plan[x]) && !Done(t, plan, x)
    && forall i :: 0 <= i < |plan| && Precedes(plan[i], plan[x]) ==> Done(t, plan, i)
  }

  lemma ReadyMeans(plan: seq<BattleRow>, t: Tables, x: nat)
    requires Planned(plan) && Follows(t.battles, plan)
    requires x < |t.battles| && Judge(t, x).Ready?
    ensures ReadyAt(plan, t, x) && Effectful(t.battles[x]) && t.battles[x].result == plan[x].result
  {
    var row := t.battles[x];
    assert Views(row, plan[x]);
    forall i | 0 <= i < |plan| && Precedes(plan[i], plan[x])
      ensures Done(t, plan, i)
    {
      var prior := t.battles[i];
      assert Views(prior, plan[i]);
      ChainCovers(t, row.playerA, row.playerB, row.round, 0, i);
      if EventsOf(t.events, prior.key) == [] {
        KindsOfNothing(prior.key, prior, Classify(prior.result.value));
      }
    }
  }

  lemma EffectfulAt(plan: seq<BattleRow>, t: Tables, x: nat)
    requires ReadyAt(plan, t, x)
    ensures x < |plan| && Effectful(plan[x])
  {
  }

  /** The frontier of a ready Battle's players is the Battle itself. */
  lemma ReadyFrontier(plan: seq<BattleRow>, t: Tables, x: nat, w: Wallet)
    requires Sorted(plan) && OnePerRound(plan) && OrderInv(plan, t) && LogDone(plan, t)
    requires ReadyAt(plan, t, x) && plan[x].Has(w)
    ensures Frontier(t, plan, w, x)
  {
    forall i | 0 <= i < x && Effectful(plan[i]) && plan[i].Has(w)
      ensures Done(t, plan, i)
    {
      assert plan[i].Shares(plan[x]);
      assert Precedes(plan[i], plan[x]);
    }
    forall i | x <= i < |plan| && plan[i].Has(w)
      ensures !Done(t, plan, i)
    {
      if i > x && Done(t, plan, i) {
        assert plan[x].Shares(plan[i]);
        assert Precedes(plan[x], plan[i]);
      }
    }
  }

  // ----- one application keeps the invariant -----

  /** The effect the worker computes is the one the sequential fold computes. */
  lemma AppliedEffect(curve: Curve, plan: seq<BattleRow>, t: Tables, x: nat)
    requires Season(plan) && Inv(curve, plan, t)
    requires x < |t.battles| && Judge(t, x).Ready?
    ensures Effectful(t.battles[x]) && Effectful(plan[x])
    ensures RowOf(t.ratings, plan[x].playerA) == FoldRow(curve, plan, x, plan[x].playerA)
    ensures RowOf(t.ratings, plan[x].playerB) == FoldRow(curve, plan, x, plan[x].playerB)
    ensures var e := FoldEffect(curve, plan, x);
            && Applied(curve, t, t.battles[x]).ratings
                 == t.ratings[plan[x].playerA := e.rowA][plan[x].playerB := e.rowB]
            && Applied(curve, t, t.battles[x]).events == t.events + FoldEvents(curve, plan, x)
  {
    hide LogInv, KeysInv, OrderInv, Sorted, OnePerRound, Planned, ReadyAt, Frontier, LogDone, Judge;
    ReadyMeans(plan, t, x);
    EffectfulAt(plan, t, x);
    ReadyFrontier(plan, t, x, plan[x].playerA);
    ReadyFrontier(plan, t, x, plan[x].playerB);
    assert Views(t.battles[x], plan[x]);
  }

  /** Applying Battle `x` marks it done and nothing else. */
  lemma AppliedLog(curve: Curve, plan: seq<BattleRow>, t: Tables, t': Tables, x: nat)
    requires Planned(plan) && Sorted(plan) && LogDone(plan, t) && LogInv(curve, plan, t)
    requires ReadyAt(plan, t, x)
    requires t'.events == t.events + FoldEvents(curve, plan, x)
    ensures OnlyAdds(plan, t, t', x)
    ensures LogDone(plan, t') && LogInv(curve, plan, t')
  {
    hide EventsOf, FoldEvents, Known;
    AddedEvents(curve, plan, t, t', x);
  }

  lemma AddedEvents(curve: Curve, plan: seq<BattleRow>, t: Tables, t': Tables, x: nat)
    requires Planned(plan) && Sorted(plan) && ReadyAt(plan, t, x)
    requires forall k :: 0 <= k < |t.events| ==> Known(plan, t.events[k].battle)
    requires t'.events == t.events + FoldEvents(curve, plan, x)
    ensures FoldEvents(curve, plan, x) != []
    ensures forall i :: 0 <= i < |plan| ==>
              EventsOf(t'.events, plan[i].key)
              == EventsOf(t.events, plan[i].key) + (if i == x then FoldEvents(curve, plan, x) else [])
    ensures forall k :: 0 <= k < |t'.events| ==> Known(plan, t'.events[k].battle)
  {
    var added := FoldEvents(curve, plan, x);
    assert PlannedRow(plan[x]);
    EventsShape(curve, plan[x], FoldRow(curve, plan, x, plan[x].playerA), FoldRow(curve, plan, x, plan[x].playerB));
    forall i | 0 <= i < |plan|
      ensures EventsOf(t'.events, plan[i].key) == EventsOf(t.events, plan[i].key) + (if i == x then added else [])
    {
      EventsOfAppend(t.events, added, plan[i].key);
      EventsOfUniform(added, plan[x].key, plan[i].key);
    }
    forall k | 0 <= k < |t'.events| ensures Known(plan, t'.events[k].battle) {
      if k >= |t.events| { assert t'.events[k] == added[k - |t.events|]; }
    }
  }

  ghost predicate OnlyAdds(plan: seq<BattleRow>, t: Tables, t': Tables, x: nat) {
    forall i :: 0 <= i < |plan| ==> (Done(t', plan, i) <==> Done(t, plan, i) || i == x)
  }

  lemma AppliedOrder(plan: seq<BattleRow>, t: Tables, t': Tables, x: nat)
    requires OrderInv(plan, t) && ReadyAt(plan, t, x) && OnlyAdds(plan, t, t', x)
    ensures OrderInv(plan, t')
  {
  }

  lemma AppliedRows(curve: Curve, plan: seq<BattleRow>, t: Tables, t': Tables, x: nat)
    requires Sorted(plan) && OnePerRound(plan) && RowsInv(curve, plan, t) && OrderInv(plan, t) && LogDone(plan, t)
    requires ReadyAt(plan, t, x) && OnlyAdds(plan, t, t', x)
    requires var e := FoldEffect(curve, plan, x);
             t'.ratings == t.ratings[plan[x].playerA := e.rowA][plan[x].playerB := e.rowB]
    ensures RowsInv(curve, plan, t')
  {
    forall w: Wallet, p: nat | Frontier(t', plan, w, p)
      ensures RowOf(t'.ratings, w) == FoldRow(curve, plan, p, w)
    {
      if plan[x].Has(w) {
        PlayerRow(curve, plan, t, t', x, w, p);
      } else {
        assert Frontier(t, plan, w, p);
      }
    }
  }

  /** A player of the applied Battle holds the fold's row at every new frontier. */
  lemma PlayerRow(curve: Curve, plan: seq<BattleRow>, t: Tables, t': Tables, x: nat, w: Wallet, p: nat)
    requires Sorted(plan) && OnePerRound(plan) && OrderInv(plan, t) && LogDone(plan, t)
    requires ReadyAt(plan, t, x) && OnlyAdds(plan, t, t', x) && plan[x].Has(w)
    requires var e := FoldEffect(curve, plan, x);
             t'.ratings == t.ratings[plan[x].playerA := e.rowA][plan[x].playerB := e.rowB]
    requires Frontier(t', plan, w, p)
    ensures RowOf(t'.ratings, w) == FoldRow(curve, plan, p, w)
  {
    ReadyFrontier(plan, t, x, w);
    assert Done(t', plan, x) && x < p;
    FoldRowStable(curve, plan, x + 1, p, w);
  }

  lemma AppliedKeys(plan: seq<BattleRow>, t: Tables, t': Tables, x: nat)
    requires KeysInv(plan, t) && x < |plan|
    requires OnlyAdds(plan, t, t', x)
    requires t'.ratings.Keys == t.ratings.Keys + {plan[x].playerA, plan[x].playerB}
    ensures KeysInv(plan, t')
  {
    forall w
      ensures w in t'.ratings <==> exists i :: 0 <= i < |plan| && Done(t', plan, i) && plan[i].Has(w)
    {
      if w in t'.ratings {
        if w in t.ratings {
          var i :| 0 <= i < |plan| && Done(t, plan, i) && plan[i].Has(w);
          assert Done(t', plan, i);
        } else {
          assert Done(t', plan, x) && plan[x].Has(w);
        }
      }
    }
  }

  /** The worker's commit of Battle `x`. */
  lemma AppliedInv(curve: Curve, plan: seq<BattleRow>, t: Tables, x: nat)
    requires Season(plan) && Inv(curve, plan, t)
    requires x < |t.battles| && Judge(t, x).Ready?
    ensures Effectful(t.battles[x]) && ReadyAt(plan, t, x)
    ensures Inv(curve, plan, Applied(curve, t, t.battles[x])) && OnlyAdds(plan, t, Applied(curve, t, t.battles[x]), x)
  {
    hide LogDone, LogInv, OrderInv, RowsInv, KeysInv, Planned, Sorted, OnePerRound, Follows, ReadyAt, OnlyAdds;
    AppliedEffect(curve, plan, t, x);
    ReadyMeans(plan, t, x);
    var t' := Applied(curve, t, t.battles[x]);
    AppliedLog(curve, plan, t, t', x);
    AppliedOrder(plan, t, t', x);
    AppliedRows(curve, plan, t, t', x);
    AppliedKeys(plan, t, t', x);
  }

  lemma WorkerInv(curve: Curve, plan: seq<BattleRow>, t: Tables)
    requires Season(plan) && Inv(curve, plan, t)
    ensures Inv(curve, plan, Worker(curve, t).0)
  {
    hide Inv, Season, Applied, Judge, Effectful;
    ChosenIsReady(t, 0);
    if NextPick(t, 0).Chosen? { AppliedInv(curve, plan, t, NextPick(t, 0).index); }
  }

  lemma IndexerInv(curve: Curve, plan: seq<BattleRow>, t: Tables, t': Tables)
    requires Inv(curve, plan, t) && IndexerStep(plan, t, t')
    ensures Inv(curve, plan, t')
  {
    forall i | 0 <= i < |plan| ensures Done(t', plan, i) <==> Done(t, plan, i) {}
    forall w: Wallet, p: nat | Frontier(t', plan, w, p)
      ensures RowOf(t'.ratings, w) == FoldRow(curve, plan, p, w)
    {
      assert Frontier(t, plan, w, p);
    }
    KeysSame(plan, t, t');
  }

  lemma KeysSame(plan: seq<BattleRow>, t: Tables, t': Tables)
    requires KeysInv(plan, t) && t'.ratings == t.ratings
    requires forall i :: 0 <= i < |plan| ==> (Done(t', plan, i) <==> Done(t, plan, i))
    ensures KeysInv(plan, t')
  {
  }

  lemma StartInv(curve: Curve, plan: seq<BattleRow>, t: Tables)
    requires Follows(t.battles, plan) && t.ratings == map[] && t.events == []
    ensures Inv(curve, plan, t)
  {
    forall w: Wallet, p: nat | Frontier(t, plan, w, p)
      ensures RowOf(t.ratings, w) == FoldRow(curve, plan, p, w)
    {
      forall i | 0 <= i < p && Effectful(plan[i]) ensures !plan[i].Has(w) {
        assert !Done(t, plan, i);
      }
      FoldRowStable(curve, plan, 0, p, w);
    }
  }

  /** Every table state of every run satisfies the invariant. */
  lemma {:induction false} Reachable(curve: Curve, plan: seq<BattleRow>, run: seq<Tables>, k: nat)
    requires Season(plan) && IsRun(curve, plan, run) && k < |run|
    ensures Inv(curve, plan, run[k])
  {
    if k == 0 {
      StartInv(curve, plan, run[0]);
    } else {
      Reachable(curve, plan, run, k - 1);
      assert Step(curve, plan, run[k - 1], run[k]);
      if IndexerStep(plan, run[k - 1], run[k]) {
        IndexerInv(curve, plan, run[k - 1], run[k]);
      } else {
        WorkerInv(curve, plan, run[k - 1]);
      }
    }
  }

  // ----- main results -----

  /** When the worker is idle and everything is final, everything effective is done. */
  lemma {:induction false} IdleMeansDone(curve: Curve, plan: seq<BattleRow>, t: Tables, i: nat)
    requires Season(plan) && Inv(curve, plan, t) && AllFinal(t)
    requires NextPick(t, 0).Nothing?
    requires i < |plan| && Effectful(plan[i])
    ensures Done(t, plan, i)
    decreases i
  {
    forall j | 0 <= j < i && Effectful(plan[j]) ensures Done(t, plan, j) {
      IdleMeansDone(curve, plan, t, j);
    }
    if !Done(t, plan, i) {
      ChosenIsReady(t, 0);
      NotDoneIsReady(curve, plan, t, i);
    }
  }

  /** Among final Battles, one whose predecessors are all done is done or ready. */
  lemma NotDoneIsReady(curve: Curve, plan: seq<BattleRow>, t: Tables, i: nat)
    requires Season(plan) && Inv(curve, plan, t) && AllFinal(t)
    requires i < |plan| && Effectful(plan[i]) && !Done(t, plan, i)
    requires forall j :: 0 <= j < i && Effectful(plan[j]) ==> Done(t, plan, j)
    ensures Judge(t, i).Ready?
  {
    hide LogInv, OrderInv, RowsInv, KeysInv, OnePerRound, EffectOn, FoldEvents;
    var row := t.battles[i];
    assert Views(row, plan[i]);
    KindsOfNothing(row.key, row, Classify(row.result.value));
    forall j | 0 <= j < |t.battles| && InPriorChain(t.battles[j], row.playerA, row.playerB, row.round)
      ensures ChainRow(t.events, t.battles[j]).Continue?
    {
      assert Views(t.battles[j], plan[j]);
      assert plan[j].round < plan[i].round;
      assert j < i;
      if Effectful(plan[j]) { DoneIsComplete(curve, plan, t, j); }
    }
    ChainContinues(t, row.playerA, row.playerB, row.round, 0);
  }

  lemma DoneIsComplete(curve: Curve, plan: seq<BattleRow>, t: Tables, i: nat)
    requires Season(plan) && Inv(curve, plan, t)
    requires i < |plan| && Done(t, plan, i) && t.battles[i].Terminal()
    ensures Effectful(plan[i]) && Views(t.battles[i], plan[i])
    ensures Complete(t.events, t.battles[i], Classify(t.battles[i].result.value))
  {
    assert Views(t.battles[i], plan[i]);
    EventsShape(curve, plan[i], FoldRow(curve, plan, i, plan[i].playerA), FoldRow(curve, plan, i, plan[i].playerB));
    assert EventsOf(t.events, plan[i].key) == FoldEvents(curve, plan, i);
  }

  lemma {:induction false} ChainContinues(t: Tables, a: Wallet, b: Wallet, round: int, j: nat)
    requires j <= |t.battles|
    requires forall k :: j <= k < |t.battles| && InPriorChain(t.battles[k], a, b, round) ==>
               ChainRow(t.events, t.battles[k]).Continue?
    ensures PriorChain(t, a, b, round, j).Continue?
    decreases |t.battles| - j
  {
    if j < |t.battles| { ChainContinues(t, a, b, round, j + 1); }
  }

  lemma {:induction false} FoldKeys(curve: Curve, plan: seq<BattleRow>, n: nat, w: Wallet)
    requires n <= |plan|
    ensures w in FoldRatings(curve, plan, n) <==> exists i :: 0 <= i < n && Effectful(plan[i]) && plan[i].Has(w)
  {
    if n > 0 {
      FoldKeys(curve, plan, n - 1, w);
      if Effectful(plan[n - 1]) && plan[n - 1].Has(w) {
        assert exists i :: 0 <= i < n && Effectful(plan[i]) && plan[i].Has(w);
      }
    }
  }

  /** Tables in which everything effective is done hold exactly the sequential ledger. */
  lemma DoneIsFold(curve: Curve, plan: seq<BattleRow>, t: Tables)
    requires Inv(curve, plan, t) && AllDone(plan, t)
    ensures t.ratings == FoldRatings(curve, plan, |plan|)
    ensures SameLog(curve, plan, t)
  {
    hide FoldRatings, EffectOn, Effectful, OrderInv, Follows;
    forall w: Wallet
      ensures w in t.ratings <==> w in FoldRatings(curve, plan, |plan|)
      ensures w in t.ratings ==> t.ratings[w] == FoldRatings(curve, plan, |plan|)[w]
    {
      hide LogInv, LogDone;
      FoldKeys(curve, plan, |plan|, w);
      assert Frontier(t, plan, w, |plan|);
    }
  }

  ghost predicate AllDone(plan: seq<BattleRow>, t: Tables) {
    forall i :: 0 <= i < |plan| && Effectful(plan[i]) ==> Done(t, plan, i)
  }

  /** Each Battle's events are those of the fold, and there are no others. */
  ghost predicate SameLog(curve: Curve, plan: seq<BattleRow>, t: Tables) {
    && (forall i :: 0 <= i < |plan| ==> EventsOf(t.events, plan[i].key) == FoldEvents(curve, plan, i))
    && (forall k :: 0 <= k < |t.events| ==> Known(plan, t.events[k].battle))
  }

  lemma IdleMeansAllDone(curve: Curve, plan: seq<BattleRow>, t: Tables)
    requires Season(plan) && Inv(curve, plan, t) && AllFinal(t)
    requires NextPick(t, 0).Nothing?
    ensures AllDone(plan, t)
  {
    hide Inv, Season, AllFinal, NextPick, Judge, Done, Effectful;
    forall i | 0 <= i < |plan| && Effectful(plan[i]) ensures Done(t, plan, i) {
      IdleMeansDone(curve, plan, t, i);
    }
  }

  /** Confluence. However finalisation and worker calls interleave, once every Battle is final
      and the worker reports nothing to do, the rating rows and each Battle's events are those
      of one sequential pass in round order. */
  lemma Confluence(curve: Curve, plan: seq<BattleRow>, run: seq<Tables>)
    requires Season(plan) && IsRun(curve, plan, run)
    requires AllFinal(run[|run| - 1]) && Worker(curve, run[|run| - 1]).1 == Ok(None)
    ensures run[|run| - 1].ratings == FoldRatings(curve, plan, |plan|)
    ensures SameLog(curve, plan, run[|run| - 1])
  {
    hide Inv, Season, AllFinal, Step, Judge, FoldRatings, SameLog, Applied, Follows;
    var t := run[|run| - 1];
    Reachable(curve, plan, run, |run| - 1);
    ChosenIsReady(t, 0);
    IdleMeansAllDone(curve, plan, t);
    DoneIsFold(curve, plan, t);
  }

  /** Rating effects happen exactly once: in every reachable state a Battle has no events or
      exactly its own, and the worker never meets conflicting events. */
  lemma ExactlyOnce(curve: Curve, plan: seq<BattleRow>, run: seq<Tables>, k: nat, i: nat)
    requires Season(plan) && IsRun(curve, plan, run) && k < |run| && i < |plan|
    ensures EventsOf(run[k].events, plan[i].key) == []
            || EventsOf(run[k].events, plan[i].key) == FoldEvents(curve, plan, i)
    ensures Worker(curve, run[k]).1 != Err(ConflictingEvents)
  {
    hide Season, IsRun, Worker, FoldEvents, EventsOf, OrderInv, RowsInv, KeysInv, LogDone, Follows;
    Reachable(curve, plan, run, k);
    assert EventsOf(run[k].events, plan[i].key) != [] ==> Done(run[k], plan, i);
    WorkerMeetsNoConflict(curve, plan, run[k]);
  }

  lemma WorkerMeetsNoConflict(curve: Curve, plan: seq<BattleRow>, t: Tables)
    requires Season(plan) && Inv(curve, plan, t)
    ensures Worker(curve, t).1 != Err(ConflictingEvents)
  {
    hide Season, Inv, Judge, EffectOn, Applied, NextPick;
    forall j | 0 <= j < |t.battles| ensures Judge(t, j) != Fail(ConflictingEvents) {
      NoConflict(curve, plan, t, j);
    }
    PickErrorIsJudged(t, 0, ConflictingEvents);
    ChosenIsReady(t, 0);
  }

  lemma NoConflict(curve: Curve, plan: seq<BattleRow>, t: Tables, j: nat)
    requires Season(plan) && Inv(curve, plan, t) && j < |t.battles|
    ensures Judge(t, j) != Fail(ConflictingEvents)
  {
    assert Views(t.battles[j], plan[j]);
    var row := t.battles[j];
    if row.Terminal() && Done(t, plan, j) { DoneIsComplete(curve, plan, t, j); }
    if Judge(t, j).Fail? && !Done(t, plan, j) {
      ChainErrorIsInvalid(t, row.playerA, row.playerB, row.round, 0);
    }
  }

  lemma {:induction false} ChainErrorIsInvalid(t: Tables, a: Wallet, b: Wallet, round: int, j: nat)
    requires j <= |t.battles|
    ensures PriorChain(t, a, b, round, j).ChainError? ==> PriorChain(t, a, b, round, j) == ChainError(InvalidResult)
    decreases |t.battles| - j
  {
    if j < |t.battles| { ChainErrorIsInvalid(t, a, b, round, j + 1); }
  }

  lemma {:induction false} PickErrorIsJudged(t: Tables, i: nat, e: RatingError)
    requires i <= |t.battles|
    ensures NextPick(t, i) == PickError(e) ==> exists j :: i <= j < |t.battles| && Judge(t, j) == Fail(e)
    decreases |t.battles| - i
  {
    if i < |t.battles| { PickErrorIsJudged(t, i + 1, e); }
  }

  // ----- snapshots, progress, and termination of the worker -----

  /** Every recorded rating snapshot is the rating of the sequential fold just before the
      Battle, and every recorded formula version is the current one. */
  ghost predicate FoldSnapshots(curve: Curve, plan: seq<BattleRow>, t: Tables) {
    forall i :: 0 <= i < |t.battles| && i < |plan| ==> HonestAt(curve, plan, t, i)
  }

  ghost predicate HonestAt(curve: Curve, plan: seq<BattleRow>, t: Tables, i: nat)
    requires i < |t.battles| && i < |plan|
  {
    SnapshotsAgree(t.battles[i], FoldRow(curve, plan, i, plan[i].playerA), FoldRow(curve, plan, i, plan[i].playerB))
  }

  /** Scanning for the next Battle can only fail on an unsupported result or on conflicting events. */
  lemma {:induction false} PickErrorKinds(t: Tables, i: nat)
    requires i <= |t.battles|
    ensures NextPick(t, i).PickError? ==> NextPick(t, i).error in {InvalidResult, ConflictingEvents}
    decreases |t.battles| - i
  {
    hide EventsOf, Complete, Classify, PriorChain;
    if i < |t.battles| {
      PickErrorKinds(t, i + 1);
      ChainErrorIsInvalid(t, t.battles[i].playerA, t.battles[i].playerB, t.battles[i].round, 0);
    }
  }

  /** Snapshots taken from the fold are never refused. */
  lemma SnapshotsAreSafe(curve: Curve, plan: seq<BattleRow>, run: seq<Tables>, k: nat)
    requires Season(plan) && IsRun(curve, plan, run) && k < |run| && FoldSnapshots(curve, plan, run[k])
    ensures Worker(curve, run[k]).1 != Err(SnapshotMismatch)
  {
    hide Inv, Season, IsRun, FoldSnapshots, Judge, EffectOn, Applied, NextPick, SnapshotsAgree;
    var t := run[k];
    Reachable(curve, plan, run, k);
    ChosenIsReady(t, 0);
    PickErrorKinds(t, 0);
    if NextPick(t, 0).Chosen? { ReadySnapshots(curve, plan, t, NextPick(t, 0).index); }
  }

  lemma ReadySnapshots(curve: Curve, plan: seq<BattleRow>, t: Tables, x: nat)
    requires Season(plan) && Inv(curve, plan, t) && FoldSnapshots(curve, plan, t)
    requires x < |t.battles| && Judge(t, x).Ready?
    ensures SnapshotsAgree(t.battles[x], RowOf(t.ratings, t.battles[x].playerA), RowOf(t.ratings, t.battles[x].playerB))
    ensures t.battles[x].playerA != t.battles[x].playerB
  {
    hide Inv, Season, Judge, EffectOn, Applied, SnapshotsAgree;
    AppliedEffect(curve, plan, t, x);
    InvViews(curve, plan, t, x);
    SeasonRow(plan, x);
    assert HonestAt(curve, plan, t, x);
  }

  lemma SeasonRow(plan: seq<BattleRow>, x: nat)
    requires Season(plan) && x < |plan|
    ensures plan[x].playerA != plan[x].playerB
  {
    assert PlannedRow(plan[x]);
  }

  ghost function DoneSet(t: Tables, plan: seq<BattleRow>): set<nat> {
    set i: nat | i < |plan| && Done(t, plan, i)
  }

  /** A reported application adds exactly one Battle to those done; any other call changes
      nothing. So a run applies at most |plan| Battles. */
  lemma OneBattlePerApplication(curve: Curve, plan: seq<BattleRow>, t: Tables)
    requires Season(plan) && Inv(curve, plan, t)
    ensures var (t', r) := Worker(curve, t);
            if r.Ok? && r.value.Some? then
              exists x :: 0 <= x < |plan| && x !in DoneSet(t, plan) && DoneSet(t', plan) == DoneSet(t, plan) + {x}
                          && r.value.value.battle == plan[x].key
            else t' == t
  {
    hide Inv, Season, Judge, EffectOn, Refusal, NextPick;
    ChosenIsReady(t, 0);
    if NextPick(t, 0).Chosen? && Worker(curve, t).1.Ok? {
      var x := NextPick(t, 0).index;
      AppliedInv(curve, plan, t, x);
      OnlyAddsSet(plan, t, Worker(curve, t).0, x);
      InvViews(curve, plan, t, x);
    }
  }

  lemma InvViews(curve: Curve, plan: seq<BattleRow>, t: Tables, x: nat)
    requires Inv(curve, plan, t) && x < |t.battles|
    ensures |t.battles| == |plan| && Views(t.battles[x], plan[x])
  {
  }

  lemma OnlyAddsSet(plan: seq<BattleRow>, t: Tables, t': Tables, x: nat)
    requires x < |plan| && OnlyAdds(plan, t, t', x)
    ensures DoneSet(t', plan) == DoneSet(t, plan) + {x}
  {
  }

  lemma {:induction false} IndexSetSize(s: set<nat>, n: nat)
    requires forall i :: i in s ==> i < n
    ensures |s| <= n
  {
    if n > 0 {
      IndexSetSize(s - {n - 1}, n - 1);
    } else {
      assert s == {};
    }
  }

  /** Ratings and game counts in the fold grow by at most 64 and 1 per Battle. */
  lemma {:induction false} FoldBounds(curve: Curve, plan: seq<BattleRow>, n: nat, w: Wallet)
    requires n <= |plan|
    ensures var row := FoldRow(curve, plan, n, w);
            RATING_FLOOR <= row.rating <= INITIAL_RATING + 64 * n && row.ratedGames <= n
  {
    if n > 0 {
      FoldBounds(curve, plan, n - 1, w);
      var row := plan[n - 1];
      if Effectful(row) && row.Has(w) {
        FoldBounds(curve, plan, n - 1, row.playerA);
        FoldBounds(curve, plan, n - 1, row.playerB);
        EffectBounds(curve, row, FoldRow(curve, plan, n - 1, row.playerA), FoldRow(curve, plan, n - 1, row.playerB));
      }
    }
  }

  lemma EffectBounds(curve: Curve, row: BattleRow, a: RatingRow, b: RatingRow)
    requires Effectful(row) && a.rating >= RATING_FLOOR && b.rating >= RATING_FLOOR
    ensures var e := EffectOn(curve, row, a, b);
            && RATING_FLOOR <= e.rowA.rating <= a.rating + 64 && a.ratedGames <= e.rowA.ratedGames <= a.ratedGames + 1
            && RATING_FLOOR <= e.rowB.rating <= b.rating + 64 && b.ratedGames <= e.rowB.ratedGames <= b.ratedGames + 1
  {
    if Classify(row.result.value).Played? {
      var (outcomeA, outcomeB) := PlayedOutcomes(row.result.value);
      UpdateBounds(curve, a.rating, b.rating, outcomeA, a.ratedGames);
      UpdateBounds(curve, b.rating, a.rating, outcomeB, b.ratedGames);
    }
  }

  /** No played event of a ready Battle's players exists in its round. */
  lemma NoPlayedInRound(curve: Curve, plan: seq<BattleRow>, t: Tables, x: nat, w: Wallet)
    requires Season(plan) && Inv(curve, plan, t)
    requires x < |t.battles| && Judge(t, x).Ready? && plan[x].Has(w)
    ensures !PlayedInRound(t.events, plan[x].round, w)
  {
    hide Inv, Season, Judge, ReadyAt, Effectful;
    InvViews(curve, plan, t, x);
    forall k | 0 <= k < |t.events|
      ensures !(t.events[k].round == plan[x].round && t.events[k].wallet == w)
    {
      var i := EventOrigin(curve, plan, t, k);
      if plan[i].round == plan[x].round && plan[i].Has(w) { NotInRound(curve, plan, t, x, i, w); }
    }
  }

  lemma NotInRound(curve: Curve, plan: seq<BattleRow>, t: Tables, x: nat, i: nat, w: Wallet)
    requires Season(plan) && Inv(curve, plan, t)
    requires x < |t.battles| && Judge(t, x).Ready? && x < |plan| && plan[x].Has(w)
    requires i < |plan| && Effectful(plan[i]) && Done(t, plan, i)
    ensures !(plan[i].round == plan[x].round && plan[i].Has(w))
  {
    ReadyMeans(plan, t, x);
    if plan[i].round == plan[x].round && plan[i].Has(w) {
      assert plan[i].Shares(plan[x]) && plan[x].Shares(plan[i]);
    }
  }

  /** Every event belongs to a done Battle of its round that its wallet plays. */
  lemma EventOrigin(curve: Curve, plan: seq<BattleRow>, t: Tables, k: nat) returns (i: nat)
    requires Season(plan) && Inv(curve, plan, t) && k < |t.events|
    ensures i < |plan| && Done(t, plan, i) && Effectful(plan[i])
    ensures t.events[k].battle == plan[i].key && t.events[k].round == plan[i].round && plan[i].Has(t.events[k].wallet)
  {
    i :| 0 <= i < |plan| && plan[i].key == t.events[k].battle;
    EventIsListed(t.events, k);
    EventsShape(curve, plan[i], FoldRow(curve, plan, i, plan[i].playerA), FoldRow(curve, plan, i, plan[i].playerB));
    assert t.events[k] in FoldEvents(curve, plan, i);
  }

  lemma FinalRowsDoNotFail(curve: Curve, plan: seq<BattleRow>, t: Tables, j: nat)
    requires Season(plan) && Inv(curve, plan, t) && AllFinal(t) && j < |t.battles|
    ensures !Judge(t, j).Fail?
  {
    var row := t.battles[j];
    assert Views(row, plan[j]);
    NoConflict(curve, plan, t, j);
    forall k | 0 <= k < |t.battles| && InPriorChain(t.battles[k], row.playerA, row.playerB, row.round)
      ensures !ChainRow(t.events, t.battles[k]).ChainError?
    {
      assert Views(t.battles[k], plan[k]);
    }
    ChainHasNoError(t, row.playerA, row.playerB, row.round, 0);
  }

  lemma {:induction false} ChainHasNoError(t: Tables, a: Wallet, b: Wallet, round: int, j: nat)
    requires j <= |t.battles|
    requires forall k :: j <= k < |t.battles| && InPriorChain(t.battles[k], a, b, round) ==>
               !ChainRow(t.events, t.battles[k]).ChainError?
    ensures !PriorChain(t, a, b, round, j).ChainError?
    decreases |t.battles| - j
  {
    if j < |t.battles| { ChainHasNoError(t, a, b, round, j + 1); }
  }

  /** Within 32 bits a ready Battle is refused only for its snapshots. */
  lemma ReadyRefusal(curve: Curve, plan: seq<BattleRow>, t: Tables, x: nat)
    requires Season(plan) && Inv(curve, plan, t)
    requires INITIAL_RATING + 64 * (|plan| + 1) <= I32_MAX
    requires x < |t.battles| && x < |plan| && Judge(t, x).Ready?
    ensures Effectful(t.battles[x])
    ensures Refusal(curve, t, t.battles[x]) == if HonestAt(curve, plan, t, x) then None else Some(SnapshotMismatch)
  {
    var row := t.battles[x];
    ReadyMeans(plan, t, x);
    assert Views(row, plan[x]);
    var a, b := FoldRow(curve, plan, x, row.playerA), FoldRow(curve, plan, x, row.playerB);
    AppliedEffect(curve, plan, t, x);
    NoPlayedInRound(curve, plan, t, x, row.playerA);
    NoPlayedInRound(curve, plan, t, x, row.playerB);
    FoldBounds(curve, plan, x, row.playerA);
    FoldBounds(curve, plan, x, row.playerB);
    if Classify(row.result.value).Played? {
      var (outcomeA, outcomeB) := PlayedOutcomes(row.result.value);
      UpdateBounds(curve, a.rating, b.rating, outcomeA, a.ratedGames);
      UpdateBounds(curve, b.rating, a.rating, outcomeB, b.ratedGames);
    }
  }

  /** Consecutive worker calls with no indexer activity. */
  function Drain(curve: Curve, t: Tables, calls: nat): Tables
    decreases calls
  {
    if calls == 0 then t else Drain(curve, Worker(curve, t).0, calls - 1)
  }

  lemma WorkerKeepsBattles(curve: Curve, t: Tables)
    ensures Worker(curve, t).0.battles == t.battles
  {
    hide NextPick, Refusal;
  }

  lemma {:induction false} DrainIdle(curve: Curve, t: Tables, calls: nat)
    requires Worker(curve, t).0 == t
    ensures Drain(curve, t, calls) == t
  {
    if calls > 0 { DrainIdle(curve, t, calls - 1); }
  }
}
