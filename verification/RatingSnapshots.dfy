/** What one wrong rating snapshot does to the rating worker: with everything final, the ledger becomes
    the sequential one exactly when no waiting Battle has a snapshot that differs from it; otherwise
    it stops just before the first such Battle, for all wallets. */
module RatingSnapshots {
  import opened Wrappers
  import opened Elo
  import opened Rating
  import opened RatingRuns

  /** An effective Battle that has not been applied. */
  ghost predicate Waits(plan: seq<BattleRow>, t: Tables, i: nat) {
    i < |plan| && Effectful(plan[i]) && !Done(t, plan, i)
  }

  ghost predicate IsNext(plan: seq<BattleRow>, t: Tables, x: nat) {
    Waits(plan, t, x) && forall j: nat :: j < x ==> !Waits(plan, t, j)
  }

  /** The stored snapshots of a waiting Battle, if there are any, are those of the sequential pass. */
  ghost predicate Honest(curve: Curve, plan: seq<BattleRow>, t: Tables, i: nat) {
    Waits(plan, t, i) ==> i < |t.battles| && HonestAt(curve, plan, t, i)
  }

  ghost predicate AllHonest(curve: Curve, plan: seq<BattleRow>, t: Tables) {
    forall i: nat :: i < |plan| ==> Honest(curve, plan, t, i)
  }

  /** A reachable state with everything final and ratings within 32 bits. */
  ghost predicate Settled(curve: Curve, plan: seq<BattleRow>, t: Tables) {
    Season(plan) && Inv(curve, plan, t) && AllFinal(t) && INITIAL_RATING + 64 * (|plan| + 1) <= I32_MAX
  }

  // ----- one call -----

  lemma {:induction false} PickFirst(t: Tables, i: nat, x: nat)
    requires i <= x < |t.battles| && Judge(t, x).Ready? && forall j :: i <= j < x ==> Judge(t, j).Skip?
    ensures NextPick(t, i) == Chosen(x)
    decreases x - i
  {
    hide Judge;
    if i < x { PickFirst(t, i + 1, x); }
  }

  lemma NextIsPicked(curve: Curve, plan: seq<BattleRow>, t: Tables, x: nat)
    requires Settled(curve, plan, t) && IsNext(plan, t, x)
    ensures x < |t.battles| && Judge(t, x).Ready? && NextPick(t, 0) == Chosen(x)
  {
    hide Season, Inv, AllFinal, Judge, Effectful, Done, NextPick;
    InvLengths(curve, plan, t);
    forall j | 0 <= j < x && Effectful(plan[j]) ensures Done(t, plan, j) { assert !Waits(plan, t, j); }
    NotDoneIsReady(curve, plan, t, x);
    forall j | 0 <= j < x ensures Judge(t, j).Skip? {
      FinalRowsDoNotFail(curve, plan, t, j);
      if Judge(t, j).Ready? { ReadyWaits(curve, plan, t, j); }
    }
    PickFirst(t, 0, x);
  }

  lemma InvLengths(curve: Curve, plan: seq<BattleRow>, t: Tables)
    requires Inv(curve, plan, t)
    ensures |t.battles| == |plan|
  {
  }

  lemma ReadyWaits(curve: Curve, plan: seq<BattleRow>, t: Tables, j: nat)
    requires Season(plan) && Inv(curve, plan, t) && j < |t.battles| && Judge(t, j).Ready?
    ensures Waits(plan, t, j)
  {
    hide Judge, LogInv, OrderInv, RowsInv, KeysInv, LogDone, Sorted, OnePerRound;
    ReadyMeans(plan, t, j);
  }

  /** A call takes the first waiting Battle: it is applied if its snapshots are honest, and otherwise
      nothing is, whatever waits behind it. */
  lemma WorkerTakesNext(curve: Curve, plan: seq<BattleRow>, t: Tables, x: nat)
    requires Settled(curve, plan, t) && IsNext(plan, t, x)
    ensures var (t', r) := Worker(curve, t);
            if Honest(curve, plan, t, x) then r.Ok? && r.value.Some? && OnlyAdds(plan, t, t', x)
            else t' == t && r == Err(SnapshotMismatch)
  {
    hide Season, Inv, AllFinal, Judge, Effectful, Done, NextPick, Refusal, EffectOn, Applied, HonestAt, OnlyAdds;
    InvLengths(curve, plan, t);
    NextIsPicked(curve, plan, t, x);
    ReadyRefusal(curve, plan, t, x);
    if Honest(curve, plan, t, x) { AppliedInv(curve, plan, t, x); }
  }

  lemma {:induction false} FindNext(plan: seq<BattleRow>, t: Tables, m: nat) returns (x: nat)
    requires Waits(plan, t, m)
    ensures x <= m && IsNext(plan, t, x)
  {
    hide Waits;
    if j: nat :| j < m && Waits(plan, t, j) {
      x := FindNext(plan, t, j);
    } else {
      x := m;
    }
  }

  lemma NothingWaits(curve: Curve, plan: seq<BattleRow>, t: Tables)
    requires Settled(curve, plan, t) && forall i: nat :: !Waits(plan, t, i)
    ensures Worker(curve, t) == (t, Ok(None)) && AllDone(plan, t)
  {
    hide Season, Inv, AllFinal, Judge, NextPick, Effectful, Done;
    InvLengths(curve, plan, t);
    forall j | 0 <= j < |t.battles| ensures Judge(t, j).Skip? {
      FinalRowsDoNotFail(curve, plan, t, j);
      if Judge(t, j).Ready? { ReadyWaits(curve, plan, t, j); }
    }
    AllSkipped(t, 0);
    forall i | 0 <= i < |plan| && Effectful(plan[i]) ensures Done(t, plan, i) { assert !Waits(plan, t, i); }
  }

  lemma {:induction false} AllSkipped(t: Tables, i: nat)
    requires i <= |t.battles| && forall j :: i <= j < |t.battles| ==> Judge(t, j).Skip?
    ensures NextPick(t, i) == Nothing
    decreases |t.battles| - i
  {
    hide Judge;
    if i < |t.battles| { AllSkipped(t, i + 1); }
  }

  /** With everything final a call fails exactly when the first waiting Battle has a dishonest snapshot,
      is idle exactly when nothing waits, and has no other way to fail. */
  lemma WorkerFailsExactly(curve: Curve, plan: seq<BattleRow>, t: Tables)
    requires Settled(curve, plan, t)
    ensures Worker(curve, t).1.Err? <==> exists x :: IsNext(plan, t, x) && !Honest(curve, plan, t, x)
    ensures Worker(curve, t).1.Err? ==> Worker(curve, t) == (t, Err(SnapshotMismatch))
    ensures Worker(curve, t).1 == Ok(None) <==> AllDone(plan, t)
  {
    hide Settled, Worker, Honest, Effectful, Done;
    if i: nat :| Waits(plan, t, i) {
      var x := FindNext(plan, t, i);
      WorkerTakesNext(curve, plan, t, x);
      assert forall y :: IsNext(plan, t, y) ==> y == x;
    } else {
      NothingWaits(curve, plan, t);
    }
  }

  // ----- as many calls as needed -----

  ghost function Before(plan: seq<BattleRow>, t: Tables, m: nat): set<nat> {
    set i: nat | i < m && Waits(plan, t, i)
  }

  /** Everything effective before `m` is done, and nothing else that was not. */
  ghost predicate DoneUpTo(plan: seq<BattleRow>, t: Tables, d: Tables, m: nat) {
    forall i :: 0 <= i < |plan| ==> (Done(d, plan, i) <==> Done(t, plan, i) || (i < m && Effectful(plan[i])))
  }

  lemma OneLess(plan: seq<BattleRow>, t: Tables, t': Tables, m: nat, x: nat)
    requires x < m && Waits(plan, t, x) && OnlyAdds(plan, t, t', x)
    ensures x in Before(plan, t, m) && Before(plan, t', m) == Before(plan, t, m) - {x}
    ensures forall i: nat :: i < |plan| ==> (Waits(plan, t', i) <==> Waits(plan, t, i) && i != x)
    ensures forall d :: DoneUpTo(plan, t', d, m) ==> DoneUpTo(plan, t, d, m)
  {
    hide Done, Effectful;
  }

  lemma SameHonest(curve: Curve, plan: seq<BattleRow>, t: Tables, t': Tables, i: nat)
    requires t'.battles == t.battles && i < |plan| && (Waits(plan, t', i) ==> Waits(plan, t, i))
    ensures Honest(curve, plan, t, i) ==> Honest(curve, plan, t', i)
    ensures Waits(plan, t', i) ==> (Honest(curve, plan, t', i) <==> Honest(curve, plan, t, i))
  {
    hide Waits;
  }

  lemma CallKeepsSettled(curve: Curve, plan: seq<BattleRow>, t: Tables)
    requires Settled(curve, plan, t)
    ensures Settled(curve, plan, Worker(curve, t).0)
    ensures Worker(curve, t).0.battles == t.battles
  {
    hide Season, Inv, Worker;
    WorkerInv(curve, plan, t);
    WorkerKeepsBattles(curve, t);
  }

  /** If nothing before `m` is dishonest, as many calls as Battles wait there apply exactly those, as
      long as the list ends at `m` or the Battle there is dishonest. */
  lemma {:induction false} DrainUpTo(curve: Curve, plan: seq<BattleRow>, t: Tables, m: nat, calls: nat)
    requires Settled(curve, plan, t) && m <= |plan| && forall i: nat :: i < m ==> Honest(curve, plan, t, i)
    requires m < |plan| ==> Waits(plan, t, m) && !Honest(curve, plan, t, m)
    requires |Before(plan, t, m)| <= calls
    ensures var d := Drain(curve, t, calls);
            && Settled(curve, plan, d) && DoneUpTo(plan, t, d, m)
            && Worker(curve, d) == (d, if m < |plan| then Err(SnapshotMismatch) else Ok(None))
    decreases calls
  {
    hide Settled, Worker, HonestAt, Effectful, Done;
    if i: nat :| i < m && Waits(plan, t, i) {
      var x := FindNext(plan, t, i);
      var t' := Worker(curve, t).0;
      WorkerTakesNext(curve, plan, t, x);
      CallKeepsSettled(curve, plan, t);
      OneLess(plan, t, t', m, x);
      forall i: nat | i < m ensures Honest(curve, plan, t', i) { SameHonest(curve, plan, t, t', i); }
      if m < |plan| { SameHonest(curve, plan, t, t', m); }
      hide OnlyAdds, DoneUpTo, Before;
      DrainUpTo(curve, plan, t', m, calls - 1);
    } else {
      forall i | 0 <= i < m && Effectful(plan[i]) ensures Done(t, plan, i) { assert !Waits(plan, t, i); }
      if m < |plan| { WorkerTakesNext(curve, plan, t, m); } else { NothingWaits(curve, plan, t); }
      DrainIdle(curve, t, calls);
    }
  }

  lemma BeforeBound(plan: seq<BattleRow>, t: Tables, m: nat)
    requires m <= |plan|
    ensures |Before(plan, t, m)| + |DoneSet(t, plan)| <= |plan|
  {
    hide Done, Effectful;
    assert Before(plan, t, m) !! DoneSet(t, plan);
    IndexSetSize(Before(plan, t, m) + DoneSet(t, plan), |plan|);
  }

  /** The first waiting Battle with a dishonest snapshot. */
  ghost predicate FirstDishonest(curve: Curve, plan: seq<BattleRow>, t: Tables, m: nat) {
    m < |plan| && !Honest(curve, plan, t, m) && forall i: nat :: i < m ==> Honest(curve, plan, t, i)
  }

  /** The calls stop there for good: everything before it is applied, nothing waiting from it on, and
      every later call fails and changes nothing. */
  lemma DrainStops(curve: Curve, plan: seq<BattleRow>, t: Tables, m: nat, calls: nat)
    requires Settled(curve, plan, t) && FirstDishonest(curve, plan, t, m)
    requires |DoneSet(t, plan)| + calls >= |plan|
    ensures var d := Drain(curve, t, calls);
            DoneUpTo(plan, t, d, m) && !Done(d, plan, m) && Worker(curve, d) == (d, Err(SnapshotMismatch))
  {
    hide Settled, Worker, HonestAt, Effectful, Done, DoneSet, Before, Drain;
    BeforeBound(plan, t, m);
    DrainUpTo(curve, plan, t, m, calls);
  }

  lemma {:induction false} FindDishonest(curve: Curve, plan: seq<BattleRow>, t: Tables, k: nat) returns (m: nat)
    requires k < |plan| && !Honest(curve, plan, t, k)
    ensures FirstDishonest(curve, plan, t, m)
  {
    hide Honest;
    if j: nat :| j < k && !Honest(curve, plan, t, j) {
      m := FindDishonest(curve, plan, t, j);
    } else {
      m := k;
    }
  }

  lemma NotDoneNotFold(curve: Curve, plan: seq<BattleRow>, t: Tables, i: nat)
    requires Season(plan) && i < |plan| && Effectful(plan[i]) && !Done(t, plan, i)
    ensures !SameLog(curve, plan, t)
  {
    SeasonRow(plan, i);
    EventsShape(curve, plan[i], FoldRow(curve, plan, i, plan[i].playerA), FoldRow(curve, plan, i, plan[i].playerB));
  }

  /** With everything final, as many calls as Battles are left reach the sequential ledger if and only
      if every waiting Battle's snapshots are those of the sequential pass. */
  lemma DrainReachesExactly(curve: Curve, plan: seq<BattleRow>, t: Tables, calls: nat)
    requires Settled(curve, plan, t) && |DoneSet(t, plan)| + calls >= |plan|
    ensures var d := Drain(curve, t, calls);
            AllHonest(curve, plan, t) <==> d.ratings == FoldRatings(curve, plan, |plan|) && SameLog(curve, plan, d)
  {
    hide Inv, Season, AllFinal, Worker, HonestAt, Effectful, Done, DoneSet, Before, Drain, FoldRatings, SameLog;
    var d := Drain(curve, t, calls);
    if AllHonest(curve, plan, t) {
      BeforeBound(plan, t, |plan|);
      DrainUpTo(curve, plan, t, |plan|, calls);
      assert AllDone(plan, d);
      DoneIsFold(curve, plan, d);
    } else {
      var k: nat :| k < |plan| && !Honest(curve, plan, t, k);
      var m := FindDishonest(curve, plan, t, k);
      DrainStops(curve, plan, t, m, calls);
      NotDoneNotFold(curve, plan, d, m);
    }
  }
}
