/** The promises of queueing, matchmaking, League membership and coordinator confirmation, over
    whole runs. */
module ObligationResults {
  import opened Wrappers
  import opened Sequences
  import opened Tables
  import opened LeagueInvariants
  import opened RankedInvariants
  import opened LeaguePairingInvariants
  import opened ObligationRuns
  import opened ObligationTheorems
  import R = RankedOperations

  // ----- every run -----

  lemma {:induction false} RunKeeps(db: Db, events: seq<Event>)
    requires Inv(db) && Legal(db, events)
    ensures Inv(Run(db, events))
  {
    hide Inv, After, Possible;
    if events != [] {
      var init, last := events[..|events| - 1], events[|events| - 1];
      RunKeeps(db, init);
      StepKeeps(Run(db, init), last.step, last.now);
    }
  }

  /** An exposure, once written, is never changed or removed: a wallet is bound to at most one
      Battle of a round for good. */
  lemma {:induction false} ExposuresAreWriteOnce(db: Db, events: seq<Event>)
    requires Inv(db) && Legal(db, events)
    ensures SubMap(db.exposures, Run(db, events).exposures)
  {
    hide Inv, After, Possible;
    if events != [] {
      var init, last := events[..|events| - 1], events[|events| - 1];
      ExposuresAreWriteOnce(db, init);
      RunKeeps(db, init);
      StepWritesOnce(Run(db, init), last.step, last.now);
    }
  }

  lemma StepWritesOnce(db: Db, step: Step, now: int)
    requires Inv(db) && Possible(db, step)
    ensures SubMap(db.exposures, After(db, step, now).exposures)
    ensures PairingsContinue(db.pairings, After(db, step, now).pairings, db.nextRun, db.exposures)
  {
    hide Inv, RankedInv, After, SubMap, PairingsContinue;
    InvParts(db);
    StepSettled(db, step, now, QueueRound(step) + 1);
  }

  // ----- the two modes never collide -----

  lemma ApartIn(db: Db, j: (RoundId, Wallet), k: (RoundId, Wallet))
    requires LeagueInv(db) && j in db.queue && k in db.reservations && LiveEntry(db.queue[j])
             && LiveReservation(db.reservations[k])
    requires j.1 == k.1
    ensures Apart(WindowsOf(db), j.0, k.0)
  {
    hide WindowsOf, WindowsOrdered, SchedulesApart, Lockstep, ReservedApart, WithinCapacity;
  }

  lemma StandsIn(db: Db, id: nat)
    requires RankedInv(db) && id in db.pairings
    ensures PairingStands(db.queue, db.runs, WindowsOf(db), db.nextPairing, id, db.pairings[id])
  {
    hide QuietBeforeRun, RunKeys, PairingsApart, EntriesPaired, PairingStands;
  }

  /** A queued wallet has no overlapping League reservation, so the matchmaker's own check for one
      never blocks anybody. */
  lemma ReservationCheckNeverFires(db: Db, round: RoundId, w: Wallet)
    requires Inv(db) && Entry(db.queue, round, w, Queued)
    ensures !HasLeagueReservation(db, round, w)
  {
    hide Inv, LeagueInv, RankedInv, ExposureInv, PairedInv;
    InvParts(db);
    if HasLeagueReservation(db, round, w) {
      var k :| k in db.reservations && k.1 == w && LiveReservation(db.reservations[k])
        && RoundOverlaps(db, k.0, db.rounds[round].window);
      ApartIn(db, (round, w), k);
    }
  }

  /** A Ranked pairing, pending or created, never overlaps a live League reservation of either
      player. */
  lemma PairingsClearOfReservations(db: Db, id: nat, k: (RoundId, Wallet))
    requires Inv(db) && id in db.pairings && k in db.reservations && LiveReservation(db.reservations[k])
    requires db.pairings[id].Has(k.1)
    ensures Apart(WindowsOf(db), db.pairings[id].round, k.0)
  {
    hide Inv, LeagueInv, RankedInv, ExposureInv, PairedInv, WindowsOf;
    InvParts(db);
    StandsIn(db, id);
    ApartIn(db, (db.pairings[id].round, k.1), k);
  }

  ghost predicate CreatedFor(db: Db, mode: Mode, id: nat, round: RoundId, w: Wallet) {
    var table := if mode == Ranked then db.pairings else db.leaguePairings;
    id in table && table[id].status == Created && table[id].round == round && table[id].Has(w)
  }

  /** Across both modes a wallet has at most one created pairing in a Market Round. */
  lemma OneCreatedPairing(db: Db, round: RoundId, w: Wallet, mode: Mode, id: nat, mode': Mode, id': nat)
    requires Inv(db) && CreatedFor(db, mode, id, round, w) && CreatedFor(db, mode', id', round, w)
    ensures mode == mode' && id == id'
  {
    InvParts(db);
    var p := if mode == Ranked then db.pairings[id] else db.leaguePairings[id];
    var p' := if mode' == Ranked then db.pairings[id'] else db.leaguePairings[id'];
    assert Exposed(p, id, mode, db.battles, db.exposures);
    assert Exposed(p', id', mode', db.battles, db.exposures);
  }

  /** Ranked and League pairing ids come from separate sequences but name the Battle account alone:
      of two pairings with one id in one round, at most one can ever be created. */
  lemma SharedAddressExcludes(db: Db, id: nat)
    requires Inv(db) && id in db.pairings && id in db.leaguePairings
             && db.pairings[id].round == db.leaguePairings[id].round
    ensures !(db.pairings[id].status == Created && db.leaguePairings[id].status == Created)
  {
    InvParts(db);
    assert Exposed(db.pairings[id], id, Ranked, db.battles, db.exposures);
    assert Exposed(db.leaguePairings[id], id, LeagueMode, db.battles, db.exposures);
  }

  // ----- confirmation -----

  /** A repeated confirmation succeeds and changes nothing; one for another Battle is refused. */
  lemma ConfirmationRepeats(db: Db, id: nat, address: BattleAddress, other: BattleAddress)
    requires R.Confirmed(db, id, address).result.Ok?
    ensures var d := R.Confirmed(db, id, address).db;
            && R.Confirmed(d, id, address) == Outcome(d, Ok(()))
            && (other != address ==> R.Confirmed(d, id, other) == Outcome(d, Err(R.CoordinatorConflict)))
  {
    hide R.Marked;
  }

  /** A pending Ranked pairing of a consistent state can be confirmed exactly when its round has
      an on-chain address, the Battle row under its address is absent or its own, and neither
      wallet has an exposure row yet. */
  lemma ConfirmableExactly(db: Db, id: nat)
    requires Inv(db) && id in db.pairings && db.pairings[id].status == PendingCoordinator
    ensures var p := db.pairings[id];
            R.Confirmed(db, id, BattleAddress(p.round, id)).result.Ok?
            <==> db.rounds[p.round].chain != NoAddress && (p.round, p.a) !in db.exposures
                 && (p.round, p.b) !in db.exposures
                 && BattleRowFits(db, BattleAddress(p.round, id), BattleRow(p.round, p.a, p.b, Ranked))
  {
    hide Inv, LeagueInv, RankedInv, ExposureInv, PairedInv, R.Marked, Entry;
    InvParts(db);
    StandsIn(db, id);
  }

  /** If the indexer stores a player's exposure before the coordinator's confirmation arrives, even
      for the pairing's own Battle, the pairing is never confirmed: it stays pending in every
      continuation. */
  lemma {:induction false} EarlyExposureStrandsPairing(db: Db, events: seq<Event>, id: nat)
    requires Inv(db) && Legal(db, events) && id in db.pairings && db.pairings[id].status == PendingCoordinator
    requires (db.pairings[id].round, db.pairings[id].a) in db.exposures
             || (db.pairings[id].round, db.pairings[id].b) in db.exposures
    ensures id in Run(db, events).pairings && Run(db, events).pairings[id] == db.pairings[id]
  {
    hide Inv, After, Possible;
    if events != [] {
      var init, last := events[..|events| - 1], events[|events| - 1];
      EarlyExposureStrandsPairing(db, init, id);
      ExposuresAreWriteOnce(db, init);
      RunKeeps(db, init);
      var before := Run(db, init);
      StepWritesOnce(before, last.step, last.now);
      assert Continues(before.pairings[id], Run(db, events).pairings[id], id, before.exposures);
    }
  }

  // ----- the matchmaker -----

  /** A run leaves nobody of its round queued or half-way. */
  lemma RunEmptiesQueue(db: Db, h: R.History, round: RoundId, k: (RoundId, Wallet))
    requires RankedInv(db) && round in db.rounds && (round, db.rounds[round].window.close) !in db.runs
    requires k.0 == round && k in R.FreshRun(db, h, round).db.queue
    ensures var status := R.FreshRun(db, h, round).db.queue[k].status;
            status == Matched || status == Unmatched || status == Blocked || status == CancelledEntry
  {
    QueueAfterRun(db, h, round);
    assert !RunHeld(db.runs, WindowsOf(db), round);
    hide R.FreshRun, R.PlanOf, R.DuelWallets;
  }

  lemma FreshIds(pairings: Pairings, next: nat, run: nat, round: RoundId, duels: seq<Duel>)
    requires forall i :: i in pairings ==> i < next && pairings[i].run != run
    ensures Ascending(R.RunIds(Inserted(pairings, next, run, round, duels), run)) == seq(|duels|, (k: nat) => next + k)
  {
    var t, ids := Inserted(pairings, next, run, round, duels), seq(|duels|, (k: nat) => next + k);
    InsertedMeaning(pairings, next, run, round, duels);
    hide Inserted;
    AscendingMeaning(R.RunIds(t, run));
    forall i: nat ensures i in Ascending(R.RunIds(t, run)) <==> i in ids {
      if next <= i < next + |duels| { assert ids[i - next] == i; }
    }
    AscendingUnique(Ascending(R.RunIds(t, run)), ids);
  }

  lemma FreshViews(pairings: Pairings, next: nat, run: nat, round: RoundId, duels: seq<Duel>)
    requires forall i :: i in pairings ==> i < next && pairings[i].run != run
    ensures R.Views(Inserted(pairings, next, run, round, duels), run) == R.NewViews(next, run, round, duels)
  {
    FreshIds(pairings, next, run, round, duels);
    InsertedMeaning(pairings, next, run, round, duels);
    hide Inserted, R.RunIds;
    var v := R.Views(Inserted(pairings, next, run, round, duels), run);
    forall k | 0 <= k < |duels| ensures v[k] == R.NewViews(next, run, round, duels)[k] {
    }
  }

  /** What a run planned is what the queue then shows. */
  lemma PlanShown(q: Queue, q': Queue, round: RoundId, plan: R.MatchPlan, w: Wallet)
    requires FreshQueue(q, q', round, plan) && PlanSplits(plan, QueuedIn(q, round))
    ensures w in WalletsShown(q', round, Unmatched) <==> w in plan.unmatched
    ensures w in WalletsShown(q', round, Blocked) <==> w in plan.blocked
  {
    ShownMeaning(q', round, w, Unmatched);
    ShownMeaning(q', round, w, Blocked);
    QueuedInMeaning(q, round, w);
    assert (round, w).0 == round;
    assert w in plan.unmatched <==> w in R.SetOf(plan.unmatched);
    assert w in plan.blocked <==> w in R.SetOf(plan.blocked);
    hide R.DuelWallets, DuelsApart;
  }

  lemma StoredAsPlanned(q: Queue, q': Queue, round: RoundId, plan: R.MatchPlan)
    requires FreshQueue(q, q', round, plan) && PlanSplits(plan, QueuedIn(q, round))
    ensures Ascending(WalletsShown(q', round, Unmatched)) == plan.unmatched
    ensures Ascending(WalletsShown(q', round, Blocked)) == plan.blocked
  {
    assert IsAscending(plan.unmatched) && IsAscending(plan.blocked);
    hide FreshQueue, PlanSplits, IsAscending;
    AscendingMeaning(WalletsShown(q', round, Unmatched));
    AscendingMeaning(WalletsShown(q', round, Blocked));
    forall w: Wallet
      ensures w in Ascending(WalletsShown(q', round, Unmatched)) <==> w in plan.unmatched
      ensures w in Ascending(WalletsShown(q', round, Blocked)) <==> w in plan.blocked
    {
      PlanShown(q, q', round, plan, w);
    }
    AscendingUnique(Ascending(WalletsShown(q', round, Unmatched)), plan.unmatched);
    AscendingUnique(Ascending(WalletsShown(q', round, Blocked)), plan.blocked);
  }

  /** A retry straight after a run returns exactly what the run returned. */
  lemma FreshRunIsStored(db: Db, h: R.History, round: RoundId)
    requires RankedInv(db) && round in db.rounds && (round, db.rounds[round].window.close) !in db.runs
    ensures var o := R.FreshRun(db, h, round);
            o.result == Ok(R.StoredRun(o.db, db.nextRun, round))
  {
    var plan, d := R.PlanOf(db, h, round), R.FreshRun(db, h, round).db;
    OldRuns(db);
    LooseBefore(db, round);
    hide R.Admitted, R.Marked, R.PlanOf, RankedInv, QueueSettled, Inserted, R.NewViews, R.Views, PlanSplits,
      R.DuelWallets, R.SetOf;
    QueueAfterRun(db, h, round);
    PlanPartition(db, h, round);
    StoredRunAsPlanned(db, d, round, plan);
    FreshViews(db.pairings, db.nextPairing, db.nextRun, round, plan.duels);
  }

  lemma StoredRunAsPlanned(db: Db, d: Db, round: RoundId, plan: R.MatchPlan)
    requires FreshQueue(db.queue, d.queue, round, plan) && PlanSplits(plan, R.WalletsWith(db, round, Queued))
    ensures Ascending(R.WalletsWith(d, round, Unmatched)) == plan.unmatched
    ensures Ascending(R.WalletsWith(d, round, Blocked)) == plan.blocked
  {
    assert R.WalletsWith(db, round, Queued) == QueuedIn(db.queue, round);
    assert R.WalletsWith(d, round, Unmatched) == WalletsShown(d.queue, round, Unmatched);
    assert R.WalletsWith(d, round, Blocked) == WalletsShown(d.queue, round, Blocked);
    hide FreshQueue, PlanSplits;
    StoredAsPlanned(db.queue, d.queue, round, plan);
  }

  lemma OldRuns(db: Db)
    requires RankedInv(db)
    ensures forall i :: i in db.pairings ==> i < db.nextPairing && db.pairings[i].run != db.nextRun
  {
    forall i | i in db.pairings ensures i < db.nextPairing && db.pairings[i].run != db.nextRun {
      assert PairingStands(db.queue, db.runs, WindowsOf(db), db.nextPairing, i, db.pairings[i]);
    }
  }

  lemma LooseBefore(db: Db, round: RoundId)
    requires RankedInv(db) && round in db.rounds && (round, db.rounds[round].window.close) !in db.runs
    ensures forall k :: k in db.queue && k.0 == round ==> Loose(db.queue[k].status)
  {
    assert !RunHeld(db.runs, WindowsOf(db), round);
  }

  /** However long after a round's run, and whatever happened since, the stored run and what it
      decided are the same. */
  lemma {:induction false} DecisionIsFinal(db: Db, events: seq<Event>, t: int, round: RoundId)
    requires Inv(db) && Legal(db, events) && Closed(db, t) && Timed(events, t) && RunHeld(db.runs, WindowsOf(db), round)
    ensures var d, key := Run(db, events), (round, db.rounds[round].window.close);
            && round in d.rounds && d.rounds[round].window == db.rounds[round].window
            && key in d.runs && d.runs[key] == db.runs[key]
            && DecisionOf(R.StoredRun(d, d.runs[key], round)) == DecisionOf(R.StoredRun(db, db.runs[key], round))
    ensures Closed(Run(db, events), if events == [] then t else events[|events| - 1].now)
  {
    hide Inv, After, Possible, Closed, DecisionOf, R.StoredRun;
    if events != [] {
      var init, last := events[..|events| - 1], events[|events| - 1];
      DecisionIsFinal(db, init, t, round);
      RunKeeps(db, init);
      var from := if init == [] then t else init[|init| - 1].now;
      StepIsFinal(Run(db, init), last.step, last.now, from, round);
    }
  }

  lemma StepIsFinal(db: Db, step: Step, now: int, t: int, round: RoundId)
    requires Inv(db) && Possible(db, step) && Closed(db, t) && t <= now && RunHeld(db.runs, WindowsOf(db), round)
    ensures var d, key := After(db, step, now), (round, db.rounds[round].window.close);
            && round in d.rounds && d.rounds[round].window == db.rounds[round].window
            && key in d.runs && d.runs[key] == db.runs[key]
            && DecisionOf(R.StoredRun(d, d.runs[key], round)) == DecisionOf(R.StoredRun(db, db.runs[key], round))
    ensures Closed(After(db, step, now), now)
  {
    InvParts(db);
    var d, key := After(db, step, now), (round, db.rounds[round].window.close);
    HeldIsClosed(db, round, t);
    assert db.runs[key] < db.nextRun by { assert RunKeys(db.runs, WindowsOf(db), db.nextRun); }
    hide Inv, RankedInv, After, Closed, Possible, RunHeld, DecisionOf, R.StoredRun;
    assert Finished(db, round, now);
    StepSettled(db, step, now, round);
    StepStaysClosed(db, step, now, t);
    DecisionKept(db, d, round, db.runs[key], now);
    assert SameWindow(db, d, round);
  }

  /** A later matchmaker call for the round adds no rows and reports the same run and decision. */
  lemma RetryIsIdentical(db: Db, events: seq<Event>, t: int, round: RoundId, h: R.History, now: int)
    requires Inv(db) && Legal(db, events) && Closed(db, t) && Timed(events, t) && RunHeld(db.runs, WindowsOf(db), round)
    requires R.MatchmakerFault(Run(db, events), round, now).None?
    ensures var d, run := Run(db, events), db.runs[(round, db.rounds[round].window.close)];
            var o := R.MatchmakerRun(d, h, round, now);
            && o.db == d && o.result.Ok? && o.result.value.id == run
            && DecisionOf(o.result.value) == DecisionOf(R.StoredRun(db, run, round))
  {
    hide Inv, Closed, DecisionOf, R.MatchmakerFault;
    DecisionIsFinal(db, events, t, round);
  }
}
