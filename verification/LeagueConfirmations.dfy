/** Confirmation of League pairings over whole runs (backend/src/league.rs): the same repeat, the same
    exact condition and the same stranding as for Ranked pairings. */
module LeagueConfirmations {
  import opened Wrappers
  import opened Tables
  import opened LeagueInvariants
  import opened RankedInvariants
  import opened LeaguePairingInvariants
  import opened ObligationRuns
  import opened ObligationTheorems
  import opened ObligationResults
  import L = LeagueOperations
  import B = LeagueBattles
  import R = RankedOperations
  import Swiss = SwissPairing

  // ----- what the League pairing rows keep -----

  /** The round of the pairing is stored, and a pending pairing names no Battle yet. */
  ghost predicate Stands(rounds: map<RoundId, MarketRound>, i: nat, p: Pairing) {
    i >= 1 && p.round in rounds && p.a != p.b && (p.status == PendingCoordinator ==> p.battle == None)
  }

  ghost predicate PairingsStored(rounds: map<RoundId, MarketRound>, pairings: Pairings, next: nat) {
    next >= 1 && forall i :: i in pairings ==> Stands(rounds, i, pairings[i])
  }

  ghost predicate Stored(db: Db) { PairingsStored(db.rounds, db.leaguePairings, db.nextLeaguePairing) }

  /** The step does not touch League pairings. */
  ghost predicate Untouched(db: Db, d: Db) {
    && d.leaguePairings == db.leaguePairings && d.nextLeaguePairing == db.nextLeaguePairing
    && forall r :: r in db.rounds ==> r in d.rounds
  }

  /** Stored pairings are unchanged, or were just created by wallets not exposed before. */
  ghost predicate Moves(db: Db, d: Db) {
    forall i :: i in db.leaguePairings ==>
      i in d.leaguePairings && Continues(db.leaguePairings[i], d.leaguePairings[i], i, db.exposures)
  }

  lemma UntouchedMoves(db: Db, d: Db)
    requires Stored(db) && Untouched(db, d)
    ensures Stored(d) && Moves(db, d)
  {
    forall i | i in d.leaguePairings ensures Stands(d.rounds, i, d.leaguePairings[i]) {
      assert Stands(db.rounds, i, db.leaguePairings[i]);
    }
  }

  lemma JoinUntouched(db: Db, league: LeagueId, w: Wallet, now: int)
    ensures Untouched(db, L.JoinRequested(db, league, w, now).db)
  {
    hide L.JoinFault, L.Reserve, L.ExpiredMemberships, L.ExpiredReservations, L.JoinedMembership, ScheduleOf;
    if L.JoinRequested(db, league, w, now).result.Ok? {
      JoinReserves(L.Expired(db, now), league, w, now);
    }
  }

  lemma AssignUntouched(db: Db, league: LeagueId, es: seq<L.Entry>, now: int)
    ensures Untouched(db, L.Assigned(db, league, es, now).db)
  {
    hide Untouched, L.AssignFault, L.AsSlots;
    NothingUntouched(db);
    WithSchedules(db, db.schedules[league := L.AsSlots(es)]);
  }

  lemma ExpiryUntouched(db: Db, now: int)
    ensures Untouched(db, L.Expired(db, now))
  {
    hide L.ExpiredMemberships, L.ExpiredReservations;
  }

  lemma TransitionUntouched(db: Db, league: LeagueId, w: Wallet, state: MembershipState, now: int,
                            from: set<ReservationStatus>,
                            to: ReservationStatus)
    requires (league, w) in db.memberships
    ensures Untouched(db, L.Transitioned(db, league, w, state, now, from, to))
  {
    hide L.MemberSet, L.Retag;
  }

  lemma JoinSeenUntouched(db: Db, league: LeagueId, w: Wallet, matches: bool, now: int)
    ensures Untouched(db, L.JoinConfirmed(db, league, w, matches, now).db)
  {
    hide L.Transitioned, Untouched;
    NothingUntouched(db);
    forall state, from, to | (league, w) in db.memberships
      ensures Untouched(db, L.Transitioned(db, league, w, state, now, from, to))
    {
      TransitionUntouched(db, league, w, state, now, from, to);
    }
  }

  lemma LeaveAskedUntouched(db: Db, league: LeagueId, w: Wallet, now: int)
    ensures Untouched(db, L.LeaveRequested(db, league, w, now).db)
  {
    hide L.Transitioned, Untouched;
    NothingUntouched(db);
    forall state, from, to | (league, w) in db.memberships
      ensures Untouched(db, L.Transitioned(db, league, w, state, now, from, to))
    {
      TransitionUntouched(db, league, w, state, now, from, to);
    }
  }

  lemma LeaveSeenUntouched(db: Db, league: LeagueId, w: Wallet, now: int)
    ensures Untouched(db, L.LeaveConfirmed(db, league, w, now).db)
  {
    hide L.Transitioned, Untouched;
    NothingUntouched(db);
    forall state, from, to | (league, w) in db.memberships
      ensures Untouched(db, L.Transitioned(db, league, w, state, now, from, to))
    {
      TransitionUntouched(db, league, w, state, now, from, to);
    }
  }

  lemma NothingUntouched(db: Db)
    ensures Untouched(db, db)
  {
  }

  lemma WithSchedules(db: Db, schedules: Schedules)
    ensures Untouched(db, db.(schedules := schedules))
  {
  }

  lemma WithQueue(db: Db, queue: Queue)
    ensures Untouched(db, db.(queue := queue))
  {
  }

  lemma WithExposures(db: Db, exposures: Exposures)
    ensures Untouched(db, db.(exposures := exposures))
  {
  }

  lemma QueueJoinUntouched(db: Db, w: Wallet, round: RoundId, now: int, unresolved: bool)
    ensures Untouched(db, R.Joined(db, w, round, now, unresolved).db)
  {
    hide Untouched, R.JoinFault, R.StillQueued;
    NothingUntouched(db);
    WithQueue(db, db.queue[(round, w) := QueueRow(Queued, None)]);
  }

  lemma QueueLeaveUntouched(db: Db, w: Wallet, round: RoundId, now: int)
    ensures Untouched(db, R.LeftQueue(db, w, round, now).db)
  {
    hide Untouched, R.LoadFault;
    NothingUntouched(db);
    if (round, w) in db.queue {
      WithQueue(db, db.queue[(round, w) := db.queue[(round, w)].(status := CancelledEntry)]);
    }
  }

  lemma FreshRunUntouched(db: Db, h: R.History, round: RoundId)
    requires round in db.rounds
    ensures Untouched(db, R.FreshRun(db, h, round).db)
  {
    hide R.PlanOf, R.Admitted, R.Marked, R.QueuedWallets, R.NewViews, Inserted;
  }

  lemma MatchmakerUntouched(db: Db, h: R.History, round: RoundId, now: int)
    ensures Untouched(db, R.MatchmakerRun(db, h, round, now).db)
  {
    hide R.MatchmakerFault, R.StoredRun, R.FreshRun, Untouched;
    NothingUntouched(db);
    if R.MatchmakerFault(db, round, now).None? {
      R.FaultMeansKnown(db, round, now);
      FreshRunUntouched(db, h, round);
    }
  }

  lemma ExposureUntouched(db: Db, round: RoundId, w: Wallet, address: BattleAddress)
    ensures Untouched(db, B.ExposureIndexed(db, round, w, address).db)
  {
    hide Untouched;
    NothingUntouched(db);
    WithExposures(db, db.exposures[(round, w) := address]);
  }

  lemma RankedConfirmUntouched(db: Db, id: nat, address: BattleAddress)
    ensures Untouched(db, R.Confirmed(db, id, address).db)
  {
    hide Materialize, R.Marked, Untouched;
    NothingUntouched(db);
    if id in db.pairings && Materialize(db, db.pairings[id], address, Ranked).Some? {
      MaterializeGrows(db, db.pairings[id], address, Ranked);
      var d := Materialize(db, db.pairings[id], address, Ranked).value;
      var p := db.pairings[id];
      CreatedUntouched(db, d, d.pairings[id := p.(battle := Some(address), status := Created)],
                       R.Marked(d.queue, p.round, {p.a, p.b}, BattleCreated));
    }
  }

  lemma CreatedUntouched(db: Db, d: Db, pairings: Pairings, queue: Queue)
    requires d == db.(battles := d.battles, exposures := d.exposures)
    ensures Untouched(db, d.(pairings := pairings, queue := queue))
  {
  }

  lemma WithRounds(db: Db, rounds: map<RoundId, MarketRound>)
    requires forall r :: r in db.rounds ==> r in rounds
    ensures Untouched(db, db.(rounds := rounds))
  {
  }

  lemma WithLeagues(db: Db, leagues: map<LeagueId, League>)
    ensures Untouched(db, db.(leagues := leagues))
  {
  }

  lemma WithBattles(db: Db, battles: Battles)
    ensures Untouched(db, db.(battles := battles))
  {
  }

  lemma RegisteredUntouched(db: Db, step: Step, now: int)
    requires step.RoundIndexed? || step.LeagueRegistered? || step.LeagueReconciled? || step.BattleIndexed?
    ensures Untouched(db, After(db, step, now))
  {
    hide Untouched;
    NothingUntouched(db);
    match step {
      case RoundIndexed(round, row) => WithRounds(db, db.rounds[round := row]);
      case LeagueRegistered(league, terms) => WithLeagues(db, db.leagues[league := terms]);
      case LeagueReconciled(league, status, currentRound) =>
        if league in db.leagues {
          WithLeagues(db, db.leagues[league := db.leagues[league].(status := status, currentRound := currentRound)]);
        }
      case BattleIndexed(address, battle) => WithBattles(db, db.battles[address := battle]);
    }
  }

  lemma OthersUntouched(db: Db, step: Step, now: int)
    requires Possible(db, step) && !step.RoundPaired? && !step.LeagueConfirmed?
    ensures Untouched(db, After(db, step, now))
  {
    hide Untouched, L.Assigned, L.JoinRequested, L.JoinConfirmed, L.LeaveRequested, L.LeaveConfirmed, L.Expired,
      R.Joined, R.LeftQueue,
      R.MatchmakerRun, R.Confirmed, B.ExposureIndexed;
    match step {
      case ScheduleAssigned(league, entries) => AssignUntouched(db, league, entries, now);
      case JoinAsked(league, w) => JoinUntouched(db, league, w, now);
      case JoinSeen(league, w, matches) => JoinSeenUntouched(db, league, w, matches, now);
      case LeaveAsked(league, w) => LeaveAskedUntouched(db, league, w, now);
      case LeaveSeen(league, w) => LeaveSeenUntouched(db, league, w, now);
      case JoinsExpired => ExpiryUntouched(db, now);
      case QueueJoined(w, round, unresolved) => QueueJoinUntouched(db, w, round, now, unresolved);
      case QueueLeft(w, round) => QueueLeaveUntouched(db, w, round, now);
      case MatchmakerRan(history, round) => MatchmakerUntouched(db, history, round, now);
      case ExposureSeen(round, w, address) => ExposureUntouched(db, round, w, address);
      case RankedConfirmed(id, address) => RankedConfirmUntouched(db, id, address);
      case _ => RegisteredUntouched(db, step, now);
    }
  }

  lemma RunStoredStands(db: Db, league: LeagueId, no: int, round: RoundId, bye: Option<Wallet>, duels: seq<Duel>,
                        now: int)
    requires Stored(db) && PairedInv(db) && round in db.rounds && DuelsApart(duels)
    ensures var d := B.RunStored(db, league, no, round, bye, duels, now); Stored(d) && Moves(db, d)
  {
    hide B.WithBye, Inserted;
    assert forall i :: i in db.leaguePairings ==>
             PairingKnown(i, db.leaguePairings[i], db.nextLeaguePairing, db.nextLeagueRun);
    InsertedMeaning(db.leaguePairings, db.nextLeaguePairing, db.nextLeagueRun, round, duels);
    var d := B.RunStored(db, league, no, round, bye, duels, now);
    forall i | i in d.leaguePairings ensures Stands(d.rounds, i, d.leaguePairings[i]) {
      if i in db.leaguePairings { assert Stands(db.rounds, i, db.leaguePairings[i]); }
    }
  }

  lemma RoundPairedStands(db: Db, league: LeagueId, no: int, blockTime: int, now: int, f: B.Facts, tie: Swiss.TieKeys)
    requires Stored(db) && PairedInv(db)
    ensures var d := B.PairingsCreated(db, league, no, blockTime, now, f, tie).db; Stored(d) && Moves(db, d)
  {
    hide B.Candidates, Swiss.PlanSwiss, B.DuelsOf, B.ByeWallet, B.RunStored, B.PairingFault, B.FindSlot, Stored,
      PairedInv;
    UntouchedMoves(db, db);
    if B.PairingsCreated(db, league, no, blockTime, now, f, tie).result.Ok? && (league, no) !in db.leagueRuns {
      var players := B.Candidates(db, league, f);
      var plan := Swiss.PlanSwiss(players, tie).value;
      var round := B.FindSlot(ScheduleOf(db, league), no).value;
      FaultFreeRound(db, league, no, blockTime, now, f);
      CandidatesDistinct(db, league, f);
      LeagueDuelsApart(players, tie);
      RunStoredStands(db, league, no, round, B.ByeWallet(players, plan.bye), B.DuelsOf(players, plan.pairs), now);
    }
  }

  lemma FaultFreeRound(db: Db, league: LeagueId, no: int, blockTime: int, now: int, f: B.Facts)
    requires league in db.leagues && B.PairingFault(db, league, no, blockTime, now, f).None?
    ensures var slot := B.FindSlot(ScheduleOf(db, league), no); slot.Some? && slot.value in db.rounds
  {
    hide B.FindSlot, B.Candidates, B.PreviousResolved;
  }

  lemma LeagueConfirmStands(db: Db, id: nat, address: BattleAddress)
    requires Stored(db)
    ensures var d := B.Confirmed(db, id, address).db; Stored(d) && Moves(db, d)
  {
    hide Materialize;
    UntouchedMoves(db, db);
    var d := B.Confirmed(db, id, address).db;
    if d != db {
      MaterializeGrows(db, db.leaguePairings[id], address, LeagueMode);
      forall i | i in d.leaguePairings ensures Stands(d.rounds, i, d.leaguePairings[i]) {
        assert Stands(db.rounds, i, db.leaguePairings[i]);
      }
    }
  }

  lemma StepStores(db: Db, step: Step, now: int)
    requires Inv(db) && Stored(db) && Possible(db, step)
    ensures Stored(After(db, step, now)) && Moves(db, After(db, step, now))
  {
    hide Inv, LeagueInv, RankedInv, PairedInv, ExposureInv, Stored, Moves, Untouched, B.PairingsCreated, B.Confirmed;
    InvParts(db);
    match step {
      case RoundPaired(league, no, blockTime, facts, tie) =>
        RoundPairedStands(db, league, no, blockTime, now, facts, tie);
      case LeagueConfirmed(id, address) => LeagueConfirmStands(db, id, address);
      case _ => {
        OthersUntouched(db, step, now);
        UntouchedMoves(db, After(db, step, now));
      }
    }
  }

  /** In every reachable state League pairings name stored rounds, and pending ones no Battle. */
  lemma {:induction false} RunStores(db: Db, events: seq<Event>)
    requires Inv(db) && Stored(db) && Legal(db, events)
    ensures Stored(Run(db, events))
  {
    hide Inv, Stored, After, Possible;
    if events != [] {
      var init, last := events[..|events| - 1], events[|events| - 1];
      RunStores(db, init);
      RunKeeps(db, init);
      StepStores(Run(db, init), last.step, last.now);
    }
  }

  lemma NothingStored()
    ensures Stored(Empty())
  {
  }

  // ----- confirmation -----

  /** A repeated League confirmation succeeds and changes nothing; one for another Battle is refused. */
  lemma ConfirmationRepeats(db: Db, id: nat, address: BattleAddress, other: BattleAddress)
    requires B.Confirmed(db, id, address).result.Ok?
    ensures var d := B.Confirmed(db, id, address).db;
            && B.Confirmed(d, id, address) == Outcome(d, Ok(()))
            && (other != address ==> B.Confirmed(d, id, other) == Outcome(d, Err(L.CoordinatorConflict)))
  {
  }

  /** A pending League pairing can be confirmed exactly when its round has an on-chain address, the
      Battle row under its address is absent or its own, and neither wallet has an exposure row. */
  lemma ConfirmableExactly(db: Db, id: nat)
    requires Stored(db) && id in db.leaguePairings && db.leaguePairings[id].status == PendingCoordinator
    ensures var p := db.leaguePairings[id];
            B.Confirmed(db, id, BattleAddress(p.round, id)).result.Ok?
            <==> db.rounds[p.round].chain != NoAddress && (p.round, p.a) !in db.exposures
                 && (p.round, p.b) !in db.exposures
                 && BattleRowFits(db, BattleAddress(p.round, id), BattleRow(p.round, p.a, p.b, LeagueMode))
  {
    assert Stands(db.rounds, id, db.leaguePairings[id]);
  }

  /** A League pairing one of whose wallets has an exposure row before its confirmation arrives stays
      pending in every continuation. */
  lemma {:induction false} EarlyExposureStrandsPairing(db: Db, events: seq<Event>, id: nat)
    requires Inv(db) && Stored(db) && Legal(db, events)
    requires id in db.leaguePairings && db.leaguePairings[id].status == PendingCoordinator
    requires var p := db.leaguePairings[id]; (p.round, p.a) in db.exposures || (p.round, p.b) in db.exposures
    ensures id in Run(db, events).leaguePairings && Run(db, events).leaguePairings[id] == db.leaguePairings[id]
  {
    hide Inv, After, Possible, Stored;
    if events != [] {
      var init, last := events[..|events| - 1], events[|events| - 1];
      EarlyExposureStrandsPairing(db, init, id);
      ExposuresAreWriteOnce(db, init);
      RunKeeps(db, init);
      RunStores(db, init);
      var before := Run(db, init);
      StepStores(before, last.step, last.now);
      assert Continues(before.leaguePairings[id], Run(db, events).leaguePairings[id], id, before.exposures);
    }
  }
}
