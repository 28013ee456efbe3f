/** What each Ranked operation answers and changes, said from the tables and the clock alone: joining,
    leaving, a matchmaker run and a confirmation. */
module RankedMeaning {
  import opened Wrappers
  import opened Sequences
  import opened Tables
  import opened RankedOperations
  import opened LeagueInvariants
  import opened RankedInvariants
  import opened LeaguePairingInvariants
  import opened ObligationRuns
  import opened ObligationTheorems
  import opened ObligationResults
  import L = LeagueOperations
  import B = LeagueBattles
  import Pairs = RankedPairing
  import Swiss = SwissPairing

  // ----- conditions -----

  /** The two half-open windows have an instant in common. */
  predicate Meet(v: Window, w: Window) { !(v.end <= w.start || w.end <= v.start) }

  predicate LiveHold(r: Reservation) { r.status in {Pending, ActiveReservation, LeavePending} }

  /** The wallet holds a live League reservation whose window meets the round's. */
  ghost predicate Held(db: Db, round: RoundId, w: Wallet)
    requires round in db.rounds
  {
    exists k :: k in db.reservations && k.1 == w && LiveHold(db.reservations[k])
      && k.0 in db.rounds && Meet(db.rounds[k.0].window, db.rounds[round].window)
  }

  ghost predicate WindowsNotEmpty(db: Db) {
    forall r :: r in db.rounds ==> db.rounds[r].window.start < db.rounds[r].window.end
  }

  /** A known source, the canonical address unless a replay, and close before start before end. */
  predicate Loadable(r: MarketRound) {
    r.knownSource && (r.replay || r.chain == CanonicalAddress) && r.window.close < r.window.start < r.window.end
  }

  predicate Rankable(r: MarketRound) { r.publicEquity && !r.replay && r.state in {Scheduled, CommitOpen} }

  lemma HeldIs(db: Db, round: RoundId, w: Wallet)
    requires round in db.rounds && WindowsNotEmpty(db)
    ensures HasLeagueReservation(db, round, w) <==> Held(db, round, w)
  {
    if HasLeagueReservation(db, round, w) {
      var k :| k in db.reservations && k.1 == w && LiveReservation(db.reservations[k])
        && RoundOverlaps(db, k.0, db.rounds[round].window);
      assert LiveHold(db.reservations[k]);
    }
    if Held(db, round, w) {
      var k :| k in db.reservations && k.1 == w && LiveHold(db.reservations[k])
        && k.0 in db.rounds && Meet(db.rounds[k.0].window, db.rounds[round].window);
      assert LiveReservation(db.reservations[k]) && RoundOverlaps(db, k.0, db.rounds[round].window);
    }
  }

  // ----- joining and leaving -----

  ghost predicate OnlyEntry(q: Queue, q': Queue, k: (RoundId, Wallet), row: QueueRow) {
    q'.Keys == q.Keys + {k} && q'[k] == row && forall j :: j in q && j != k ==> q'[j] == q[j]
  }

  lemma EntryPut(q: Queue, k: (RoundId, Wallet), row: QueueRow)
    ensures OnlyEntry(q, q[k := row], k, row)
    ensures k in q && q[k] == row ==> OnlyEntry(q, q, k, row)
  {
  }

  lemma QueueOnly(db: Db, q: Queue)
    ensures db.(queue := q).queue == q && db.(queue := db.queue) == db
  {
  }

  /** What stands in the way of queueing, the first of these. */
  lemma JoinAnswers(db: Db, w: Wallet, round: RoundId, now: int, unresolved: bool)
    requires WindowsNotEmpty(db)
    ensures var k := (round, w);
            Joined(db, w, round, now, unresolved).result ==
            if round !in db.rounds then Err(RoundNotFound)
            else if !Loadable(db.rounds[round]) then Err(InvalidRound)
            else if !Rankable(db.rounds[round]) then Err(RoundNotEligible)
            else if now >= db.rounds[round].window.close then Err(QueueClosed)
            else if k in db.exposures then Err(AlreadyExposed)
            else if Held(db, round, w) then Err(LeagueReserved)
            else if unresolved then Err(UnresolvedPreviousBattle)
            else if k in db.queue && db.queue[k].status in {Matched, BattleCreated} then Err(AlreadyPaired)
            else Ok(())
  {
    hide HasLeagueReservation, Held;
    if round in db.rounds { HeldIs(db, round, w); }
  }

  /** A successful join leaves a fresh queued entry, or the one that was already waiting; a failed one
      changes nothing, and neither touches another table. */
  lemma JoinStores(db: Db, w: Wallet, round: RoundId, now: int, unresolved: bool)
    ensures var o, k := Joined(db, w, round, now, unresolved), (round, w);
            && o.db == db.(queue := o.db.queue)
            && (o.result.Err? ==> o.db.queue == db.queue)
            && (o.result.Ok? ==>
                  OnlyEntry(db.queue, o.db.queue, k,
                            if k in db.queue && db.queue[k].status in {Queued, Snapshotted} then db.queue[k]
                            else QueueRow(Queued, None)))
  {
    hide JoinFault, OnlyEntry;
    var k := (round, w);
    QueueOnly(db, db.queue);
    QueueOnly(db, db.queue[k := QueueRow(Queued, None)]);
    EntryPut(db.queue, k, QueueRow(Queued, None));
    if k in db.queue { EntryPut(db.queue, k, db.queue[k]); }
  }

  lemma LeaveAnswers(db: Db, w: Wallet, round: RoundId, now: int)
    ensures var k := (round, w);
            LeftQueue(db, w, round, now).result ==
            if round !in db.rounds then Err(RoundNotFound)
            else if !Loadable(db.rounds[round]) then Err(InvalidRound)
            else if now >= db.rounds[round].window.close then Err(QueueClosed)
            else if k in db.queue && db.queue[k].status in {Queued, Unmatched} then Ok(())
            else if k in db.queue && db.queue[k].status in {Matched, BattleCreated} then Err(AlreadyPaired)
            else Err(QueueNotFound)
  {
  }

  /** A successful leave cancels the entry; a failed one changes nothing, and neither touches another
      entry or table. */
  lemma LeaveStores(db: Db, w: Wallet, round: RoundId, now: int)
    ensures var o, k := LeftQueue(db, w, round, now), (round, w);
            && o.db == db.(queue := o.db.queue)
            && (o.result.Err? ==> o.db.queue == db.queue)
            && (o.result.Ok? ==> k in db.queue
                                 && OnlyEntry(db.queue, o.db.queue, k, QueueRow(CancelledEntry, db.queue[k].snapshot)))
  {
    hide LoadFault, OnlyEntry;
    var k := (round, w);
    QueueOnly(db, db.queue);
    if k in db.queue {
      QueueOnly(db, db.queue[k := QueueRow(CancelledEntry, db.queue[k].snapshot)]);
      EntryPut(db.queue, k, QueueRow(CancelledEntry, db.queue[k].snapshot));
    }
  }

  // ----- who left stays out -----

  ghost predicate Cancelled(db: Db, k: (RoundId, Wallet)) { k in db.queue && db.queue[k].status == CancelledEntry }

  predicate Rejoins(step: Step, k: (RoundId, Wallet)) { step.QueueJoined? && step.round == k.0 && step.w == k.1 }

  lemma SameQueueStep(db: Db, step: Step, now: int)
    requires !step.QueueJoined? && !step.QueueLeft? && !step.MatchmakerRan? && !step.RankedConfirmed?
    ensures After(db, step, now).queue == db.queue
  {
    hide L.Assigned, L.JoinRequested, L.JoinConfirmed, L.LeaveRequested, L.LeaveConfirmed, L.Expired, B.PairingsCreated,
      B.Confirmed, B.ExposureIndexed;
    match step {
      case ScheduleAssigned(league, entries) => AssignKeepsQueue(db, league, entries, now);
      case JoinAsked(league, w) => JoinKeepsQueue(db, league, w, now);
      case JoinSeen(league, w, matches) => MemberStepsKeepQueue(db, league, w, matches, now);
      case LeaveAsked(league, w) => MemberStepsKeepQueue(db, league, w, true, now);
      case LeaveSeen(league, w) => MemberStepsKeepQueue(db, league, w, true, now);
      case JoinsExpired => ExpiryKeepsQueue(db, now);
      case RoundPaired(league, no, blockTime, facts, tie) =>
        PairingKeepsQueue(db, league, no, blockTime, now, facts, tie);
      case LeagueConfirmed(id, address) => LeagueConfirmKeepsQueue(db, id, address);
      case ExposureSeen(round, w, address) => ExposureKeepsQueue(db, round, w, address);
      case _ => RegisteredKeepsQueue(db, step, now);
    }
  }

  lemma RegisteredKeepsQueue(db: Db, step: Step, now: int)
    requires step.RoundIndexed? || step.LeagueRegistered? || step.LeagueReconciled? || step.BattleIndexed?
    ensures After(db, step, now).queue == db.queue
  {
  }

  lemma ExposureKeepsQueue(db: Db, round: RoundId, w: Wallet, address: BattleAddress)
    ensures B.ExposureIndexed(db, round, w, address).db.queue == db.queue
  {
  }

  lemma AssignKeepsQueue(db: Db, league: LeagueId, es: seq<L.Entry>, now: int)
    ensures L.Assigned(db, league, es, now).db.queue == db.queue
  {
    hide L.AssignFault, L.AsSlots;
  }

  lemma ExpiryKeepsQueue(db: Db, now: int)
    ensures L.Expired(db, now).queue == db.queue
  {
    hide L.ExpiredMemberships, L.ExpiredReservations;
  }

  lemma MemberStepsKeepQueue(db: Db, league: LeagueId, w: Wallet, matches: bool, now: int)
    ensures L.JoinConfirmed(db, league, w, matches, now).db.queue == db.queue
    ensures L.LeaveRequested(db, league, w, now).db.queue == db.queue
    ensures L.LeaveConfirmed(db, league, w, now).db.queue == db.queue
  {
    hide L.Transitioned;
    forall state, from, to | (league, w) in db.memberships
      ensures L.Transitioned(db, league, w, state, now, from, to).queue == db.queue
    {
      TransitionKeepsQueue(db, league, w, state, now, from, to);
    }
  }

  lemma TransitionKeepsQueue(db: Db, league: LeagueId, w: Wallet, state: MembershipState, now: int,
                             from: set<ReservationStatus>, to: ReservationStatus)
    requires (league, w) in db.memberships
    ensures L.Transitioned(db, league, w, state, now, from, to).queue == db.queue
  {
    hide L.MemberSet, L.Retag;
  }

  lemma JoinKeepsQueue(db: Db, league: LeagueId, w: Wallet, now: int)
    ensures L.JoinRequested(db, league, w, now).db.queue == db.queue
  {
    hide L.JoinFault, L.Reserve, L.ExpiredMemberships, L.ExpiredReservations, L.JoinedMembership, ScheduleOf;
    if L.JoinRequested(db, league, w, now).result.Ok? { JoinReserves(L.Expired(db, now), league, w, now); }
  }

  lemma PairingKeepsQueue(db: Db, league: LeagueId, no: int, blockTime: int, now: int, f: B.Facts, tie: Swiss.TieKeys)
    ensures B.PairingsCreated(db, league, no, blockTime, now, f, tie).db.queue == db.queue
  {
    hide B.PairingFault, B.FreshPairings, B.RunStored;
    var round, bye, duels := FreshPairingsShape(db, league, no, now, f, tie);
    RunKeepsQueue(db, league, no, round, bye, duels, now);
  }

  lemma RunKeepsQueue(db: Db, league: LeagueId, no: int, round: RoundId, bye: Option<Wallet>, duels: seq<Duel>,
                      now: int)
    ensures B.RunStored(db, league, no, round, bye, duels, now).queue == db.queue
  {
    hide B.WithBye, Inserted;
  }

  lemma LeagueConfirmKeepsQueue(db: Db, id: nat, address: BattleAddress)
    ensures B.Confirmed(db, id, address).db.queue == db.queue
  {
    hide Materialize;
    if id in db.leaguePairings && Materialize(db, db.leaguePairings[id], address, LeagueMode).Some? {
      MaterializeGrows(db, db.leaguePairings[id], address, LeagueMode);
    }
  }

  lemma CancelledStep(db: Db, step: Step, now: int, k: (RoundId, Wallet))
    requires RankedInv(db) && Cancelled(db, k) && !Rejoins(step, k)
    ensures Cancelled(After(db, step, now), k)
  {
    hide RankedInv, After, Joined, LeftQueue, MatchmakerRun, Confirmed, OnlyEntry;
    match step {
      case QueueJoined(w, round, unresolved) => JoinOther(db, w, round, now, unresolved, k);
      case QueueLeft(w, round) => LeaveOther(db, w, round, now, k);
      case MatchmakerRan(h, round) => RunKeepsCancelled(db, h, round, now, k);
      case RankedConfirmed(id, address) => ConfirmKeepsCancelled(db, id, address, k);
      case _ => SameQueueStep(db, step, now);
    }
    AfterIs(db, step, now);
  }

  lemma AfterIs(db: Db, step: Step, now: int)
    ensures step.QueueJoined? ==> After(db, step, now) == Joined(db, step.w, step.round, now, step.unresolved).db
    ensures step.QueueLeft? ==> After(db, step, now) == LeftQueue(db, step.w, step.round, now).db
    ensures step.MatchmakerRan? ==> After(db, step, now) == MatchmakerRun(db, step.history, step.round, now).db
    ensures step.RankedConfirmed? ==> After(db, step, now) == Confirmed(db, step.id, step.address).db
  {
    hide Joined, LeftQueue, MatchmakerRun, Confirmed;
  }

  lemma JoinOther(db: Db, w: Wallet, round: RoundId, now: int, unresolved: bool, k: (RoundId, Wallet))
    requires Cancelled(db, k) && (round, w) != k
    ensures Cancelled(Joined(db, w, round, now, unresolved).db, k)
  {
    hide Joined;
    JoinStores(db, w, round, now, unresolved);
  }

  lemma LeaveOther(db: Db, w: Wallet, round: RoundId, now: int, k: (RoundId, Wallet))
    requires Cancelled(db, k)
    ensures Cancelled(LeftQueue(db, w, round, now).db, k)
  {
    hide LeftQueue;
    LeaveStores(db, w, round, now);
  }

  lemma RunKeepsCancelled(db: Db, h: History, round: RoundId, now: int, k: (RoundId, Wallet))
    requires Cancelled(db, k)
    ensures Cancelled(MatchmakerRun(db, h, round, now).db, k)
  {
    hide StoredRun, FreshRun, MatchmakerFault;
    if MatchmakerFault(db, round, now).None? {
      FaultMeansKnown(db, round, now);
      EntryAfterRun(db, h, round, k);
    }
  }

  lemma ConfirmKeepsCancelled(db: Db, id: nat, address: BattleAddress, k: (RoundId, Wallet))
    requires RankedInv(db) && Cancelled(db, k)
    ensures Cancelled(Confirmed(db, id, address).db, k)
  {
    hide RankedInv, Materialize;
    if Confirmed(db, id, address).result.Ok? && db.pairings[id].status == PendingCoordinator {
      PendingEntries(db, id);
      MaterializeGrows(db, db.pairings[id], address, Ranked);
    }
  }

  /** Whoever left a round's queue and does not join it again is in no Ranked pairing of the round, in any
      continuation. */
  lemma {:induction false} LeaversStayOut(db: Db, events: seq<Event>, k: (RoundId, Wallet))
    requires Inv(db) && Legal(db, events) && Cancelled(db, k)
    requires forall i :: 0 <= i < |events| ==> !Rejoins(events[i].step, k)
    ensures var d := Run(db, events);
            Cancelled(d, k) && forall id :: id in d.pairings && d.pairings[id].round == k.0 ==> !d.pairings[id].Has(k.1)
  {
    hide Inv, After, Possible, Cancelled, Rejoins;
    RunKeeps(db, events);
    if events != [] {
      var init, last := events[..|events| - 1], events[|events| - 1];
      LeaversStayOut(db, init, k);
      RunKeeps(db, init);
      InvParts(Run(db, init));
      CancelledStep(Run(db, init), last.step, last.now, k);
    }
    NotPaired(Run(db, events), k);
  }

  lemma NotPaired(db: Db, k: (RoundId, Wallet))
    requires Inv(db) && Cancelled(db, k)
    ensures forall id :: id in db.pairings && db.pairings[id].round == k.0 ==> !db.pairings[id].Has(k.1)
  {
    hide Inv, RankedInv;
    InvParts(db);
    forall id | id in db.pairings && db.pairings[id].round == k.0 ensures !db.pairings[id].Has(k.1) {
      StandsIn(db, id);
    }
  }

  // ----- the matchmaker -----

  /** A round is matched once its queue has closed and until it starts. */
  lemma MatchAnswers(db: Db, h: History, round: RoundId, now: int)
    ensures var o := MatchmakerRun(db, h, round, now);
            && (o.result.Err? ==> o.db == db)
            && (o.result.Ok? <==> round in db.rounds && Loadable(db.rounds[round]) && Rankable(db.rounds[round])
                                  && db.rounds[round].window.close <= now < db.rounds[round].window.start)
            && (round !in db.rounds ==> o.result == Err(RoundNotFound))
            && (round in db.rounds && !Loadable(db.rounds[round]) ==> o.result == Err(InvalidRound))
            && (round in db.rounds && Loadable(db.rounds[round]) && !Rankable(db.rounds[round]) ==>
                  o.result == Err(RoundNotEligible))
            && (round in db.rounds && Loadable(db.rounds[round]) && Rankable(db.rounds[round]) ==>
                  && (now < db.rounds[round].window.close ==> o.result == Err(QueueClosed))
                  && (now >= db.rounds[round].window.start ==> o.result == Err(RoundNotEligible)))
  {
    hide StoredRun, FreshRun;
    if round in db.rounds { RunAnswers(db, h, round); }
  }

  lemma RunAnswers(db: Db, h: History, round: RoundId)
    requires round in db.rounds
    ensures FreshRun(db, h, round).result.Ok?
  {
    hide PlanOf, Admitted, Marked, Inserted, NewViews, QueuedWallets;
  }

  /** Exposed already, held by a League, or still in an earlier Battle. */
  ghost predicate Barred(db: Db, h: History, round: RoundId, w: Wallet)
    requires round in db.rounds
  {
    (round, w) in db.exposures || Held(db, round, w) || h.unresolved(w)
  }

  ghost predicate Waiting(db: Db, round: RoundId, w: Wallet) {
    (round, w) in db.queue && db.queue[(round, w)].status == Queued
  }

  /** The players a run pairs: those waiting and not barred, each with its frozen rating and its recent
      opponents. */
  ghost predicate IsField(db: Db, h: History, round: RoundId, players: seq<Pairs.RankedPlayer>)
    requires round in db.rounds
  {
    && (forall i, j :: 0 <= i < j < |players| ==> players[i].wallet < players[j].wallet)
    && forall p :: p in players <==>
         Waiting(db, round, p.wallet) && !Barred(db, h, round, p.wallet)
         && p.rating == h.rating(p.wallet) && p.recent == h.recent(p.wallet)
  }

  lemma {:induction false} FieldOf(db: Db, h: History, round: RoundId, wallets: seq<Wallet>)
    requires IsAscending(wallets)
    ensures var e := EligibleOf(db, h, round, wallets);
            && (forall i, j :: 0 <= i < j < |e| ==> e[i].wallet < e[j].wallet)
            && forall p :: p in e <==> p.wallet in wallets && !IsBlocked(db, h, round, p.wallet)
                                       && p.rating == h.rating(p.wallet) && p.recent == h.recent(p.wallet)
  {
    hide IsBlocked, EligibleOf;
    FieldStep(db, h, round, wallets);
    if wallets != [] {
      var init, last := wallets[..|wallets| - 1], wallets[|wallets| - 1];
      InitBelowLast(wallets, init, last);
      FieldOf(db, h, round, init);
      var e := EligibleOf(db, h, round, init);
      assert forall i :: 0 <= i < |e| ==> e[i] in e;
    }
  }

  lemma FieldStep(db: Db, h: History, round: RoundId, wallets: seq<Wallet>)
    ensures wallets == [] ==> EligibleOf(db, h, round, wallets) == []
    ensures wallets != [] ==>
              var init, last := wallets[..|wallets| - 1], wallets[|wallets| - 1];
              var e := EligibleOf(db, h, round, init);
              && wallets == init + [last]
              && EligibleOf(db, h, round, wallets) ==
                 if IsBlocked(db, h, round, last)
                    then e else e + [Pairs.RankedPlayer(last, h.rating(last), h.recent(last))]
  {
    hide IsBlocked;
  }

  lemma BarredIs(db: Db, h: History, round: RoundId, w: Wallet)
    requires round in db.rounds && WindowsNotEmpty(db)
    ensures IsBlocked(db, h, round, w) <==> Barred(db, h, round, w)
  {
    hide HasLeagueReservation, Held;
    HeldIs(db, round, w);
  }

  lemma FieldIs(db: Db, h: History, round: RoundId)
    requires round in db.rounds && WindowsNotEmpty(db)
    ensures IsField(db, h, round, EligibleOf(db, h, round, QueuedWallets(db, round)))
  {
    hide IsBlocked, Barred, EligibleOf;
    var wallets := QueuedWallets(db, round);
    AscendingMeaning(WalletsWith(db, round, Queued));
    FieldOf(db, h, round, wallets);
    forall w: Wallet ensures w in wallets <==> Waiting(db, round, w) { QueuedAt(db, round, (round, w)); }
    forall w: Wallet ensures IsBlocked(db, h, round, w) <==> Barred(db, h, round, w) { BarredIs(db, h, round, w); }
  }

  /** The pairing stored for a pair of players. */
  predicate IsPairOf(p: Pairing, run: nat, round: RoundId, pair: (Pairs.RankedPlayer, Pairs.RankedPlayer)) {
    && p.run == run && p.round == round && p.a == pair.0.wallet && p.b == pair.1.wallet
    && p.ratingA == pair.0.rating && p.ratingB == pair.1.rating && p.battle == None && p.status == PendingCoordinator
  }

  lemma RunTables(db: Db, h: History, round: RoundId)
    requires round in db.rounds
    ensures var d, duels := FreshRun(db, h, round).db, PlanOf(db, h, round).duels;
            && d == db.(queue := d.queue, runs := d.runs, pairings := d.pairings, nextRun := db.nextRun + 1,
                        nextPairing := db.nextPairing + |duels|)
            && d.runs == db.runs[(round, db.rounds[round].window.close) := db.nextRun]
            && d.pairings == Inserted(db.pairings, db.nextPairing, db.nextRun, round, duels)
  {
    hide PlanOf, Admitted, Marked, Inserted, NewViews, QueuedWallets, DuelWallets, SetOf;
  }

  lemma PlannedDuels(db: Db, h: History, round: RoundId)
    ensures var pairs := Pairs.PairPlayers(EligibleOf(db, h, round, QueuedWallets(db, round)));
            var duels := PlanOf(db, h, round).duels;
            |duels| == |pairs| && forall k, run :: 0 <= k < |pairs| ==>
              IsPairOf(NewPairing(run, round, duels[k]), run, round, pairs[k])
  {
    hide EligibleOf, QueuedWallets, Pairs.PairPlayers, Pairs.Unpaired, BlockedOf;
  }

  /** A first run stores itself under the round's close, and one pending pairing for each of its pairs under
      the next ids: each joins the lowest-rated player not yet paired to its preferred one. */
  lemma RunPairs(db: Db, h: History, round: RoundId)
    returns (players: seq<Pairs.RankedPlayer>, pairs: seq<(Pairs.RankedPlayer, Pairs.RankedPlayer)>)
    requires round in db.rounds && WindowsNotEmpty(db) && forall i :: i in db.pairings ==> i < db.nextPairing
    ensures IsField(db, h, round, players) && Pairs.GreedyFrom(pairs, multiset(players)) && |pairs| == |players| / 2
    ensures var d := FreshRun(db, h, round).db;
            && d == db.(queue := d.queue, runs := d.runs, pairings := d.pairings, nextRun := db.nextRun + 1,
                        nextPairing := db.nextPairing + |pairs|)
            && d.runs == db.runs[(round, db.rounds[round].window.close) := db.nextRun]
            && (forall i :: i in db.pairings ==> i in d.pairings && d.pairings[i] == db.pairings[i])
            && (forall i :: i in d.pairings <==> i in db.pairings || db.nextPairing <= i < db.nextPairing + |pairs|)
            && (forall k :: 0 <= k < |pairs| ==> IsPairOf(d.pairings[db.nextPairing + k], db.nextRun, round, pairs[k]))
  {
    hide EligibleOf, QueuedWallets, Pairs.PairPlayers, Pairs.Unpaired, PlanOf, FreshRun, Inserted, IsField, IsPairOf,
      Pairs.GreedyFrom, NewPairing;
    players := EligibleOf(db, h, round, QueuedWallets(db, round));
    pairs := Pairs.PairPlayers(players);
    FieldIs(db, h, round);
    Pairs.PairsAreGreedy(players);
    Pairs.PairsPartition(players);
    RunTables(db, h, round);
    PlannedDuels(db, h, round);
    InsertedMeaning(db.pairings, db.nextPairing, db.nextRun, round, PlanOf(db, h, round).duels);
  }

  /** And every waiting entry is frozen with the rating and games of the moment, and becomes blocked if
      barred, and otherwise matched or, at most one and just when the field is odd, unmatched. */
  lemma RunFreezes(db: Db, h: History, round: RoundId, k: (RoundId, Wallet))
    requires round in db.rounds && WindowsNotEmpty(db) && k in db.queue
    ensures var q', w := FreshRun(db, h, round).db.queue, k.1;
            && k in q'
            && (!(k.0 == round && Waiting(db, round, w)) ==> q'[k] == db.queue[k])
            && (k.0 == round && Waiting(db, round, w) ==>
                  && q'[k].snapshot == Some(Snapshot(h.rating(w), h.games(w)))
                  && (Barred(db, h, round, w) ==> q'[k].status == Blocked)
                  && (!Barred(db, h, round, w) ==> q'[k].status in {Matched, Unmatched}))
  {
    EntryAfterRun(db, h, round, k);
    PlanWallet(db, h, round, k.1);
    QueuedAt(db, round, k);
    BarredIs(db, h, round, k.1);
    AdmittedAt(db, h, round, QueuedWallets(db, round), k);
    hide Admitted, DuelWallets, PlanOf, QueuedWallets, WalletsWith, Barred, IsBlocked, Inserted, NewViews;
  }

  // ----- confirmation -----

  /** The confirmed pairing, its Battle and its players' exposures, in either mode. */
  predicate ConfirmedAs(p: Pairing, p': Pairing, address: BattleAddress) {
    p' == Pairing(p.run, p.round, p.a, p.b, p.ratingA, p.ratingB, Some(address), Created)
  }

  ghost predicate BattleStored(db: Db, battles: Battles, exposures: Exposures, p: Pairing, address: BattleAddress,
                               mode: Mode) {
    && battles.Keys == db.battles.Keys + {address} && battles[address] == BattleRow(p.round, p.a, p.b, mode)
    && (forall k :: k in db.battles && k != address ==> battles[k] == db.battles[k])
    && exposures.Keys == db.exposures.Keys + {(p.round, p.a), (p.round, p.b)}
    && exposures[(p.round, p.a)] == address && exposures[(p.round, p.b)] == address
    && forall k :: k in db.exposures ==> exposures[k] == db.exposures[k]
  }

  lemma MaterializeStores(db: Db, p: Pairing, address: BattleAddress, mode: Mode)
    requires Materialize(db, p, address, mode).Some?
    ensures var m := Materialize(db, p, address, mode).value; BattleStored(db, m.battles, m.exposures, p, address, mode)
  {
  }

  /** Neither player is exposed in the round, and the Battle at the address, if stored, is this pairing's. */
  predicate Unclaimed(db: Db, p: Pairing, address: BattleAddress, mode: Mode) {
    && p.a != p.b && (p.round, p.a) !in db.exposures && (p.round, p.b) !in db.exposures
    && (address in db.battles ==> db.battles[address] == BattleRow(p.round, p.a, p.b, mode))
  }

  /** What stands in the way of a confirmation, the first of these. */
  lemma ConfirmAnswers(db: Db, id: nat, address: BattleAddress)
    ensures Confirmed(db, id, address).result ==
            if id !in db.pairings || db.pairings[id].round !in db.rounds then Err(CoordinatorPlanUnavailable)
            else if db.pairings[id].status == Created && db.pairings[id].battle == Some(address) then Ok(())
            else if db.pairings[id].status == Created || db.pairings[id].battle.Some? then Err(CoordinatorConflict)
            else if db.rounds[db.pairings[id].round].chain == NoAddress then Err(CoordinatorPlanUnavailable)
            else if address == BattleAddress(db.pairings[id].round, id)
                    && Unclaimed(db, db.pairings[id], address, Ranked)
            then Ok(())
            else Err(CoordinatorConflict)
  {
    if id in db.pairings { UnclaimedIs(db, db.pairings[id], address, Ranked); }
    hide Materialize, Unclaimed, Marked;
  }

  lemma LeagueConfirmAnswers(db: Db, id: nat, address: BattleAddress)
    ensures B.Confirmed(db, id, address).result ==
            if id == 0 then Err(L.InvalidPairing)
            else if id !in db.leaguePairings || db.leaguePairings[id].round !in db.rounds
            then Err(L.CoordinatorPlanUnavailable)
            else if db.leaguePairings[id].status == Created && db.leaguePairings[id].battle == Some(address) then Ok(())
            else if db.leaguePairings[id].status == Created || db.leaguePairings[id].battle.Some?
            then Err(L.CoordinatorConflict)
            else if db.rounds[db.leaguePairings[id].round].chain == NoAddress then Err(L.CoordinatorPlanUnavailable)
            else if address == BattleAddress(db.leaguePairings[id].round, id)
                    && Unclaimed(db, db.leaguePairings[id], address, LeagueMode) then Ok(())
            else Err(L.CoordinatorConflict)
  {
    if id in db.leaguePairings { UnclaimedIs(db, db.leaguePairings[id], address, LeagueMode); }
    hide Materialize, Unclaimed;
  }

  lemma UnclaimedIs(db: Db, p: Pairing, address: BattleAddress, mode: Mode)
    ensures Materialize(db, p, address, mode).Some? <==> Unclaimed(db, p, address, mode)
  {
  }

  /** A first successful confirmation stores the Battle, exposes both players, creates the pairing and marks
      both entries, and nothing else; otherwise nothing changes. */
  lemma ConfirmStores(db: Db, id: nat, address: BattleAddress)
    ensures var o := Confirmed(db, id, address);
            && (o.result.Err? || db.pairings[id].status == Created ==> o.db == db)
            && (o.result.Ok? && db.pairings[id].status == PendingCoordinator ==>
                  var d, p := o.db, db.pairings[id];
                  && d == db.(battles := d.battles, exposures := d.exposures, pairings := d.pairings, queue := d.queue)
                  && address == BattleAddress(p.round, id)
                     && BattleStored(db, d.battles, d.exposures, p, address, Ranked)
                  && d.pairings.Keys == db.pairings.Keys && ConfirmedAs(p, d.pairings[id], address)
                  && (forall i :: i in db.pairings && i != id ==> d.pairings[i] == db.pairings[i])
                  && d.queue.Keys == db.queue.Keys
                  && forall k :: k in db.queue ==>
                       d.queue[k] == if k == (p.round, p.a) || k == (p.round, p.b)
                                     then QueueRow(BattleCreated, db.queue[k].snapshot) else db.queue[k])
  {
    hide Confirmed, BattleStored, Marked, Materialize;
    ConfirmIs(db, id, address);
    if Confirmed(db, id, address).result.Ok? && db.pairings[id].status == PendingCoordinator {
      var p := db.pairings[id];
      MaterializeStores(db, p, address, Ranked);
      MarksTwo(db.queue, p);
      CreatesOne(db.pairings, id, p, address);
    }
  }

  lemma ConfirmIs(db: Db, id: nat, address: BattleAddress)
    ensures var o := Confirmed(db, id, address);
            && (o.result.Ok? ==> id in db.pairings)
            && (o.result.Err? || db.pairings[id].status == Created ==> o.db == db)
            && (o.result.Ok? && db.pairings[id].status == PendingCoordinator ==>
                  var p, m := db.pairings[id], Materialize(db, db.pairings[id], address, Ranked);
                  && m.Some? && address == BattleAddress(p.round, id)
                  && o.db == db.(battles := m.value.battles, exposures := m.value.exposures,
                                 pairings := db.pairings[id := p.(battle := Some(address), status := Created)],
                                 queue := Marked(db.queue, p.round, {p.a, p.b}, BattleCreated)))
  {
    if id in db.pairings && Materialize(db, db.pairings[id], address, Ranked).Some? {
      MaterializeGrows(db, db.pairings[id], address, Ranked);
    }
    hide Materialize, Marked;
  }

  lemma MarksTwo(q: Queue, p: Pairing)
    ensures var q' := Marked(q, p.round, {p.a, p.b}, BattleCreated);
            && q'.Keys == q.Keys
            && forall k :: k in q ==>
                 q'[k] == if k == (p.round, p.a) || k == (p.round, p.b) then QueueRow(BattleCreated, q[k].snapshot)
                          else q[k]
  {
  }

  lemma CreatesOne(pairings: Pairings, id: nat, p: Pairing, address: BattleAddress)
    requires id in pairings && p == pairings[id]
    ensures var after := pairings[id := p.(battle := Some(address), status := Created)];
            && after.Keys == pairings.Keys && ConfirmedAs(p, after[id], address)
            && forall i :: i in pairings && i != id ==> after[i] == pairings[i]
  {
  }

  /** The same of a League pairing, which has no queue entries. */
  lemma LeagueConfirmStores(db: Db, id: nat, address: BattleAddress)
    ensures var o := B.Confirmed(db, id, address);
            && (o.result.Err? || db.leaguePairings[id].status == Created ==> o.db == db)
            && (o.result.Ok? && db.leaguePairings[id].status == PendingCoordinator ==>
                  var d, p := o.db, db.leaguePairings[id];
                  && d == db.(battles := d.battles, exposures := d.exposures, leaguePairings := d.leaguePairings)
                  && address == BattleAddress(p.round, id)
                     && BattleStored(db, d.battles, d.exposures, p, address, LeagueMode)
                  && d.leaguePairings.Keys == db.leaguePairings.Keys && ConfirmedAs(p, d.leaguePairings[id], address)
                  && forall i :: i in db.leaguePairings && i != id ==> d.leaguePairings[i] == db.leaguePairings[i])
  {
    if id in db.leaguePairings && Materialize(db, db.leaguePairings[id], address, LeagueMode).Some? {
      MaterializeGrows(db, db.leaguePairings[id], address, LeagueMode);
      MaterializeStores(db, db.leaguePairings[id], address, LeagueMode);
      hide Materialize, BattleStored;
      CreatesOne(db.leaguePairings, id, db.leaguePairings[id], address);
    }
  }

  /** An exposure seen on chain is stored if the wallet has none in the round and the Battle is known, and
      never replaces another. */
  lemma ExposureStores(db: Db, round: RoundId, w: Wallet, address: BattleAddress)
    ensures var o, k := B.ExposureIndexed(db, round, w, address), (round, w);
            && o.db == db.(exposures := o.db.exposures)
            && (k in db.exposures ==> o.db.exposures == db.exposures)
            && (o.result.Ok? <==> if k in db.exposures then db.exposures[k] == address
                                  else address in db.battles && round in db.rounds)
            && (o.result.Err? ==> o.db.exposures == db.exposures)
            && (o.result.Ok? ==> o.db.exposures.Keys == db.exposures.Keys + {k} && o.db.exposures[k] == address
                                 && forall j :: j in db.exposures ==> o.db.exposures[j] == db.exposures[j])
  {
    var k := (round, w);
    ExposuresOnly(db, db.exposures);
    ExposuresOnly(db, db.exposures[k := address]);
    ExposurePut(db.exposures, k, address);
  }

  lemma ExposuresOnly(db: Db, exposures: Exposures)
    ensures db.(exposures := exposures).exposures == exposures && db.(exposures := db.exposures) == db
  {
  }

  lemma ExposurePut(exposures: Exposures, k: (RoundId, Wallet), address: BattleAddress)
    ensures exposures[k := address].Keys == exposures.Keys + {k}
  {
  }
}
