/** What holds of every run, of any length and in any interleaving, from empty tables. */
module ObligationTheorems {
  import opened Wrappers
  import opened Sequences
  import opened Tables
  import opened LeagueInvariants
  import opened RankedInvariants
  import opened LeaguePairingInvariants
  import opened ObligationRuns
  import L = LeagueOperations
  import B = LeagueBattles
  import R = RankedOperations
  import Swiss = SwissPairing

  datatype Event = Event(step: Step, now: int)

  function Empty(): Db {
    Db(map[], map[], map[], map[], map[], map[], map[], map[], map[], map[], map[], map[], 1, 1, 1, 1)
  }

  function Run(db: Db, events: seq<Event>): Db {
    if events == [] then db
    else
      var before, last := Run(db, events[..|events| - 1]), events[|events| - 1];
      After(before, last.step, last.now)
  }

  /** Each step is possible where it happens. */
  ghost predicate Legal(db: Db, events: seq<Event>) {
    events != [] ==>
      Legal(db, events[..|events| - 1]) && Possible(Run(db, events[..|events| - 1]), events[|events| - 1].step)
  }

  /** Every state any interleaving can reach keeps every invariant. */
  lemma {:induction false} Reachable(events: seq<Event>)
    requires Legal(Empty(), events)
    ensures Inv(Run(Empty(), events))
  {
    if events != [] {
      var init, last := events[..|events| - 1], events[|events| - 1];
      Reachable(init);
      hide Inv, After;
      StepKeeps(Run(Empty(), init), last.step, last.now);
    } else {
      EmptyInv();
    }
  }

  lemma EmptyInv()
    ensures Inv(Empty())
  {
    assert LeagueInv(Empty()) by { assert forall l :: LiveOf(Empty().memberships, l) == {}; }
  }

  // ----- what a match run settled stays settled -----

  predicate Shows(q: Queue, k: (RoundId, Wallet), status: QueueStatus) { k in q && q[k].status == status }

  /** The unmatched and blocked entries of a round are the same in both. */
  ghost predicate SameSettled(q: Queue, q': Queue, round: RoundId) {
    forall k: (RoundId, Wallet) :: k.0 == round ==>
      (Shows(q, k, Unmatched) <==> Shows(q', k, Unmatched)) && (Shows(q, k, Blocked) <==> Shows(q', k, Blocked))
  }

  /** A stored pairing is unchanged, or its Battle was just created by two wallets not exposed
      before. */
  ghost predicate Continues(p: Pairing, p': Pairing, i: nat, exposures: Exposures) {
    p' == p || (p' == Materialized(p, i) && (p.round, p.a) !in exposures && (p.round, p.b) !in exposures)
  }

  /** And added pairings belong to new runs. */
  ghost predicate PairingsContinue(pairings: Pairings, pairings': Pairings, nextRun: nat, exposures: Exposures) {
    && (forall i :: i in pairings ==> i in pairings' && Continues(pairings[i], pairings'[i], i, exposures))
    && (forall i :: i in pairings' && i !in pairings ==> pairings'[i].run >= nextRun)
  }

  ghost predicate RunsContinue(runs: Runs, runs': Runs) { forall k :: k in runs ==> k in runs' && runs'[k] == runs[k] }

  /** Entries become queued only before the close, and a new run comes after it and leaves nobody
      of its round queued. */
  ghost predicate QueuedEarly(db: Db, d: Db, now: int) {
    forall k: (RoundId, Wallet) :: Shows(d.queue, k, Queued) ==>
      Shows(db.queue, k, Queued) || (k.0 in db.rounds && now < db.rounds[k.0].window.close)
  }

  ghost predicate RunsLate(db: Db, d: Db, now: int) {
    forall k :: k in d.runs && k !in db.runs ==> RunLate(db, d.queue, k, now)
  }

  ghost predicate RunLate(db: Db, q: Queue, k: (RoundId, int), now: int) {
    && k.0 in db.rounds && db.rounds[k.0].window.close <= now
    && forall j: (RoundId, Wallet) :: j.0 == k.0 ==> !Shows(q, j, Queued)
  }

  ghost predicate SameWindow(db: Db, d: Db, r: RoundId) {
    r in db.rounds ==> r in d.rounds && d.rounds[r].window == db.rounds[r].window
  }

  ghost predicate WindowsKept(db: Db, d: Db) { forall r :: SameWindow(db, d, r) }

  ghost predicate SettledKept(db: Db, d: Db, round: RoundId, now: int) {
    && SameSettled(db.queue, d.queue, round) && PairingsContinue(db.pairings, d.pairings, db.nextRun, db.exposures)
    && RunsContinue(db.runs, d.runs) && db.nextRun <= d.nextRun
    && QueuedEarly(db, d, now) && RunsLate(db, d, now) && WindowsKept(db, d) && SubMap(db.exposures, d.exposures)
  }

  lemma NothingMoved(db: Db, d: Db, round: RoundId, now: int)
    requires d.queue == db.queue && d.pairings == db.pairings && d.runs == db.runs && d.nextRun == db.nextRun
             && d.rounds == db.rounds
    requires SubMap(db.exposures, d.exposures) || d.exposures == db.exposures
    ensures SettledKept(db, d, round, now)
  {
    hide Shows;
  }

  lemma NothingMovedAfter(db: Db, b: Db, d: Db, round: RoundId, now: int)
    requires SettledKept(db, b, round, now)
    requires d.queue == b.queue && d.pairings == b.pairings && d.runs == b.runs && d.nextRun == b.nextRun
             && d.rounds == b.rounds
    requires d.exposures == b.exposures
    ensures SettledKept(db, d, round, now)
  {
    hide Shows, RunLate;
    forall r ensures SameWindow(db, d, r) { assert SameWindow(db, b, r); }
  }

  lemma OneEntryMoved(db: Db, k: (RoundId, Wallet), row: QueueRow, round: RoundId, now: int)
    requires k.0 != round && (row.status != Queued || (k.0 in db.rounds && now < db.rounds[k.0].window.close))
    ensures SettledKept(db, db.(queue := db.queue[k := row]), round, now)
  {
    hide RunLate;
    var d := db.(queue := db.queue[k := row]);
    forall j: (RoundId, Wallet) | Shows(d.queue, j, Queued)
      ensures Shows(db.queue, j, Queued) || (j.0 in db.rounds && now < db.rounds[j.0].window.close)
    {
      if j == k {
        assert k.0 in db.rounds && now < db.rounds[k.0].window.close;
      } else {
        assert Shows(db.queue, j, Queued);
      }
    }
  }

  lemma QueueJoinSettled(db: Db, w: Wallet, r: RoundId, now: int, unresolved: bool, round: RoundId)
    requires r != round || (round in db.rounds && db.rounds[round].window.close <= now)
    ensures SettledKept(db, R.Joined(db, w, r, now, unresolved).db, round, now)
  {
    hide HasLeagueReservation, SettledKept, R.LoadFault;
    NothingMoved(db, db, round, now);
    if R.Joined(db, w, r, now, unresolved).result.Ok? && !R.StillQueued(db, w, r) {
      OneEntryMoved(db, (r, w), QueueRow(Queued, None), round, now);
    }
  }

  lemma QueueLeaveSettled(db: Db, w: Wallet, r: RoundId, now: int, round: RoundId)
    requires r != round || (round in db.rounds && db.rounds[round].window.close <= now)
    ensures SettledKept(db, R.LeftQueue(db, w, r, now).db, round, now)
  {
    hide SettledKept, R.LoadFault;
    NothingMoved(db, db, round, now);
    if R.LeftQueue(db, w, r, now).result.Ok? {
      OneEntryMoved(db, (r, w), db.queue[(r, w)].(status := CancelledEntry), round, now);
    }
  }

  lemma InsertedContinues(pairings: Pairings, next: nat, run: nat, round: RoundId, duels: seq<Duel>)
    requires forall i :: i in pairings ==> i < next
    ensures forall e :: PairingsContinue(pairings, Inserted(pairings, next, run, round, duels), run, e)
  {
    InsertedMeaning(pairings, next, run, round, duels);
    hide Inserted;
  }

  lemma SettledElsewhere(q: Queue, q': Queue, r: RoundId, round: RoundId, plan: R.MatchPlan)
    requires QueueSettled(q, q', r, plan) && r != round
    ensures SameSettled(q, q', round)
  {
    hide FinalStatus;
  }

  lemma SettledQueued(db: Db, d: Db, r: RoundId, plan: R.MatchPlan, now: int)
    requires QueueSettled(db.queue, d.queue, r, plan)
    ensures QueuedEarly(db, d, now) && forall j: (RoundId, Wallet) :: j.0 == r ==> !Shows(d.queue, j, Queued)
  {
    hide R.DuelWallets;
  }

  lemma RunSettled(db: Db, d: Db, r: RoundId, plan: R.MatchPlan, round: RoundId, now: int)
    requires QueueSettled(db.queue, d.queue, r, plan) && r != round && r in db.rounds
             && db.rounds[r].window.close <= now
    requires forall i :: i in db.pairings ==> i < db.nextPairing
    requires d.pairings == Inserted(db.pairings, db.nextPairing, db.nextRun, r, plan.duels)
    requires (r, db.rounds[r].window.close) !in db.runs
             && d.runs == db.runs[(r, db.rounds[r].window.close) := db.nextRun]
    requires d.nextRun == db.nextRun + 1 && d.rounds == db.rounds && d.exposures == db.exposures
    ensures SettledKept(db, d, round, now)
  {
    hide QueueSettled, SameSettled, PairingsContinue, Inserted, QueuedEarly, Shows;
    SettledElsewhere(db.queue, d.queue, r, round, plan);
    SettledQueued(db, d, r, plan, now);
    InsertedContinues(db.pairings, db.nextPairing, db.nextRun, r, plan.duels);
  }

  lemma FreshRunSettled(db: Db, h: R.History, r: RoundId, round: RoundId, now: int)
    requires RankedInv(db) && r in db.rounds && (r, db.rounds[r].window.close) !in db.runs && r != round
    requires db.rounds[r].window.close <= now
    ensures SettledKept(db, R.FreshRun(db, h, r).db, round, now)
  {
    hide R.Admitted, R.Marked, R.NewViews, R.PlanOf, RankedInv, QueueSettled, Inserted, SettledKept;
    var plan, d := R.PlanOf(db, h, r), R.FreshRun(db, h, r).db;
    PairingIdsBelow(db);
    QueueAfterRun(db, h, r);
    RunSettled(db, d, r, plan, round, now);
  }

  lemma PairingIdsBelow(db: Db)
    requires RankedInv(db)
    ensures forall i :: i in db.pairings ==> i < db.nextPairing
  {
    IdsBelow(db.queue, db.runs, WindowsOf(db), db.pairings, db.nextPairing);
  }

  lemma RankedConfirmSettled(db: Db, id: nat, address: BattleAddress, round: RoundId, now: int)
    requires RankedInv(db)
    ensures SettledKept(db, R.Confirmed(db, id, address).db, round, now)
  {
    hide RankedInv, Entry, R.Marked, Materialize, SettledKept;
    NothingMoved(db, db, round, now);
    if R.Confirmed(db, id, address).result.Ok? && db.pairings[id].status == PendingCoordinator {
      var p := db.pairings[id];
      PendingEntries(db, id);
      MaterializeGrows(db, p, address, Ranked);
      CreatedSettled(db, R.Confirmed(db, id, address).db, id, round, now);
    }
  }

  lemma CreatedSettled(db: Db, d: Db, id: nat, round: RoundId, now: int)
    requires id in db.pairings && var p := db.pairings[id];
             Entry(db.queue, p.round, p.a, Matched) && Entry(db.queue, p.round, p.b, Matched)
    requires d.queue == Announced(db.queue, db.pairings[id])
             && d.pairings == db.pairings[id := Materialized(db.pairings[id], id)]
    requires d.runs == db.runs && d.nextRun == db.nextRun && d.rounds == db.rounds && SubMap(db.exposures, d.exposures)
    requires var p := db.pairings[id]; (p.round, p.a) !in db.exposures && (p.round, p.b) !in db.exposures
    ensures SettledKept(db, d, round, now)
  {
    AnnouncedSettled(db.queue, db.pairings[id], round);
    hide SameSettled, RunLate, Entry;
    assert QueuedEarly(db, d, now);
  }

  lemma AnnouncedSettled(q: Queue, p: Pairing, round: RoundId)
    requires Entry(q, p.round, p.a, Matched) && Entry(q, p.round, p.b, Matched)
    ensures SameSettled(q, Announced(q, p), round)
  {
  }

  // ----- time -----

  /** The clock never runs backwards. */
  ghost predicate Timed(events: seq<Event>, from: int) {
    && (forall i :: 0 <= i < |events| ==> from <= events[i].now)
    && (forall i, j :: 0 <= i < j < |events| ==> events[i].now <= events[j].now)
  }

  ghost predicate Closed(db: Db, t: int) { ClosedBy(db.queue, db.runs, WindowsOf(db), t) }

  lemma HeldIsClosed(db: Db, round: RoundId, t: int)
    requires Closed(db, t) && RunHeld(db.runs, WindowsOf(db), round)
    ensures round in db.rounds && db.rounds[round].window.close <= t
  {
  }

  /** The round whose queue a step may change. */
  function QueueRound(step: Step): RoundId {
    match step
    case QueueJoined(_, round, _) => round
    case QueueLeft(_, round) => round
    case MatchmakerRan(_, round) => round
    case _ => 0
  }

  ghost predicate Finished(db: Db, round: RoundId, now: int) {
    RunHeld(db.runs, WindowsOf(db), round) && db.rounds[round].window.close <= now
  }

  /** A step leaves what a finished round's run settled, and the queue of every other round. */
  lemma StepSettled(db: Db, step: Step, now: int, round: RoundId)
    requires RankedInv(db) && Possible(db, step) && (QueueRound(step) != round || Finished(db, round, now))
    ensures SettledKept(db, After(db, step, now), round, now)
  {
    hide RankedInv, SettledKept, R.Joined, R.LeftQueue, R.Confirmed, R.MatchmakerRun, B.PairingsCreated, B.Confirmed;
    match step {
      case QueueJoined(w, r, unresolved) => QueueJoinSettled(db, w, r, now, unresolved, round);
      case QueueLeft(w, r) => QueueLeaveSettled(db, w, r, now, round);
      case MatchmakerRan(h, r) => MatchmakerSettled(db, h, r, now, round);
      case RankedConfirmed(id, address) => RankedConfirmSettled(db, id, address, round, now);
      case RoundPaired(league, no, blockTime, facts, tie) =>
        PairedSettled(db, league, no, blockTime, facts, tie, now, round);
      case LeagueConfirmed(id, address) => LeagueConfirmSettled(db, id, address, round, now);
      case _ => MemberSideSettled(db, step, now, round);
    }
  }

  lemma LeagueConfirmSettled(db: Db, id: nat, address: BattleAddress, round: RoundId, now: int)
    ensures SettledKept(db, B.Confirmed(db, id, address).db, round, now)
  {
    hide Materialize, SettledKept;
    NothingMoved(db, db, round, now);
    if B.Confirmed(db, id, address).result.Ok? && db.leaguePairings[id].status == PendingCoordinator {
      MaterializeGrows(db, db.leaguePairings[id], address, LeagueMode);
      NothingMoved(db, B.Confirmed(db, id, address).db, round, now);
    }
  }

  lemma MatchmakerSettled(db: Db, h: R.History, r: RoundId, now: int, round: RoundId)
    requires RankedInv(db) && (r != round || RunHeld(db.runs, WindowsOf(db), round))
    ensures SettledKept(db, R.MatchmakerRun(db, h, r, now).db, round, now)
  {
    hide R.StoredRun, R.FreshRun, SettledKept, RankedInv, R.MatchmakerFault;
    NothingMoved(db, db, round, now);
    if R.MatchmakerFault(db, r, now).None? {
      R.FaultMeansKnown(db, r, now);
      RunsAreLate(db, r, now);
      if (r, db.rounds[r].window.close) !in db.runs {
        FreshRunSettled(db, h, r, round, now);
      }
    }
  }

  lemma PairedSettled(db: Db, league: LeagueId, no: int, blockTime: int, f: B.Facts, tie: Swiss.TieKeys, now: int,
                      round: RoundId)
    ensures SettledKept(db, B.PairingsCreated(db, league, no, blockTime, now, f, tie).db, round, now)
  {
    hide SettledKept, B.PairingFault, B.FreshPairings, B.RunStored;
    var r, bye, duels := FreshPairingsShape(db, league, no, now, f, tie);
    NothingMoved(db, db, round, now);
    RunStoredSettled(db, league, no, r, bye, duels, now, round);
  }

  lemma RunStoredSettled(db: Db, league: LeagueId, no: int, r: RoundId, bye: Option<Wallet>, duels: seq<Duel>, now: int,
                         round: RoundId)
    ensures SettledKept(db, B.RunStored(db, league, no, r, bye, duels, now), round, now)
  {
    hide SettledKept, B.WithBye, Inserted;
    NothingMoved(db, B.RunStored(db, league, no, r, bye, duels, now), round, now);
  }

  lemma TransitionSettled(db: Db, league: LeagueId, w: Wallet, state: MembershipState, now: int,
                          from: set<ReservationStatus>,
                          to: ReservationStatus, round: RoundId)
    requires (league, w) in db.memberships
    ensures SettledKept(db, L.Transitioned(db, league, w, state, now, from, to), round, now)
  {
    hide SettledKept, L.MemberSet, L.Retag;
    NothingMoved(db, L.Transitioned(db, league, w, state, now, from, to), round, now);
  }

  lemma ExpirySettled(db: Db, now: int, round: RoundId)
    ensures SettledKept(db, L.Expired(db, now), round, now)
  {
    hide SettledKept, L.ExpiredMemberships, L.ExpiredReservations;
    NothingMoved(db, L.Expired(db, now), round, now);
  }

  lemma JoinStoredAfter(db: Db, d: Db, league: LeagueId, w: Wallet, now: int, round: RoundId)
    requires L.Reserve(d.reservations, ScheduleOf(d, league), w, league).Some? && SettledKept(db, d, round, now)
    ensures SettledKept(db, L.JoinStored(d, league, w, now), round, now)
  {
    hide SettledKept, L.Reserve, L.JoinedMembership;
    NothingMovedAfter(db, d, L.JoinStored(d, league, w, now), round, now);
  }

  lemma JoinAskedSettled(db: Db, league: LeagueId, w: Wallet, now: int, round: RoundId)
    ensures SettledKept(db, L.JoinRequested(db, league, w, now).db, round, now)
  {
    var d := L.Expired(db, now);
    ExpirySettled(db, now, round);
    NothingMoved(db, db, round, now);
    hide SettledKept, L.Expired, L.Reserve, L.JoinStored, L.AnySlotBlocked;
    if L.JoinRequested(db, league, w, now).result.Ok? {
      JoinStoredAfter(db, d, league, w, now, round);
    }
  }

  lemma JoinSeenSettled(db: Db, league: LeagueId, w: Wallet, matches: bool, now: int, round: RoundId)
    ensures SettledKept(db, L.JoinConfirmed(db, league, w, matches, now).db, round, now)
  {
    hide SettledKept, L.Transitioned;
    NothingMoved(db, db, round, now);
    if (league, w) in db.memberships {
      TransitionSettled(db, league, w, ActiveMember, now, {Pending}, ActiveReservation, round);
    }
  }

  lemma LeaveAskedSettled(db: Db, league: LeagueId, w: Wallet, now: int, round: RoundId)
    ensures SettledKept(db, L.LeaveRequested(db, league, w, now).db, round, now)
  {
    hide SettledKept, L.Transitioned;
    NothingMoved(db, db, round, now);
    if (league, w) in db.memberships {
      TransitionSettled(db, league, w, PendingLeave, now, {Pending, ActiveReservation}, LeavePending, round);
    }
  }

  lemma LeaveSeenSettled(db: Db, league: LeagueId, w: Wallet, now: int, round: RoundId)
    ensures SettledKept(db, L.LeaveConfirmed(db, league, w, now).db, round, now)
  {
    hide SettledKept, L.Transitioned;
    NothingMoved(db, db, round, now);
    if (league, w) in db.memberships {
      TransitionSettled(db, league, w, Left, now, {LeavePending}, CancelledReservation, round);
    }
  }

  lemma SchedulesSettled(db: Db, schedules: Schedules, round: RoundId, now: int)
    ensures SettledKept(db, db.(schedules := schedules), round, now)
  {
    hide SettledKept;
    NothingMoved(db, db.(schedules := schedules), round, now);
  }

  lemma AssignedSettled(db: Db, league: LeagueId, es: seq<L.Entry>, now: int, round: RoundId)
    ensures SettledKept(db, L.Assigned(db, league, es, now).db, round, now)
  {
    hide SettledKept, L.AssignFault, L.AsSlots;
    NothingMoved(db, db, round, now);
    SchedulesSettled(db, db.schedules[league := L.AsSlots(es)], round, now);
  }

  lemma ExposureSettled(db: Db, r: RoundId, w: Wallet, address: BattleAddress, round: RoundId, now: int)
    ensures SettledKept(db, B.ExposureIndexed(db, r, w, address).db, round, now)
  {
    hide SettledKept;
    if (r, w) in db.exposures || address !in db.battles || r !in db.rounds {
      NothingMoved(db, db, round, now);
    } else {
      ExposureAdded(db, (r, w), address, round, now);
    }
  }

  lemma ExposureAdded(db: Db, k: (RoundId, Wallet), address: BattleAddress, round: RoundId, now: int)
    requires k !in db.exposures
    ensures SettledKept(db, db.(exposures := db.exposures[k := address]), round, now)
  {
    hide SettledKept;
    NothingMoved(db, db.(exposures := db.exposures[k := address]), round, now);
  }

  lemma MemberSideSettled(db: Db, step: Step, now: int, round: RoundId)
    requires !step.MatchmakerRan? && !step.RoundPaired? && !step.LeagueConfirmed? && !step.QueueJoined?
             && !step.QueueLeft? && !step.RankedConfirmed?
    requires Possible(db, step)
    ensures SettledKept(db, After(db, step, now), round, now)
  {
    hide SettledKept, L.Assigned, L.JoinRequested, L.JoinConfirmed, L.LeaveRequested, L.LeaveConfirmed, L.Expired,
      B.ExposureIndexed;
    match step {
      case ScheduleAssigned(league, entries) => AssignedSettled(db, league, entries, now, round);
      case JoinAsked(league, w) => JoinAskedSettled(db, league, w, now, round);
      case JoinSeen(league, w, matches) => JoinSeenSettled(db, league, w, matches, now, round);
      case LeaveAsked(league, w) => LeaveAskedSettled(db, league, w, now, round);
      case LeaveSeen(league, w) => LeaveSeenSettled(db, league, w, now, round);
      case JoinsExpired => ExpirySettled(db, now, round);
      case ExposureSeen(r, w, address) => ExposureSettled(db, r, w, address, round, now);
      case RoundIndexed(r, row) => RoundSettled(db, r, row, round, now);
      case _ => NothingMoved(db, After(db, step, now), round, now);
    }
  }

  lemma RoundSettled(db: Db, r: RoundId, row: MarketRound, round: RoundId, now: int)
    requires r in db.rounds ==> row.window == db.rounds[r].window
    ensures SettledKept(db, db.(rounds := db.rounds[r := row]), round, now)
  {
    hide Shows;
  }

  // ----- a retried run -----

  /** A run appears only once its queue is closed. */
  lemma RunsAreLate(db: Db, round: RoundId, now: int)
    requires R.MatchmakerFault(db, round, now).None?
    ensures round in db.rounds && db.rounds[round].window.close <= now
  {
  }

  lemma RunsStayClosed(db: Db, d: Db, round: RoundId, now: int, t: int, k: (RoundId, int))
    requires SettledKept(db, d, round, now) && Closed(db, t) && t <= now && k in d.runs
    ensures k.0 in d.rounds && d.rounds[k.0].window.close <= now
  {
    hide SameSettled, PairingsContinue, QueuedEarly, RunsContinue;
    assert SameWindow(db, d, k.0);
    if k in db.runs {
      assert k.0 in WindowsOf(db) && WindowsOf(db)[k.0].close <= t;
    } else {
      assert RunLate(db, d.queue, k, now);
    }
  }

  lemma EntriesStayClosed(db: Db, d: Db, round: RoundId, now: int, t: int, k: (RoundId, Wallet))
    requires SettledKept(db, d, round, now) && Closed(db, t) && t <= now && RunKeys(db.runs, WindowsOf(db), db.nextRun)
    requires k in d.queue && RunHeld(d.runs, WindowsOf(d), k.0)
    ensures d.queue[k].status != Queued
  {
    hide SameSettled, PairingsContinue, RunsContinue;
    var key := (k.0, d.rounds[k.0].window.close);
    assert SameWindow(db, d, k.0);
    if key in db.runs {
      assert key.0 in WindowsOf(db) && key.1 == WindowsOf(db)[key.0].close;
      assert RunHeld(db.runs, WindowsOf(db), k.0);
    } else {
      assert RunLate(db, d.queue, key, now);
      assert !Shows(d.queue, k, Queued);
    }
  }

  /** Once a round's matchmaker has run, its queue stays closed and empty. */
  lemma StaysClosed(db: Db, d: Db, round: RoundId, now: int, t: int)
    requires SettledKept(db, d, round, now) && Closed(db, t) && t <= now && RankedInv(db)
    ensures Closed(d, now)
  {
    assert RunKeys(db.runs, WindowsOf(db), db.nextRun);
    hide SettledKept, RankedInv, RunHeld;
    forall k | k in d.runs
      ensures k.0 in WindowsOf(d) && WindowsOf(d)[k.0].close <= now
    {
      RunsStayClosed(db, d, round, now, t, k);
    }
    forall k | k in d.queue && RunHeld(d.runs, WindowsOf(d), k.0) ensures d.queue[k].status != Queued {
      EntriesStayClosed(db, d, round, now, t, k);
    }
  }

  lemma StepStaysClosed(db: Db, step: Step, now: int, t: int)
    requires RankedInv(db) && Possible(db, step) && Closed(db, t) && t <= now
    ensures Closed(After(db, step, now), now)
  {
    hide RankedInv, After, Closed, SettledKept;
    StepSettled(db, step, now, QueueRound(step) + 1);
    StaysClosed(db, After(db, step, now), QueueRound(step) + 1, now, t);
  }

  // ----- a retried run -----

  /** What a run decided: its pairings without their progress, and who was left out and why. */
  datatype Decision = Decision(duels: seq<(nat, Duel)>, unmatched: seq<Wallet>, blocked: seq<Wallet>)

  function Core(v: R.PairingView): (nat, Duel) {
    (v.id, Duel(v.pairing.a, v.pairing.b, v.pairing.ratingA, v.pairing.ratingB))
  }

  function Cores(views: seq<R.PairingView>): seq<(nat, Duel)> { Map(views, (v: R.PairingView) => Core(v)) }

  function DecisionOf(r: R.MatchRun): Decision { Decision(Cores(r.pairings), r.unmatched, r.blocked) }

  lemma SameIds(pairings: Pairings, pairings': Pairings, nextRun: nat, run: nat, exposures: Exposures)
    requires PairingsContinue(pairings, pairings', nextRun, exposures) && run < nextRun
    ensures R.RunIds(pairings', run) == R.RunIds(pairings, run)
  {
    forall i: nat ensures i in R.RunIds(pairings', run) <==> i in R.RunIds(pairings, run) {
      if i in pairings { assert Continues(pairings[i], pairings'[i], i, exposures); }
    }
  }

  lemma SameWallets(db: Db, d: Db, round: RoundId)
    requires SameSettled(db.queue, d.queue, round)
    ensures WalletsShown(db.queue, round, Unmatched) == WalletsShown(d.queue, round, Unmatched)
    ensures WalletsShown(db.queue, round, Blocked) == WalletsShown(d.queue, round, Blocked)
  {
    forall w: Wallet
      ensures w in WalletsShown(db.queue, round, Unmatched) <==> w in WalletsShown(d.queue, round, Unmatched)
      ensures w in WalletsShown(db.queue, round, Blocked) <==> w in WalletsShown(d.queue, round, Blocked)
    {
      ShownMeaning(db.queue, round, w, Unmatched);
      ShownMeaning(d.queue, round, w, Unmatched);
      ShownMeaning(db.queue, round, w, Blocked);
      ShownMeaning(d.queue, round, w, Blocked);
      assert (round, w).0 == round;
    }
  }

  ghost function WalletsShown(q: Queue, round: RoundId, status: QueueStatus): set<Wallet> {
    set k | k in q && k.0 == round && q[k].status == status :: k.1
  }

  lemma ShownMeaning(q: Queue, round: RoundId, w: Wallet, status: QueueStatus)
    ensures w in WalletsShown(q, round, status) <==> Shows(q, (round, w), status)
  {
    if w in WalletsShown(q, round, status) {
      var k :| k in q && k.0 == round && q[k].status == status && k.1 == w;
      assert k == (round, w);
    }
    if Shows(q, (round, w), status) { assert (round, w).1 in WalletsShown(q, round, status); }
  }

  lemma DecisionKept(db: Db, d: Db, round: RoundId, run: nat, now: int)
    requires SettledKept(db, d, round, now) && run < db.nextRun
    ensures DecisionOf(R.StoredRun(d, run, round)) == DecisionOf(R.StoredRun(db, run, round))
  {
    SameWallets(db, d, round);
    assert R.WalletsWith(db, round, Unmatched) == WalletsShown(db.queue, round, Unmatched);
    assert R.WalletsWith(d, round, Unmatched) == WalletsShown(d.queue, round, Unmatched);
    assert R.WalletsWith(db, round, Blocked) == WalletsShown(db.queue, round, Blocked);
    assert R.WalletsWith(d, round, Blocked) == WalletsShown(d.queue, round, Blocked);
    hide SameSettled, QueuedEarly, RunsLate, WindowsKept, RunsContinue;
    SameIds(db.pairings, d.pairings, db.nextRun, run, db.exposures);
    ViewsKept(db.pairings, d.pairings, db.nextRun, run, db.exposures);
  }

  lemma CoresAt(table: Pairings, run: nat)
    ensures var ids, cores := Ascending(R.RunIds(table, run)), Cores(R.Views(table, run));
            && |cores| == |ids| && forall k :: 0 <= k < |ids| ==> cores[k] == Core(R.ViewAt(table, run, ids[k]))
  {
    hide R.ViewAt, Core, R.RunIds;
  }

  lemma ViewsKept(pairings: Pairings, pairings': Pairings, nextRun: nat, run: nat, exposures: Exposures)
    requires PairingsContinue(pairings, pairings', nextRun, exposures)
             && R.RunIds(pairings', run) == R.RunIds(pairings, run)
    ensures Cores(R.Views(pairings', run)) == Cores(R.Views(pairings, run))
  {
    var ids := Ascending(R.RunIds(pairings, run));
    AscendingMeaning(R.RunIds(pairings, run));
    CoresAt(pairings, run);
    CoresAt(pairings', run);
    hide R.Views, Cores;
    forall k | 0 <= k < |ids| ensures Core(R.ViewAt(pairings', run, ids[k])) == Core(R.ViewAt(pairings, run, ids[k])) {
      assert ids[k] in R.RunIds(pairings, run);
      assert Continues(pairings[ids[k]], pairings'[ids[k]], ids[k], exposures);
    }
  }
}
