/** Whole runs of queueing, matching, joining, leaving, scheduling, pairing and confirming: what
    holds in every state any interleaving of them can reach. */
module ObligationRuns {
  import opened Wrappers
  import opened Sequences
  import opened Tables
  import opened LeagueInvariants
  import opened RankedInvariants
  import opened LeaguePairingInvariants
  import L = LeagueOperations
  import B = LeagueBattles
  import R = RankedOperations
  import Swiss = SwissPairing

  /** One committed or refused transaction. The first four are other parts of the system: rounds,
      Leagues and Battles as they are registered and indexed. */
  datatype Step =
    | RoundIndexed(round: RoundId, row: MarketRound)
    | LeagueRegistered(league: LeagueId, terms: League)
    | LeagueReconciled(league: LeagueId, status: LeagueStatus, currentRound: int)
    | BattleIndexed(address: BattleAddress, battle: BattleRow)
    | ScheduleAssigned(league: LeagueId, entries: seq<L.Entry>)
    | JoinAsked(league: LeagueId, w: Wallet)
    | JoinSeen(league: LeagueId, w: Wallet, matches: bool)
    | LeaveAsked(league: LeagueId, w: Wallet)
    | LeaveSeen(league: LeagueId, w: Wallet)
    | JoinsExpired
    | QueueJoined(w: Wallet, round: RoundId, unresolved: bool)
    | QueueLeft(w: Wallet, round: RoundId)
    | MatchmakerRan(history: R.History, round: RoundId)
    | RankedConfirmed(id: nat, address: BattleAddress)
    | RoundPaired(league: LeagueId, no: int, blockTime: int, facts: B.Facts, tie: Swiss.TieKeys)
    | LeagueConfirmed(id: nat, address: BattleAddress)
    | ExposureSeen(round: RoundId, w: Wallet, address: BattleAddress)

  /** A Market Round's window is ordered and never changes; a League's terms are registered once; a
      Battle account never changes its round, players or mode. */
  ghost predicate Possible(db: Db, step: Step) {
    match step
    case RoundIndexed(round, row) =>
      && row.window.close < row.window.start < row.window.end
      && (round in db.rounds ==> row.window == db.rounds[round].window)
    case LeagueRegistered(league, _) => league !in db.leagues
    case LeagueReconciled(league, _, _) => league in db.leagues
    case BattleIndexed(address, battle) => BattleRowFits(db, address, battle)
    case _ => true
  }

  function After(db: Db, step: Step, now: int): Db {
    match step
    case RoundIndexed(round, row) => db.(rounds := db.rounds[round := row])
    case LeagueRegistered(league, terms) =>
      if league in db.leagues then db else db.(leagues := db.leagues[league := terms])
    case LeagueReconciled(league, status, currentRound) =>
      if league !in db.leagues then db
      else db.(leagues := db.leagues[league := db.leagues[league].(status := status, currentRound := currentRound)])
    case BattleIndexed(address, battle) => db.(battles := db.battles[address := battle])
    case ScheduleAssigned(league, entries) => L.Assigned(db, league, entries, now).db
    case JoinAsked(league, w) => L.JoinRequested(db, league, w, now).db
    case JoinSeen(league, w, matches) => L.JoinConfirmed(db, league, w, matches, now).db
    case LeaveAsked(league, w) => L.LeaveRequested(db, league, w, now).db
    case LeaveSeen(league, w) => L.LeaveConfirmed(db, league, w, now).db
    case JoinsExpired => L.Expired(db, now)
    case QueueJoined(w, round, unresolved) => R.Joined(db, w, round, now, unresolved).db
    case QueueLeft(w, round) => R.LeftQueue(db, w, round, now).db
    case MatchmakerRan(history, round) => R.MatchmakerRun(db, history, round, now).db
    case RankedConfirmed(id, address) => R.Confirmed(db, id, address).db
    case RoundPaired(league, no, blockTime, facts, tie) =>
      B.PairingsCreated(db, league, no, blockTime, now, facts, tie).db
    case LeagueConfirmed(id, address) => B.Confirmed(db, id, address).db
    case ExposureSeen(round, w, address) => B.ExposureIndexed(db, round, w, address).db
  }

  ghost predicate Inv(db: Db) { LeagueInv(db) && RankedInv(db) && ExposureInv(db) && PairedInv(db) }

  // ----- rounds appear -----

  ghost predicate Unmoved(ws: Windows, ws': Windows, r: RoundId) { r in ws ==> r in ws' && ws'[r] == ws[r] }

  ghost predicate WindowsGrow(ws: Windows, ws': Windows) { forall r :: Unmoved(ws, ws', r) }

  lemma ReservedGrow(q: Queue, res: Reservations, ws: Windows, ws': Windows)
    requires ReservedApart(res, ws) && QueueApart(q, res, ws) && WindowsGrow(ws, ws')
    ensures ReservedApart(res, ws') && QueueApart(q, res, ws')
  {
    hide LiveReservation, LiveEntry;
    forall k | k in res && LiveReservation(res[k]) ensures k.0 in ws' {
      assert Unmoved(ws, ws', k.0);
    }
    forall k | k in q ensures k.0 in ws' {
      assert Unmoved(ws, ws', k.0);
    }
    forall j, k | j in res && k in res && LiveReservation(res[j]) && LiveReservation(res[k]) && j.1 == k.1 && j.0 != k.0
      ensures Apart(ws', j.0, k.0)
    {
      assert Unmoved(ws, ws', j.0) && Unmoved(ws, ws', k.0) && Apart(ws, j.0, k.0);
    }
    forall j, k | j in q && k in res && LiveEntry(q[j]) && LiveReservation(res[k]) && j.1 == k.1
      ensures Apart(ws', j.0, k.0)
    {
      assert Unmoved(ws, ws', j.0) && Unmoved(ws, ws', k.0) && Apart(ws, j.0, k.0);
    }
  }

  lemma SchedulesGrow(schedules: Schedules, ws: Windows, ws': Windows)
    requires SchedulesApart(schedules, ws) && WindowsGrow(ws, ws')
    ensures SchedulesApart(schedules, ws')
  {
    forall l | l in schedules ensures SlotsApart(schedules[l], ws') {
      assert SlotsApart(schedules[l], ws);
      forall k | 0 <= k < |schedules[l]| ensures schedules[l][k].round in ws' {
        assert Unmoved(ws, ws', schedules[l][k].round);
      }
      forall i, j | 0 <= i < j < |schedules[l]| ensures Apart(ws', schedules[l][i].round, schedules[l][j].round) {
        assert Unmoved(ws, ws', schedules[l][i].round) && Unmoved(ws, ws', schedules[l][j].round);
        assert Apart(ws, schedules[l][i].round, schedules[l][j].round);
      }
    }
  }

  lemma WindowsGrowLeague(db: Db, d: Db)
    requires LeagueInv(db) && d == db.(rounds := d.rounds) && WindowsGrow(WindowsOf(db), WindowsOf(d))
             && WindowsOrdered(WindowsOf(d))
    ensures LeagueInv(d)
  {
    hide WindowsOf, Lockstep, WithinCapacity, WindowsGrow, SchedulesApart, ReservedApart, QueueApart, WindowsOrdered;
    SchedulesGrow(db.schedules, WindowsOf(db), WindowsOf(d));
    ReservedGrow(db.queue, db.reservations, WindowsOf(db), WindowsOf(d));
  }

  lemma RankedGrow(q: Queue, runs: Runs, ws: Windows, ws': Windows, pairings: Pairings, nextRun: nat, next: nat)
    requires RankedTables(q, runs, ws, pairings, nextRun, next) && WindowsGrow(ws, ws')
             && forall k :: k in q ==> k.0 in ws
    ensures RankedTables(q, runs, ws', pairings, nextRun, next)
  {
    forall k | k in q ensures RunHeld(runs, ws', k.0) <==> RunHeld(runs, ws, k.0) {
      assert Unmoved(ws, ws', k.0);
    }
    assert QuietBeforeRun(q, runs, ws');
    forall k | k in runs ensures k.0 in ws' && k.1 == ws'[k.0].close && runs[k] < nextRun {
      assert Unmoved(ws, ws', k.0);
    }
    hide QuietBeforeRun, RunKeys, PairingsApart, EntriesPaired, Entry;
    forall i | i in pairings ensures PairingStands(q, runs, ws', next, i, pairings[i]) {
      assert PairingStands(q, runs, ws, next, i, pairings[i]) && Unmoved(ws, ws', pairings[i].round);
    }
  }

  lemma QueueRounds(db: Db)
    requires LeagueInv(db)
    ensures forall k :: k in db.queue ==> k.0 in WindowsOf(db)
  {
  }

  lemma WindowsGrowRanked(db: Db, d: Db)
    requires LeagueInv(db) && RankedInv(db) && d == db.(rounds := d.rounds) && WindowsGrow(WindowsOf(db), WindowsOf(d))
    ensures RankedInv(d)
  {
    QueueRounds(db);
    hide WindowsOf, LeagueInv, RankedTables, WindowsGrow;
    RankedGrow(db.queue, db.runs, WindowsOf(db), WindowsOf(d), db.pairings, db.nextRun, db.nextPairing);
  }

  lemma RoundStep(db: Db, round: RoundId, row: MarketRound)
    requires LeagueInv(db) && RankedInv(db) && Possible(db, RoundIndexed(round, row))
    ensures LeagueInv(db.(rounds := db.rounds[round := row])) && RankedInv(db.(rounds := db.rounds[round := row]))
  {
    var d := db.(rounds := db.rounds[round := row]);
    assert WindowsGrow(WindowsOf(db), WindowsOf(d));
    forall r | r in WindowsOf(d) ensures WindowsOf(d)[r].close < WindowsOf(d)[r].start < WindowsOf(d)[r].end {
      assert r != round ==> r in WindowsOf(db);
    }
    hide LeagueInv, RankedInv, WindowsOf, WindowsOrdered, WindowsGrow;
    WindowsGrowLeague(db, d);
    WindowsGrowRanked(db, d);
  }

  // ----- what only changes other tables -----

  lemma SameLeagueSide(db: Db, d: Db)
    requires LeagueInv(db) && d.rounds == db.rounds && d.schedules == db.schedules && d.memberships == db.memberships
    requires d.reservations == db.reservations && d.queue == db.queue && d.leagues == db.leagues
    ensures LeagueInv(d)
  {
    hide WindowsOf, WindowsOrdered, SchedulesApart, Lockstep, ReservedApart, QueueApart, WithinCapacity;
    SameWindows(db, d);
  }

  lemma SameRankedSide(db: Db, d: Db)
    requires RankedInv(db) && d.rounds == db.rounds && d.queue == db.queue && d.runs == db.runs
             && d.pairings == db.pairings
    requires d.nextRun == db.nextRun && d.nextPairing == db.nextPairing
    ensures RankedInv(d)
  {
    hide WindowsOf, RankedTables;
    SameWindows(db, d);
  }

  /** Entries become live only by joining, so every other queue change keeps windows apart. */
  lemma FewerEntries(db: Db, d: Db)
    requires LeagueInv(db) && d.rounds == db.rounds && d.schedules == db.schedules && d.memberships == db.memberships
    requires d.reservations == db.reservations && d.leagues == db.leagues
    requires forall k :: k in d.queue ==> k in db.queue && (LiveEntry(d.queue[k]) ==> LiveEntry(db.queue[k]))
    ensures LeagueInv(d)
  {
    hide WindowsOf, WindowsOrdered, SchedulesApart, Lockstep, ReservedApart, WithinCapacity, Apart, LiveReservation;
    SameWindows(db, d);
    assert QueueApart(d.queue, d.reservations, WindowsOf(d));
  }

  ghost predicate FreeAt(res: Reservations, ws: Windows, round: RoundId, w: Wallet) {
    forall k :: k in res && LiveReservation(res[k]) && k.1 == w ==> Apart(ws, round, k.0)
  }

  lemma NoReservationIsFree(db: Db, round: RoundId, w: Wallet)
    requires LeagueInv(db) && round in db.rounds && !HasLeagueReservation(db, round, w)
    ensures FreeAt(db.reservations, WindowsOf(db), round, w)
  {
    hide LiveReservation, Lockstep, WithinCapacity, SchedulesApart;
    forall k | k in db.reservations && LiveReservation(db.reservations[k]) && k.1 == w
      ensures Apart(WindowsOf(db), round, k.0)
    {
      assert !RoundOverlaps(db, k.0, db.rounds[round].window);
    }
  }

  lemma AddEntryApart(q: Queue, res: Reservations, ws: Windows, round: RoundId, w: Wallet, row: QueueRow)
    requires QueueApart(q, res, ws) && round in ws && FreeAt(res, ws, round, w)
    ensures QueueApart(q[(round, w) := row], res, ws)
  {
    hide LiveReservation, LiveEntry, Apart;
  }

  lemma AddEntryStep(db: Db, round: RoundId, w: Wallet, row: QueueRow)
    requires LeagueInv(db) && round in db.rounds && !HasLeagueReservation(db, round, w)
    ensures LeagueInv(db.(queue := db.queue[(round, w) := row]))
  {
    NoReservationIsFree(db, round, w);
    assert round in WindowsOf(db);
    SameWindows(db, db.(queue := db.queue[(round, w) := row]));
    hide WindowsOf, WindowsOrdered, SchedulesApart, Lockstep, ReservedApart, QueueApart, WithinCapacity, FreeAt;
    AddEntryApart(db.queue, db.reservations, WindowsOf(db), round, w, row);
  }

  lemma QueueJoinStep(db: Db, w: Wallet, round: RoundId, now: int, unresolved: bool)
    requires LeagueInv(db)
    ensures LeagueInv(R.Joined(db, w, round, now, unresolved).db)
  {
    hide LeagueInv, HasLeagueReservation, R.LoadFault;
    if R.Joined(db, w, round, now, unresolved).result.Ok? && !R.StillQueued(db, w, round) {
      AddEntryStep(db, round, w, QueueRow(Queued, None));
    }
  }

  lemma QueueLeaveStep(db: Db, w: Wallet, round: RoundId, now: int)
    requires LeagueInv(db)
    ensures LeagueInv(R.LeftQueue(db, w, round, now).db)
  {
    hide LeagueInv, R.LoadFault;
    if R.LeftQueue(db, w, round, now).result.Ok? { FewerEntries(db, R.LeftQueue(db, w, round, now).db); }
  }

  lemma MatchmakerStep(db: Db, h: R.History, round: RoundId, now: int)
    requires LeagueInv(db)
    ensures LeagueInv(R.MatchmakerRun(db, h, round, now).db)
  {
    hide LeagueInv, R.StoredRun, QueueSettled, R.PlanOf;
    if R.MatchmakerFault(db, round, now).None? && (round, db.rounds[round].window.close) !in db.runs {
      var d := R.FreshRun(db, h, round).db;
      QueueAfterRun(db, h, round);
      SettledIsFewer(db.queue, d.queue, round, R.PlanOf(db, h, round));
      hide R.Admitted, R.Marked, Inserted, R.NewViews;
      FewerEntries(db, d);
    }
  }

  lemma SettledIsFewer(q: Queue, q': Queue, round: RoundId, plan: R.MatchPlan)
    requires QueueSettled(q, q', round, plan)
    ensures forall k :: k in q' ==> k in q && (LiveEntry(q'[k]) ==> LiveEntry(q[k]))
  {
    hide FinalStatus;
  }

  lemma AnnouncedIsFewer(q: Queue, p: Pairing)
    requires Entry(q, p.round, p.a, Matched) && Entry(q, p.round, p.b, Matched)
    ensures forall k :: k in Announced(q, p) ==> k in q && (LiveEntry(Announced(q, p)[k]) ==> LiveEntry(q[k]))
  {
  }

  lemma PendingEntries(db: Db, id: nat)
    requires RankedInv(db) && id in db.pairings && db.pairings[id].status == PendingCoordinator
    ensures var p := db.pairings[id]; Entry(db.queue, p.round, p.a, Matched) && Entry(db.queue, p.round, p.b, Matched)
  {
    assert PairingStands(db.queue, db.runs, WindowsOf(db), db.nextPairing, id, db.pairings[id]);
  }

  lemma ConfirmStep(db: Db, id: nat, address: BattleAddress)
    requires LeagueInv(db) && RankedInv(db)
    ensures LeagueInv(R.Confirmed(db, id, address).db)
  {
    hide LeagueInv, RankedInv, R.Marked, Entry, LiveEntry;
    if R.Confirmed(db, id, address).result.Ok? && db.pairings[id].status == PendingCoordinator {
      PendingEntries(db, id);
      AnnouncedIsFewer(db.queue, db.pairings[id]);
      FewerEntries(db, R.Confirmed(db, id, address).db);
    }
  }

  // ----- Leagues appear and progress; a bye is counted -----

  lemma LeaguesStep(db: Db, leagues: map<LeagueId, League>)
    requires LeagueInv(db)
    requires forall l :: l in db.leagues ==> l in leagues && leagues[l].maxPlayers == db.leagues[l].maxPlayers
    ensures LeagueInv(db.(leagues := leagues))
  {
    hide WindowsOf, WindowsOrdered, SchedulesApart, Lockstep, ReservedApart, QueueApart;
    SameWindows(db, db.(leagues := leagues));
    MoreLeagues(db.leagues, leagues, db.memberships);
  }

  lemma MoreLeagues(leagues: map<LeagueId, League>, leagues': map<LeagueId, League>, ms: Memberships)
    requires WithinCapacity(leagues, ms)
    requires forall l :: l in leagues ==> l in leagues' && leagues'[l].maxPlayers == leagues[l].maxPlayers
    ensures WithinCapacity(leagues', ms)
  {
    forall k | k in ms ensures k.0 in leagues' {
      var l := k.0;
      assert l in leagues;
    }
    forall l | l in leagues' ensures |LiveOf(ms, l)| <= leagues'[l].maxPlayers {
      if l !in leagues { assert LiveOf(ms, l) == {}; }
    }
  }

  ghost predicate SameStates(ms: Memberships, ms': Memberships) {
    ms'.Keys == ms.Keys && forall k :: k in ms ==> ms'[k].state == ms[k].state
  }

  lemma SameStatesKeep(db: Db, ms': Memberships)
    requires LeagueInv(db) && SameStates(db.memberships, ms')
    ensures LeagueInv(db.(memberships := ms'))
  {
    hide WindowsOf, WindowsOrdered, SchedulesApart, ReservedApart, QueueApart;
    SameWindows(db, db.(memberships := ms'));
    FewerMembers(db.leagues, db.memberships, ms');
    hide WithinCapacity, SlotsOf;
    forall k | k in ms' && LiveMember(ms'[k])
      ensures HoldsAll(db.reservations, SlotsOf(db.schedules, k.0), k.0, k.1, Tag(ms'[k].state))
    {
      assert LiveMember(db.memberships[k]);
    }
    forall k | k in db.reservations && LiveReservation(db.reservations[k])
      ensures Owned(ms', db.schedules, db.reservations[k], k.0, k.1)
    {
      assert Owned(db.memberships, db.schedules, db.reservations[k], k.0, k.1);
    }
  }

  lemma WithByeSame(db: Db, league: LeagueId, bye: Option<Wallet>, now: int)
    ensures SameStates(db.memberships, B.WithBye(db, league, bye, now))
  {
  }

  lemma RunStoredStep(db: Db, league: LeagueId, no: int, round: RoundId, bye: Option<Wallet>, duels: seq<Duel>,
                      now: int)
    requires LeagueInv(db) && RankedInv(db)
    ensures var d := B.RunStored(db, league, no, round, bye, duels, now); LeagueInv(d) && RankedInv(d)
  {
    hide LeagueInv, RankedInv, B.WithBye, Inserted, SameStates;
    var d := B.RunStored(db, league, no, round, bye, duels, now);
    WithByeSame(db, league, bye, now);
    SameStatesKeep(db, B.WithBye(db, league, bye, now));
    SameLeagueSide(db.(memberships := B.WithBye(db, league, bye, now)), d);
    SameRankedSide(db, d);
  }

  /** A fresh League run stores a run, or fails and stores nothing. */
  lemma FreshPairingsShape(db: Db, league: LeagueId, no: int, now: int, f: B.Facts, tie: Swiss.TieKeys)
    returns (round: RoundId, bye: Option<Wallet>, duels: seq<Duel>)
    ensures var o := B.FreshPairings(db, league, no, now, f, tie);
            o.db == if o.result.Ok? then B.RunStored(db, league, no, round, bye, duels, now) else db
  {
    hide Swiss.PlanSwiss, B.Candidates, B.DuelsOf, B.FindSlot, B.ByeWallet, B.RunStored;
    var players, slot := B.Candidates(db, league, f), B.FindSlot(ScheduleOf(db, league), no);
    round, bye, duels := 0, None, [];
    if Swiss.PlanSwiss(players, tie).Ok? && slot.Some? {
      var plan := Swiss.PlanSwiss(players, tie).value;
      round, bye, duels := slot.value, B.ByeWallet(players, plan.bye), B.DuelsOf(players, plan.pairs);
    }
  }

  lemma FreshPairingsStep(db: Db, league: LeagueId, no: int, now: int, f: B.Facts, tie: Swiss.TieKeys)
    requires LeagueInv(db) && RankedInv(db)
    ensures var d := B.FreshPairings(db, league, no, now, f, tie).db; LeagueInv(d) && RankedInv(d)
  {
    hide LeagueInv, RankedInv, B.FreshPairings, B.RunStored;
    var round, bye, duels := FreshPairingsShape(db, league, no, now, f, tie);
    RunStoredStep(db, league, no, round, bye, duels, now);
  }

  lemma RoundPairedStep(db: Db, league: LeagueId, no: int, blockTime: int, now: int, f: B.Facts, tie: Swiss.TieKeys)
    requires LeagueInv(db) && RankedInv(db)
    ensures var d := B.PairingsCreated(db, league, no, blockTime, now, f, tie).db; LeagueInv(d) && RankedInv(d)
  {
    hide LeagueInv, RankedInv, B.PairingFault, B.FreshPairings;
    FreshPairingsStep(db, league, no, now, f, tie);
  }

  // ----- exposures -----

  lemma ConfirmExposes(db: Db, pairings: Pairings, others: Pairings, p: Pairing, id: nat, mode: Mode, other: Mode)
    requires AllExposed(pairings, mode, db.battles, db.exposures) && AllExposed(others, other, db.battles, db.exposures)
    requires Materialize(db, p, BattleAddress(p.round, id), mode).Some?
    ensures var d := Materialize(db, p, BattleAddress(p.round, id), mode).value;
            && AllExposed(pairings[id := Materialized(p, id)], mode, d.battles, d.exposures)
            && AllExposed(others, other, d.battles, d.exposures)
  {
    MaterializeGrows(db, p, BattleAddress(p.round, id), mode);
    var d := Materialize(db, p, BattleAddress(p.round, id), mode).value;
    hide Materialize, AllExposed, SubMap;
    MoreExposures(pairings, mode, db.battles, d.battles, db.exposures, d.exposures);
    MoreExposures(others, other, db.battles, d.battles, db.exposures, d.exposures);
    NowExposed(pairings, mode, d.battles, d.exposures, id, Materialized(p, id));
  }

  lemma RankedConfirmExposes(db: Db, id: nat, address: BattleAddress)
    requires ExposureInv(db)
    ensures ExposureInv(R.Confirmed(db, id, address).db)
    ensures SubMap(db.exposures, R.Confirmed(db, id, address).db.exposures)
  {
    hide AllExposed, Materialize, R.Marked;
    if R.Confirmed(db, id, address).result.Ok? && db.pairings[id].status == PendingCoordinator {
      var p := db.pairings[id];
      MaterializeGrows(db, p, address, Ranked);
      ConfirmExposes(db, db.pairings, db.leaguePairings, p, id, Ranked, LeagueMode);
    }
  }

  lemma LeagueConfirmExposes(db: Db, id: nat, address: BattleAddress)
    requires ExposureInv(db)
    ensures ExposureInv(B.Confirmed(db, id, address).db)
    ensures SubMap(db.exposures, B.Confirmed(db, id, address).db.exposures)
  {
    hide AllExposed, Materialize;
    if B.Confirmed(db, id, address).result.Ok? && db.leaguePairings[id].status == PendingCoordinator {
      var p := db.leaguePairings[id];
      MaterializeGrows(db, p, address, LeagueMode);
      ConfirmExposes(db, db.leaguePairings, db.pairings, p, id, LeagueMode, Ranked);
    }
  }

  lemma LeagueConfirmSides(db: Db, id: nat, address: BattleAddress)
    requires LeagueInv(db) && RankedInv(db) && PairedInv(db)
    ensures var d := B.Confirmed(db, id, address).db; LeagueInv(d) && RankedInv(d) && PairedInv(d)
  {
    hide LeagueInv, RankedInv, PairedTables, Materialize;
    var d := B.Confirmed(db, id, address).db;
    if B.Confirmed(db, id, address).result.Ok? && db.leaguePairings[id].status == PendingCoordinator {
      MaterializeGrows(db, db.leaguePairings[id], address, LeagueMode);
      CreatedKeepsPaired(db.leagueRuns, db.leaguePairings, db.nextLeagueRun, db.nextLeaguePairing, id,
                         Materialized(db.leaguePairings[id], id));
      SameLeagueSide(db, d);
      SameRankedSide(db, d);
    }
  }

  lemma RankedConfirmPaired(db: Db, id: nat, address: BattleAddress)
    requires PairedInv(db)
    ensures PairedInv(R.Confirmed(db, id, address).db)
  {
    hide PairedTables, R.Marked, Materialize;
    if R.Confirmed(db, id, address).result.Ok? && db.pairings[id].status == PendingCoordinator {
      MaterializeGrows(db, db.pairings[id], address, Ranked);
    }
  }

  lemma RankedConfirmInv(db: Db, id: nat, address: BattleAddress)
    requires Inv(db)
    ensures Inv(R.Confirmed(db, id, address).db)
  {
    hide LeagueInv, RankedInv, ExposureInv, PairedInv, R.Confirmed;
    ConfirmStep(db, id, address);
    ConfirmKeeps(db, id, address);
    RankedConfirmExposes(db, id, address);
    RankedConfirmPaired(db, id, address);
  }

  lemma MatchmakerExposes(db: Db, h: R.History, round: RoundId, now: int)
    requires ExposureInv(db) && PairedInv(db)
    ensures var d := R.MatchmakerRun(db, h, round, now).db;
            ExposureInv(d) && PairedInv(d) && d.exposures == db.exposures
  {
    hide AllExposed, PairedTables, R.PlanOf, Inserted, R.Admitted, R.Marked, R.StoredRun, R.NewViews, R.MatchmakerFault;
    if R.MatchmakerFault(db, round, now).None? {
      R.FaultMeansKnown(db, round, now);
      InsertedExposed(db.pairings, db.nextPairing, db.nextRun, round, R.PlanOf(db, h, round).duels, Ranked, db.battles,
                      db.exposures);
    }
  }

  lemma RunStoredExposes(db: Db, league: LeagueId, no: int, round: RoundId, bye: Option<Wallet>, duels: seq<Duel>,
                         now: int)
    requires ExposureInv(db)
    ensures var d := B.RunStored(db, league, no, round, bye, duels, now); ExposureInv(d) && d.exposures == db.exposures
  {
    hide AllExposed, Inserted, B.WithBye;
    InsertedExposed(db.leaguePairings, db.nextLeaguePairing, db.nextLeagueRun, round, duels, LeagueMode, db.battles,
                    db.exposures);
  }

  lemma FreshPairingsExpose(db: Db, league: LeagueId, no: int, now: int, f: B.Facts, tie: Swiss.TieKeys)
    requires ExposureInv(db)
    ensures var d := B.FreshPairings(db, league, no, now, f, tie).db; ExposureInv(d) && d.exposures == db.exposures
  {
    hide ExposureInv, B.FreshPairings, B.RunStored;
    var round, bye, duels := FreshPairingsShape(db, league, no, now, f, tie);
    RunStoredExposes(db, league, no, round, bye, duels, now);
  }

  lemma RoundPairedExposes(db: Db, league: LeagueId, no: int, blockTime: int, now: int, f: B.Facts, tie: Swiss.TieKeys)
    requires ExposureInv(db)
    ensures var d := B.PairingsCreated(db, league, no, blockTime, now, f, tie).db;
            ExposureInv(d) && d.exposures == db.exposures
  {
    hide ExposureInv, B.FreshPairings, B.PairingFault;
    FreshPairingsExpose(db, league, no, now, f, tie);
  }

  lemma IndexedExposure(db: Db, d: Db)
    requires Inv(db) && d == db.(battles := d.battles, exposures := d.exposures)
    requires SubMap(db.battles, d.battles) && SubMap(db.exposures, d.exposures)
    ensures Inv(d)
  {
    hide LeagueInv, RankedInv, PairedTables, AllExposed, SubMap;
    SameLeagueSide(db, d);
    SameRankedSide(db, d);
    MoreExposures(db.pairings, Ranked, db.battles, d.battles, db.exposures, d.exposures);
    MoreExposures(db.leaguePairings, LeagueMode, db.battles, d.battles, db.exposures, d.exposures);
  }

  /** A League transaction touches neither pairings nor exposures. */
  function MembersChanged(db: Db, schedules: Schedules, ms: Memberships, res: Reservations,
                          leagues: map<LeagueId, League>)
    : Db
  {
    db.(schedules := schedules, memberships := ms, reservations := res, leagues := leagues)
  }

  lemma MembersStep(db: Db, schedules: Schedules, ms: Memberships, res: Reservations, leagues: map<LeagueId, League>)
    requires Inv(db) && LeagueInv(MembersChanged(db, schedules, ms, res, leagues))
    ensures Inv(MembersChanged(db, schedules, ms, res, leagues))
  {
    hide LeagueInv, RankedInv, PairedTables, AllExposed;
    SameRankedSide(db, MembersChanged(db, schedules, ms, res, leagues));
  }

  /** A queue transaction touches neither pairings nor exposures. */
  lemma QueueStep(db: Db, queue: Queue)
    requires Inv(db) && LeagueInv(db.(queue := queue)) && RankedInv(db.(queue := queue))
    ensures Inv(db.(queue := queue))
  {
    hide LeagueInv, RankedInv, PairedTables, AllExposed;
  }

  lemma RoundInv(db: Db, round: RoundId, row: MarketRound)
    requires Inv(db) && Possible(db, RoundIndexed(round, row))
    ensures Inv(db.(rounds := db.rounds[round := row]))
  {
    RoundStep(db, round, row);
    hide LeagueInv, RankedInv, PairedTables, AllExposed;
  }

  lemma MatchmakerInv(db: Db, h: R.History, round: RoundId, now: int)
    requires Inv(db)
    ensures Inv(R.MatchmakerRun(db, h, round, now).db)
  {
    hide LeagueInv, RankedInv, PairedInv, ExposureInv, R.MatchmakerRun;
    MatchmakerStep(db, h, round, now);
    MatchmakerKeeps(db, h, round, now);
    MatchmakerExposes(db, h, round, now);
  }

  lemma RoundPairedInv(db: Db, league: LeagueId, no: int, blockTime: int, now: int, f: B.Facts, tie: Swiss.TieKeys)
    requires Inv(db)
    ensures Inv(B.PairingsCreated(db, league, no, blockTime, now, f, tie).db)
  {
    hide LeagueInv, RankedInv, PairedInv, ExposureInv, B.PairingsCreated;
    RoundPairedStep(db, league, no, blockTime, now, f, tie);
    RoundPairedExposes(db, league, no, blockTime, now, f, tie);
    PairingKeeps(db, league, no, blockTime, now, f, tie);
  }

  lemma LeagueConfirmInv(db: Db, id: nat, address: BattleAddress)
    requires Inv(db)
    ensures Inv(B.Confirmed(db, id, address).db)
  {
    hide LeagueInv, RankedInv, PairedInv, ExposureInv, B.Confirmed;
    LeagueConfirmSides(db, id, address);
    LeagueConfirmExposes(db, id, address);
  }

  lemma InvParts(db: Db)
    requires Inv(db)
    ensures LeagueInv(db) && RankedInv(db) && ExposureInv(db) && PairedInv(db)
  {
  }

  lemma JoinReserves(d: Db, league: LeagueId, w: Wallet, now: int)
    requires L.JoinFault(d, league, w, now).None?
    ensures L.Reserve(d.reservations, ScheduleOf(d, league), w, league).Some?
  {
    hide L.Reserve, L.AnySlotBlocked, LiveMembers;
  }

  lemma JoinStoredInv(db: Db, league: LeagueId, w: Wallet, now: int)
    requires Inv(db) && L.JoinRequested(db, league, w, now).result.Ok?
             && LeagueInv(L.JoinRequested(db, league, w, now).db)
    ensures Inv(L.JoinRequested(db, league, w, now).db)
  {
    hide LeagueInv, RankedInv, ExposureInv, PairedInv, Inv, L.JoinFault, L.Reserve, L.ExpiredMemberships,
      L.ExpiredReservations,
      L.JoinedMembership, L.Expired, L.JoinStored, MembersChanged, ScheduleOf;
    var e := L.Expired(db, now);
    JoinReserves(e, league, w, now);
    JoinedShape(db, e, league, w, now);
    MembersStep(db, db.schedules, e.memberships[(league, w) := L.JoinedMembership(e, league, w, now)],
                L.Reserve(e.reservations, ScheduleOf(e, league), w, league).value, db.leagues);
  }

  lemma JoinedShape(db: Db, e: Db, league: LeagueId, w: Wallet, now: int)
    requires e == L.Expired(db, now) && L.Reserve(e.reservations, ScheduleOf(e, league), w, league).Some?
    ensures L.JoinStored(e, league, w, now)
            == MembersChanged(db, db.schedules, e.memberships[(league, w) := L.JoinedMembership(e, league, w, now)],
                              L.Reserve(e.reservations, ScheduleOf(e, league), w, league).value, db.leagues)
  {
    hide L.Reserve, L.ExpiredMemberships, L.ExpiredReservations, L.JoinedMembership, ScheduleOf;
  }

  lemma JoinAskedInv(db: Db, league: LeagueId, w: Wallet, now: int)
    requires Inv(db)
    ensures Inv(L.JoinRequested(db, league, w, now).db)
  {
    InvParts(db);
    hide LeagueInv, Inv, L.JoinFault, L.Expired, L.JoinStored;
    JoinKeeps(db, league, w, now);
    if L.JoinRequested(db, league, w, now).result.Ok? { JoinStoredInv(db, league, w, now); }
  }

  lemma TransitionInv(db: Db, league: LeagueId, w: Wallet, state: MembershipState, now: int,
                      from: set<ReservationStatus>,
                      to: ReservationStatus)
    requires Inv(db) && (league, w) in db.memberships && LeagueInv(L.Transitioned(db, league, w, state, now, from, to))
    ensures Inv(L.Transitioned(db, league, w, state, now, from, to))
  {
    hide LeagueInv, Inv, L.MemberSet, L.Retag;
    var d := L.Transitioned(db, league, w, state, now, from, to);
    MembersStep(db, db.schedules, d.memberships, d.reservations, db.leagues);
  }

  lemma JoinSeenInv(db: Db, league: LeagueId, w: Wallet, matches: bool, now: int)
    requires Inv(db)
    ensures Inv(L.JoinConfirmed(db, league, w, matches, now).db)
  {
    hide LeagueInv, Inv, L.Transitioned;
    InvParts(db);
    JoinConfirmKeeps(db, league, w, matches, now);
    if L.JoinConfirmed(db, league, w, matches, now).result.Ok? {
      TransitionInv(db, league, w, ActiveMember, now, {Pending}, ActiveReservation);
    }
  }

  lemma LeaveAskedInv(db: Db, league: LeagueId, w: Wallet, now: int)
    requires Inv(db)
    ensures Inv(L.LeaveRequested(db, league, w, now).db)
  {
    hide LeagueInv, Inv, L.Transitioned;
    InvParts(db);
    LeaveRequestKeeps(db, league, w, now);
    if L.LeaveRequested(db, league, w, now).result.Ok? {
      TransitionInv(db, league, w, PendingLeave, now, {Pending, ActiveReservation}, LeavePending);
    }
  }

  lemma LeaveSeenInv(db: Db, league: LeagueId, w: Wallet, now: int)
    requires Inv(db)
    ensures Inv(L.LeaveConfirmed(db, league, w, now).db)
  {
    hide LeagueInv, Inv, L.Transitioned;
    InvParts(db);
    LeaveConfirmKeeps(db, league, w, now);
    if L.LeaveConfirmed(db, league, w, now).result.Ok? && db.memberships[(league, w)].state == PendingLeave {
      TransitionInv(db, league, w, Left, now, {LeavePending}, CancelledReservation);
    }
  }

  lemma ExpiryInv(db: Db, now: int)
    requires Inv(db)
    ensures Inv(L.Expired(db, now))
  {
    InvParts(db);
    hide LeagueInv, Inv, L.ExpiredMemberships, L.ExpiredReservations;
    ExpiryKeeps(db, now);
    MembersStep(db, db.schedules, L.Expired(db, now).memberships, L.Expired(db, now).reservations, db.leagues);
  }

  lemma AssignInv(db: Db, league: LeagueId, es: seq<L.Entry>, now: int)
    requires Inv(db)
    ensures Inv(L.Assigned(db, league, es, now).db)
  {
    InvParts(db);
    hide LeagueInv, Inv, L.AssignFault, L.AsSlots;
    AssignKeeps(db, league, es, now);
    if L.Assigned(db, league, es, now).result.Ok? {
      MembersStep(db, L.Assigned(db, league, es, now).db.schedules, db.memberships, db.reservations, db.leagues);
    }
  }

  lemma LeaguesInv(db: Db, leagues: map<LeagueId, League>)
    requires Inv(db)
    requires forall l :: l in db.leagues ==> l in leagues && leagues[l].maxPlayers == db.leagues[l].maxPlayers
    ensures Inv(db.(leagues := leagues))
  {
    hide LeagueInv, RankedInv, ExposureInv, PairedInv;
    LeaguesStep(db, leagues);
    MembersStep(db, db.schedules, db.memberships, db.reservations, leagues);
  }

  lemma QueueJoinedInv(db: Db, w: Wallet, round: RoundId, now: int, unresolved: bool)
    requires Inv(db)
    ensures Inv(R.Joined(db, w, round, now, unresolved).db)
  {
    hide Inv, LeagueInv, RankedInv, R.JoinFault, R.StillQueued;
    InvParts(db);
    QueueJoinStep(db, w, round, now, unresolved);
    JoinQueueKeeps(db, w, round, now, unresolved);
    if R.JoinFault(db, w, round, now, unresolved).None? && !R.StillQueued(db, w, round) {
      QueueStep(db, db.queue[(round, w) := QueueRow(Queued, None)]);
    }
  }

  lemma QueueLeftInv(db: Db, w: Wallet, round: RoundId, now: int)
    requires Inv(db)
    ensures Inv(R.LeftQueue(db, w, round, now).db)
  {
    hide Inv, LeagueInv, RankedInv, R.LoadFault;
    InvParts(db);
    QueueLeaveStep(db, w, round, now);
    LeaveQueueKeeps(db, w, round, now);
    if R.LeftQueue(db, w, round, now).result.Ok? {
      QueueStep(db, db.queue[(round, w) := db.queue[(round, w)].(status := CancelledEntry)]);
    }
  }

  lemma BattleIndexedInv(db: Db, address: BattleAddress, battle: BattleRow)
    requires Inv(db) && BattleRowFits(db, address, battle)
    ensures Inv(db.(battles := db.battles[address := battle]))
  {
    hide LeagueInv, RankedInv, ExposureInv, PairedInv;
    IndexedExposure(db, db.(battles := db.battles[address := battle]));
  }

  lemma ExposureSeenInv(db: Db, round: RoundId, w: Wallet, address: BattleAddress)
    requires Inv(db)
    ensures Inv(B.ExposureIndexed(db, round, w, address).db)
  {
    hide LeagueInv, RankedInv, ExposureInv, PairedInv;
    IndexedExposure(db, B.ExposureIndexed(db, round, w, address).db);
  }

  lemma OtherStepKeeps(db: Db, step: Step, now: int)
    requires Inv(db) && Possible(db, step)
    requires step.RoundIndexed? || step.BattleIndexed? || step.QueueJoined? || step.QueueLeft? || step.MatchmakerRan?
             || step.RankedConfirmed? || step.RoundPaired? || step.LeagueConfirmed? || step.ExposureSeen?
    ensures Inv(After(db, step, now))
  {
    hide Inv, R.Joined, R.LeftQueue, R.MatchmakerRun, R.Confirmed, B.PairingsCreated, B.Confirmed, B.ExposureIndexed,
      BattleRowFits;
    match step {
      case RoundIndexed(round, row) => RoundInv(db, round, row);
      case BattleIndexed(address, battle) => BattleIndexedInv(db, address, battle);
      case QueueJoined(w, round, unresolved) => QueueJoinedInv(db, w, round, now, unresolved);
      case QueueLeft(w, round) => QueueLeftInv(db, w, round, now);
      case MatchmakerRan(history, round) => MatchmakerInv(db, history, round, now);
      case RankedConfirmed(id, address) => RankedConfirmInv(db, id, address);
      case RoundPaired(league, no, blockTime, facts, tie) => RoundPairedInv(db, league, no, blockTime, now, facts, tie);
      case LeagueConfirmed(id, address) => LeagueConfirmInv(db, id, address);
      case ExposureSeen(round, w, address) => ExposureSeenInv(db, round, w, address);
    }
  }

  /** Every step keeps every invariant. */
  lemma StepKeeps(db: Db, step: Step, now: int)
    requires Inv(db) && Possible(db, step)
    ensures Inv(After(db, step, now))
  {
    hide Inv, L.Assigned, L.JoinRequested, L.JoinConfirmed, L.LeaveRequested, L.LeaveConfirmed, L.Expired;
    match step {
      case LeagueRegistered(league, terms) => LeaguesInv(db, db.leagues[league := terms]);
      case LeagueReconciled(league, status, currentRound) =>
        LeaguesInv(db, db.leagues[league := db.leagues[league].(status := status, currentRound := currentRound)]);
      case ScheduleAssigned(league, entries) => AssignInv(db, league, entries, now);
      case JoinAsked(league, w) => JoinAskedInv(db, league, w, now);
      case JoinSeen(league, w, matches) => JoinSeenInv(db, league, w, matches, now);
      case LeaveAsked(league, w) => LeaveAskedInv(db, league, w, now);
      case LeaveSeen(league, w) => LeaveSeenInv(db, league, w, now);
      case JoinsExpired => ExpiryInv(db, now);
      case _ => OtherStepKeeps(db, step, now);
    }
  }
}
