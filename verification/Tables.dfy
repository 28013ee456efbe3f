/** The tables shared by Ranked and League competition (backend/migrations), as one value and
    as the database the operations update. A Market Round's window is half open; a Battle's
    address is derived from its Market Round and its pairing id (crates/relay/src/lib.rs). */
module Tables {
  import opened Wrappers

  type Wallet = nat
  type RoundId = int
  type LeagueId = int

  const I64_MAX := 0x7fff_ffff_ffff_ffff

  // ----- Market Rounds -----

  datatype RoundState = Scheduled | CommitOpen | LaterState

  datatype ChainIdentity = NoAddress | OtherAddress | CanonicalAddress

  datatype Window = Window(close: int, start: int, end: int)

  datatype MarketRound = MarketRound(
    window: Window, chain: ChainIdentity, state: RoundState, replay: bool, publicEquity: bool, knownSource: bool)

  predicate Overlap(v: Window, w: Window) { v.start < w.end && w.start < v.end }

  // ----- Leagues -----

  datatype LeagueStatus = Registration | ActiveLeague | Completed | CancelledLeague

  datatype League =
    League(maxPlayers: nat, totalRounds: nat, currentRound: int, rated: bool, closeAt: int, status: LeagueStatus)

  datatype Slot = Slot(no: int, round: RoundId)

  datatype MembershipState = PendingJoin | ActiveMember | PendingLeave | Left | ExpiredJoin

  datatype Membership = Membership(state: MembershipState, byes: nat, pendingUntil: Option<int>, updatedAt: int)

  datatype ReservationStatus = Pending | ActiveReservation | LeavePending | CancelledReservation | ExpiredReservation
    | Resolved

  datatype Reservation = Reservation(league: LeagueId, status: ReservationStatus)

  predicate LiveMember(m: Membership) { m.state == PendingJoin || m.state == ActiveMember || m.state == PendingLeave }

  predicate LiveReservation(r: Reservation) {
    r.status != CancelledReservation && r.status != ExpiredReservation && r.status != Resolved
  }

  // ----- Ranked -----

  datatype QueueStatus = Queued | Snapshotted | Matched | Unmatched | Blocked | CancelledEntry | BattleCreated

  datatype Snapshot = Snapshot(rating: int, games: int)

  datatype QueueRow = QueueRow(status: QueueStatus, snapshot: Option<Snapshot>)

  /** The entries that block a League join. */
  predicate LiveEntry(q: QueueRow) { q.status != CancelledEntry && q.status != Unmatched && q.status != Blocked }

  // ----- pairings and Battles -----

  datatype BattleAddress = BattleAddress(round: RoundId, id: nat)

  datatype Mode = Ranked | LeagueMode

  datatype BattleRow = BattleRow(round: RoundId, a: Wallet, b: Wallet, mode: Mode)

  datatype PairingStatus = PendingCoordinator | Created

  datatype Pairing = Pairing(
    run: nat, round: RoundId, a: Wallet, b: Wallet, ratingA: int, ratingB: int, battle: Option<BattleAddress>,
      status: PairingStatus)
  {
    predicate Has(w: Wallet) { a == w || b == w }
  }

  /** Two wallets to be paired, with the ratings frozen for the Battle. */
  datatype Duel = Duel(a: Wallet, b: Wallet, ratingA: int, ratingB: int)

  function NewPairing(run: nat, round: RoundId, d: Duel): Pairing {
    Pairing(run, round, d.a, d.b, d.ratingA, d.ratingB, None, PendingCoordinator)
  }

  /** Duels stored as pending pairings under consecutive ids. */
  function Inserted(table: map<nat, Pairing>, base: nat, run: nat, round: RoundId, duels: seq<Duel>)
    : map<nat, Pairing>
  {
    if duels == [] then table
    else
      var last := |duels| - 1;
      Inserted(table, base, run, round, duels[..last])[base + last := NewPairing(run, round, duels[last])]
  }

  lemma {:induction false} InsertedMeaning(table: map<nat, Pairing>, base: nat, run: nat, round: RoundId,
                                           duels: seq<Duel>)
    requires forall i :: i in table ==> i < base
    ensures var t := Inserted(table, base, run, round, duels);
            && (forall i :: i in t <==> i in table || base <= i < base + |duels|)
            && (forall i :: i in table ==> t[i] == table[i])
            && (forall i :: base <= i < base + |duels| ==> t[i] == NewPairing(run, round, duels[i - base]))
  {
    if duels != [] { InsertedMeaning(table, base, run, round, duels[..|duels| - 1]); }
  }

  /** No wallet occurs twice. */
  ghost predicate DuelsApart(duels: seq<Duel>) {
    && (forall k :: 0 <= k < |duels| ==> duels[k].a != duels[k].b)
    && (forall i, j :: 0 <= i < j < |duels| ==> DuelApart(duels[i], duels[j]))
  }

  predicate DuelApart(c: Duel, d: Duel) { c.a != d.a && c.a != d.b && c.b != d.a && c.b != d.b }

  datatype LeagueRun = LeagueRun(id: nat, round: RoundId, bye: Option<Wallet>)

  datatype Db = Db(
    rounds: map<RoundId, MarketRound>,
    leagues: map<LeagueId, League>,
    schedules: map<LeagueId, seq<Slot>>,
    memberships: map<(LeagueId, Wallet), Membership>,
    reservations: map<(RoundId, Wallet), Reservation>,
    queue: map<(RoundId, Wallet), QueueRow>,
    runs: map<(RoundId, int), nat>,
    pairings: map<nat, Pairing>,
    leagueRuns: map<(LeagueId, int), LeagueRun>,
    leaguePairings: map<nat, Pairing>,
    battles: map<BattleAddress, BattleRow>,
    exposures: map<(RoundId, Wallet), BattleAddress>,
    nextRun: nat, nextPairing: nat, nextLeagueRun: nat, nextLeaguePairing: nat)

  /** A committed transaction's new tables and result; a failed one leaves the tables alone. */
  datatype Outcome<T, E> = Outcome(db: Db, result: Result<T, E>)

  function SlotsOf(schedules: map<LeagueId, seq<Slot>>, league: LeagueId): seq<Slot> {
    if league in schedules then schedules[league] else []
  }

  function ScheduleOf(db: Db, league: LeagueId): seq<Slot> { SlotsOf(db.schedules, league) }

  // ----- the overlap queries -----

  predicate RoundOverlaps(db: Db, round: RoundId, window: Window) {
    round in db.rounds && Overlap(db.rounds[round].window, window)
  }

  /** Another rated League in registration or play has a round in this window. */
  predicate ScheduleConflicts(db: Db, league: LeagueId, window: Window) {
    exists l | l in db.schedules :: l != league && l in db.leagues
      && db.leagues[l].rated && (db.leagues[l].status == Registration || db.leagues[l].status == ActiveLeague)
      && SlotConflicts(db, db.schedules[l], window)
  }

  predicate SlotConflicts(db: Db, slots: seq<Slot>, window: Window) {
    exists k | 0 <= k < |slots| :: RoundOverlaps(db, slots[k].round, window) && !db.rounds[slots[k].round].replay
  }

  /** The wallet is a live member of another League with a round in this window. */
  predicate WalletInOverlappingLeague(db: Db, wallet: Wallet, league: LeagueId, window: Window) {
    exists l | l in db.leagues ::
      l != league && (l, wallet) in db.memberships && LiveMember(db.memberships[(l, wallet)])
      && db.leagues[l].rated && (db.leagues[l].status == Registration || db.leagues[l].status == ActiveLeague)
      && exists k | 0 <= k < |ScheduleOf(db, l)| :: RoundOverlaps(db, ScheduleOf(db, l)[k].round, window)
  }

  predicate WalletHasReservation(db: Db, wallet: Wallet, window: Window) {
    exists k | k in db.reservations ::
      k.1 == wallet && LiveReservation(db.reservations[k]) && RoundOverlaps(db, k.0, window)
  }

  predicate WalletInQueue(db: Db, wallet: Wallet, window: Window) {
    exists k | k in db.queue :: k.1 == wallet && LiveEntry(db.queue[k]) && RoundOverlaps(db, k.0, window)
  }

  /** Ranked's own check, for the window of a Market Round. */
  predicate HasLeagueReservation(db: Db, round: RoundId, wallet: Wallet) {
    round in db.rounds && WalletHasReservation(db, wallet, db.rounds[round].window)
  }

  function LiveMembers(db: Db, league: LeagueId): set<Wallet> {
    set k | k in db.memberships && k.0 == league && LiveMember(db.memberships[k]) :: k.1
  }

  // ----- a confirmed coordinator transaction -----

  predicate BattleRowFits(db: Db, address: BattleAddress, row: BattleRow) {
    address in db.battles ==> db.battles[address] == row
  }

  /** The Battle and both exposures of a pairing, written together; none if the Battle row is
      somebody else's or either wallet is already exposed in the round. */
  function Materialize(db: Db, p: Pairing, address: BattleAddress, mode: Mode): Option<Db> {
    var row := BattleRow(p.round, p.a, p.b, mode);
    if !BattleRowFits(db, address, row) || (p.round, p.a) in db.exposures then None
    else
      var exposures := db.exposures[(p.round, p.a) := address];
      if (p.round, p.b) in exposures then None
      else Some(db.(battles := db.battles[address := row], exposures := exposures[(p.round, p.b) := address]))
  }

  class Database {
    var rounds: map<RoundId, MarketRound>
    var leagues: map<LeagueId, League>
    var schedules: map<LeagueId, seq<Slot>>
    var memberships: map<(LeagueId, Wallet), Membership>
    var reservations: map<(RoundId, Wallet), Reservation>
    var queue: map<(RoundId, Wallet), QueueRow>
    var runs: map<(RoundId, int), nat>
    var pairings: map<nat, Pairing>
    var leagueRuns: map<(LeagueId, int), LeagueRun>
    var leaguePairings: map<nat, Pairing>
    var battles: map<BattleAddress, BattleRow>
    var exposures: map<(RoundId, Wallet), BattleAddress>
    var nextRun: nat
    var nextPairing: nat
    var nextLeagueRun: nat
    var nextLeaguePairing: nat

    function Value(): Db
      reads this
    {
      Db(rounds, leagues, schedules, memberships, reservations, queue, runs, pairings, leagueRuns, leaguePairings,
         battles, exposures, nextRun, nextPairing, nextLeagueRun, nextLeaguePairing)
    }
  }

  /** Writes the Battle row and both exposures, or nothing. */
  method StoreBattle(db: Database, p: Pairing, address: BattleAddress, mode: Mode) returns (ok: bool)
    modifies db`battles, db`exposures
    ensures ok == old(Materialize(db.Value(), p, address, mode).Some?)
    ensures ok ==> db.Value() == old(Materialize(db.Value(), p, address, mode).value)
    ensures !ok ==> db.Value() == old(db.Value())
  {
    var row := BattleRow(p.round, p.a, p.b, mode);
    if !BattleRowFits(db.Value(), address, row) {
      return false;
    }
    if (p.round, p.a) in db.exposures {
      return false;
    }
    var exposures := db.exposures[(p.round, p.a) := address];
    if (p.round, p.b) in exposures {
      return false;
    }
    db.battles := db.battles[address := row];
    db.exposures := exposures[(p.round, p.b) := address];
    return true;
  }
}
