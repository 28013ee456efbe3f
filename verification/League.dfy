/** League membership, schedules and pairing (backend/src/league.rs). Each operation is one
    transaction: a function gives its outcome, and the method that updates the tables is proved
    equal to it. */
module LeagueOperations {
  import opened Wrappers
  import opened Sequences
  import opened Tables

  datatype LeagueError =
    | InvalidLeagueId | NotFound | RegistrationClosed | LeagueFull | AlreadyMember | NotMember
    | ScheduleUnavailable | InvalidSchedule | EmptySchedule | DuplicateMarketRound | DuplicateLeagueRound
    | ScheduleOverlap | ScheduleConflict | InvalidMembershipState | Storage
    | InvalidEntropy | PairingNotReady | InvalidPairing | CoordinatorPlanUnavailable | CoordinatorConflict

  const PENDING_JOIN_TTL_SECS := 15 * 60

  // ----- schedules -----

  datatype Entry = Entry(no: int, round: RoundId, start: int, end: int)

  predicate EntriesOverlap(e: Entry, f: Entry) { e.start < f.end && f.start < e.end }

  function EntryFault(earlier: seq<Entry>, e: Entry): Option<LeagueError> {
    if e.no <= 0 || e.round <= 0 || e.start >= e.end then Some(InvalidSchedule)
    else if exists f | f in earlier :: f.round == e.round then Some(DuplicateMarketRound)
    else if exists f | f in earlier :: f.no == e.no then Some(DuplicateLeagueRound)
    else None
  }

  function EntriesFault(es: seq<Entry>): Option<LeagueError> {
    if es == [] then None
    else
      var fault := EntriesFault(es[..|es| - 1]);
      if fault.Some? then fault else EntryFault(es[..|es| - 1], es[|es| - 1])
  }

  predicate NoneOverlap(es: seq<Entry>) {
    forall i, j | 0 <= i < j < |es| :: !EntriesOverlap(es[i], es[j])
  }

  function ScheduleFault(es: seq<Entry>): Option<LeagueError> {
    if es == [] then Some(EmptySchedule)
    else if EntriesFault(es).Some? then EntriesFault(es)
    else if !NoneOverlap(es) then Some(ScheduleOverlap)
    else None
  }

  method ValidateSchedule(es: seq<Entry>) returns (fault: Option<LeagueError>)
    ensures fault == ScheduleFault(es)
  {
    if es == [] {
      return Some(EmptySchedule);
    }
    fault := ValidateEntries(es);
    if fault.Some? {
      return fault;
    }
    var overlapping := FindOverlap(es);
    return if overlapping then Some(ScheduleOverlap) else None;
  }

  method ValidateEntries(es: seq<Entry>) returns (fault: Option<LeagueError>)
    ensures fault == EntriesFault(es)
  {
    var marketRounds: set<RoundId>, leagueRounds: set<int> := {}, {};
    for k := 0 to |es|
      invariant EntriesFault(es[..k]).None?
      invariant forall r :: r in marketRounds <==> exists f | f in es[..k] :: f.round == r
      invariant forall n :: n in leagueRounds <==> exists f | f in es[..k] :: f.no == n
    {
      var e := es[k];
      assert es[..k + 1][..k] == es[..k];
      if e.no <= 0 || e.round <= 0 || e.start >= e.end {
        FaultStays(es, k + 1);
        return Some(InvalidSchedule);
      }
      if e.round in marketRounds {
        FaultStays(es, k + 1);
        return Some(DuplicateMarketRound);
      }
      if e.no in leagueRounds {
        FaultStays(es, k + 1);
        return Some(DuplicateLeagueRound);
      }
      marketRounds, leagueRounds := marketRounds + {e.round}, leagueRounds + {e.no};
      assert es[..k + 1] == es[..k] + [e];
    }
    assert es[..|es|] == es;
    return None;
  }

  method FindOverlap(es: seq<Entry>) returns (found: bool)
    ensures found <==> !NoneOverlap(es)
  {
    for i := 0 to |es|
      invariant forall k, l :: 0 <= k < i && k < l < |es| ==> !EntriesOverlap(es[k], es[l])
    {
      for j := i + 1 to |es|
        invariant forall l :: i < l < j ==> !EntriesOverlap(es[i], es[l])
      {
        if EntriesOverlap(es[i], es[j]) {
          return true;
        }
      }
    }
    return false;
  }

  lemma {:induction false} FaultStays(es: seq<Entry>, k: nat)
    requires k <= |es| && EntriesFault(es[..k]).Some?
    ensures EntriesFault(es) == EntriesFault(es[..k])
    decreases |es| - k
  {
    if k < |es| {
      assert es[..k + 1][..k] == es[..k];
      FaultStays(es, k + 1);
    } else {
      assert es[..k] == es;
    }
  }

  function SlotFault(db: Db, league: LeagueId, e: Entry, now: int): Option<LeagueError>
    requires league in db.leagues
  {
    if e.round !in db.rounds then Some(ScheduleUnavailable)
    else
      var r := db.rounds[e.round];
      if r.chain == NoAddress || r.state != Scheduled || r.replay || r.window.close >= r.window.start
         || r.window.start != e.start || r.window.end != e.end || r.window.start <= now
         || r.window.start <= db.leagues[league].closeAt
      then Some(ScheduleUnavailable)
      else if ScheduleConflicts(db, league, Window(0, e.start, e.end)) then Some(ScheduleConflict)
      else None
  }

  function SlotsFault(db: Db, league: LeagueId, es: seq<Entry>, now: int): Option<LeagueError>
    requires league in db.leagues
  {
    if es == [] then None
    else
      var fault := SlotFault(db, league, es[0], now);
      if fault.Some? then fault else SlotsFault(db, league, es[1..], now)
  }

  function AsSlots(es: seq<Entry>): seq<Slot> { Map(es, (e: Entry) => Slot(e.no, e.round)) }

  predicate RegistrationOpen(l: League, now: int) { l.status == Registration && now <= l.closeAt }

  function AssignFault(db: Db, league: LeagueId, es: seq<Entry>, now: int): Option<LeagueError> {
    if league <= 0 then Some(InvalidLeagueId)
    else if ScheduleFault(es).Some? then ScheduleFault(es)
    else if league !in db.leagues then Some(NotFound)
    else if !RegistrationOpen(db.leagues[league], now) then Some(RegistrationClosed)
    else if |es| != db.leagues[league].totalRounds || exists e | e in es :: e.no > db.leagues[league].totalRounds
    then Some(InvalidSchedule)
    else if LiveMembers(db, league) != {} then Some(ScheduleUnavailable)
    else SlotsFault(db, league, es, now)
  }

  function Assigned(db: Db, league: LeagueId, es: seq<Entry>, now: int): Outcome<(), LeagueError> {
    var fault := AssignFault(db, league, es, now);
    if fault.Some? then Outcome(db, Err(fault.value))
    else Outcome(db.(schedules := db.schedules[league := AsSlots(es)]), Ok(()))
  }

  method AssignSchedule(db: Database, league: LeagueId, es: seq<Entry>, now: int) returns (r: Result<(), LeagueError>)
    modifies db
    ensures Outcome(db.Value(), r) == old(Assigned(db.Value(), league, es, now))
  {
    hide ScheduleConflicts, LiveMembers, ScheduleFault;
    if league <= 0 {
      return Err(InvalidLeagueId);
    }
    var invalid := ValidateSchedule(es);
    if invalid.Some? {
      return Err(invalid.value);
    }
    if league !in db.leagues {
      return Err(NotFound);
    }
    var row := db.leagues[league];
    if row.status != Registration || now > row.closeAt {
      return Err(RegistrationClosed);
    }
    if |es| != row.totalRounds || exists e | e in es :: e.no > row.totalRounds {
      return Err(InvalidSchedule);
    }
    if LiveMembers(db.Value(), league) != {} {
      return Err(ScheduleUnavailable);
    }
    var unavailable := CheckSlots(db.Value(), league, es, now);
    if unavailable.Some? {
      return Err(unavailable.value);
    }
    var slots := ScheduledSlots(es);
    db.schedules := db.schedules[league := slots];
    return Ok(());
  }

  method CheckSlots(db: Db, league: LeagueId, es: seq<Entry>, now: int) returns (fault: Option<LeagueError>)
    requires league in db.leagues
    ensures fault == SlotsFault(db, league, es, now)
  {
    hide SlotFault;
    for k := 0 to |es|
      invariant SlotsFault(db, league, es, now) == SlotsFault(db, league, es[k..], now)
    {
      fault := SlotFault(db, league, es[k], now);
      if fault.Some? {
        return;
      }
      assert es[k..][1..] == es[k + 1..];
    }
    return None;
  }

  method ScheduledSlots(es: seq<Entry>) returns (slots: seq<Slot>)
    ensures slots == AsSlots(es)
  {
    slots := [];
    for k := 0 to |es|
      invariant slots == AsSlots(es)[..k]
    {
      slots := slots + [Slot(es[k].no, es[k].round)];
    }
  }

  // ----- memberships -----

  /** Gives a wallet's reservations of one League that have one of the statuses a new one. */
  function Retag(res: map<(RoundId, Wallet), Reservation>, league: LeagueId, wallet: Wallet,
                 from: set<ReservationStatus>,
                 to: ReservationStatus): map<(RoundId, Wallet), Reservation> {
    map k | k in res ::
      if k.1 == wallet && res[k].league == league && res[k].status in from then res[k].(status := to) else res[k]
  }

  predicate JoinLapsed(m: Membership, now: int) {
    m.state == PendingJoin && m.pendingUntil.Some? && m.pendingUntil.value <= now
  }

  function ExpiredMemberships(db: Db, now: int): map<(LeagueId, Wallet), Membership> {
    map k | k in db.memberships ::
      if JoinLapsed(db.memberships[k], now)
      then db.memberships[k].(state := ExpiredJoin, pendingUntil := None, updatedAt := now)
      else db.memberships[k]
  }

  predicate JustExpired(memberships: map<(LeagueId, Wallet), Membership>, k: (LeagueId, Wallet), now: int) {
    k in memberships && memberships[k].state == ExpiredJoin && memberships[k].updatedAt == now
  }

  function ExpiredReservations(db: Db, memberships: map<(LeagueId, Wallet), Membership>, now: int)
    : map<(RoundId, Wallet), Reservation>
  {
    map k | k in db.reservations ::
      var r := db.reservations[k];
      if r.status == Pending && JustExpired(memberships, (r.league, k.1), now)
         then r.(status := ExpiredReservation) else r
  }

  function Expired(db: Db, now: int): Db {
    var memberships := ExpiredMemberships(db, now);
    db.(memberships := memberships, reservations := ExpiredReservations(db, memberships, now))
  }

  function Lapsed(db: Db, now: int): set<(LeagueId, Wallet)> {
    set k | k in db.memberships && JoinLapsed(db.memberships[k], now)
  }

  /** Expires abandoned join intents and releases their reservations; returns how many. */
  method ExpirePendingMemberships(db: Database, now: int) returns (count: nat)
    modifies db
    ensures db.Value() == old(Expired(db.Value(), now))
    ensures count == old(|Lapsed(db.Value(), now)|)
  {
    var before := db.Value();
    count := |Lapsed(before, now)|;
    db.memberships := ExpiredMemberships(before, now);
    db.reservations := ExpiredReservations(before, db.memberships, now);
  }

  predicate SlotBlocked(db: Db, wallet: Wallet, league: LeagueId, slot: Slot) {
    slot.round in db.rounds &&
    var window := db.rounds[slot.round].window;
    WalletInOverlappingLeague(db, wallet, league, window) || WalletHasReservation(db, wallet, window)
    || WalletInQueue(db, wallet, window)
  }

  predicate AnySlotBlocked(db: Db, wallet: Wallet, league: LeagueId) {
    exists k | 0 <= k < |ScheduleOf(db, league)| :: SlotBlocked(db, wallet, league, ScheduleOf(db, league)[k])
  }

  /** The pending reservations of a join; none if a round is still reserved. */
  function Reserve(res: map<(RoundId, Wallet), Reservation>, slots: seq<Slot>, wallet: Wallet, league: LeagueId)
    : Option<map<(RoundId, Wallet), Reservation>>
  {
    if slots == [] then Some(res)
    else
      match Reserve(res, slots[..|slots| - 1], wallet, league)
      case None => None
      case Some(earlier) =>
        var key := (slots[|slots| - 1].round, wallet);
        if key in earlier && LiveReservation(earlier[key]) then None
        else Some(earlier[key := Reservation(league, Pending)])
  }

  function JoinFault(db: Db, league: LeagueId, wallet: Wallet, now: int): Option<LeagueError> {
    if league !in db.leagues then Some(NotFound)
    else if !RegistrationOpen(db.leagues[league], now) then Some(RegistrationClosed)
    else if |ScheduleOf(db, league)| != db.leagues[league].totalRounds then Some(ScheduleUnavailable)
    else if (league, wallet) in db.memberships && LiveMember(db.memberships[(league, wallet)]) then Some(AlreadyMember)
    else if |LiveMembers(db, league)| >= db.leagues[league].maxPlayers then Some(LeagueFull)
    else if AnySlotBlocked(db, wallet, league) then Some(ScheduleConflict)
    else if Reserve(db.reservations, ScheduleOf(db, league), wallet, league).None? then Some(ScheduleConflict)
    else None
  }

  function JoinedMembership(db: Db, league: LeagueId, wallet: Wallet, now: int): Membership {
    Membership(PendingJoin, if (league, wallet) in db.memberships then db.memberships[(league, wallet)].byes else 0,
               Some(now + PENDING_JOIN_TTL_SECS), now)
  }

  /** A join request. A failure also undoes the expiry it starts with. */
  function JoinRequested(db: Db, league: LeagueId, wallet: Wallet, now: int): Outcome<(), LeagueError> {
    if league <= 0 then Outcome(db, Err(InvalidLeagueId))
    else if now + PENDING_JOIN_TTL_SECS > I64_MAX then Outcome(db, Err(Storage))
    else
      var d := Expired(db, now);
      var fault := JoinFault(d, league, wallet, now);
      if fault.Some? then Outcome(db, Err(fault.value)) else Outcome(JoinStored(d, league, wallet, now), Ok(()))
  }

  function JoinStored(d: Db, league: LeagueId, wallet: Wallet, now: int): Db
    requires Reserve(d.reservations, ScheduleOf(d, league), wallet, league).Some?
  {
    d.(memberships := d.memberships[(league, wallet) := JoinedMembership(d, league, wallet, now)],
       reservations := Reserve(d.reservations, ScheduleOf(d, league), wallet, league).value)
  }

  method RequestJoin(db: Database, league: LeagueId, wallet: Wallet, now: int) returns (r: Result<(), LeagueError>)
    modifies db
    ensures Outcome(db.Value(), r) == old(JoinRequested(db.Value(), league, wallet, now))
  {
    if league <= 0 {
      return Err(InvalidLeagueId);
    }
    if now + PENDING_JOIN_TTL_SECS > I64_MAX {
      return Err(Storage);
    }
    hide LiveMembers, AnySlotBlocked, Reserve, ExpiredMemberships, ExpiredReservations, JoinedMembership;
    var d := Expired(db.Value(), now);
    if league !in d.leagues {
      return Err(NotFound);
    }
    var row := d.leagues[league];
    if row.status != Registration || now > row.closeAt {
      return Err(RegistrationClosed);
    }
    var schedule := ScheduleOf(d, league);
    if |schedule| != row.totalRounds {
      return Err(ScheduleUnavailable);
    }
    if (league, wallet) in d.memberships && LiveMember(d.memberships[(league, wallet)]) {
      return Err(AlreadyMember);
    }
    if |LiveMembers(d, league)| >= row.maxPlayers {
      return Err(LeagueFull);
    }
    var conflict := FindConflict(d, league, wallet);
    if conflict {
      return Err(ScheduleConflict);
    }
    var reserved := ReserveAll(d.reservations, schedule, wallet, league);
    if reserved.None? {
      return Err(ScheduleConflict);
    }
    StoreMembers(db, d.memberships[(league, wallet) := JoinedMembership(d, league, wallet, now)], reserved.value);
    return Ok(());
  }

  method FindConflict(db: Db, league: LeagueId, wallet: Wallet) returns (found: bool)
    ensures found == AnySlotBlocked(db, wallet, league)
  {
    hide SlotBlocked;
    var schedule := ScheduleOf(db, league);
    for k := 0 to |schedule|
      invariant forall l :: 0 <= l < k ==> !SlotBlocked(db, wallet, league, schedule[l])
    {
      if SlotBlocked(db, wallet, league, schedule[k]) {
        return true;
      }
    }
    return false;
  }

  method ReserveAll(res: map<(RoundId, Wallet), Reservation>, slots: seq<Slot>, wallet: Wallet, league: LeagueId)
    returns (r: Option<map<(RoundId, Wallet), Reservation>>)
    ensures r == Reserve(res, slots, wallet, league)
  {
    var reservations := res;
    for k := 0 to |slots|
      invariant Reserve(res, slots[..k], wallet, league) == Some(reservations)
    {
      var key := (slots[k].round, wallet);
      assert slots[..k + 1][..k] == slots[..k];
      if key in reservations && LiveReservation(reservations[key]) {
        ReserveFails(res, slots, wallet, league, k + 1);
        return None;
      }
      reservations := reservations[key := Reservation(league, Pending)];
    }
    assert slots[..|slots|] == slots;
    return Some(reservations);
  }

  method StoreMembers(db: Database, memberships: map<(LeagueId, Wallet), Membership>,
                      reservations: map<(RoundId, Wallet), Reservation>)
    modifies db`memberships, db`reservations
    ensures db.memberships == memberships && db.reservations == reservations
  {
    db.memberships := memberships;
    db.reservations := reservations;
  }

  lemma {:induction false} ReserveFails(res: map<(RoundId, Wallet), Reservation>, slots: seq<Slot>, wallet: Wallet,
                                        league: LeagueId, k: nat)
    requires k <= |slots| && Reserve(res, slots[..k], wallet, league).None?
    ensures Reserve(res, slots, wallet, league).None?
    decreases |slots| - k
  {
    if k < |slots| {
      assert slots[..k + 1][..k] == slots[..k];
      ReserveFails(res, slots, wallet, league, k + 1);
    } else {
      assert slots[..k] == slots;
    }
  }

  function MemberSet(db: Db, league: LeagueId, wallet: Wallet, state: MembershipState,
                     now: int): map<(LeagueId, Wallet), Membership>
    requires (league, wallet) in db.memberships
  {
    var m := db.memberships[(league, wallet)];
    db.memberships[(league, wallet) := m.(state := state, updatedAt := now,
                                          pendingUntil := if state == Left then m.pendingUntil else None)]
  }

  /** A membership changes state and its reservations follow. */
  function Transitioned(db: Db, league: LeagueId, wallet: Wallet, state: MembershipState, now: int,
                        from: set<ReservationStatus>,
                        to: ReservationStatus): Db
    requires (league, wallet) in db.memberships
  {
    db.(memberships := MemberSet(db, league, wallet, state, now),
        reservations := Retag(db.reservations, league, wallet, from, to))
  }

  function LeaveRequested(db: Db, league: LeagueId, wallet: Wallet, now: int): Outcome<(), LeagueError> {
    if league <= 0 then Outcome(db, Err(InvalidLeagueId))
    else if league !in db.leagues then Outcome(db, Err(NotFound))
    else if !RegistrationOpen(db.leagues[league], now) then Outcome(db, Err(RegistrationClosed))
    else if (league, wallet) !in db.memberships then Outcome(db, Err(NotMember))
    else if db.memberships[(league, wallet)].state != ActiveMember then Outcome(db, Err(InvalidMembershipState))
    else
      Outcome(Transitioned(db, league, wallet, PendingLeave, now, {Pending, ActiveReservation}, LeavePending), Ok(()))
  }

  method RequestLeave(db: Database, league: LeagueId, wallet: Wallet, now: int) returns (r: Result<(), LeagueError>)
    modifies db
    ensures Outcome(db.Value(), r) == old(LeaveRequested(db.Value(), league, wallet, now))
  {
    if league <= 0 {
      return Err(InvalidLeagueId);
    }
    if league !in db.leagues {
      return Err(NotFound);
    }
    var row := db.leagues[league];
    if row.status != Registration || now > row.closeAt {
      return Err(RegistrationClosed);
    }
    if (league, wallet) !in db.memberships {
      return Err(NotMember);
    }
    if db.memberships[(league, wallet)].state != ActiveMember {
      return Err(InvalidMembershipState);
    }
    db.memberships := MemberSet(db.Value(), league, wallet, PendingLeave, now);
    db.reservations := Retag(db.reservations, league, wallet, {Pending, ActiveReservation}, LeavePending);
    return Ok(());
  }

  /** `matches` says that the indexed member account is the League's canonical address for the
      wallet, the only address a membership row ever stores. */
  function JoinConfirmed(db: Db, league: LeagueId, wallet: Wallet, matches: bool, now: int): Outcome<(), LeagueError> {
    if league <= 0 then Outcome(db, Err(InvalidLeagueId))
    else if league !in db.leagues then Outcome(db, Err(NotFound))
    else if !matches then Outcome(db, Err(InvalidMembershipState))
    else if (league, wallet) !in db.memberships then Outcome(db, Err(NotMember))
    else
      var state := db.memberships[(league, wallet)].state;
      if state != PendingJoin && state != ActiveMember then Outcome(db, Err(InvalidMembershipState))
      else
        Outcome(Transitioned(db, league, wallet, ActiveMember, now, {Pending}, ActiveReservation), Ok(()))
  }

  method ConfirmJoin(db: Database, league: LeagueId, wallet: Wallet, matches: bool, now: int)
    returns (r: Result<(), LeagueError>)
    modifies db
    ensures Outcome(db.Value(), r) == old(JoinConfirmed(db.Value(), league, wallet, matches, now))
  {
    if league <= 0 {
      return Err(InvalidLeagueId);
    }
    if league !in db.leagues {
      return Err(NotFound);
    }
    if !matches {
      return Err(InvalidMembershipState);
    }
    if (league, wallet) !in db.memberships {
      return Err(NotMember);
    }
    var state := db.memberships[(league, wallet)].state;
    if state != PendingJoin && state != ActiveMember {
      return Err(InvalidMembershipState);
    }
    db.memberships := MemberSet(db.Value(), league, wallet, ActiveMember, now);
    db.reservations := Retag(db.reservations, league, wallet, {Pending}, ActiveReservation);
    return Ok(());
  }

  function LeaveConfirmed(db: Db, league: LeagueId, wallet: Wallet, now: int): Outcome<(), LeagueError> {
    if league <= 0 then Outcome(db, Err(InvalidLeagueId))
    else if (league, wallet) !in db.memberships then Outcome(db, Err(NotMember))
    else
      var state := db.memberships[(league, wallet)].state;
      if state != PendingLeave && state != Left then Outcome(db, Err(InvalidMembershipState))
      else if state == Left then Outcome(db, Ok(()))
      else
        Outcome(Transitioned(db, league, wallet, Left, now, {LeavePending}, CancelledReservation), Ok(()))
  }

  method ConfirmLeave(db: Database, league: LeagueId, wallet: Wallet, now: int) returns (r: Result<(), LeagueError>)
    modifies db
    ensures Outcome(db.Value(), r) == old(LeaveConfirmed(db.Value(), league, wallet, now))
  {
    if league <= 0 {
      return Err(InvalidLeagueId);
    }
    if (league, wallet) !in db.memberships {
      return Err(NotMember);
    }
    var state := db.memberships[(league, wallet)].state;
    if state != PendingLeave && state != Left {
      return Err(InvalidMembershipState);
    }
    if state == PendingLeave {
      db.memberships := MemberSet(db.Value(), league, wallet, Left, now);
      db.reservations := Retag(db.reservations, league, wallet, {LeavePending}, CancelledReservation);
    }
    return Ok(());
  }
}
