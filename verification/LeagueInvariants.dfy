/** What every League operation keeps: reservations follow memberships exactly, one wallet's
    reserved windows never overlap, and no live queue entry overlaps a live reservation. */
module LeagueInvariants {
  import opened Wrappers
  import opened Sequences
  import opened Tables
  import opened LeagueOperations

  type Windows = map<RoundId, Window>
  type Memberships = map<(LeagueId, Wallet), Membership>
  type Reservations = map<(RoundId, Wallet), Reservation>
  type Queue = map<(RoundId, Wallet), QueueRow>
  type Schedules = map<LeagueId, seq<Slot>>

  ghost function WindowsOf(db: Db): Windows { map r | r in db.rounds :: db.rounds[r].window }

  lemma SameWindows(db: Db, d: Db)
    requires d.rounds == db.rounds
    ensures WindowsOf(d) == WindowsOf(db)
  {
  }

  ghost predicate Apart(ws: Windows, r: RoundId, s: RoundId) {
    r in ws && s in ws && !Overlap(ws[r], ws[s])
  }

  /** A Market Round's queue closes before it starts, and it starts before it ends. */
  ghost predicate WindowsOrdered(ws: Windows) {
    forall r :: r in ws ==> ws[r].close < ws[r].start < ws[r].end
  }

  ghost predicate SlotsApart(slots: seq<Slot>, ws: Windows) {
    && (forall k :: 0 <= k < |slots| ==> slots[k].round in ws)
    && (forall i, j :: 0 <= i < j < |slots| ==> Apart(ws, slots[i].round, slots[j].round))
  }

  ghost predicate SchedulesApart(schedules: Schedules, ws: Windows) {
    forall l :: l in schedules ==> SlotsApart(schedules[l], ws)
  }

  /** The reservation status that goes with a live membership. */
  function Tag(state: MembershipState): ReservationStatus {
    match state
    case PendingJoin => Pending
    case ActiveMember => ActiveReservation
    case PendingLeave => LeavePending
    case Left | ExpiredJoin => CancelledReservation
  }

  ghost predicate Holds(res: Reservations, league: LeagueId, w: Wallet, round: RoundId, status: ReservationStatus) {
    (round, w) in res && res[(round, w)] == Reservation(league, status)
  }

  ghost predicate HoldsAll(res: Reservations, slots: seq<Slot>, league: LeagueId, w: Wallet,
                           status: ReservationStatus) {
    forall k :: 0 <= k < |slots| ==> Holds(res, league, w, slots[k].round, status)
  }

  /** A live member has, for every scheduled round of its League, a reservation of the status
      that goes with the membership. */
  ghost predicate MembersReserved(ms: Memberships, res: Reservations, schedules: Schedules) {
    forall m :: m in ms && LiveMember(ms[m]) ==> HoldsAll(res, SlotsOf(schedules, m.0), m.0, m.1, Tag(ms[m].state))
  }

  ghost predicate HasSlot(slots: seq<Slot>, round: RoundId) {
    exists k :: 0 <= k < |slots| && slots[k].round == round
  }

  ghost predicate Owned(ms: Memberships, schedules: Schedules, r: Reservation, round: RoundId, w: Wallet) {
    && (r.league, w) in ms && LiveMember(ms[(r.league, w)]) && r.status == Tag(ms[(r.league, w)].state)
    && HasSlot(SlotsOf(schedules, r.league), round)
  }

  /** And nothing else is reserved: a live reservation is for a scheduled round of a League its
      wallet is a live member of. */
  ghost predicate ReservationsOwned(ms: Memberships, res: Reservations, schedules: Schedules) {
    forall k :: k in res && LiveReservation(res[k]) ==> Owned(ms, schedules, res[k], k.0, k.1)
  }

  ghost predicate Lockstep(ms: Memberships, res: Reservations, schedules: Schedules) {
    MembersReserved(ms, res, schedules) && ReservationsOwned(ms, res, schedules)
  }

  /** No wallet holds two live reservations with overlapping windows. */
  ghost predicate ReservedApart(res: Reservations, ws: Windows) {
    && (forall k :: k in res && LiveReservation(res[k]) ==> k.0 in ws)
    && (forall j, k ::
          j in res && k in res && LiveReservation(res[j]) && LiveReservation(res[k]) && j.1 == k.1 && j.0 != k.0
          ==> Apart(ws, j.0, k.0))
  }

  /** No wallet holds a live queue entry that overlaps a live reservation of its own. */
  ghost predicate QueueApart(q: Queue, res: Reservations, ws: Windows) {
    && (forall k :: k in q ==> k.0 in ws)
    && (forall j, k :: j in q && k in res && LiveEntry(q[j]) && LiveReservation(res[k]) && j.1 == k.1 ==>
          Apart(ws, j.0, k.0))
  }

  ghost function LiveOf(ms: Memberships, league: LeagueId): set<Wallet> {
    set k | k in ms && k.0 == league && LiveMember(ms[k]) :: k.1
  }

  /** Members belong to registered Leagues, none of which has more live ones than it takes. */
  ghost predicate WithinCapacity(leagues: map<LeagueId, League>, ms: Memberships) {
    && (forall k :: k in ms ==> k.0 in leagues)
    && (forall l :: l in leagues ==> |LiveOf(ms, l)| <= leagues[l].maxPlayers)
  }

  ghost predicate LeagueInv(db: Db) {
    var ws := WindowsOf(db);
    && WindowsOrdered(ws) && SchedulesApart(db.schedules, ws)
    && Lockstep(db.memberships, db.reservations, db.schedules)
    && ReservedApart(db.reservations, ws) && QueueApart(db.queue, db.reservations, ws)
    && WithinCapacity(db.leagues, db.memberships)
  }

  // ----- fewer live rows keep windows apart -----

  ghost predicate LiveWithin(res': Reservations, res: Reservations) {
    forall k :: k in res' && LiveReservation(res'[k]) ==> k in res && LiveReservation(res[k])
  }

  lemma FewerReservations(q: Queue, res: Reservations, res': Reservations, ws: Windows)
    requires ReservedApart(res, ws) && QueueApart(q, res, ws) && LiveWithin(res', res)
    ensures ReservedApart(res', ws) && QueueApart(q, res', ws)
  {
    hide Apart;
  }

  lemma FewerMembers(leagues: map<LeagueId, League>, ms: Memberships, ms': Memberships)
    requires WithinCapacity(leagues, ms)
    requires forall k :: k in ms' ==> k in ms && (LiveMember(ms'[k]) ==> LiveMember(ms[k]))
    ensures WithinCapacity(leagues, ms')
  {
    forall l | l in leagues ensures |LiveOf(ms', l)| <= leagues[l].maxPlayers {
      assert LiveOf(ms', l) <= LiveOf(ms, l);
      SubsetSize(LiveOf(ms', l), LiveOf(ms, l));
    }
  }

  // ----- changing one membership and its reservations -----

  /** A membership changes state and its reservations are given the status that goes with it. */
  lemma RetagLockstep(ms: Memberships, res: Reservations, schedules: Schedules, league: LeagueId, w: Wallet,
                      m: Membership,
                      from: set<ReservationStatus>, to: ReservationStatus)
    requires Lockstep(ms, res, schedules) && (league, w) in ms && LiveMember(ms[(league, w)])
    requires from <= {Pending, ActiveReservation, LeavePending}
    requires Tag(ms[(league, w)].state) in from || Tag(ms[(league, w)].state) == to
    requires if LiveMember(m) then to == Tag(m.state)
             else to == CancelledReservation && Tag(ms[(league, w)].state) in from
    ensures Lockstep(ms[(league, w) := m], Retag(res, league, w, from, to), schedules)
    ensures LiveWithin(Retag(res, league, w, from, to), res)
  {
    RetagReserved(ms, res, schedules, league, w, m, from, to);
    RetagOwned(ms, res, schedules, league, w, m, from, to);
  }

  lemma RetagReserved(ms: Memberships, res: Reservations, schedules: Schedules, league: LeagueId, w: Wallet,
                      m: Membership,
                      from: set<ReservationStatus>, to: ReservationStatus)
    requires MembersReserved(ms, res, schedules) && (league, w) in ms && LiveMember(ms[(league, w)])
    requires Tag(ms[(league, w)].state) in from || Tag(ms[(league, w)].state) == to
    requires LiveMember(m) ==> to == Tag(m.state)
    ensures MembersReserved(ms[(league, w) := m], Retag(res, league, w, from, to), schedules)
  {
    hide LiveMember, Tag;
    var ms', res' := ms[(league, w) := m], Retag(res, league, w, from, to);
    forall k | k in ms' && LiveMember(ms'[k])
      ensures HoldsAll(res', SlotsOf(schedules, k.0), k.0, k.1, Tag(ms'[k].state))
    {
      assert HoldsAll(res, SlotsOf(schedules, k.0), k.0, k.1, Tag(ms[k].state));
      if k == (league, w) { assert ms'[k] == m; } else { assert ms'[k] == ms[k]; }
    }
  }

  lemma RetagOwned(ms: Memberships, res: Reservations, schedules: Schedules, league: LeagueId, w: Wallet, m: Membership,
                   from: set<ReservationStatus>, to: ReservationStatus)
    requires ReservationsOwned(ms, res, schedules) && (league, w) in ms && LiveMember(ms[(league, w)])
    requires from <= {Pending, ActiveReservation, LeavePending}
    requires Tag(ms[(league, w)].state) in from || Tag(ms[(league, w)].state) == to
    requires if LiveMember(m) then to == Tag(m.state)
             else to == CancelledReservation && Tag(ms[(league, w)].state) in from
    ensures ReservationsOwned(ms[(league, w) := m], Retag(res, league, w, from, to), schedules)
    ensures LiveWithin(Retag(res, league, w, from, to), res)
  {
    var ms', res' := ms[(league, w) := m], Retag(res, league, w, from, to);
    hide HasSlot, SlotsOf;
    forall k | k in res' && LiveReservation(res'[k])
      ensures k in res && LiveReservation(res[k]) && Owned(ms', schedules, res'[k], k.0, k.1)
    {
      assert LiveReservation(res[k]);
      assert Owned(ms, schedules, res[k], k.0, k.1);
      assert res'[k].league == res[k].league;
      if (res[k].league, k.1) != (league, w) { assert res'[k] == res[k]; }
    }
  }

  // ----- expiry -----

  lemma ExpiryLockstep(db: Db, now: int)
    requires Lockstep(db.memberships, db.reservations, db.schedules)
    ensures Lockstep(Expired(db, now).memberships, Expired(db, now).reservations, db.schedules)
    ensures LiveWithin(Expired(db, now).reservations, db.reservations)
  {
    var ms, res := db.memberships, db.reservations;
    var ms', res' := Expired(db, now).memberships, Expired(db, now).reservations;
    hide HasSlot, SlotsOf;
    assert MembersReserved(ms', res', db.schedules) by {
      forall k | k in ms' && LiveMember(ms'[k])
        ensures HoldsAll(res', SlotsOf(db.schedules, k.0), k.0, k.1, Tag(ms'[k].state))
      {
        assert ms'[k] == ms[k];
        assert HoldsAll(res, SlotsOf(db.schedules, k.0), k.0, k.1, Tag(ms[k].state));
      }
    }
    forall k | k in res' && LiveReservation(res'[k])
      ensures k in res && LiveReservation(res[k]) && Owned(ms', db.schedules, res'[k], k.0, k.1)
    {
      assert res'[k] == res[k];
      assert Owned(ms, db.schedules, res[k], k.0, k.1);
    }
  }

  lemma ExpiryKeeps(db: Db, now: int)
    requires LeagueInv(db)
    ensures LeagueInv(Expired(db, now))
  {
    hide Lockstep, ReservedApart, QueueApart, WithinCapacity, LiveWithin, WindowsOrdered, SchedulesApart;
    ExpiryLockstep(db, now);
    var d := Expired(db, now);
    assert WindowsOf(d) == WindowsOf(db);
    FewerReservations(db.queue, db.reservations, d.reservations, WindowsOf(db));
    FewerMembers(db.leagues, db.memberships, d.memberships);
  }

  // ----- joining -----

  lemma {:induction false} ReserveMeaning(res: Reservations, slots: seq<Slot>, w: Wallet, league: LeagueId)
    requires Reserve(res, slots, w, league).Some?
    ensures var res' := Reserve(res, slots, w, league).value;
            && (forall k :: k in res' <==> k in res || (k.1 == w && HasSlot(slots, k.0)))
            && (forall k :: k in res' ==>
                  res'[k] == if k.1 == w && HasSlot(slots, k.0) then Reservation(league, Pending) else res[k])
            && (forall k :: k in res && k.1 == w && HasSlot(slots, k.0) ==> !LiveReservation(res[k]))
  {
    if slots != [] {
      var init, last := slots[..|slots| - 1], slots[|slots| - 1];
      ReserveMeaning(res, init, w, league);
      forall r ensures HasSlot(slots, r) <==> HasSlot(init, r) || last.round == r {
        if HasSlot(init, r) { var k :| 0 <= k < |init| && init[k].round == r; assert slots[k].round == r; }
        if last.round == r { assert slots[|slots| - 1].round == r; }
      }
    }
  }

  /** The insert of a join never meets a live reservation the overlap query did not report. */
  lemma {:induction false} ReserveSucceeds(res: Reservations, slots: seq<Slot>, w: Wallet, league: LeagueId,
                                           ws: Windows)
    requires SlotsApart(slots, ws) && WindowsOrdered(ws)
    requires forall k :: k in res && k.1 == w && HasSlot(slots, k.0) ==> !LiveReservation(res[k])
    ensures Reserve(res, slots, w, league).Some?
  {
    if slots != [] {
      var init, last := slots[..|slots| - 1], slots[|slots| - 1];
      forall r | HasSlot(init, r) ensures HasSlot(slots, r) && r != last.round {
        var k :| 0 <= k < |init| && init[k].round == r;
        assert slots[k].round == r && Apart(ws, slots[k].round, slots[|slots| - 1].round);
      }
      ReserveSucceeds(res, init, w, league, ws);
      ReserveMeaning(res, init, w, league);
      assert HasSlot(slots, last.round);
    }
  }

  lemma NotBlocked(db: Db, w: Wallet, league: LeagueId, k: nat)
    requires !AnySlotBlocked(db, w, league) && k < |ScheduleOf(db, league)|
    ensures !SlotBlocked(db, w, league, ScheduleOf(db, league)[k])
  {
  }

  /** Every live reservation and queue entry of the wallet is apart from every slot it joins. */
  lemma SlotsFree(db: Db, w: Wallet, league: LeagueId)
    requires !AnySlotBlocked(db, w, league) && LeagueInv(db)
    ensures forall r, k ::
              HasSlot(ScheduleOf(db, league), r) && k in db.reservations && k.1 == w
                && LiveReservation(db.reservations[k])
              ==> Apart(WindowsOf(db), r, k.0) && r != k.0
    ensures forall r, k :: HasSlot(ScheduleOf(db, league), r) && k in db.queue && k.1 == w && LiveEntry(db.queue[k])
              ==> Apart(WindowsOf(db), r, k.0)
  {
    var slots, ws := ScheduleOf(db, league), WindowsOf(db);
    hide Lockstep, WithinCapacity, AnySlotBlocked, LiveReservation, LiveEntry;
    forall r | HasSlot(slots, r) ensures r in ws && !SlotBlocked(db, w, league, Slot(0, r)) {
      var i :| 0 <= i < |slots| && slots[i].round == r;
      assert league in db.schedules && SlotsApart(db.schedules[league], ws);
      NotBlocked(db, w, league, i);
    }
    forall r, k | HasSlot(slots, r) && k in db.reservations && k.1 == w && LiveReservation(db.reservations[k])
      ensures Apart(ws, r, k.0) && r != k.0
    {
      assert !WalletHasReservation(db, w, ws[r]);
      assert !RoundOverlaps(db, k.0, ws[r]);
      assert ws[r].start < ws[r].end;
    }
    forall r, k | HasSlot(slots, r) && k in db.queue && k.1 == w && LiveEntry(db.queue[k]) ensures Apart(ws, r, k.0) {
      assert !WalletInQueue(db, w, ws[r]);
      assert !RoundOverlaps(db, k.0, ws[r]);
    }
  }

  lemma JoinLockstep(ms: Memberships, res: Reservations, schedules: Schedules, league: LeagueId, w: Wallet,
                     m: Membership)
    requires Lockstep(ms, res, schedules) && m.state == PendingJoin
    requires (league, w) in ms ==> !LiveMember(ms[(league, w)])
    requires Reserve(res, SlotsOf(schedules, league), w, league).Some?
    ensures Lockstep(ms[(league, w) := m], Reserve(res, SlotsOf(schedules, league), w, league).value, schedules)
  {
    var slots := SlotsOf(schedules, league);
    var ms', res' := ms[(league, w) := m], Reserve(res, slots, w, league).value;
    ReserveMeaning(res, slots, w, league);
    hide Reserve, SlotsOf;
    assert MembersReserved(ms', res', schedules) by {
      forall k | k in ms' && LiveMember(ms'[k])
        ensures HoldsAll(res', SlotsOf(schedules, k.0), k.0, k.1, Tag(ms'[k].state))
      {
        if k == (league, w) {
          forall i | 0 <= i < |slots| ensures Holds(res', league, w, slots[i].round, Pending) {
            assert HasSlot(slots, slots[i].round);
            assert (slots[i].round, w) in res';
          }
        } else {
          assert HoldsAll(res, SlotsOf(schedules, k.0), k.0, k.1, Tag(ms[k].state));
        }
      }
    }
    assert ReservationsOwned(ms', res', schedules) by {
      hide HasSlot;
      forall k | k in res' && LiveReservation(res'[k]) ensures Owned(ms', schedules, res'[k], k.0, k.1) {
        if !(k.1 == w && HasSlot(slots, k.0)) { assert Owned(ms, schedules, res[k], k.0, k.1); }
      }
    }
  }

  ghost predicate FreeOf(res: Reservations, slots: seq<Slot>, w: Wallet, ws: Windows) {
    forall r, k :: HasSlot(slots, r) && k in res && k.1 == w && LiveReservation(res[k]) ==>
      Apart(ws, r, k.0) && r != k.0
  }

  lemma JoinReservedApart(res: Reservations, slots: seq<Slot>, league: LeagueId, w: Wallet, ws: Windows)
    requires ReservedApart(res, ws) && Reserve(res, slots, w, league).Some? && SlotsApart(slots, ws)
    requires FreeOf(res, slots, w, ws)
    ensures ReservedApart(Reserve(res, slots, w, league).value, ws)
  {
    var res' := Reserve(res, slots, w, league).value;
    ReserveMeaning(res, slots, w, league);
    hide Reserve;
    forall r | HasSlot(slots, r) ensures r in ws { var i :| 0 <= i < |slots| && slots[i].round == r; }
    forall r, s | HasSlot(slots, r) && HasSlot(slots, s) && r != s ensures Apart(ws, r, s) {
      var i :| 0 <= i < |slots| && slots[i].round == r;
      var j :| 0 <= j < |slots| && slots[j].round == s;
      if j < i { assert Apart(ws, slots[j].round, slots[i].round); }
    }
    hide HasSlot;
    forall j, k | j in res' && k in res' && LiveReservation(res'[j]) && LiveReservation(res'[k]) && j.1 == k.1
      && j.0 != k.0
      ensures Apart(ws, j.0, k.0)
    {
      var newJ, newK := j.1 == w && HasSlot(slots, j.0), k.1 == w && HasSlot(slots, k.0);
      if newJ && !newK {
        assert Apart(ws, j.0, k.0);
      } else if newK && !newJ {
        assert Apart(ws, k.0, j.0);
      }
    }
  }

  lemma JoinQueueApart(q: Queue, res: Reservations, slots: seq<Slot>, league: LeagueId, w: Wallet, ws: Windows)
    requires QueueApart(q, res, ws) && Reserve(res, slots, w, league).Some?
    requires forall r, k :: HasSlot(slots, r) && k in q && k.1 == w && LiveEntry(q[k]) ==> Apart(ws, r, k.0)
    ensures QueueApart(q, Reserve(res, slots, w, league).value, ws)
  {
    var res' := Reserve(res, slots, w, league).value;
    ReserveMeaning(res, slots, w, league);
    hide Reserve, HasSlot, LiveEntry;
    forall j, k | j in q && k in res' && LiveEntry(q[j]) && LiveReservation(res'[k]) && j.1 == k.1
      ensures Apart(ws, j.0, k.0)
    {
      if k.1 == w && HasSlot(slots, k.0) { assert Apart(ws, k.0, j.0); }
    }
  }

  lemma JoinCapacity(leagues: map<LeagueId, League>, ms: Memberships, league: LeagueId, w: Wallet, m: Membership)
    requires WithinCapacity(leagues, ms) && league in leagues && |LiveOf(ms, league)| < leagues[league].maxPlayers
    ensures WithinCapacity(leagues, ms[(league, w) := m])
  {
    var ms' := ms[(league, w) := m];
    forall l | l in leagues ensures |LiveOf(ms', l)| <= leagues[l].maxPlayers {
      var more := LiveOf(ms, l) + if l == league then {w} else {};
      assert LiveOf(ms', l) <= more;
      SubsetSize(LiveOf(ms', l), more);
    }
  }

  lemma InsertKeeps(d: Db, league: LeagueId, w: Wallet, now: int)
    requires LeagueInv(d) && league in d.leagues
    requires (league, w) in d.memberships ==> !LiveMember(d.memberships[(league, w)])
    requires |LiveMembers(d, league)| < d.leagues[league].maxPlayers && !AnySlotBlocked(d, w, league)
    requires Reserve(d.reservations, ScheduleOf(d, league), w, league).Some?
    ensures LeagueInv(JoinStored(d, league, w, now))
  {
    var m := JoinedMembership(d, league, w, now);
    assert LiveMembers(d, league) == LiveOf(d.memberships, league);
    SlotsFree(d, w, league);
    var ws, slots := WindowsOf(d), ScheduleOf(d, league);
    assert SlotsApart(slots, ws);
    hide ReservedApart, QueueApart, WithinCapacity, WindowsOrdered, SchedulesApart, SlotsApart, Lockstep, Reserve,
      HasSlot, AnySlotBlocked, Apart;
    JoinLockstep(d.memberships, d.reservations, d.schedules, league, w, m);
    JoinReservedApart(d.reservations, slots, league, w, ws);
    JoinQueueApart(d.queue, d.reservations, slots, league, w, ws);
    JoinCapacity(d.leagues, d.memberships, league, w, m);
  }

  /** A successful join keeps every invariant. */
  lemma JoinKeeps(db: Db, league: LeagueId, w: Wallet, now: int)
    requires LeagueInv(db)
    ensures LeagueInv(JoinRequested(db, league, w, now).db)
  {
    hide LeagueInv, Expired, Reserve, AnySlotBlocked, LiveMembers, JoinStored;
    if JoinRequested(db, league, w, now).result.Ok? {
      var d := Expired(db, now);
      ExpiryKeeps(db, now);
      InsertKeeps(d, league, w, now);
    }
  }

  /** In a consistent state a join fails for an overlapping obligation exactly when one of the
      overlap queries reports it; the insert itself never finds a round still reserved. */
  lemma InsertNeverConflicts(db: Db, league: LeagueId, w: Wallet)
    requires LeagueInv(db) && !AnySlotBlocked(db, w, league)
    ensures Reserve(db.reservations, ScheduleOf(db, league), w, league).Some?
  {
    SlotsFree(db, w, league);
    var slots, ws := ScheduleOf(db, league), WindowsOf(db);
    assert SlotsApart(slots, ws);
    ReserveSucceeds(db.reservations, slots, w, league, ws);
  }

  // ----- leaving and confirming -----

  lemma TransitionKeeps(db: Db, league: LeagueId, w: Wallet, state: MembershipState, now: int,
                        from: set<ReservationStatus>,
                        to: ReservationStatus)
    requires LeagueInv(db) && (league, w) in db.memberships && LiveMember(db.memberships[(league, w)])
    requires from <= {Pending, ActiveReservation, LeavePending}
    requires Tag(db.memberships[(league, w)].state) in from || Tag(db.memberships[(league, w)].state) == to
    requires if state == ExpiredJoin
             || state == Left then to == CancelledReservation && Tag(db.memberships[(league, w)].state) in from
             else to == Tag(state)
    ensures LeagueInv(Transitioned(db, league, w, state, now, from, to))
  {
    var d, m := Transitioned(db, league, w, state, now, from, to), MemberSet(db, league, w, state, now)[(league, w)];
    SameWindows(db, d);
    hide Lockstep, ReservedApart, QueueApart, WithinCapacity, WindowsOrdered, SchedulesApart, LiveWithin, Retag,
      WindowsOf;
    RetagLockstep(db.memberships, db.reservations, db.schedules, league, w, m, from, to);
    FewerReservations(db.queue, db.reservations, d.reservations, WindowsOf(db));
    FewerMembers(db.leagues, db.memberships, d.memberships);
  }

  lemma LeaveRequestKeeps(db: Db, league: LeagueId, w: Wallet, now: int)
    requires LeagueInv(db)
    ensures LeagueInv(LeaveRequested(db, league, w, now).db)
  {
    hide LeagueInv, Transitioned;
    if LeaveRequested(db, league, w, now).result.Ok? {
      TransitionKeeps(db, league, w, PendingLeave, now, {Pending, ActiveReservation}, LeavePending);
    }
  }

  lemma JoinConfirmKeeps(db: Db, league: LeagueId, w: Wallet, matches: bool, now: int)
    requires LeagueInv(db)
    ensures LeagueInv(JoinConfirmed(db, league, w, matches, now).db)
  {
    hide LeagueInv, Transitioned;
    if JoinConfirmed(db, league, w, matches, now).result.Ok? {
      TransitionKeeps(db, league, w, ActiveMember, now, {Pending}, ActiveReservation);
    }
  }

  lemma LeaveConfirmKeeps(db: Db, league: LeagueId, w: Wallet, now: int)
    requires LeagueInv(db)
    ensures LeagueInv(LeaveConfirmed(db, league, w, now).db)
  {
    hide LeagueInv, Transitioned;
    if LeaveConfirmed(db, league, w, now).result.Ok? && db.memberships[(league, w)].state == PendingLeave {
      TransitionKeeps(db, league, w, Left, now, {LeavePending}, CancelledReservation);
    }
  }

  // ----- schedules -----

  lemma {:induction false} SlotsFaultFree(db: Db, league: LeagueId, es: seq<Entry>, now: int, k: nat)
    requires league in db.leagues && SlotsFault(db, league, es, now).None? && k < |es|
    ensures SlotFault(db, league, es[k], now).None?
  {
    hide SlotFault;
    if k > 0 { SlotsFaultFree(db, league, es[1..], now, k - 1); }
  }

  /** An accepted schedule names stored Market Rounds by their own windows, which do not overlap. */
  lemma AssignedApart(db: Db, league: LeagueId, es: seq<Entry>, now: int)
    requires AssignFault(db, league, es, now).None?
    ensures SlotsApart(AsSlots(es), WindowsOf(db))
  {
    hide LiveMembers, ScheduleConflicts;
    var slots, ws := AsSlots(es), WindowsOf(db);
    forall k | 0 <= k < |es|
      ensures slots[k].round in ws && ws[slots[k].round].start == es[k].start && ws[slots[k].round].end == es[k].end
    {
      SlotsFaultFree(db, league, es, now, k);
    }
    forall i, j | 0 <= i < j < |slots| ensures Apart(ws, slots[i].round, slots[j].round) {
      assert !EntriesOverlap(es[i], es[j]);
    }
  }

  lemma AssignLockstep(ms: Memberships, res: Reservations, schedules: Schedules, league: LeagueId, slots: seq<Slot>)
    requires Lockstep(ms, res, schedules) && LiveOf(ms, league) == {}
    ensures Lockstep(ms, res, schedules[league := slots])
  {
    forall k | k in ms && LiveMember(ms[k]) ensures k.0 != league {
      assert k.1 in LiveOf(ms, k.0);
    }
  }

  /** A schedule is replaced only while nobody is a live member, so no reservation is orphaned. */
  lemma AssignKeeps(db: Db, league: LeagueId, es: seq<Entry>, now: int)
    requires LeagueInv(db)
    ensures LeagueInv(Assigned(db, league, es, now).db)
  {
    var after := Assigned(db, league, es, now);
    if after.result.Ok? {
      assert LiveMembers(db, league) == LiveOf(db.memberships, league);
      AssignedApart(db, league, es, now);
      hide ReservedApart, QueueApart, WithinCapacity, WindowsOrdered, SlotsApart, Lockstep, AssignFault;
      AssignLockstep(db.memberships, db.reservations, db.schedules, league, AsSlots(es));
      assert WindowsOf(after.db) == WindowsOf(db);
    }
  }

  // ----- the operations refuse nothing the invariants rule out -----

  /** The schedule of a League does not change while it has a live member. */
  lemma ScheduleFixed(db: Db, league: LeagueId, other: LeagueId, es: seq<Entry>, now: int, w: Wallet)
    requires (other, w) in db.memberships && LiveMember(db.memberships[(other, w)])
    ensures SlotsOf(Assigned(db, league, es, now).db.schedules, other) == SlotsOf(db.schedules, other)
  {
    hide ScheduleFault, SlotsFault, AsSlots;
    assert w in LiveMembers(db, other);
  }

  // ----- an accepted schedule covers the League -----

  function FirstNumbers(n: nat): (r: set<int>)
    ensures |r| == n && forall x :: x in r <==> 1 <= x <= n
  {
    if n == 0 then {} else FirstNumbers(n - 1) + {n}
  }

  function Numbers(es: seq<Entry>): set<int> { set e | e in es :: e.no }

  lemma {:induction false} NumbersDistinct(es: seq<Entry>)
    requires EntriesFault(es).None?
    ensures |Numbers(es)| == |es| && forall e :: e in es ==> e.no > 0
    ensures forall i, j :: 0 <= i < j < |es| ==> es[i].no != es[j].no
  {
    if es != [] {
      var init, last := es[..|es| - 1], es[|es| - 1];
      NumbersDistinct(init);
      assert EntryFault(init, last).None?;
      assert es == init + [last];
      assert Numbers(es) == Numbers(init) + {last.no};
      assert last.no !in Numbers(init);
    }
  }

  /** An accepted schedule gives every League round from the first to the last exactly one
      Market Round. */
  lemma ScheduleCoversEveryRound(db: Db, league: LeagueId, es: seq<Entry>, now: int, no: int)
    requires AssignFault(db, league, es, now).None? && 1 <= no <= db.leagues[league].totalRounds
    ensures exists k :: 0 <= k < |es| && es[k].no == no && forall j :: 0 <= j < |es| && es[j].no == no ==> j == k
  {
    hide SlotsFault, LiveMembers;
    var total := db.leagues[league].totalRounds;
    NumbersDistinct(es);
    assert Numbers(es) <= FirstNumbers(total);
    SameSize(Numbers(es), FirstNumbers(total));
    assert no in Numbers(es);
    var e :| e in es && e.no == no;
    var k :| 0 <= k < |es| && es[k] == e;
    forall j | 0 <= j < |es| && es[j].no == no ensures j == k {
      assert es[j].no == es[k].no;
    }
  }
}
