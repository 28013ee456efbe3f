/** What each League operation answers and changes, said from the tables and the clock alone: schedules,
    joining, leaving, expiry and the pairing of a round. */
module LeagueMeaning {
  import opened Wrappers
  import opened Sequences
  import opened Tables
  import opened LeagueOperations
  import opened LeagueInvariants
  import opened RankedMeaning
  import B = LeagueBattles
  import C = LeagueConfirmations
  import Swiss = SwissPairing

  // ----- schedules -----

  /** What is wrong with an entry after faultless others, the first of these. */
  function EntryError(earlier: seq<Entry>, e: Entry): Option<LeagueError> {
    if e.no <= 0 || e.round <= 0 || e.end <= e.start then Some(InvalidSchedule)
    else if exists f | f in earlier :: f.round == e.round then Some(DuplicateMarketRound)
    else if exists f | f in earlier :: f.no == e.no then Some(DuplicateLeagueRound)
    else None
  }

  lemma {:induction false} EntriesMean(es: seq<Entry>)
    ensures EntriesFault(es).None? <==> forall k :: 0 <= k < |es| ==> EntryError(es[..k], es[k]).None?
    ensures EntriesFault(es).Some? ==>
              exists k :: 0 <= k < |es| && EntriesFault(es) == EntryError(es[..k], es[k])
                && forall j :: 0 <= j < k ==> EntryError(es[..j], es[j]).None?
  {
    if es != [] {
      var n := |es| - 1;
      EntriesMean(es[..n]);
      forall k | 0 <= k < n ensures es[..n][..k] == es[..k] && es[..n][k] == es[k] {
      }
      if EntriesFault(es[..n]).Some? {
        var k :| 0 <= k < n && EntriesFault(es[..n]) == EntryError(es[..n][..k], es[..n][k])
          && forall j :: 0 <= j < k ==> EntryError(es[..n][..j], es[..n][j]).None?;
        assert EntriesFault(es) == EntryError(es[..k], es[k]);
      } else {
        assert EntriesFault(es) == EntryError(es[..n], es[n]);
      }
    }
  }

  /** A schedule is refused if it is empty, for its first faulty entry, or if two of its half-open windows
      have an instant in common. */
  lemma ScheduleMeans(es: seq<Entry>)
    ensures es == [] ==> ScheduleFault(es) == Some(EmptySchedule)
    ensures es != [] && EntriesFault(es).Some? ==> ScheduleFault(es) == EntriesFault(es)
    ensures es != [] && EntriesFault(es).None? ==>
              var meet := exists i, j :: 0 <= i < j < |es| && !(es[i].end <= es[j].start || es[j].end <= es[i].start);
              ScheduleFault(es) == if meet then Some(ScheduleOverlap) else None
  {
    if es != [] && EntriesFault(es).None? {
      EntriesMean(es);
      forall k | 0 <= k < |es| ensures es[k].start < es[k].end { assert EntryError(es[..k], es[k]).None?; }
    }
  }

  /** A rated League other than this one is registering or playing, and one of its rounds, not a replay,
      meets the window. */
  ghost predicate Taken(db: Db, league: LeagueId, start: int, end: int) {
    exists l, k :: l != league && l in db.leagues && l in db.schedules && db.leagues[l].rated
      && db.leagues[l].status in {Registration, ActiveLeague} && 0 <= k < |db.schedules[l]|
      && var r := db.schedules[l][k].round;
         r in db.rounds && !db.rounds[r].replay
           && !(db.rounds[r].window.end <= start || end <= db.rounds[r].window.start)
  }

  /** The round is on chain, still scheduled, no replay, closes before it starts, has the entry's times,
      and starts later than now and than the registration's close. */
  predicate Usable(db: Db, league: LeagueId, e: Entry, now: int)
    requires league in db.leagues
  {
    e.round in db.rounds &&
    var r := db.rounds[e.round];
    && r.chain != NoAddress && r.state == Scheduled && !r.replay && r.window.close < r.window.start
    && r.window.start == e.start && r.window.end == e.end && now < e.start && db.leagues[league].closeAt < e.start
  }

  lemma TakenIs(db: Db, league: LeagueId, start: int, end: int)
    requires start < end && WindowsNotEmpty(db)
    ensures ScheduleConflicts(db, league, Window(0, start, end)) <==> Taken(db, league, start, end)
  {
    if ScheduleConflicts(db, league, Window(0, start, end)) {
      var l :| l in db.schedules && l != league && l in db.leagues && db.leagues[l].rated
        && (db.leagues[l].status == Registration || db.leagues[l].status == ActiveLeague)
        && SlotConflicts(db, db.schedules[l], Window(0, start, end));
      var k :| 0 <= k < |db.schedules[l]| && RoundOverlaps(db, db.schedules[l][k].round, Window(0, start, end))
        && !db.rounds[db.schedules[l][k].round].replay;
    }
    if Taken(db, league, start, end) {
      var l, k :| l != league && l in db.leagues && l in db.schedules && db.leagues[l].rated
        && db.leagues[l].status in {Registration, ActiveLeague} && 0 <= k < |db.schedules[l]|
        && var r := db.schedules[l][k].round;
           r in db.rounds && !db.rounds[r].replay
           && !(db.rounds[r].window.end <= start || end <= db.rounds[r].window.start);
      assert RoundOverlaps(db, db.schedules[l][k].round, Window(0, start, end));
      assert SlotConflicts(db, db.schedules[l], Window(0, start, end));
    }
  }

  ghost function SlotError(db: Db, league: LeagueId, e: Entry, now: int): Option<LeagueError>
    requires league in db.leagues
  {
    if !Usable(db, league, e, now) then Some(ScheduleUnavailable)
    else if Taken(db, league, e.start, e.end) then Some(ScheduleConflict)
    else None
  }

  lemma {:induction false} SlotsMean(db: Db, league: LeagueId, es: seq<Entry>, now: int)
    requires league in db.leagues && WindowsNotEmpty(db) && forall e :: e in es ==> e.start < e.end
    ensures SlotsFault(db, league, es, now).None? <==>
            forall k :: 0 <= k < |es| ==> SlotError(db, league, es[k], now).None?
    ensures SlotsFault(db, league, es, now).Some? ==>
              exists k :: 0 <= k < |es| && SlotsFault(db, league, es, now) == SlotError(db, league, es[k], now)
                && forall j :: 0 <= j < k ==> SlotError(db, league, es[j], now).None?
  {
    if es != [] {
      SlotIs(db, league, es[0], now);
      hide SlotFault, SlotError;
      SlotsMean(db, league, es[1..], now);
      if SlotFault(db, league, es[0], now).None? && SlotsFault(db, league, es[1..], now).Some? {
        var k :| 0 <= k < |es[1..]| && SlotsFault(db, league, es[1..], now) == SlotError(db, league, es[1..][k], now)
          && forall j :: 0 <= j < k ==> SlotError(db, league, es[1..][j], now).None?;
        assert es[1..][k] == es[k + 1];
        forall j | 0 <= j < k + 1 ensures SlotError(db, league, es[j], now).None? {
          if j > 0 { assert es[1..][j - 1] == es[j]; }
        }
      }
      assert forall k :: 0 <= k < |es| - 1 ==> es[1..][k] == es[k + 1];
      if forall k :: 0 <= k < |es| - 1 ==> SlotError(db, league, es[1..][k], now).None? {
        forall k | 0 < k < |es| ensures SlotError(db, league, es[k], now).None? { assert es[1..][k - 1] == es[k]; }
      }
    }
  }

  lemma SlotIs(db: Db, league: LeagueId, e: Entry, now: int)
    requires league in db.leagues && WindowsNotEmpty(db) && e.start < e.end
    ensures SlotFault(db, league, e, now) == SlotError(db, league, e, now)
  {
    hide ScheduleConflicts, Taken;
    TakenIs(db, league, e.start, e.end);
  }

  predicate Registering(l: League, now: int) { l.status == Registration && now <= l.closeAt }

  ghost predicate AnyLiveMember(db: Db, league: LeagueId) {
    exists k ::
      k in db.memberships && k.0 == league && db.memberships[k].state in {PendingJoin, ActiveMember, PendingLeave}
  }

  lemma NobodyLive(db: Db, league: LeagueId)
    ensures LiveMembers(db, league) != {} <==> AnyLiveMember(db, league)
  {
    if LiveMembers(db, league) != {} {
      var w :| w in LiveMembers(db, league);
    }
    if AnyLiveMember(db, league) {
      var k :| k in db.memberships && k.0 == league
        && db.memberships[k].state in {PendingJoin, ActiveMember, PendingLeave};
      assert k.1 in LiveMembers(db, league);
    }
  }

  /** What stands in the way of a schedule, the first of these. */
  lemma AssignAnswers(db: Db, league: LeagueId, es: seq<Entry>, now: int)
    ensures Assigned(db, league, es, now).result ==
            if league <= 0 then Err(InvalidLeagueId)
            else if ScheduleFault(es).Some? then Err(ScheduleFault(es).value)
            else if league !in db.leagues then Err(NotFound)
            else if !Registering(db.leagues[league], now) then Err(RegistrationClosed)
            else if |es| != db.leagues[league].totalRounds
                    || (exists k :: 0 <= k < |es| && es[k].no > db.leagues[league].totalRounds)
                       then Err(InvalidSchedule)
            else if AnyLiveMember(db, league) then Err(ScheduleUnavailable)
            else if SlotsFault(db, league, es, now).Some? then Err(SlotsFault(db, league, es, now).value)
            else Ok(())
  {
    hide ScheduleFault, SlotsFault, AsSlots, LiveMembers, AnyLiveMember;
    NobodyLive(db, league);
  }

  /** An accepted schedule is stored entry by entry in place of the League's earlier one. */
  lemma AssignStores(db: Db, league: LeagueId, es: seq<Entry>, now: int)
    ensures var o := Assigned(db, league, es, now);
            && o.db == db.(schedules := o.db.schedules)
            && (o.result.Err? ==> o.db.schedules == db.schedules)
            && (o.result.Ok? ==>
                  && o.db.schedules.Keys == db.schedules.Keys + {league} && |o.db.schedules[league]| == |es|
                  && (forall k :: 0 <= k < |es| ==> o.db.schedules[league][k] == Slot(es[k].no, es[k].round))
                  && forall l :: l in db.schedules && l != league ==> o.db.schedules[l] == db.schedules[l])
  {
    hide AssignFault;
    SchedulesOnly(db, db.schedules);
    SchedulesOnly(db, db.schedules[league := AsSlots(es)]);
  }

  lemma SchedulesOnly(db: Db, schedules: Schedules)
    ensures db.(schedules := schedules).schedules == schedules && db.(schedules := db.schedules) == db
  {
  }

  // ----- memberships -----

  ghost predicate OnlyMembers(db: Db, d: Db) { d == db.(memberships := d.memberships, reservations := d.reservations) }

  lemma MembersOnly(db: Db, ms: Memberships, res: Reservations)
    ensures var d := db.(memberships := ms, reservations := res);
            OnlyMembers(db, d) && d.memberships == ms && d.reservations == res
    ensures OnlyMembers(db, db)
  {
  }

  predicate Lapses(m: Membership, now: int) {
    m.state == PendingJoin && m.pendingUntil.Some? && m.pendingUntil.value <= now
  }

  /** Every join intent whose time has come expires, and with it the pending reservations of wallets whose
      membership of that League expired at this instant; nothing else changes. */
  lemma ExpiryMeans(db: Db, now: int)
    ensures var d := Expired(db, now);
            && OnlyMembers(db, d) && d.memberships.Keys == db.memberships.Keys
            && d.reservations.Keys == db.reservations.Keys
            && (forall k :: k in db.memberships ==>
                  var m := db.memberships[k];
                  d.memberships[k] == if Lapses(m, now) then Membership(ExpiredJoin, m.byes, None, now) else m)
            && (forall k :: k in db.reservations ==>
                  var r, j := db.reservations[k], (db.reservations[k].league, k.1);
                  d.reservations[k] ==
                    if r.status == Pending && j in db.memberships
                       && (Lapses(db.memberships[j], now)
                           || (db.memberships[j].state == ExpiredJoin && db.memberships[j].updatedAt == now))
                    then Reservation(r.league, ExpiredReservation) else r)
  {
    MembersOnly(db, ExpiredMemberships(db, now), ExpiredReservations(db, ExpiredMemberships(db, now), now));
    hide OnlyMembers;
  }

  /** The wallet is a live member of another rated League, registering or playing, with a round meeting the
      window. */
  ghost predicate Busy(db: Db, w: Wallet, league: LeagueId, window: Window) {
    exists l, k :: l != league && l in db.leagues && (l, w) in db.memberships
      && db.memberships[(l, w)].state in {PendingJoin, ActiveMember, PendingLeave} && db.leagues[l].rated
      && db.leagues[l].status in {Registration, ActiveLeague} && 0 <= k < |ScheduleOf(db, l)|
      && ScheduleOf(db, l)[k].round in db.rounds && Meet(db.rounds[ScheduleOf(db, l)[k].round].window, window)
  }

  /** The wallet has a queue entry that is still of use in a round meeting the window. */
  ghost predicate Queueing(db: Db, w: Wallet, window: Window) {
    exists k :: k in db.queue && k.1 == w && db.queue[k].status in {Queued, Snapshotted, Matched, BattleCreated}
      && k.0 in db.rounds && Meet(db.rounds[k.0].window, window)
  }

  ghost predicate Obliged(db: Db, w: Wallet, league: LeagueId) {
    exists k :: 0 <= k < |ScheduleOf(db, league)| && ScheduleOf(db, league)[k].round in db.rounds
      && var r := ScheduleOf(db, league)[k].round;
         Busy(db, w, league, db.rounds[r].window) || Held(db, r, w) || Queueing(db, w, db.rounds[r].window)
  }

  lemma BusyIs(db: Db, w: Wallet, league: LeagueId, window: Window)
    requires WindowsNotEmpty(db) && window.start < window.end
    ensures WalletInOverlappingLeague(db, w, league, window) <==> Busy(db, w, league, window)
  {
    if WalletInOverlappingLeague(db, w, league, window) {
      var l :| l in db.leagues && l != league && (l, w) in db.memberships && LiveMember(db.memberships[(l, w)])
        && db.leagues[l].rated && (db.leagues[l].status == Registration || db.leagues[l].status == ActiveLeague)
        && exists k | 0 <= k < |ScheduleOf(db, l)| :: RoundOverlaps(db, ScheduleOf(db, l)[k].round, window);
      var k :| 0 <= k < |ScheduleOf(db, l)| && RoundOverlaps(db, ScheduleOf(db, l)[k].round, window);
      assert Meet(db.rounds[ScheduleOf(db, l)[k].round].window, window);
    }
    if Busy(db, w, league, window) {
      var l, k :| l != league && l in db.leagues && (l, w) in db.memberships
        && db.memberships[(l, w)].state in {PendingJoin, ActiveMember, PendingLeave} && db.leagues[l].rated
        && db.leagues[l].status in {Registration, ActiveLeague} && 0 <= k < |ScheduleOf(db, l)|
        && ScheduleOf(db, l)[k].round in db.rounds && Meet(db.rounds[ScheduleOf(db, l)[k].round].window, window);
      assert RoundOverlaps(db, ScheduleOf(db, l)[k].round, window);
    }
  }

  lemma QueueingIs(db: Db, w: Wallet, window: Window)
    requires WindowsNotEmpty(db) && window.start < window.end
    ensures WalletInQueue(db, w, window) <==> Queueing(db, w, window)
  {
    if WalletInQueue(db, w, window) {
      var k :| k in db.queue && k.1 == w && LiveEntry(db.queue[k]) && RoundOverlaps(db, k.0, window);
    }
    if Queueing(db, w, window) {
      var k :| k in db.queue && k.1 == w && db.queue[k].status in {Queued, Snapshotted, Matched, BattleCreated}
        && k.0 in db.rounds && Meet(db.rounds[k.0].window, window);
      assert LiveEntry(db.queue[k]) && RoundOverlaps(db, k.0, window);
    }
  }

  lemma ObligedIs(db: Db, w: Wallet, league: LeagueId)
    requires WindowsNotEmpty(db)
    ensures AnySlotBlocked(db, w, league) <==> Obliged(db, w, league)
  {
    hide WalletInOverlappingLeague, WalletHasReservation, WalletInQueue, Busy, Held, Queueing;
    forall k | 0 <= k < |ScheduleOf(db, league)| && ScheduleOf(db, league)[k].round in db.rounds
      ensures var r := ScheduleOf(db, league)[k].round;
              SlotBlocked(db, w, league, ScheduleOf(db, league)[k])
              <==> Busy(db, w, league, db.rounds[r].window) || Held(db, r, w) || Queueing(db, w, db.rounds[r].window)
    {
      var r := ScheduleOf(db, league)[k].round;
      BusyIs(db, w, league, db.rounds[r].window);
      HeldIs(db, r, w);
      QueueingIs(db, w, db.rounds[r].window);
    }
  }

  lemma WindowsFilled(db: Db)
    requires LeagueInv(db)
    ensures WindowsNotEmpty(db)
  {
    assert WindowsOrdered(WindowsOf(db));
    hide LeagueInv;
    forall r | r in db.rounds ensures db.rounds[r].window.start < db.rounds[r].window.end { assert r in WindowsOf(db); }
  }

  lemma ExpiryTables(db: Db, now: int)
    ensures OnlyMembers(db, Expired(db, now))
  {
    MembersOnly(db, ExpiredMemberships(db, now), ExpiredReservations(db, ExpiredMemberships(db, now), now));
    hide OnlyMembers, ExpiredMemberships, ExpiredReservations;
  }

  /** What stands in the way of a join, once lapsed intents have expired; the first of these. */
  lemma JoinRequestAnswers(db: Db, league: LeagueId, w: Wallet, now: int)
    requires LeagueInv(db)
    ensures var d := Expired(db, now);
            JoinRequested(db, league, w, now).result ==
            if league <= 0 then Err(InvalidLeagueId)
            else if now + 900 > 0x7fff_ffff_ffff_ffff then Err(Storage)
            else if league !in db.leagues then Err(NotFound)
            else if !Registering(db.leagues[league], now) then Err(RegistrationClosed)
            else if |ScheduleOf(db, league)| != db.leagues[league].totalRounds then Err(ScheduleUnavailable)
            else if (league, w) in d.memberships
                    && d.memberships[(league, w)].state in {PendingJoin, ActiveMember, PendingLeave}
                       then Err(AlreadyMember)
            else if |LiveMembers(d, league)| >= db.leagues[league].maxPlayers then Err(LeagueFull)
            else if Obliged(d, w, league) then Err(ScheduleConflict)
            else Ok(())
  {
    var d := Expired(db, now);
    ExpiryKeeps(db, now);
    ExpiryTables(db, now);
    JoinFaultIs(d, league, w, now);
    hide LeagueInv, JoinFault, Obliged, Expired, LiveMembers, JoinStored;
  }

  lemma JoinFaultIs(d: Db, league: LeagueId, w: Wallet, now: int)
    requires LeagueInv(d)
    ensures JoinFault(d, league, w, now) ==
            if league !in d.leagues then Some(NotFound)
            else if !Registering(d.leagues[league], now) then Some(RegistrationClosed)
            else if |ScheduleOf(d, league)| != d.leagues[league].totalRounds then Some(ScheduleUnavailable)
            else if (league, w) in d.memberships
                    && d.memberships[(league, w)].state in {PendingJoin, ActiveMember, PendingLeave}
                       then Some(AlreadyMember)
            else if |LiveMembers(d, league)| >= d.leagues[league].maxPlayers then Some(LeagueFull)
            else if Obliged(d, w, league) then Some(ScheduleConflict)
            else None
  {
    WindowsFilled(d);
    ObligedIs(d, w, league);
    hide LeagueInv, AnySlotBlocked, Obliged, Reserve, LiveMembers;
    if !AnySlotBlocked(d, w, league) { InsertNeverConflicts(d, league, w); }
  }

  /** A join leaves a pending membership for fifteen minutes, which keeps the byes of an earlier one, and a
      pending reservation of every scheduled round; a refused one not even the expiry. */
  lemma JoinRequestStores(db: Db, league: LeagueId, w: Wallet, now: int)
    ensures var o, d := JoinRequested(db, league, w, now), Expired(db, now);
            && OnlyMembers(db, o.db)
            && (o.result.Err? ==> o.db == db)
            && (o.result.Ok? ==>
                  && o.db.memberships.Keys == d.memberships.Keys + {(league, w)}
                  && o.db.memberships[(league, w)] ==
                     Membership(PendingJoin,
                                if (league, w) in d.memberships then d.memberships[(league, w)].byes else 0,
                                Some(now + 900), now)
                  && (forall k :: k in d.memberships && k != (league, w) ==> o.db.memberships[k] == d.memberships[k])
                  && (forall k :: k in o.db.reservations <==>
                        k in d.reservations || (k.1 == w && HasSlot(ScheduleOf(db, league), k.0)))
                  && forall k :: k in o.db.reservations ==>
                       o.db.reservations[k] == if k.1 == w && HasSlot(ScheduleOf(db, league), k.0)
                                               then Reservation(league, Pending) else d.reservations[k])
  {
    hide JoinFault, Expired, Reserve, HasSlot, JoinStored;
    var d := Expired(db, now);
    MembersOnly(db, db.memberships, db.reservations);
    ExpiryTables(db, now);
    if JoinRequested(db, league, w, now).result.Ok? {
      JoinReservesAll(d, league, w, now);
      JoinMembers(d, league, w, now);
    }
  }

  lemma JoinMembers(d: Db, league: LeagueId, w: Wallet, now: int)
    requires Reserve(d.reservations, ScheduleOf(d, league), w, league).Some?
    ensures var ms := JoinStored(d, league, w, now).memberships;
            && ms.Keys == d.memberships.Keys + {(league, w)}
            && ms[(league, w)] ==
               Membership(PendingJoin, if (league, w) in d.memberships then d.memberships[(league, w)].byes else 0,
                          Some(now + 900), now)
            && forall k :: k in d.memberships && k != (league, w) ==> ms[k] == d.memberships[k]
  {
    hide Reserve;
  }

  lemma JoinReservesAll(d: Db, league: LeagueId, w: Wallet, now: int)
    requires JoinFault(d, league, w, now).None?
    ensures Reserve(d.reservations, ScheduleOf(d, league), w, league).Some?
    ensures var o := JoinStored(d, league, w, now);
            && o == d.(memberships := o.memberships, reservations := o.reservations)
            && (forall k :: k in o.reservations
                  <==> k in d.reservations || (k.1 == w && HasSlot(ScheduleOf(d, league), k.0)))
            && forall k :: k in o.reservations ==>
                 o.reservations[k] == if k.1 == w && HasSlot(ScheduleOf(d, league), k.0)
                                      then Reservation(league, Pending) else d.reservations[k]
  {
    hide AnySlotBlocked, LiveMembers, HasSlot, Reserve;
    ReserveMeaning(d.reservations, ScheduleOf(d, league), w, league);
  }

  /** A membership's new state, at this instant; no deadline remains but that of one that has left. */
  ghost predicate Moved(db: Db, d: Db, league: LeagueId, w: Wallet, state: MembershipState, now: int,
                        from: set<ReservationStatus>, to: ReservationStatus)
    requires (league, w) in db.memberships
  {
    var m := db.memberships[(league, w)];
    && OnlyMembers(db, d) && d.memberships.Keys == db.memberships.Keys && d.reservations.Keys == db.reservations.Keys
    && d.memberships[(league, w)] == Membership(state, m.byes, if state == Left then m.pendingUntil else None, now)
    && (forall k :: k in db.memberships && k != (league, w) ==> d.memberships[k] == db.memberships[k])
    && forall k :: k in db.reservations ==>
         var r := db.reservations[k];
         d.reservations[k] == if k.1 == w && r.league == league && r.status in from then Reservation(league, to) else r
  }

  lemma MovesIs(db: Db, league: LeagueId, w: Wallet, state: MembershipState, now: int, from: set<ReservationStatus>,
                to: ReservationStatus)
    requires (league, w) in db.memberships
    ensures Moved(db, Transitioned(db, league, w, state, now, from, to), league, w, state, now, from, to)
  {
    MembersOnly(db, MemberSet(db, league, w, state, now), Retag(db.reservations, league, w, from, to));
    hide OnlyMembers;
  }

  /** A join seen on chain, at the wallet's own member address, activates a pending membership or finds it
      active. */
  lemma JoinSeenMeans(db: Db, league: LeagueId, w: Wallet, matches: bool, now: int)
    ensures var o, k := JoinConfirmed(db, league, w, matches, now), (league, w);
            && o.result ==
               (if league <= 0 then Err(InvalidLeagueId)
                else if league !in db.leagues then Err(NotFound)
                else if !matches then Err(InvalidMembershipState)
                else if k !in db.memberships then Err(NotMember)
                else if db.memberships[k].state in {PendingJoin, ActiveMember} then Ok(())
                else Err(InvalidMembershipState))
            && (o.result.Err? ==> o.db == db)
            && (o.result.Ok? ==> Moved(db, o.db, league, w, ActiveMember, now, {Pending}, ActiveReservation))
  {
    if (league, w) in db.memberships { MovesIs(db, league, w, ActiveMember, now, {Pending}, ActiveReservation); }
    hide Moved, Transitioned;
  }

  /** An active member may ask to leave while registration is open. */
  lemma LeaveRequestMeans(db: Db, league: LeagueId, w: Wallet, now: int)
    ensures var o, k := LeaveRequested(db, league, w, now), (league, w);
            && o.result ==
               (if league <= 0 then Err(InvalidLeagueId)
                else if league !in db.leagues then Err(NotFound)
                else if !Registering(db.leagues[league], now) then Err(RegistrationClosed)
                else if k !in db.memberships then Err(NotMember)
                else if db.memberships[k].state != ActiveMember then Err(InvalidMembershipState)
                else Ok(()))
            && (o.result.Err? ==> o.db == db)
            && (o.result.Ok? ==>
                  Moved(db, o.db, league, w, PendingLeave, now, {Pending, ActiveReservation}, LeavePending))
  {
    if (league, w) in db.memberships {
      MovesIs(db, league, w, PendingLeave, now, {Pending, ActiveReservation}, LeavePending);
    }
    hide Moved, Transitioned;
  }

  /** A leave seen on chain ends a leaving membership and cancels its reservations; repeated, it changes
      nothing. */
  lemma LeaveSeenMeans(db: Db, league: LeagueId, w: Wallet, now: int)
    ensures var o, k := LeaveConfirmed(db, league, w, now), (league, w);
            && o.result ==
               (if league <= 0 then Err(InvalidLeagueId)
                else if k !in db.memberships then Err(NotMember)
                else if db.memberships[k].state in {PendingLeave, Left} then Ok(())
                else Err(InvalidMembershipState))
            && (o.result.Err? ==> o.db == db)
            && (o.result.Ok? && db.memberships[k].state == Left ==> o.db == db)
            && (o.result.Ok? && db.memberships[k].state == PendingLeave ==>
                  Moved(db, o.db, league, w, Left, now, {LeavePending}, CancelledReservation))
  {
    if (league, w) in db.memberships { MovesIs(db, league, w, Left, now, {LeavePending}, CancelledReservation); }
    hide Moved, Transitioned;
  }

  // ----- a round is paired -----

  /** The active members in wallet order, each with what the tables say of it. */
  ghost predicate IsRoster(db: Db, league: LeagueId, f: B.Facts, players: seq<Swiss.PairingPlayer>) {
    && (forall i, j :: 0 <= i < j < |players| ==> players[i].wallet < players[j].wallet)
    && forall p :: p in players <==>
         var k := (league, p.wallet);
         && k in db.memberships && db.memberships[k].state == ActiveMember && p.byes == db.memberships[k].byes
         && p.points == f.points(p.wallet) && p.rating == f.rating(p.wallet) && p.prior == f.prior(p.wallet)
  }

  lemma RosterIs(db: Db, league: LeagueId, f: B.Facts)
    ensures IsRoster(db, league, f, B.Candidates(db, league, f))
  {
    var members := B.ActiveMembers(db, league);
    AscendingMeaning(members);
    var ws, players := Ascending(members), B.Candidates(db, league, f);
    forall w: Wallet
      ensures w in members <==> (league, w) in db.memberships && db.memberships[(league, w)].state == ActiveMember
    {
      if (league, w) in db.memberships { assert (league, w).1 == w; }
    }
    hide Ascending, B.ActiveMembers;
    forall p ensures p in players <==> p.wallet in ws && p == PlayerOf(db, league, f, p.wallet) {
      if p in players { var k :| 0 <= k < |players| && players[k] == p; assert ws[k] in ws; }
      if p.wallet in ws && p == PlayerOf(db, league, f, p.wallet) {
        var k :| 0 <= k < |ws| && ws[k] == p.wallet;
        assert players[k] == p;
      }
    }
  }

  function PlayerOf(db: Db, league: LeagueId, f: B.Facts, w: Wallet): Swiss.PairingPlayer {
    Swiss.PairingPlayer(w, f.points(w), f.rating(w), B.ByesOf(db, league, w), f.prior(w))
  }

  /** The earlier round was paired, some of its Battles were created, and all of them are created, stored
      and resolved. */
  ghost predicate EarlierDone(db: Db, league: LeagueId, no: int, resolved: set<BattleAddress>) {
    no <= 1 ||
    ((league, no - 1) in db.leagueRuns &&
     var run := db.leagueRuns[(league, no - 1)].id;
     && (exists i :: i in db.leaguePairings && db.leaguePairings[i].run == run)
     && forall i :: i in db.leaguePairings && db.leaguePairings[i].run == run ==>
          var p := db.leaguePairings[i];
          p.status == Created && p.battle.Some? && p.battle.value in db.battles && p.battle.value in resolved)
  }

  predicate RoundFor(db: Db, league: LeagueId, no: int, round: RoundId) {
    exists k | 0 <= k < |ScheduleOf(db, league)| ::
      ScheduleOf(db, league)[k] == Slot(no, round) && forall j | 0 <= j < k :: ScheduleOf(db, league)[j].no != no
  }

  lemma {:induction false} SlotFound(slots: seq<Slot>, no: int)
    ensures B.FindSlot(slots, no).None? <==> forall k :: 0 <= k < |slots| ==> slots[k].no != no
    ensures B.FindSlot(slots, no).Some? ==>
              exists k :: 0 <= k < |slots| && slots[k] == Slot(no, B.FindSlot(slots, no).value)
                && forall j :: 0 <= j < k ==> slots[j].no != no
  {
    if slots != [] && slots[0].no != no {
      SlotFound(slots[1..], no);
      assert forall k :: 0 < k < |slots| ==> slots[k] == slots[1..][k - 1];
      if B.FindSlot(slots, no).Some? {
        var k :| 0 <= k < |slots[1..]| && slots[1..][k] == Slot(no, B.FindSlot(slots[1..], no).value)
          && forall j :: 0 <= j < k ==> slots[1..][j].no != no;
        assert slots[k + 1] == slots[1..][k];
        forall j | 0 <= j < k + 1 ensures slots[j].no != no { if j > 0 { assert slots[j] == slots[1..][j - 1]; } }
      }
    }
  }

  /** The League is playing this rated round, the earlier one is done, and its Market Round is on chain, no
      replay, past its queue's close on both clocks and not started. */
  ghost predicate Ready(db: Db, league: LeagueId, no: int, blockTime: int, now: int, f: B.Facts, round: RoundId)
    requires league in db.leagues
  {
    var l := db.leagues[league];
    && l.status == ActiveLeague && l.rated && l.currentRound == no && no <= l.totalRounds
    && EarlierDone(db, league, no, f.resolved) && RoundFor(db, league, no, round) && round in db.rounds
    && var r := db.rounds[round];
       && r.chain != NoAddress && !r.replay && r.state in {Scheduled, CommitOpen}
       && r.window.close <= blockTime <= now < r.window.start
  }

  /** There are two active members or more, and neither the round's number nor anybody's byes exceed 65535. */
  ghost predicate Sized(db: Db, league: LeagueId, no: int) {
    && no <= 65535
    && (exists v, w :: v != w && ActiveIn(db, league, v) && ActiveIn(db, league, w))
    && forall w :: ActiveIn(db, league, w) ==> db.memberships[(league, w)].byes <= 65535
  }

  ghost predicate ActiveIn(db: Db, league: LeagueId, w: Wallet) {
    (league, w) in db.memberships && db.memberships[(league, w)].state == ActiveMember
  }

  lemma RosterSize(db: Db, league: LeagueId, f: B.Facts)
    ensures var players := B.Candidates(db, league, f);
            && (|players| >= 2 <==> exists v, w :: v != w && ActiveIn(db, league, v) && ActiveIn(db, league, w))
            && ((exists p :: p in players && p.byes > 65535) <==>
                exists w :: ActiveIn(db, league, w) && db.memberships[(league, w)].byes > 65535)
  {
    var players := B.Candidates(db, league, f);
    RosterIs(db, league, f);
    hide B.Candidates;
    if |players| >= 2 {
      assert players[0] in players && players[1] in players;
      assert ActiveIn(db, league, players[0].wallet) && ActiveIn(db, league, players[1].wallet);
    }
    forall w | ActiveIn(db, league, w)
      ensures PlayerOf(db, league, f, w) in players
    {
      assert PlayerOf(db, league, f, w).wallet == w;
    }
    if v, w :| v != w && ActiveIn(db, league, v) && ActiveIn(db, league, w) {
      var p, q := PlayerOf(db, league, f, v), PlayerOf(db, league, f, w);
      assert p in players && q in players && p != q;
    }
    if w :| ActiveIn(db, league, w) && db.memberships[(league, w)].byes > 65535 {
      assert PlayerOf(db, league, f, w) in players;
    }
    forall p | p in players
      ensures ActiveIn(db, league, p.wallet) && p.byes == db.memberships[(league, p.wallet)].byes
    {
    }
  }

  lemma DoneIs(db: Db, league: LeagueId, no: int, resolved: set<BattleAddress>)
    ensures B.PreviousResolved(db, league, no, resolved) <==> EarlierDone(db, league, no, resolved)
  {
    if no > 1 && (league, no - 1) in db.leagueRuns {
      var run := db.leagueRuns[(league, no - 1)].id;
      if EarlierDone(db, league, no, resolved) {
        var i :| i in db.leaguePairings && db.leaguePairings[i].run == run;
        assert db.leaguePairings[i].status == Created;
      }
    }
  }

  /** What stands in the way of pairing a League round, the first of these; once stored, the run is
      returned. */
  lemma PairAnswers(db: Db, league: LeagueId, no: int, blockTime: int, now: int, f: B.Facts, tie: Swiss.TieKeys)
    ensures var o := B.PairingsCreated(db, league, no, blockTime, now, f, tie);
            && o.result ==
               (if league <= 0 then Err(InvalidLeagueId)
                else if no <= 0 then Err(InvalidPairing)
                else if blockTime < 0 then Err(InvalidEntropy)
                else if league !in db.leagues then Err(NotFound)
                else if (league, no) in db.leagueRuns then Ok(db.leagueRuns[(league, no)].id)
                else if !(exists round :: Ready(db, league, no, blockTime, now, f, round)) then Err(PairingNotReady)
                else if !Sized(db, league, no) then Err(InvalidPairing)
                else Ok(db.nextLeagueRun))
            && (o.result.Err? || (league, no) in db.leagueRuns ==> o.db == db)
  {
    if league in db.leagues {
      FaultIs(db, league, no, blockTime, now, f);
      Swiss.SwissPairsEveryone(B.Candidates(db, league, f), tie);
      if B.PairingFault(db, league, no, blockTime, now, f).None? {
        C.FaultFreeRound(db, league, no, blockTime, now, f);
      }
      hide B.PairingFault, Ready, Sized, Swiss.PlanSwiss, B.Candidates, B.RunStored, B.DuelsOf, B.ByeWallet, B.FindSlot;
    }
  }

  lemma FaultIs(db: Db, league: LeagueId, no: int, blockTime: int, now: int, f: B.Facts)
    requires league in db.leagues
    ensures B.PairingFault(db, league, no, blockTime, now, f) ==
            if !(exists round :: Ready(db, league, no, blockTime, now, f, round)) then Some(PairingNotReady)
            else if !Sized(db, league, no) then Some(InvalidPairing)
            else None
  {
    DoneIs(db, league, no, f.resolved);
    RosterSize(db, league, f);
    SizedIs(db, league, no, f);
    SlotFound(ScheduleOf(db, league), no);
    var slot := B.FindSlot(ScheduleOf(db, league), no);
    forall round ensures RoundFor(db, league, no, round) <==> slot == Some(round) {
      ForIsFound(db, league, no, round);
    }
    hide B.PreviousResolved, EarlierDone, B.Candidates, B.FindSlot, RoundFor, ActiveIn, Sized;
    if slot.Some? && slot.value in db.rounds && B.RoundReady(db.rounds[slot.value], blockTime, now) {
      if B.PairingFault(db, league, no, blockTime, now, f) != Some(PairingNotReady) {
        assert Ready(db, league, no, blockTime, now, f, slot.value);
      }
    }
  }

  lemma SizedIs(db: Db, league: LeagueId, no: int, f: B.Facts)
    ensures var players := B.Candidates(db, league, f);
            Sized(db, league, no) <==> no <= 65535 && !(exists p :: p in players && p.byes > 65535) && |players| >= 2
  {
    RosterSize(db, league, f);
    hide B.Candidates;
  }

  lemma ForIsFound(db: Db, league: LeagueId, no: int, round: RoundId)
    ensures RoundFor(db, league, no, round) <==> B.FindSlot(ScheduleOf(db, league), no) == Some(round)
  {
    SlotFound(ScheduleOf(db, league), no);
    hide B.FindSlot;
  }

  /** The stored pairing of two players. */
  predicate IsDuelOf(p: Pairing, run: nat, round: RoundId, a: Swiss.PairingPlayer, b: Swiss.PairingPlayer) {
    p == Pairing(run, round, a.wallet, b.wallet, a.rating, b.rating, None, PendingCoordinator)
  }

  /** It stores the run with its Market Round and bye, and counts the bye; besides the pairings nothing else
      changes. */
  lemma PairStores(db: Db, league: LeagueId, no: int, now: int, f: B.Facts, tie: Swiss.TieKeys)
    requires B.FindSlot(ScheduleOf(db, league), no).Some?
    ensures IsRoster(db, league, f, B.Candidates(db, league, f))
            && Swiss.PlanSwiss(B.Candidates(db, league, f), tie).Ok?
    ensures var players := B.Candidates(db, league, f);
            var d, plan := B.FreshPairings(db, league, no, now, f, tie).db, Swiss.PlanSwiss(players, tie).value;
            var round := B.FindSlot(ScheduleOf(db, league), no).value;
            var bye := if plan.bye.Some? then Some(Swiss.At(players, plan.bye.value).wallet) else None;
            && d == db.(leagueRuns := d.leagueRuns, memberships := d.memberships, leaguePairings := d.leaguePairings,
                        nextLeagueRun := db.nextLeagueRun + 1, nextLeaguePairing := db.nextLeaguePairing + |plan.pairs|)
            && d.leagueRuns == db.leagueRuns[(league, no) := LeagueRun(db.nextLeagueRun, round, bye)]
            && d.memberships.Keys == db.memberships.Keys
            && forall k :: k in db.memberships ==>
                 var m := db.memberships[k];
                 d.memberships[k] == if bye.Some? && k == (league, bye.value)
                                     then Membership(m.state, m.byes + 1, m.pendingUntil, now) else m
  {
    var players := B.Candidates(db, league, f);
    RosterIs(db, league, f);
    Swiss.SwissPairsEveryone(players, tie);
    hide B.Candidates, Swiss.PlanSwiss, IsRoster, B.FindSlot, B.FreshPairings, B.DuelsOf, Inserted, B.WithBye,
      B.RunStored;
    var plan, round := Swiss.PlanSwiss(players, tie).value, B.FindSlot(ScheduleOf(db, league), no).value;
    var bye := B.ByeWallet(players, plan.bye);
    FreshIs(db, league, no, now, f, tie);
    StoredIs(db, league, no, round, bye, B.DuelsOf(players, plan.pairs), now);
    ByeCounted(db, league, bye, now);
    DuelsAre(players, plan.pairs, db.nextLeagueRun, round);
  }

  /** And it stores one pending pairing for each pair of the roster's plan, under the next ids and with the
      ratings of the moment, and keeps all others. */
  lemma PairStoresDuels(db: Db, league: LeagueId, no: int, now: int, f: B.Facts, tie: Swiss.TieKeys)
    requires B.FindSlot(ScheduleOf(db, league), no).Some? && Swiss.PlanSwiss(B.Candidates(db, league, f), tie).Ok?
    requires forall i :: i in db.leaguePairings ==> i < db.nextLeaguePairing
    ensures var players := B.Candidates(db, league, f);
            var table, pairs := B.FreshPairings(db, league, no, now, f, tie).db.leaguePairings,
                                Swiss.PlanSwiss(players, tie).value.pairs;
            && (forall i :: i in db.leaguePairings ==> i in table && table[i] == db.leaguePairings[i])
            && (forall i :: i in table <==>
                  i in db.leaguePairings || db.nextLeaguePairing <= i < db.nextLeaguePairing + |pairs|)
            && forall k :: 0 <= k < |pairs| ==>
                 IsDuelOf(table[db.nextLeaguePairing + k], db.nextLeagueRun,
                          B.FindSlot(ScheduleOf(db, league), no).value,
                          Swiss.At(players, pairs[k].0), Swiss.At(players, pairs[k].1))
  {
    var players := B.Candidates(db, league, f);
    hide B.Candidates, Swiss.PlanSwiss, B.FindSlot, B.FreshPairings, B.DuelsOf, Inserted, B.RunStored, IsDuelOf,
      B.ByeWallet, B.WithBye;
    var plan, round := Swiss.PlanSwiss(players, tie).value, B.FindSlot(ScheduleOf(db, league), no).value;
    FreshIs(db, league, no, now, f, tie);
    StoredIs(db, league, no, round, B.ByeWallet(players, plan.bye), B.DuelsOf(players, plan.pairs), now);
    InsertedDuels(db.leaguePairings, db.nextLeaguePairing, db.nextLeagueRun, round, players, plan.pairs);
  }

  lemma InsertedDuels(table: map<nat, Pairing>, next: nat, run: nat, round: RoundId, players: seq<Swiss.PairingPlayer>,
                      pairs: seq<Swiss.Pair>)
    requires forall i :: i in table ==> i < next
    ensures var t := Inserted(table, next, run, round, B.DuelsOf(players, pairs));
            && (forall i :: i in table ==> i in t && t[i] == table[i])
            && (forall i :: i in t <==> i in table || next <= i < next + |pairs|)
            && forall k :: 0 <= k < |pairs| ==>
                 IsDuelOf(t[next + k], run, round, Swiss.At(players, pairs[k].0), Swiss.At(players, pairs[k].1))
  {
    var duels := B.DuelsOf(players, pairs);
    InsertedMeaning(table, next, run, round, duels);
    DuelsAre(players, pairs, run, round);
    hide Inserted, IsDuelOf, NewPairing, B.DuelsOf;
    var t := Inserted(table, next, run, round, duels);
    forall k | 0 <= k < |pairs|
      ensures IsDuelOf(t[next + k], run, round, Swiss.At(players, pairs[k].0), Swiss.At(players, pairs[k].1))
    {
      assert t[next + k] == NewPairing(run, round, duels[next + k - next]);
    }
  }

  lemma FreshIs(db: Db, league: LeagueId, no: int, now: int, f: B.Facts, tie: Swiss.TieKeys)
    requires B.FindSlot(ScheduleOf(db, league), no).Some? && Swiss.PlanSwiss(B.Candidates(db, league, f), tie).Ok?
    ensures var players, round := B.Candidates(db, league, f), B.FindSlot(ScheduleOf(db, league), no).value;
            var plan := Swiss.PlanSwiss(players, tie).value;
            B.FreshPairings(db, league, no, now, f, tie).db ==
              B.RunStored(db, league, no, round, B.ByeWallet(players, plan.bye), B.DuelsOf(players, plan.pairs), now)
  {
    hide B.Candidates, Swiss.PlanSwiss, B.FindSlot, B.DuelsOf, B.ByeWallet, B.RunStored;
  }

  lemma DuelsAre(players: seq<Swiss.PairingPlayer>, pairs: seq<Swiss.Pair>, run: nat, round: RoundId)
    ensures var duels := B.DuelsOf(players, pairs);
            |duels| == |pairs| && forall k :: 0 <= k < |pairs| ==>
              IsDuelOf(NewPairing(run, round, duels[k]), run, round, Swiss.At(players, pairs[k].0),
                       Swiss.At(players, pairs[k].1))
  {
  }

  lemma ByeCounted(db: Db, league: LeagueId, bye: Option<Wallet>, now: int)
    ensures var ms := B.WithBye(db, league, bye, now);
            && ms.Keys == db.memberships.Keys
            && forall k :: k in db.memberships ==>
                 var m := db.memberships[k];
                 ms[k] == if bye.Some? && k == (league, bye.value)
                          then Membership(m.state, m.byes + 1, m.pendingUntil, now) else m
  {
  }

  lemma StoredIs(db: Db, league: LeagueId, no: int, round: RoundId, bye: Option<Wallet>, duels: seq<Duel>, now: int)
    ensures var d := B.RunStored(db, league, no, round, bye, duels, now);
            && d == db.(leagueRuns := d.leagueRuns, memberships := d.memberships, leaguePairings := d.leaguePairings,
                        nextLeagueRun := db.nextLeagueRun + 1, nextLeaguePairing := db.nextLeaguePairing + |duels|)
            && d.leagueRuns == db.leagueRuns[(league, no) := LeagueRun(db.nextLeagueRun, round, bye)]
            && d.memberships == B.WithBye(db, league, bye, now)
            && d.leaguePairings == Inserted(db.leaguePairings, db.nextLeaguePairing, db.nextLeagueRun, round, duels)
  {
    hide Inserted, B.WithBye;
  }
}
