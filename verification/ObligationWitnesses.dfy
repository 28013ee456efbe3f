/** Runs that reach the states in which a pairing can no longer be confirmed: one Market Round
    serving Ranked and a League, so that one id names one Battle address twice, and an exposure
    indexed ahead of its pairing's confirmation. */
module ObligationWitnesses {
  import opened Wrappers
  import opened Sequences
  import opened Tables
  import opened LeagueInvariants
  import opened RankedInvariants
  import opened LeaguePairingInvariants
  import opened ObligationRuns
  import opened ObligationTheorems
  import opened ObligationResults
  import C = LeagueConfirmations
  import L = LeagueOperations
  import B = LeagueBattles
  import R = RankedOperations
  import Swiss = SwissPairing

  // ----- building a run -----

  /** The events lead from empty tables to this state, in order of time and by this instant. */
  ghost predicate Leads(events: seq<Event>, db: Db, now: int) {
    && Legal(Empty(), events) && Run(Empty(), events) == db && Timed(events, 0)
    && now >= 0 && forall i :: 0 <= i < |events| ==> events[i].now <= now
  }

  lemma LeadsOn(events: seq<Event>, db: Db, t: int, step: Step, now: int, d: Db)
    requires Leads(events, db, t) && Possible(db, step) && t <= now && After(db, step, now) == d
    ensures Leads(events + [Event(step, now)], d, now)
  {
    hide After, Possible;
    var longer := events + [Event(step, now)];
    assert longer[..|longer| - 1] == events;
  }

  // ----- the tables of the run -----

  const Row := MarketRound(Window(100, 200, 300), CanonicalAddress, Scheduled, false, true, true)
  const Terms := League(4, 1, 0, true, 50, Registration)
  const Playing := League(4, 1, 1, true, 50, ActiveLeague)

  function Board(l: League, members: Memberships, reservations: Reservations, queue: Queue): Db {
    Db(map[1 := Row], map[1 := l], map[1 := [Slot(1, 1)]], members, reservations, queue, map[], map[], map[], map[],
       map[], map[],
       1, 1, 1, 1)
  }

  function Member(state: MembershipState): Membership {
    Membership(state, 0, if state == PendingJoin then Some(10 + L.PENDING_JOIN_TTL_SECS) else None, 10)
  }

  /** Members 10 and 11, once they have asked to join and once they are seen on chain. */
  function MembersUpTo(n: nat, last: MembershipState): Memberships {
    if n == 0 then map[] else if n == 1 then map[(1, 10) := Member(last)]
    else map[(1, 10) := Member(ActiveMember), (1, 11) := Member(last)]
  }

  function HeldUpTo(n: nat, last: ReservationStatus): Reservations {
    if n == 0 then map[] else if n == 1 then map[(1, 10) := Reservation(1, last)]
    else map[(1, 10) := Reservation(1, ActiveReservation), (1, 11) := Reservation(1, last)]
  }

  function Joining(n: nat): Db { Board(Terms, MembersUpTo(n, PendingJoin), HeldUpTo(n, Pending), map[]) }

  function Joined(n: nat): Db { Board(Terms, MembersUpTo(n, ActiveMember), HeldUpTo(n, ActiveReservation), map[]) }

  const Waiting := QueueRow(Queued, None)

  function QueueUpTo(n: nat): Queue {
    if n == 0 then map[] else if n == 1 then map[(1, 12) := Waiting] else map[(1, 12) := Waiting, (1, 13) := Waiting]
  }

  function Queueing(l: League, n: nat): Db {
    Board(l, MembersUpTo(2, ActiveMember), HeldUpTo(2, ActiveReservation), QueueUpTo(n))
  }

  // ----- registration -----

  lemma RoundAppears()
    ensures Possible(Empty(), RoundIndexed(1, Row))
            && After(Empty(), RoundIndexed(1, Row), 1) == Empty().(rounds := map[1 := Row])
  {
    assert Empty().rounds[1 := Row] == map[1 := Row];
  }

  lemma LeagueAppears(db: Db)
    requires db == Empty().(rounds := map[1 := Row])
    ensures Possible(db, LeagueRegistered(1, Terms))
            && After(db, LeagueRegistered(1, Terms), 1) == db.(leagues := map[1 := Terms])
  {
    assert db.leagues[1 := Terms] == map[1 := Terms];
  }

  lemma Opens() returns (events: seq<Event>)
    ensures Leads(events, Joined(0), 10)
  {
    var one := Empty().(rounds := map[1 := Row]);
    var two := one.(leagues := map[1 := Terms]);
    events := [];
    assert Leads(events, Empty(), 0);
    hide After, Leads, Joined;
    RoundAppears();
    LeadsOn(events, Empty(), 0, RoundIndexed(1, Row), 1, one);
    LeagueAppears(one);
    LeadsOn(events + [Event(RoundIndexed(1, Row), 1)], one, 1, LeagueRegistered(1, Terms), 1, two);
    events := events + [Event(RoundIndexed(1, Row), 1)] + [Event(LeagueRegistered(1, Terms), 1)];
    Schedules(two);
    LeadsOn(events, two, 1, ScheduleAssigned(1, [L.Entry(1, 1, 200, 300)]), 10, Joined(0));
    events := events + [Event(ScheduleAssigned(1, [L.Entry(1, 1, 200, 300)]), 10)];
  }

  lemma Schedules(db: Db)
    requires db == Empty().(rounds := map[1 := Row], leagues := map[1 := Terms])
    ensures After(db, ScheduleAssigned(1, [L.Entry(1, 1, 200, 300)]), 10) == Joined(0)
  {
    var es := [L.Entry(1, 1, 200, 300)];
    assert L.EntriesFault(es[..0]).None?;
    assert L.ScheduleFault(es).None?;
    assert LiveMembers(db, 1) == {};
    assert L.SlotFault(db, 1, es[0], 10).None?;
    assert es[1..] == [];
    assert L.SlotsFault(db, 1, es, 10).None?;
    assert L.AsSlots(es) == [Slot(1, 1)];
    assert db.schedules[1 := [Slot(1, 1)]] == map[1 := [Slot(1, 1)]];
  }

  lemma NothingLapses(n: nat)
    requires n < 2
    ensures L.Expired(Joined(n), 10) == Joined(n)
  {
    var db := Joined(n);
    assert L.ExpiredMemberships(db, 10) == db.memberships;
    assert L.ExpiredReservations(db, db.memberships, 10) == db.reservations;
  }

  lemma FewMembers(n: nat)
    requires n < 2
    ensures |LiveMembers(Joined(n), 1)| < 4
  {
    assert LiveMembers(Joined(n), 1) <= {10};
    SubsetSize(LiveMembers(Joined(n), 1), {10});
  }

  lemma SlotFree(n: nat)
    requires n < 2
    ensures !L.SlotBlocked(Joined(n), 10 + n, 1, Slot(1, 1))
  {
  }

  lemma Reserves(n: nat)
    requires n < 2
    ensures L.Reserve(HeldUpTo(n, ActiveReservation), [Slot(1, 1)], 10 + n, 1) == Some(HeldUpTo(n + 1, Pending))
  {
    var res := HeldUpTo(n, ActiveReservation);
    assert L.Reserve(res, [Slot(1, 1)][..0], 10 + n, 1) == Some(res);
    assert res[(1, 10 + n) := Reservation(1, Pending)] == HeldUpTo(n + 1, Pending);
  }

  lemma AddsMember(n: nat)
    requires n < 2
    ensures (1, 10 + n) !in Joined(n).memberships
    ensures MembersUpTo(n, ActiveMember)[(1, 10 + n) := L.JoinedMembership(Joined(n), 1, 10 + n, 10)]
              == MembersUpTo(n + 1, PendingJoin)
  {
  }

  lemma MayJoin(n: nat)
    requires n < 2
    ensures L.JoinFault(Joined(n), 1, 10 + n, 10).None?
    ensures L.Reserve(Joined(n).reservations, ScheduleOf(Joined(n), 1), 10 + n, 1) == Some(HeldUpTo(n + 1, Pending))
  {
    FewMembers(n);
    SlotFree(n);
    Reserves(n);
    AddsMember(n);
    hide LiveMembers, L.SlotBlocked, L.Reserve, MembersUpTo, HeldUpTo;
  }

  lemma Stores(n: nat)
    requires n < 2
    requires L.Reserve(Joined(n).reservations, ScheduleOf(Joined(n), 1), 10 + n, 1) == Some(HeldUpTo(n + 1, Pending))
    ensures L.JoinStored(Joined(n), 1, 10 + n, 10) == Joining(n + 1)
  {
    AddsMember(n);
    hide L.Reserve, MembersUpTo, HeldUpTo, L.JoinedMembership;
  }

  lemma Asks(n: nat)
    requires n < 2
    ensures After(Joined(n), JoinAsked(1, 10 + n), 10) == Joining(n + 1)
  {
    NothingLapses(n);
    MayJoin(n);
    Stores(n);
    hide L.Expired, L.JoinFault, L.JoinStored, L.Reserve, Joined, Joining;
  }

  lemma Activates(n: nat)
    requires n < 2
    ensures L.Retag(HeldUpTo(n + 1, Pending), 1, 10 + n, {Pending}, ActiveReservation)
              == HeldUpTo(n + 1, ActiveReservation)
  {
  }

  lemma Confirms(n: nat)
    requires n < 2
    ensures (1, 10 + n) in MembersUpTo(n + 1, PendingJoin)
            && MembersUpTo(n + 1, PendingJoin)[(1, 10 + n)].state == PendingJoin
    ensures L.MemberSet(Joining(n + 1), 1, 10 + n, ActiveMember, 10) == MembersUpTo(n + 1, ActiveMember)
  {
  }

  lemma Enters(n: nat)
    requires n < 2
    ensures After(Joining(n + 1), JoinSeen(1, 10 + n, true), 10) == Joined(n + 1)
  {
    Activates(n);
    Confirms(n);
    hide MembersUpTo, HeldUpTo, L.Retag, L.MemberSet;
  }

  lemma NoneHeld(l: League, n: nat)
    requires n < 2
    ensures !HasLeagueReservation(Queueing(l, n), 1, 12 + n)
  {
  }

  lemma Waits(n: nat)
    requires n < 2
    ensures (1, 12 + n) !in QueueUpTo(n) && QueueUpTo(n)[(1, 12 + n) := Waiting] == QueueUpTo(n + 1)
  {
  }

  lemma MayQueue(n: nat)
    requires n < 2
    ensures R.JoinFault(Queueing(Terms, n), 12 + n, 1, 20, false).None?
    ensures !R.StillQueued(Queueing(Terms, n), 12 + n, 1)
  {
    NoneHeld(Terms, n);
    Waits(n);
    hide HasLeagueReservation, MembersUpTo, HeldUpTo, QueueUpTo;
  }

  lemma Queues(n: nat)
    requires n < 2
    ensures After(Queueing(Terms, n), QueueJoined(12 + n, 1, false), 20) == Queueing(Terms, n + 1)
  {
    MayQueue(n);
    Waits(n);
    hide R.JoinFault, R.StillQueued, MembersUpTo, HeldUpTo, QueueUpTo;
  }

  lemma Starts()
    ensures After(Queueing(Terms, 2), LeagueReconciled(1, ActiveLeague, 1), 60) == Queueing(Playing, 2)
  {
    assert map[1 := Terms][1 := Playing] == map[1 := Playing];
  }

  /** One Market Round with two League members and two queued wallets. */
  lemma BothModes() returns (events: seq<Event>)
    ensures Leads(events, Queueing(Playing, 2), 60)
  {
    hide After, Leads, Joined, Joining;
    events := Opens();
    Asks(0);
    LeadsOn(events, Joined(0), 10, JoinAsked(1, 10), 10, Joining(1));
    Enters(0);
    LeadsOn(events + [Event(JoinAsked(1, 10), 10)], Joining(1), 10, JoinSeen(1, 10, true), 10, Joined(1));
    events := events + [Event(JoinAsked(1, 10), 10)] + [Event(JoinSeen(1, 10, true), 10)];
    Asks(1);
    LeadsOn(events, Joined(1), 10, JoinAsked(1, 11), 10, Joining(2));
    Enters(1);
    LeadsOn(events + [Event(JoinAsked(1, 11), 10)], Joining(2), 10, JoinSeen(1, 11, true), 10, Joined(2));
    events := MoreQueues(events + [Event(JoinAsked(1, 11), 10)] + [Event(JoinSeen(1, 11, true), 10)]);
  }

  lemma MoreQueues(joined: seq<Event>) returns (events: seq<Event>)
    requires Leads(joined, Joined(2), 10)
    ensures Leads(events, Queueing(Playing, 2), 60)
  {
    hide After, Leads;
    events := joined;
    assert Joined(2) == Queueing(Terms, 0);
    Queues(0);
    LeadsOn(events, Queueing(Terms, 0), 10, QueueJoined(12, 1, false), 20, Queueing(Terms, 1));
    Queues(1);
    LeadsOn(events + [Event(QueueJoined(12, 1, false), 20)], Queueing(Terms, 1), 20, QueueJoined(13, 1, false), 20,
            Queueing(Terms, 2));
    events := events + [Event(QueueJoined(12, 1, false), 20)] + [Event(QueueJoined(13, 1, false), 20)];
    Starts();
    LeadsOn(events, Queueing(Terms, 2), 20, LeagueReconciled(1, ActiveLeague, 1), 60, Queueing(Playing, 2));
    events := events + [Event(LeagueReconciled(1, ActiveLeague, 1), 60)];
  }

  // ----- both matchmakers run -----

  /** Nobody waits on an earlier Battle and nobody has met. */
  function History(): R.History { R.History(_ => false, _ => 1000, _ => 0, _ => []) }

  function Facts(): B.Facts { B.Facts(_ => 0, _ => 1000, _ => [], {}) }

  function Tie(): Swiss.TieKeys { Swiss.TieKeys(_ => 0, (_, _) => 0) }

  function Matched(): Db { R.FreshRun(Queueing(Playing, 2), History(), 1).db }

  lemma Matches()
    ensures After(Queueing(Playing, 2), MatchmakerRan(History(), 1), 100) == Matched()
  {
    hide R.FreshRun, MembersUpTo, HeldUpTo, QueueUpTo;
  }

  lemma QueuedTwo()
    ensures R.WalletsWith(Queueing(Playing, 2), 1, Queued) == {12, 13}
  {
    var db := Queueing(Playing, 2);
    assert (1, 12) in db.queue && (1, 13) in db.queue;
    assert (1, 12).1 == 12 && (1, 13).1 == 13;
  }

  lemma NobodyBlocked(w: Wallet)
    requires w == 12 || w == 13
    ensures !R.IsBlocked(Queueing(Playing, 2), History(), 1, w)
  {
  }

  /** The two queued wallets are paired with each other. */
  lemma OneDuel()
    ensures var duels := R.PlanOf(Queueing(Playing, 2), History(), 1).duels;
            |duels| == 1 && duels[0].a in {12, 13} && duels[0].b in {12, 13} && duels[0].a != duels[0].b
  {
    hide R.PlanOf, R.IsBlocked, R.WalletsWith, Queueing;
    var db, plan := Queueing(Playing, 2), R.PlanOf(Queueing(Playing, 2), History(), 1);
    QueuedTwo();
    PlanPartition(db, History(), 1);
    forall w | w == 12 || w == 13 ensures w in R.DuelWallets(plan.duels) || w in plan.unmatched {
      NobodyBlocked(w);
      PlanWallet(db, History(), 1, w);
    }
    TwoPlaced(plan.duels, plan.unmatched);
  }

  lemma TwoPlaced(duels: seq<Duel>, over: seq<Wallet>)
    requires DuelsApart(duels) && |over| <= 1
    requires forall w :: w in R.DuelWallets(duels) ==> w in {12, 13}
    requires forall w :: w == 12 || w == 13 ==> w in R.DuelWallets(duels) || w in over
    ensures |duels| == 1 && duels[0].a in {12, 13} && duels[0].b in {12, 13} && duels[0].a != duels[0].b
  {
    hide R.DuelWallets;
    assert 12 in over && 13 in over ==> |over| > 1;
    forall k | 0 <= k < |duels| ensures duels[k].a in {12, 13} && duels[k].b in {12, 13} && duels[k].a != duels[k].b {
      DuelWalletsMeaning(duels, duels[k].a);
      DuelWalletsMeaning(duels, duels[k].b);
    }
    DuelWalletsMeaning(duels, 12);
    DuelWalletsMeaning(duels, 13);
    assert |duels| > 1 ==> DuelApart(duels[0], duels[1]);
  }

  /** The state after the Ranked run: one pending pairing, and League tables as before. */
  lemma MatchedShape()
    ensures Matched().pairings.Keys == {1} && Matched().nextPairing == 2
    ensures var p := Matched().pairings[1];
            p.round == 1 && p.status == PendingCoordinator && p.battle.None? && p.a in {12, 13} && p.b in {12, 13}
              && p.a != p.b
    ensures Matched() == Queueing(Playing, 2).(queue := Matched().queue, runs := Matched().runs, nextRun := 2,
                                              pairings := Matched().pairings, nextPairing := 2)
  {
    OneDuel();
    hide R.PlanOf, R.Admitted, R.Marked, R.DuelWallets, R.NewViews, R.QueuedWallets, Inserted, MembersUpTo, HeldUpTo,
      QueueUpTo;
    InsertedMeaning(map[], 1, 1, 1, R.PlanOf(Queueing(Playing, 2), History(), 1).duels);
  }

  lemma ActiveTwo(db: Db)
    requires db.memberships == MembersUpTo(2, ActiveMember)
    ensures B.ActiveMembers(db, 1) == {10, 11}
  {
    assert (1, 10) in db.memberships && (1, 11) in db.memberships;
    assert (1, 10).1 == 10 && (1, 11).1 == 11;
  }

  lemma TwoCandidates(db: Db)
    requires db.memberships == MembersUpTo(2, ActiveMember)
    ensures |B.Candidates(db, 1, Facts())| >= 2 && forall p :: p in B.Candidates(db, 1, Facts()) ==> p.byes <= B.U16_MAX
  {
    ActiveTwo(db);
    AscendingMeaning({10, 11});
    assert 10 in Ascending({10, 11}) && 11 in Ascending({10, 11});
    hide Ascending;
    assert |Ascending({10, 11})| >= 2;
  }

  /** At least one League duel: of the two members only one could have the bye. */
  lemma ALeagueDuel(db: Db)
    requires db.memberships == MembersUpTo(2, ActiveMember)
    ensures var players := B.Candidates(db, 1, Facts());
            Swiss.PlanSwiss(players, Tie()).Ok?
              && |B.DuelsOf(players, Swiss.PlanSwiss(players, Tie()).value.pairs)| >= 1
  {
    ActiveTwo(db);
    hide Swiss.PlanSwiss, B.Candidates, B.DuelsOf;
    EveryMemberPlaced(db, 1, Facts(), Tie(), 10);
    EveryMemberPlaced(db, 1, Facts(), Tie(), 11);
  }

  function Both(): Db { B.FreshPairings(Matched(), 1, 1, 100, Facts(), Tie()).db }

  lemma MayPair(db: Db)
    requires db
               == Queueing(Playing, 2).(queue := db.queue, runs := db.runs, nextRun := 2, pairings := db.pairings,
                                        nextPairing := 2)
    ensures B.PairingFault(db, 1, 1, 100, 100, Facts()).None? && ScheduleOf(db, 1) == [Slot(1, 1)]
  {
    TwoCandidates(db);
    hide B.Candidates, MembersUpTo, HeldUpTo, QueueUpTo;
  }

  /** What pairing the League needs of the tables after the Ranked run. */
  lemma LeagueSide()
    ensures var db := Matched();
            && 1 in db.leagues && (1, 1) !in db.leagueRuns && 1 in db.rounds
               && db.memberships == MembersUpTo(2, ActiveMember)
            && db.leaguePairings == map[] && db.nextLeaguePairing == 1 && db.battles == map[] && db.exposures == map[]
    ensures B.PairingFault(Matched(), 1, 1, 100, 100, Facts()).None? && ScheduleOf(Matched(), 1) == [Slot(1, 1)]
  {
    MatchedShape();
    MayPair(Matched());
    hide B.PairingFault, Matched, MembersUpTo, HeldUpTo, QueueUpTo, ScheduleOf;
  }

  lemma PairsLeague()
    ensures After(Matched(), RoundPaired(1, 1, 100, Facts(), Tie()), 100) == Both()
  {
    LeagueSide();
    hide B.PairingFault, B.FreshPairings, Matched, ScheduleOf;
  }

  lemma LeagueStored(db: Db)
    requires ScheduleOf(db, 1) == [Slot(1, 1)] && db.memberships == MembersUpTo(2, ActiveMember)
    requires db.leaguePairings == map[] && db.nextLeaguePairing == 1
    ensures var d := B.FreshPairings(db, 1, 1, 100, Facts(), Tie()).db;
            && d == db.(memberships := d.memberships, leagueRuns := d.leagueRuns, nextLeagueRun := d.nextLeagueRun,
                        leaguePairings := d.leaguePairings, nextLeaguePairing := d.nextLeaguePairing)
            && 1 in d.leaguePairings && d.leaguePairings[1].round == 1
               && d.leaguePairings[1].status == PendingCoordinator
  {
    hide MembersUpTo, Swiss.PlanSwiss, B.Candidates, B.DuelsOf, Inserted, B.WithBye, ScheduleOf;
    ALeagueDuel(db);
    var players := B.Candidates(db, 1, Facts());
    InsertedMeaning(map[], 1, db.nextLeagueRun, 1, B.DuelsOf(players, Swiss.PlanSwiss(players, Tie()).value.pairs));
  }

  /** After both runs pairing 1 of either mode is pending, in the same Market Round. */
  lemma BothPending(mode: Mode)
    ensures var table := PairingsOf(Both(), mode);
            1 in table && table[1].round == 1 && table[1].status == PendingCoordinator
    ensures Both().battles == map[] && Both().exposures == map[] && 1 in Both().rounds
  {
    LeagueSide();
    MatchedShape();
    hide B.PairingFault, Matched, Queueing, MembersUpTo, B.FreshPairings, ScheduleOf;
    LeagueStored(Matched());
  }

  function PairingsOf(db: Db, mode: Mode): Pairings { if mode == Ranked then db.pairings else db.leaguePairings }

  lemma BothRun() returns (events: seq<Event>)
    ensures Leads(events, Both(), 100)
  {
    hide After, Leads, Matched, Both, Queueing;
    events := BothModes();
    Matches();
    LeadsOn(events, Queueing(Playing, 2), 60, MatchmakerRan(History(), 1), 100, Matched());
    PairsLeague();
    LeadsOn(events + [Event(MatchmakerRan(History(), 1), 100)], Matched(), 100, RoundPaired(1, 1, 100, Facts(), Tie()),
            100, Both());
    events := events + [Event(MatchmakerRan(History(), 1), 100)] + [Event(RoundPaired(1, 1, 100, Facts(), Tie()), 100)];
  }

  /** A run in order of time after which a Ranked and a League pairing of one Market Round, both
      pending, have the same id and so the same Battle address. */
  lemma SharedAddressArises() returns (events: seq<Event>)
    ensures Legal(Empty(), events) && Timed(events, 0)
    ensures var db := Run(Empty(), events);
            && 1 in db.pairings && 1 in db.leaguePairings && db.pairings[1].round == db.leaguePairings[1].round
            && db.pairings[1].status == PendingCoordinator && db.leaguePairings[1].status == PendingCoordinator
  {
    hide Both;
    events := BothRun();
    BothPending(Ranked);
    BothPending(LeagueMode);
  }

  // ----- an exposure comes first -----

  const Address := BattleAddress(1, 1)

  function Indexed(mode: Mode): Db
    requires 1 in PairingsOf(Both(), mode)
  {
    var p := PairingsOf(Both(), mode)[1];
    Both().(battles := map[Address := BattleRow(1, p.a, p.b, mode)])
  }

  function Exposing(mode: Mode): Db
    requires 1 in PairingsOf(Both(), mode)
  {
    Indexed(mode).(exposures := map[(1, PairingsOf(Both(), mode)[1].a) := Address])
  }

  lemma Indexes(mode: Mode)
    requires 1 in PairingsOf(Both(), mode) && Both().battles == map[]
    ensures var p := PairingsOf(Both(), mode)[1];
            var step := BattleIndexed(Address, BattleRow(1, p.a, p.b, mode));
            Possible(Both(), step) && After(Both(), step, 110) == Indexed(mode)
  {
    hide Both;
    var p := PairingsOf(Both(), mode)[1];
    assert Both().battles[Address := BattleRow(1, p.a, p.b, mode)] == map[Address := BattleRow(1, p.a, p.b, mode)];
  }

  lemma Exposes(mode: Mode)
    requires 1 in PairingsOf(Both(), mode) && Both().exposures == map[] && 1 in Both().rounds
    ensures After(Indexed(mode), ExposureSeen(1, PairingsOf(Both(), mode)[1].a, Address), 120) == Exposing(mode)
  {
    hide Both;
    var w := PairingsOf(Both(), mode)[1].a;
    assert Both().exposures[(1, w) := Address] == map[(1, w) := Address];
  }

  /** In either mode a run can index a pending pairing's own Battle and a player's exposure before the
      confirmation comes; in every continuation of it the pairing then stays pending. */
  lemma EarlyExposureArises(mode: Mode) returns (events: seq<Event>)
    ensures Legal(Empty(), events) && Timed(events, 0)
    ensures var db := Run(Empty(), events);
            && 1 in PairingsOf(db, mode) && PairingsOf(db, mode)[1].status == PendingCoordinator
            && var p := PairingsOf(db, mode)[1];
               && db.battles == map[BattleAddress(p.round, 1) := BattleRow(p.round, p.a, p.b, mode)]
               && db.exposures == map[(p.round, p.a) := BattleAddress(p.round, 1)]
               && forall later :: Legal(db, later) ==>
                    1 in PairingsOf(Run(db, later), mode) && PairingsOf(Run(db, later), mode)[1] == p
  {
    hide After, Both, Possible, Inv;
    BothPending(mode);
    var p := PairingsOf(Both(), mode)[1];
    events := BothRun();
    Indexes(mode);
    LeadsOn(events, Both(), 100, BattleIndexed(Address, BattleRow(1, p.a, p.b, mode)), 110, Indexed(mode));
    events := events + [Event(BattleIndexed(Address, BattleRow(1, p.a, p.b, mode)), 110)];
    Exposes(mode);
    assert Possible(Indexed(mode), ExposureSeen(1, p.a, Address)) by { AlwaysPossible(Indexed(mode), 1, p.a, Address); }
    LeadsOn(events, Indexed(mode), 110, ExposureSeen(1, p.a, Address), 120, Exposing(mode));
    events := events + [Event(ExposureSeen(1, p.a, Address), 120)];
    Strands(events, mode);
  }

  lemma AlwaysPossible(db: Db, round: RoundId, w: Wallet, address: BattleAddress)
    ensures Possible(db, ExposureSeen(round, w, address))
  {
  }

  lemma Strands(events: seq<Event>, mode: Mode)
    requires Legal(Empty(), events)
    requires var db := Run(Empty(), events);
             && 1 in PairingsOf(db, mode) && PairingsOf(db, mode)[1].status == PendingCoordinator
             && (PairingsOf(db, mode)[1].round, PairingsOf(db, mode)[1].a) in db.exposures
    ensures var db := Run(Empty(), events);
            forall later :: Legal(db, later) ==>
              1 in PairingsOf(Run(db, later), mode) && PairingsOf(Run(db, later), mode)[1] == PairingsOf(db, mode)[1]
  {
    hide Inv, Run, Legal, C.Stored;
    var db := Run(Empty(), events);
    Reachable(events);
    EmptyInv();
    C.NothingStored();
    C.RunStores(Empty(), events);
    forall later | Legal(db, later)
      ensures 1 in PairingsOf(Run(db, later), mode) && PairingsOf(Run(db, later), mode)[1] == PairingsOf(db, mode)[1]
    {
      if mode == Ranked {
        EarlyExposureStrandsPairing(db, later, 1);
      } else {
        C.EarlyExposureStrandsPairing(db, later, 1);
      }
    }
  }
}
