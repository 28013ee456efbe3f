/** What every run of the obligation tables promises, said of the tables themselves: any number of
    queue, matchmaking, membership, schedule, pairing and confirmation transactions, committed or
    refused, in any interleaving, from empty tables. */
module EveryRun {
  import opened Wrappers
  import opened Tables
  import opened LeagueInvariants
  import opened LeaguePairingInvariants
  import opened RankedInvariants
  import opened ObligationRuns
  import opened ObligationTheorems
  import opened ObligationResults
  import R = RankedOperations

  /** No wallet ever holds two live reservations with overlapping windows, nor a live queue entry
      that overlaps a live reservation. */
  lemma ObligationsNeverOverlap(events: seq<Event>, held: (RoundId, Wallet), other: (RoundId, Wallet))
    requires Legal(Empty(), events)
    ensures var db := Run(Empty(), events);
            held in db.reservations && LiveReservation(db.reservations[held]) && held.1 == other.1 ==>
              && (other != held && other in db.reservations && LiveReservation(db.reservations[other]) ==>
                    held.0 in db.rounds && other.0 in db.rounds
                      && !Overlap(db.rounds[held.0].window, db.rounds[other.0].window))
              && (other in db.queue && LiveEntry(db.queue[other]) ==>
                    held.0 in db.rounds && other.0 in db.rounds
                      && !Overlap(db.rounds[held.0].window, db.rounds[other.0].window))
  {
    hide Inv, LeagueInv, Run, Legal, LiveReservation, LiveEntry;
    Reachable(events);
    var db := Run(Empty(), events);
    InvParts(db);
    ApartTables(db);
    if held in db.reservations && LiveReservation(db.reservations[held]) && held.1 == other.1 {
      if other in db.reservations && LiveReservation(db.reservations[other]) && other != held {
        assert Apart(WindowsOf(db), other.0, held.0);
      }
      if other in db.queue && LiveEntry(db.queue[other]) { assert Apart(WindowsOf(db), other.0, held.0); }
    }
  }

  lemma ApartTables(db: Db)
    requires LeagueInv(db)
    ensures ReservedApart(db.reservations, WindowsOf(db)) && QueueApart(db.queue, db.reservations, WindowsOf(db))
    ensures Lockstep(db.memberships, db.reservations, db.schedules) && WithinCapacity(db.leagues, db.memberships)
  {
    hide ReservedApart, QueueApart, Lockstep, WithinCapacity;
  }

  /** A live membership has, for every scheduled round, its reservation in the matching status;
      every live reservation belongs to such a membership; and no League has more live members
      than it takes. */
  lemma MembershipsAreReserved(events: seq<Event>, league: LeagueId, w: Wallet, round: RoundId)
    requires Legal(Empty(), events)
    ensures var db := Run(Empty(), events);
            && ((league, w) in db.memberships && LiveMember(db.memberships[(league, w)])
                && HasSlot(ScheduleOf(db, league), round) ==>
                  (round, w) in db.reservations
                  && db.reservations[(round, w)] == Reservation(league, Tag(db.memberships[(league, w)].state)))
            && ((round, w) in db.reservations && LiveReservation(db.reservations[(round, w)]) ==>
                  var r := db.reservations[(round, w)];
                  (r.league, w) in db.memberships && LiveMember(db.memberships[(r.league, w)])
                  && r.status == Tag(db.memberships[(r.league, w)].state) && HasSlot(ScheduleOf(db, r.league), round))
            && (league in db.leagues ==> |LiveMembers(db, league)| <= db.leagues[league].maxPlayers)
  {
    hide Inv, LeagueInv, Run, Legal, LiveReservation, LiveMember, Tag, HasSlot;
    Reachable(events);
    var db := Run(Empty(), events);
    InvParts(db);
    ApartTables(db);
    if (league, w) in db.memberships && LiveMember(db.memberships[(league, w)])
       && HasSlot(ScheduleOf(db, league), round) {
      SlotHeld(db, league, w, round);
    }
    if (round, w) in db.reservations && LiveReservation(db.reservations[(round, w)]) {
      assert Owned(db.memberships, db.schedules, db.reservations[(round, w)], round, w);
    }
    assert LiveMembers(db, league) == LiveOf(db.memberships, league);
  }

  lemma SlotHeld(db: Db, league: LeagueId, w: Wallet, round: RoundId)
    requires MembersReserved(db.memberships, db.reservations, db.schedules)
    requires (league, w) in db.memberships && LiveMember(db.memberships[(league, w)])
             && HasSlot(ScheduleOf(db, league), round)
    ensures Holds(db.reservations, league, w, round, Tag(db.memberships[(league, w)].state))
  {
    hide LiveMember, Tag, Holds;
    var slots := ScheduleOf(db, league);
    var k :| 0 <= k < |slots| && slots[k].round == round;
    assert HoldsAll(db.reservations, slots, league, w, Tag(db.memberships[(league, w)].state));
  }

  /** A created pairing of either mode has its own Battle row, and both players' exposures in its
      round point at that Battle. */
  lemma CreatedPairingsAreExposed(events: seq<Event>, mode: Mode, id: nat)
    requires Legal(Empty(), events)
    ensures var db := Run(Empty(), events);
            var table := if mode == Ranked then db.pairings else db.leaguePairings;
            id in table && table[id].status == Created ==>
              var p, address := table[id], BattleAddress(table[id].round, id);
              && p.battle == Some(address) && address in db.battles
                 && db.battles[address] == BattleRow(p.round, p.a, p.b, mode)
              && (p.round, p.a) in db.exposures && db.exposures[(p.round, p.a)] == address
              && (p.round, p.b) in db.exposures && db.exposures[(p.round, p.b)] == address
  {
    hide Inv, Run, Legal;
    Reachable(events);
    var db := Run(Empty(), events);
    InvParts(db);
    if mode == Ranked {
      if id in db.pairings { assert Exposed(db.pairings[id], id, Ranked, db.battles, db.exposures); }
    } else {
      if id in db.leaguePairings { assert Exposed(db.leaguePairings[id], id, LeagueMode, db.battles, db.exposures); }
    }
  }

  /** With a clock that never runs backwards, no round ever has a match run before its queue has
      closed, and a round that has one has nobody queued. */
  lemma {:induction false} RunsComeAfterClose(events: seq<Event>, from: int)
    requires Legal(Empty(), events) && Timed(events, from)
    ensures Closed(Run(Empty(), events), if events == [] then from else events[|events| - 1].now)
  {
    hide Inv, RankedInv, After, Possible, Closed;
    if events == [] {
      assert Closed(Empty(), from) by { NothingClosed(from); }
    } else {
      var init, last := events[..|events| - 1], events[|events| - 1];
      RunsComeAfterClose(init, from);
      Reachable(init);
      var before := if init == [] then from else init[|init| - 1].now;
      InvParts(Run(Empty(), init));
      StepStaysClosed(Run(Empty(), init), last.step, last.now, before);
    }
  }

  lemma NothingClosed(from: int)
    ensures Closed(Empty(), from)
  {
  }

  /** After any timed run in which a round's matchmaker has run, any continuation leaves the run's
      pairs, its unmatched wallet and its blocked wallets as they were. */
  lemma MatchesAreFinal(events: seq<Event>, later: seq<Event>, from: int, round: RoundId)
    requires events != [] && Legal(Empty(), events) && Timed(events, from)
    requires Legal(Run(Empty(), events), later) && Timed(later, events[|events| - 1].now)
    requires RunHeld(Run(Empty(), events).runs, WindowsOf(Run(Empty(), events)), round)
    ensures var db, d := Run(Empty(), events), Run(Run(Empty(), events), later);
            var key := (round, db.rounds[round].window.close);
            && round in d.rounds && d.rounds[round].window == db.rounds[round].window
            && key in d.runs && d.runs[key] == db.runs[key]
            && DecisionOf(R.StoredRun(d, d.runs[key], round)) == DecisionOf(R.StoredRun(db, db.runs[key], round))
  {
    hide Inv, Run, Legal, Closed, DecisionOf, R.StoredRun;
    Reachable(events);
    RunsComeAfterClose(events, from);
    DecisionIsFinal(Run(Empty(), events), later, events[|events| - 1].now, round);
  }
}
