/** Pairing a League round and confirming its Battles (backend/src/league.rs), and the exposure
    rows the indexer writes (backend/src/indexer.rs). */
module LeagueBattles {
  import opened Wrappers
  import opened Sequences
  import opened Tables
  import opened LeagueOperations
  import Swiss = SwissPairing

  /** What the Battle, rating and earlier pairing tables say when a round is paired; `resolved`
      holds the Battles in a final state with a result. */
  datatype Facts =
    Facts(points: Wallet -> nat, rating: Wallet -> int, prior: Wallet -> seq<Wallet>, resolved: set<BattleAddress>)

  const U16_MAX := 0xffff

  function ActiveMembers(db: Db, league: LeagueId): set<Wallet> {
    set k | k in db.memberships && k.0 == league && db.memberships[k].state == ActiveMember :: k.1
  }

  function ByesOf(db: Db, league: LeagueId, w: Wallet): nat {
    if (league, w) in db.memberships then db.memberships[(league, w)].byes else 0
  }

  function Candidates(db: Db, league: LeagueId, f: Facts): seq<Swiss.PairingPlayer> {
    Map(Ascending(ActiveMembers(db, league)), (w: Wallet) =>
      Swiss.PairingPlayer(w, f.points(w), f.rating(w), ByesOf(db, league, w), f.prior(w)))
  }

  function FindSlot(slots: seq<Slot>, no: int): Option<RoundId> {
    if slots == [] then None
    else if slots[0].no == no then Some(slots[0].round)
    else FindSlot(slots[1..], no)
  }

  /** Every Battle of the round's run is created and has a final result. */
  predicate RunResolved(db: Db, run: nat, resolved: set<BattleAddress>) {
    && (exists i | i in db.leaguePairings :: db.leaguePairings[i].run == run && db.leaguePairings[i].status == Created)
    && forall i | i in db.leaguePairings && db.leaguePairings[i].run == run ::
         && db.leaguePairings[i].status == Created && db.leaguePairings[i].battle.Some?
         && db.leaguePairings[i].battle.value in db.battles && db.leaguePairings[i].battle.value in resolved
  }

  predicate PreviousResolved(db: Db, league: LeagueId, no: int, resolved: set<BattleAddress>) {
    no <= 1 || ((league, no - 1) in db.leagueRuns && RunResolved(db, db.leagueRuns[(league, no - 1)].id, resolved))
  }

  predicate RoundReady(r: MarketRound, blockTime: int, now: int) {
    r.chain != NoAddress && !r.replay && r.state != LaterState
    && now < r.window.start && r.window.close <= now && r.window.close <= blockTime <= now
  }

  function PairingFault(db: Db, league: LeagueId, no: int, blockTime: int, now: int, f: Facts): Option<LeagueError>
    requires league in db.leagues
  {
    var l, slot := db.leagues[league], FindSlot(ScheduleOf(db, league), no);
    if l.status != ActiveLeague || !l.rated || l.currentRound != no || no > l.totalRounds then Some(PairingNotReady)
    else if !PreviousResolved(db, league, no, f.resolved) then Some(PairingNotReady)
    else if slot.None? || slot.value !in db.rounds || !RoundReady(db.rounds[slot.value], blockTime, now)
            then Some(PairingNotReady)
    else if no > U16_MAX then Some(InvalidPairing)
    else if exists p | p in Candidates(db, league, f) :: p.byes > U16_MAX then Some(InvalidPairing)
    else if |Candidates(db, league, f)| < 2 then Some(InvalidPairing)
    else None
  }

  function DuelsOf(players: seq<Swiss.PairingPlayer>, pairs: seq<Swiss.Pair>): seq<Duel> {
    Map(pairs, (p: Swiss.Pair) => var a, b := Swiss.At(players, p.0), Swiss.At(players, p.1);
          Duel(a.wallet, b.wallet, a.rating, b.rating))
  }

  function ByeWallet(players: seq<Swiss.PairingPlayer>, bye: Option<nat>): Option<Wallet> {
    if bye.None? then None else Some(Swiss.At(players, bye.value).wallet)
  }

  function WithBye(db: Db, league: LeagueId, bye: Option<Wallet>, now: int): map<(LeagueId, Wallet), Membership> {
    if bye.Some? && (league, bye.value) in db.memberships then
      var m := db.memberships[(league, bye.value)];
      db.memberships[(league, bye.value) := m.(byes := m.byes + 1, updatedAt := now)]
    else db.memberships
  }

  function FreshPairings(db: Db, league: LeagueId, no: int, now: int, f: Facts, tie: Swiss.TieKeys)
    : Outcome<nat, LeagueError>
  {
    var players := Candidates(db, league, f);
    var plan := Swiss.PlanSwiss(players, tie);
    var slot := FindSlot(ScheduleOf(db, league), no);
    if plan.Err? || slot.None? then Outcome(db, Err(InvalidPairing))
    else
      Outcome(RunStored(db, league, no, slot.value, ByeWallet(players, plan.value.bye),
                        DuelsOf(players, plan.value.pairs), now),
              Ok(db.nextLeagueRun))
  }

  function RunStored(db: Db, league: LeagueId, no: int, round: RoundId, bye: Option<Wallet>, duels: seq<Duel>, now: int)
    : Db
  {
    var run := db.nextLeagueRun;
    db.(leagueRuns := db.leagueRuns[(league, no) := LeagueRun(run, round, bye)],
        nextLeagueRun := run + 1,
        memberships := WithBye(db, league, bye, now),
        leaguePairings := Inserted(db.leaguePairings, db.nextLeaguePairing, run, round, duels),
        nextLeaguePairing := db.nextLeaguePairing + |duels|)
  }

  /** The run of a League round: the stored one, or a new one made from the current members. */
  function PairingsCreated(db: Db, league: LeagueId, no: int, blockTime: int, now: int, f: Facts, tie: Swiss.TieKeys)
    : Outcome<nat, LeagueError>
  {
    if league <= 0 then Outcome(db, Err(InvalidLeagueId))
    else if no <= 0 then Outcome(db, Err(InvalidPairing))
    else if blockTime < 0 then Outcome(db, Err(InvalidEntropy))
    else if league !in db.leagues then Outcome(db, Err(NotFound))
    else if (league, no) in db.leagueRuns then Outcome(db, Ok(db.leagueRuns[(league, no)].id))
    else
      var fault := PairingFault(db, league, no, blockTime, now, f);
      if fault.Some? then Outcome(db, Err(fault.value)) else FreshPairings(db, league, no, now, f, tie)
  }

  method CreateLeaguePairings(db: Database, league: LeagueId, no: int, blockTime: int, now: int, f: Facts,
                              tie: Swiss.TieKeys)
    returns (r: Result<nat, LeagueError>)
    modifies db
    ensures Outcome(db.Value(), r) == old(PairingsCreated(db.Value(), league, no, blockTime, now, f, tie))
  {
    hide PairingFault, FreshPairings, FindSlot;
    if league <= 0 {
      return Err(InvalidLeagueId);
    }
    if no <= 0 {
      return Err(InvalidPairing);
    }
    if blockTime < 0 {
      return Err(InvalidEntropy);
    }
    if league !in db.leagues {
      return Err(NotFound);
    }
    if (league, no) in db.leagueRuns {
      return Ok(db.leagueRuns[(league, no)].id);
    }
    var fault := PairingFault(db.Value(), league, no, blockTime, now, f);
    if fault.Some? {
      return Err(fault.value);
    }
    r := StoreRun(db, league, no, now, f, tie);
  }

  method StoreRun(db: Database, league: LeagueId, no: int, now: int, f: Facts, tie: Swiss.TieKeys)
    returns (r: Result<nat, LeagueError>)
    modifies db
    ensures Outcome(db.Value(), r) == old(FreshPairings(db.Value(), league, no, now, f, tie))
  {
    hide Candidates, FindSlot, DuelsOf, RunStored, ByeWallet, ScheduleOf, Swiss.PlanSwiss;
    var run := db.nextLeagueRun;
    var players := Candidates(db.Value(), league, f);
    var plan := Swiss.PairSwiss(players, tie);
    var slot := FindSlot(ScheduleOf(db.Value(), league), no);
    if plan.Err? || slot.None? {
      return Err(InvalidPairing);
    }
    StoreRows(db, league, no, slot.value, ByeWallet(players, plan.value.bye), DuelsOf(players, plan.value.pairs), now);
    return Ok(run);
  }

  method StoreRows(db: Database, league: LeagueId, no: int, round: RoundId, bye: Option<Wallet>, duels: seq<Duel>,
                   now: int)
    modifies db
    ensures db.Value() == old(RunStored(db.Value(), league, no, round, bye, duels, now))
  {
    hide WithBye, Inserted;
    var run := db.nextLeagueRun;
    db.memberships := WithBye(db.Value(), league, bye, now);
    db.leagueRuns := db.leagueRuns[(league, no) := LeagueRun(run, round, bye)];
    db.nextLeagueRun := run + 1;
    StoreLeaguePairs(db, run, round, duels);
  }

  method StoreLeaguePairs(db: Database, run: nat, round: RoundId, duels: seq<Duel>)
    modifies db`leaguePairings, db`nextLeaguePairing
    ensures db.leaguePairings == old(Inserted(db.leaguePairings, db.nextLeaguePairing, run, round, duels))
    ensures db.nextLeaguePairing == old(db.nextLeaguePairing) + |duels|
  {
    ghost var table, base := db.leaguePairings, db.nextLeaguePairing;
    for k := 0 to |duels|
      invariant db.leaguePairings == Inserted(table, base, run, round, duels[..k])
      invariant db.nextLeaguePairing == base + k
    {
      assert duels[..k + 1][..k] == duels[..k];
      db.leaguePairings := db.leaguePairings[db.nextLeaguePairing := NewPairing(run, round, duels[k])];
      db.nextLeaguePairing := db.nextLeaguePairing + 1;
    }
    assert duels[..|duels|] == duels;
  }

  // ----- coordinator confirmation -----

  function Confirmed(db: Db, id: nat, address: BattleAddress): Outcome<(), LeagueError> {
    if id == 0 then Outcome(db, Err(InvalidPairing))
    else if id !in db.leaguePairings || db.leaguePairings[id].round !in db.rounds
    then Outcome(db, Err(LeagueOperations.CoordinatorPlanUnavailable))
    else
      var p := db.leaguePairings[id];
      if p.status == Created
      then Outcome(db, if p.battle == Some(address) then Ok(()) else Err(LeagueOperations.CoordinatorConflict))
      else if p.battle.Some? then Outcome(db, Err(LeagueOperations.CoordinatorConflict))
      else if db.rounds[p.round].chain == NoAddress then Outcome(db, Err(LeagueOperations.CoordinatorPlanUnavailable))
      else if address != BattleAddress(p.round, id) then Outcome(db, Err(LeagueOperations.CoordinatorConflict))
      else
        match Materialize(db, p, address, LeagueMode)
        case None => Outcome(db, Err(LeagueOperations.CoordinatorConflict))
        case Some(d) =>
          Outcome(d.(leaguePairings := d.leaguePairings[id := p.(battle := Some(address), status := Created)]), Ok(()))
  }

  method ConfirmLeagueCoordinatorBattle(db: Database, id: nat, address: BattleAddress)
    returns (r: Result<(), LeagueError>)
    modifies db
    ensures Outcome(db.Value(), r) == old(Confirmed(db.Value(), id, address))
  {
    hide Materialize;
    if id == 0 {
      return Err(InvalidPairing);
    }
    if id !in db.leaguePairings || db.leaguePairings[id].round !in db.rounds {
      return Err(LeagueOperations.CoordinatorPlanUnavailable);
    }
    var p := db.leaguePairings[id];
    if p.status == Created {
      return if p.battle == Some(address) then Ok(()) else Err(LeagueOperations.CoordinatorConflict);
    }
    if p.battle.Some? {
      return Err(LeagueOperations.CoordinatorConflict);
    }
    if db.rounds[p.round].chain == NoAddress {
      return Err(LeagueOperations.CoordinatorPlanUnavailable);
    }
    if address != BattleAddress(p.round, id) {
      return Err(LeagueOperations.CoordinatorConflict);
    }
    var stored := StoreBattle(db, p, address, LeagueMode);
    if !stored {
      return Err(LeagueOperations.CoordinatorConflict);
    }
    db.leaguePairings := db.leaguePairings[id := p.(battle := Some(address), status := Created)];
    return Ok(());
  }

  // ----- exposures written by the indexer -----

  datatype IndexerError = ExposureConflict | UnknownBattle

  /** A rated slot seen on chain. The Battle must be stored already; a second Battle for the same
      wallet and round is refused. */
  function ExposureIndexed(db: Db, round: RoundId, wallet: Wallet, address: BattleAddress): Outcome<(), IndexerError> {
    if (round, wallet) in db.exposures
    then Outcome(db, if db.exposures[(round, wallet)] == address then Ok(()) else Err(ExposureConflict))
    else if address !in db.battles || round !in db.rounds then Outcome(db, Err(UnknownBattle))
    else Outcome(db.(exposures := db.exposures[(round, wallet) := address]), Ok(()))
  }

  method UpsertRatedExposure(db: Database, round: RoundId, wallet: Wallet, address: BattleAddress)
    returns (r: Result<(), IndexerError>)
    modifies db
    ensures Outcome(db.Value(), r) == old(ExposureIndexed(db.Value(), round, wallet, address))
  {
    if (round, wallet) in db.exposures {
      return if db.exposures[(round, wallet)] == address then Ok(()) else Err(ExposureConflict);
    }
    if address !in db.battles || round !in db.rounds {
      return Err(UnknownBattle);
    }
    db.exposures := db.exposures[(round, wallet) := address];
    return Ok(());
  }
}
