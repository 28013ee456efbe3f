/** The Ranked queue and matchmaker (backend/src/ranked.rs). Each operation is one transaction:
    a function gives its outcome, and the method that updates the tables is proved equal to it. */
module RankedOperations {
  import opened Wrappers
  import opened Sequences
  import opened Tables
  import Pairs = RankedPairing

  datatype RankedError =
    | InvalidRound | RoundNotFound | RoundNotEligible | QueueClosed | QueueNotFound | AlreadyPaired | AlreadyExposed
    | LeagueReserved | UnresolvedPreviousBattle | CoordinatorPlanUnavailable | CoordinatorConflict

  /** What the Battle and rating tables say when the matchmaker runs. */
  datatype History = History(
    unresolved: Wallet -> bool, rating: Wallet -> int, games: Wallet -> int, recent: Wallet -> seq<Wallet>)

  // ----- Market Round checks -----

  /** Rows that no Ranked operation will load. */
  function LoadFault(db: Db, round: RoundId): Option<RankedError>
    requires round in db.rounds
  {
    var r := db.rounds[round];
    if !r.knownSource || (!r.replay && r.chain != CanonicalAddress)
       || r.window.close >= r.window.start || r.window.start >= r.window.end
    then Some(InvalidRound)
    else None
  }

  function RoundFault(db: Db, round: RoundId): Option<RankedError> {
    if round !in db.rounds then Some(RoundNotFound)
    else
      var r := db.rounds[round];
      if LoadFault(db, round).Some? then LoadFault(db, round)
      else if !r.publicEquity || r.replay || r.state == LaterState then Some(RoundNotEligible)
      else None
  }

  function QueueRoundFault(db: Db, round: RoundId, now: int): Option<RankedError> {
    var fault := RoundFault(db, round);
    if fault.Some? then fault
    else if now >= db.rounds[round].window.close then Some(QueueClosed)
    else None
  }

  function MatchmakerFault(db: Db, round: RoundId, now: int): Option<RankedError> {
    var fault := RoundFault(db, round);
    if fault.Some? then fault
    else if now < db.rounds[round].window.close then Some(QueueClosed)
    else if now >= db.rounds[round].window.start then Some(RoundNotEligible)
    else None
  }

  // ----- joining and leaving -----

  function JoinFault(db: Db, wallet: Wallet, round: RoundId, now: int, unresolved: bool): Option<RankedError> {
    if QueueRoundFault(db, round, now).Some? then QueueRoundFault(db, round, now)
    else if (round, wallet) in db.exposures then Some(AlreadyExposed)
    else if HasLeagueReservation(db, round, wallet) then Some(LeagueReserved)
    else if unresolved then Some(UnresolvedPreviousBattle)
    else if (round, wallet) in db.queue
            && (db.queue[(round, wallet)].status == Matched || db.queue[(round, wallet)].status == BattleCreated)
    then Some(AlreadyPaired)
    else None
  }

  predicate StillQueued(db: Db, wallet: Wallet, round: RoundId) {
    (round, wallet) in db.queue
      && (db.queue[(round, wallet)].status == Queued || db.queue[(round, wallet)].status == Snapshotted)
  }

  function Joined(db: Db, wallet: Wallet, round: RoundId, now: int, unresolved: bool): Outcome<(), RankedError> {
    var fault := JoinFault(db, wallet, round, now, unresolved);
    if fault.Some? then Outcome(db, Err(fault.value))
    else if StillQueued(db, wallet, round) then Outcome(db, Ok(()))
    else Outcome(db.(queue := db.queue[(round, wallet) := QueueRow(Queued, None)]), Ok(()))
  }

  method JoinQueue(db: Database, wallet: Wallet, round: RoundId, now: int, unresolved: bool)
    returns (r: Result<(), RankedError>)
    modifies db
    ensures Outcome(db.Value(), r) == old(Joined(db.Value(), wallet, round, now, unresolved))
  {
    hide HasLeagueReservation;
    var fault := QueueRoundFault(db.Value(), round, now);
    if fault.Some? {
      return Err(fault.value);
    }
    if (round, wallet) in db.exposures {
      return Err(AlreadyExposed);
    }
    if HasLeagueReservation(db.Value(), round, wallet) {
      return Err(LeagueReserved);
    }
    if unresolved {
      return Err(UnresolvedPreviousBattle);
    }
    if (round, wallet) in db.queue {
      var status := db.queue[(round, wallet)].status;
      if status == Matched || status == BattleCreated {
        return Err(AlreadyPaired);
      }
      if status != Queued && status != Snapshotted {
        db.queue := db.queue[(round, wallet) := QueueRow(Queued, None)];
      }
    } else {
      db.queue := db.queue[(round, wallet) := QueueRow(Queued, None)];
    }
    return Ok(());
  }

  function LeftQueue(db: Db, wallet: Wallet, round: RoundId, now: int): Outcome<(), RankedError> {
    if round !in db.rounds then Outcome(db, Err(RoundNotFound))
    else if LoadFault(db, round).Some? then Outcome(db, Err(LoadFault(db, round).value))
    else if now >= db.rounds[round].window.close then Outcome(db, Err(QueueClosed))
    else if (round, wallet) !in db.queue then Outcome(db, Err(QueueNotFound))
    else
      var row := db.queue[(round, wallet)];
      if row.status == Queued || row.status == Unmatched
      then Outcome(db.(queue := db.queue[(round, wallet) := row.(status := CancelledEntry)]), Ok(()))
      else if row.status == Matched || row.status == BattleCreated then Outcome(db, Err(AlreadyPaired))
      else Outcome(db, Err(QueueNotFound))
  }

  method LeaveQueue(db: Database, wallet: Wallet, round: RoundId, now: int) returns (r: Result<(), RankedError>)
    modifies db
    ensures Outcome(db.Value(), r) == old(LeftQueue(db.Value(), wallet, round, now))
  {
    if round !in db.rounds {
      return Err(RoundNotFound);
    }
    if LoadFault(db.Value(), round).Some? {
      return Err(InvalidRound);
    }
    if now >= db.rounds[round].window.close {
      return Err(QueueClosed);
    }
    if (round, wallet) !in db.queue {
      return Err(QueueNotFound);
    }
    var row := db.queue[(round, wallet)];
    if row.status == Queued || row.status == Unmatched {
      db.queue := db.queue[(round, wallet) := row.(status := CancelledEntry)];
      return Ok(());
    }
    if row.status == Matched || row.status == BattleCreated {
      return Err(AlreadyPaired);
    }
    return Err(QueueNotFound);
  }

  // ----- the matchmaker -----

  datatype PairingView = PairingView(id: nat, pairing: Pairing)

  datatype MatchRun = MatchRun(id: nat, pairings: seq<PairingView>, unmatched: seq<Wallet>, blocked: seq<Wallet>)

  function WalletsWith(db: Db, round: RoundId, status: QueueStatus): set<Wallet> {
    set k | k in db.queue && k.0 == round && db.queue[k].status == status :: k.1
  }

  function QueuedWallets(db: Db, round: RoundId): seq<Wallet> { Ascending(WalletsWith(db, round, Queued)) }

  predicate IsBlocked(db: Db, h: History, round: RoundId, wallet: Wallet) {
    (round, wallet) in db.exposures || HasLeagueReservation(db, round, wallet) || h.unresolved(wallet)
  }

  function AdmittedRow(db: Db, h: History, round: RoundId, wallet: Wallet): QueueRow {
    QueueRow(if IsBlocked(db, h, round, wallet) then Blocked else Snapshotted,
             Some(Snapshot(h.rating(wallet), h.games(wallet))))
  }

  /** The queue after the given wallets are snapshotted and the ineligible ones blocked. */
  function Admitted(db: Db, h: History, round: RoundId, wallets: seq<Wallet>): map<(RoundId, Wallet), QueueRow> {
    if wallets == [] then db.queue
    else
      var w := wallets[|wallets| - 1];
      Admitted(db, h, round, wallets[..|wallets| - 1])[(round, w) := AdmittedRow(db, h, round, w)]
  }

  function BlockedOf(db: Db, h: History, round: RoundId, wallets: seq<Wallet>): seq<Wallet> {
    if wallets == [] then []
    else
      var w, earlier := wallets[|wallets| - 1], BlockedOf(db, h, round, wallets[..|wallets| - 1]);
      if IsBlocked(db, h, round, w) then earlier + [w] else earlier
  }

  function EligibleOf(db: Db, h: History, round: RoundId, wallets: seq<Wallet>): seq<Pairs.RankedPlayer> {
    if wallets == [] then []
    else
      var w, earlier := wallets[|wallets| - 1], EligibleOf(db, h, round, wallets[..|wallets| - 1]);
      if IsBlocked(db, h, round, w) then earlier else earlier + [Pairs.RankedPlayer(w, h.rating(w), h.recent(w))]
  }

  function DuelsOf(pairs: seq<(Pairs.RankedPlayer, Pairs.RankedPlayer)>): seq<Duel> {
    Map(pairs, (p: (Pairs.RankedPlayer, Pairs.RankedPlayer)) => Duel(p.0.wallet, p.1.wallet, p.0.rating, p.1.rating))
  }

  function WalletsOf(players: seq<Pairs.RankedPlayer>): seq<Wallet> {
    Map(players, (p: Pairs.RankedPlayer) => p.wallet)
  }

  /** The queue with the given entries' status replaced. */
  function Marked(queue: map<(RoundId, Wallet), QueueRow>, round: RoundId, wallets: set<Wallet>, status: QueueStatus)
    : map<(RoundId, Wallet), QueueRow>
  {
    map k | k in queue :: if k.0 == round && k.1 in wallets then queue[k].(status := status) else queue[k]
  }

  function SetOf(wallets: seq<Wallet>): set<Wallet> { set w | w in wallets }

  function DuelWallets(duels: seq<Duel>): set<Wallet> {
    if duels == [] then {}
    else DuelWallets(duels[..|duels| - 1]) + {duels[|duels| - 1].a, duels[|duels| - 1].b}
  }

  function RunIds(table: map<nat, Pairing>, run: nat): set<nat> { set i | i in table && table[i].run == run }

  function ViewAt(table: map<nat, Pairing>, run: nat, i: nat): PairingView {
    PairingView(i, if i in table then table[i] else NewPairing(run, 0, Duel(0, 0, 0, 0)))
  }

  function Views(table: map<nat, Pairing>, run: nat): seq<PairingView> {
    Map(Ascending(RunIds(table, run)), (i: nat) => ViewAt(table, run, i))
  }

  function StoredRun(db: Db, run: nat, round: RoundId): MatchRun {
    MatchRun(run, Views(db.pairings, run), Ascending(WalletsWith(db, round, Unmatched)),
             Ascending(WalletsWith(db, round, Blocked)))
  }

  /** What a fresh run pairs, leaves over and blocks. */
  datatype MatchPlan = MatchPlan(duels: seq<Duel>, unmatched: seq<Wallet>, blocked: seq<Wallet>)

  function PlanOf(db: Db, h: History, round: RoundId): MatchPlan {
    var wallets := QueuedWallets(db, round);
    var eligible := EligibleOf(db, h, round, wallets);
    MatchPlan(DuelsOf(Pairs.PairPlayers(eligible)), WalletsOf(Pairs.Unpaired(eligible)),
              BlockedOf(db, h, round, wallets))
  }

  function NewViews(base: nat, run: nat, round: RoundId, duels: seq<Duel>): seq<PairingView> {
    seq(|duels|, k requires 0 <= k < |duels| => PairingView(base + k, NewPairing(run, round, duels[k])))
  }

  function FreshRun(db: Db, h: History, round: RoundId): Outcome<MatchRun, RankedError>
    requires round in db.rounds
  {
    var run, base, plan := db.nextRun, db.nextPairing, PlanOf(db, h, round);
    var admitted := Admitted(db, h, round, QueuedWallets(db, round));
    var matched := Marked(admitted, round, DuelWallets(plan.duels), Matched);
    Outcome(db.(queue := Marked(matched, round, SetOf(plan.unmatched), Unmatched),
                runs := db.runs[(round, db.rounds[round].window.close) := run],
                pairings := Inserted(db.pairings, base, run, round, plan.duels),
                nextRun := run + 1, nextPairing := base + |plan.duels|),
            Ok(MatchRun(run, NewViews(base, run, round, plan.duels), plan.unmatched, plan.blocked)))
  }

  function MatchmakerRun(db: Db, h: History, round: RoundId, now: int): Outcome<MatchRun, RankedError> {
    var fault := MatchmakerFault(db, round, now);
    if fault.Some? then Outcome(db, Err(fault.value))
    else
      var key := (round, db.rounds[round].window.close);
      if key in db.runs then Outcome(db, Ok(StoredRun(db, db.runs[key], round)))
      else FreshRun(db, h, round)
  }

  method RunMatchmaker(db: Database, h: History, round: RoundId, now: int) returns (r: Result<MatchRun, RankedError>)
    modifies db
    ensures Outcome(db.Value(), r) == old(MatchmakerRun(db.Value(), h, round, now))
  {
    hide MatchmakerFault, StoredRun, FreshRun;
    var fault := MatchmakerFault(db.Value(), round, now);
    if fault.Some? {
      return Err(fault.value);
    }
    assert round in db.rounds by { FaultMeansKnown(db.Value(), round, now); }
    var key := (round, db.rounds[round].window.close);
    if key in db.runs {
      return Ok(StoredRun(db.Value(), db.runs[key], round));
    }
    r := StartRun(db, h, round);
  }

  method StartRun(db: Database, h: History, round: RoundId) returns (r: Result<MatchRun, RankedError>)
    requires round in db.rounds
    modifies db
    ensures Outcome(db.Value(), r) == old(FreshRun(db.Value(), h, round))
  {
    hide Admitted, EligibleOf, BlockedOf, Inserted, Marked, DuelWallets, NewViews, DuelsOf, WalletsOf, QueuedWallets,
      Pairs.PairPlayers, Pairs.Unpaired, SetOf;
    var wallets := QueuedWallets(db.Value(), round);
    var eligible, blocked := AdmitAll(db, h, round, wallets);
    var run := db.nextRun;
    db.runs, db.nextRun := db.runs[(round, db.rounds[round].window.close) := run], run + 1;
    var views, unmatched := MatchEligible(db, run, round, eligible);
    return Ok(MatchRun(run, views, unmatched, blocked));
  }

  method MatchEligible(db: Database, run: nat, round: RoundId, eligible: seq<Pairs.RankedPlayer>)
    returns (views: seq<PairingView>, unmatched: seq<Wallet>)
    modifies db`pairings, db`queue, db`nextPairing
    ensures unmatched == WalletsOf(Pairs.Unpaired(eligible))
    ensures var duels := DuelsOf(Pairs.PairPlayers(eligible));
            && db.pairings == old(Inserted(db.pairings, db.nextPairing, run, round, duels))
            && db.queue
                 == old(Marked(Marked(db.queue, round, DuelWallets(duels), Matched), round, SetOf(unmatched),
                               Unmatched))
            && db.nextPairing == old(db.nextPairing) + |duels|
            && views == old(NewViews(db.nextPairing, run, round, duels))
  {
    hide Inserted, Marked, DuelWallets, NewViews, DuelsOf, Pairs.PairPlayers, Pairs.Unpaired, Pairs.ChosenPairs, SetOf;
    var pairs, unpaired := Pairs.PairRanked(eligible);
    var duels := AsDuels(eligible, pairs);
    views := StorePairs(db, run, round, duels);
    unmatched := if unpaired.None? then [] else [eligible[unpaired.value].wallet];
    assert unmatched == WalletsOf(Pairs.Unpaired(eligible));
    db.queue := Marked(db.queue, round, SetOf(unmatched), Unmatched);
  }

  lemma FaultMeansKnown(db: Db, round: RoundId, now: int)
    requires MatchmakerFault(db, round, now).None?
    ensures round in db.rounds
  {
  }

  method AdmitAll(db: Database, h: History, round: RoundId, wallets: seq<Wallet>)
    returns (eligible: seq<Pairs.RankedPlayer>, blocked: seq<Wallet>)
    modifies db`queue
    ensures db.queue == old(Admitted(db.Value(), h, round, wallets))
    ensures eligible == old(EligibleOf(db.Value(), h, round, wallets))
    ensures blocked == old(BlockedOf(db.Value(), h, round, wallets))
  {
    hide IsBlocked;
    var before := db.Value();
    eligible, blocked := [], [];
    for k := 0 to |wallets|
      invariant db.queue == Admitted(before, h, round, wallets[..k])
      invariant eligible == EligibleOf(before, h, round, wallets[..k])
      invariant blocked == BlockedOf(before, h, round, wallets[..k])
    {
      var wallet := wallets[k];
      assert wallets[..k + 1][..k] == wallets[..k];
      var snapshot := Some(Snapshot(h.rating(wallet), h.games(wallet)));
      db.queue := db.queue[(round, wallet) := QueueRow(Snapshotted, snapshot)];
      if IsBlocked(before, h, round, wallet) {
        db.queue := db.queue[(round, wallet) := QueueRow(Blocked, snapshot)];
        blocked := blocked + [wallet];
      } else {
        eligible := eligible + [Pairs.RankedPlayer(wallet, h.rating(wallet), h.recent(wallet))];
      }
    }
    assert wallets[..|wallets|] == wallets;
  }

  method AsDuels(eligible: seq<Pairs.RankedPlayer>, pairs: seq<(nat, nat)>) returns (duels: seq<Duel>)
    requires Pairs.PairsIndex(eligible, pairs)
    ensures duels == DuelsOf(Pairs.ChosenPairs(eligible, pairs))
  {
    duels := seq(|pairs|, k requires 0 <= k < |pairs| =>
      Duel(eligible[pairs[k].0].wallet, eligible[pairs[k].1].wallet, eligible[pairs[k].0].rating,
           eligible[pairs[k].1].rating));
  }

  method StorePairs(db: Database, run: nat, round: RoundId, duels: seq<Duel>) returns (views: seq<PairingView>)
    modifies db`pairings, db`queue, db`nextPairing
    ensures db.pairings == old(Inserted(db.pairings, db.nextPairing, run, round, duels))
    ensures db.queue == old(Marked(db.queue, round, DuelWallets(duels), Matched))
    ensures db.nextPairing == old(db.nextPairing) + |duels|
    ensures views == old(NewViews(db.nextPairing, run, round, duels))
  {
    ghost var table, base, queue := db.pairings, db.nextPairing, db.queue;
    views := [];
    NoneMarked(queue, round);
    for k := 0 to |duels|
      invariant db.pairings == Inserted(table, base, run, round, duels[..k])
      invariant db.queue == Marked(queue, round, DuelWallets(duels[..k]), Matched)
      invariant db.nextPairing == base + k
      invariant views == NewViews(base, run, round, duels[..k])
    {
      var d := duels[k];
      assert duels[..k + 1][..k] == duels[..k];
      db.pairings := db.pairings[db.nextPairing := NewPairing(run, round, d)];
      views := views + [PairingView(db.nextPairing, NewPairing(run, round, d))];
      db.nextPairing := db.nextPairing + 1;
      MarkedTwice(queue, round, DuelWallets(duels[..k]), {d.a, d.b});
      db.queue := Marked(db.queue, round, {d.a, d.b}, Matched);
    }
    assert duels[..|duels|] == duels;
  }

  lemma NoneMarked(queue: map<(RoundId, Wallet), QueueRow>, round: RoundId)
    ensures Marked(queue, round, {}, Matched) == queue
  {
  }

  lemma MarkedTwice(queue: map<(RoundId, Wallet), QueueRow>, round: RoundId, s: set<Wallet>, t: set<Wallet>)
    ensures Marked(Marked(queue, round, s, Matched), round, t, Matched) == Marked(queue, round, s + t, Matched)
  {
  }

  // ----- coordinator confirmation -----

  function Confirmed(db: Db, id: nat, address: BattleAddress): Outcome<(), RankedError> {
    if id !in db.pairings || db.pairings[id].round !in db.rounds then Outcome(db, Err(CoordinatorPlanUnavailable))
    else
      var p := db.pairings[id];
      if p.status == Created
      then Outcome(db, if p.battle == Some(address) then Ok(()) else Err(CoordinatorConflict))
      else if p.battle.Some? then Outcome(db, Err(CoordinatorConflict))
      else if db.rounds[p.round].chain == NoAddress then Outcome(db, Err(CoordinatorPlanUnavailable))
      else if address != BattleAddress(p.round, id) then Outcome(db, Err(CoordinatorConflict))
      else
        match Materialize(db, p, address, Ranked)
        case None => Outcome(db, Err(CoordinatorConflict))
        case Some(d) =>
          Outcome(d.(pairings := d.pairings[id := p.(battle := Some(address), status := Created)],
                     queue := Marked(d.queue, p.round, {p.a, p.b}, BattleCreated)), Ok(()))
  }

  method ConfirmCoordinatorBattle(db: Database, id: nat, address: BattleAddress) returns (r: Result<(), RankedError>)
    modifies db
    ensures Outcome(db.Value(), r) == old(Confirmed(db.Value(), id, address))
  {
    hide Materialize, Marked;
    if id !in db.pairings || db.pairings[id].round !in db.rounds {
      return Err(CoordinatorPlanUnavailable);
    }
    var p := db.pairings[id];
    if p.status == Created {
      return if p.battle == Some(address) then Ok(()) else Err(CoordinatorConflict);
    }
    if p.battle.Some? {
      return Err(CoordinatorConflict);
    }
    if db.rounds[p.round].chain == NoAddress {
      return Err(CoordinatorPlanUnavailable);
    }
    if address != BattleAddress(p.round, id) {
      return Err(CoordinatorConflict);
    }
    var stored := StoreBattle(db, p, address, Ranked);
    if !stored {
      return Err(CoordinatorConflict);
    }
    db.pairings := db.pairings[id := p.(battle := Some(address), status := Created)];
    db.queue := Marked(db.queue, p.round, {p.a, p.b}, BattleCreated);
    return Ok(());
  }
}
