/** What pairing and confirming keep in both modes: a round is paired once, after the one before
    it is complete; every active member is placed once; and a created Battle has both exposures. */
module LeaguePairingInvariants {
  import opened Wrappers
  import opened Sequences
  import opened Tables
  import opened LeagueInvariants
  import opened LeagueBattles
  import Swiss = SwissPairing
  import Pairs = RankedPairing

  type LeagueRuns = map<(LeagueId, int), LeagueRun>
  type Pairings = map<nat, Pairing>
  type Battles = map<BattleAddress, BattleRow>
  type Exposures = map<(RoundId, Wallet), BattleAddress>

  // ----- exposures -----

  ghost predicate SubMap<K, V>(m: map<K, V>, n: map<K, V>) { forall k :: k in m ==> k in n && n[k] == m[k] }

  /** A created pairing's Battle is stored as its own, and both wallets are exposed to it. */
  ghost predicate Exposed(p: Pairing, i: nat, mode: Mode, battles: Battles, exposures: Exposures) {
    p.status == Created ==>
      var address := BattleAddress(p.round, i);
      && p.battle == Some(address)
      && address in battles && battles[address] == BattleRow(p.round, p.a, p.b, mode)
      && (p.round, p.a) in exposures && exposures[(p.round, p.a)] == address
      && (p.round, p.b) in exposures && exposures[(p.round, p.b)] == address
  }

  ghost predicate AllExposed(pairings: Pairings, mode: Mode, battles: Battles, exposures: Exposures) {
    forall i :: i in pairings ==> Exposed(pairings[i], i, mode, battles, exposures)
  }

  ghost predicate ExposureInv(db: Db) {
    AllExposed(db.pairings, Ranked, db.battles, db.exposures)
      && AllExposed(db.leaguePairings, LeagueMode, db.battles, db.exposures)
  }

  lemma MoreExposures(pairings: Pairings, mode: Mode, battles: Battles, battles': Battles, exposures: Exposures,
                      exposures': Exposures)
    requires AllExposed(pairings, mode, battles, exposures) && SubMap(battles, battles')
             && SubMap(exposures, exposures')
    ensures AllExposed(pairings, mode, battles', exposures')
  {
    forall i | i in pairings ensures Exposed(pairings[i], i, mode, battles', exposures') {
      assert Exposed(pairings[i], i, mode, battles, exposures);
    }
  }

  lemma MaterializeGrows(db: Db, p: Pairing, address: BattleAddress, mode: Mode)
    requires Materialize(db, p, address, mode).Some?
    ensures var d := Materialize(db, p, address, mode).value;
            && SubMap(db.battles, d.battles) && SubMap(db.exposures, d.exposures)
            && d == db.(battles := d.battles, exposures := d.exposures)
            && address in d.battles && d.battles[address] == BattleRow(p.round, p.a, p.b, mode)
            && (p.round, p.a) in d.exposures && d.exposures[(p.round, p.a)] == address
            && (p.round, p.b) in d.exposures && d.exposures[(p.round, p.b)] == address
            && (p.round, p.a) !in db.exposures && (p.round, p.b) !in db.exposures
  {
  }

  lemma NowExposed(pairings: Pairings, mode: Mode, battles: Battles, exposures: Exposures, id: nat, p: Pairing)
    requires AllExposed(pairings, mode, battles, exposures) && Exposed(p, id, mode, battles, exposures)
    ensures AllExposed(pairings[id := p], mode, battles, exposures)
  {
  }

  lemma {:induction false} InsertedExposed(table: Pairings, base: nat, run: nat, round: RoundId, duels: seq<Duel>,
                                           mode: Mode,
                                           battles: Battles, exposures: Exposures)
    requires AllExposed(table, mode, battles, exposures)
    ensures AllExposed(Inserted(table, base, run, round, duels), mode, battles, exposures)
  {
    if duels != [] {
      InsertedExposed(table, base, run, round, duels[..|duels| - 1], mode, battles, exposures);
    }
  }

  // ----- League runs -----

  ghost predicate RunsKnown(runs: LeagueRuns, next: nat) {
    && (forall k :: k in runs ==> k.1 >= 1 && runs[k].id < next)
    && (forall j, k :: j in runs && k in runs && runs[j].id == runs[k].id ==> j == k)
  }

  ghost predicate PairingKnown(i: nat, p: Pairing, next: nat, nextRun: nat) {
    i < next && p.run < nextRun && p.a != p.b
  }

  predicate SameRunShare(p: Pairing, r: Pairing) { p.run == r.run && (p.Has(r.a) || p.Has(r.b)) }

  /** Nobody is in two pairings of one run. */
  ghost predicate PairingsKnown(pairings: Pairings, next: nat, nextRun: nat) {
    && (forall i :: i in pairings ==> PairingKnown(i, pairings[i], next, nextRun))
    && (forall i, j :: i in pairings && j in pairings && i != j ==> !SameRunShare(pairings[i], pairings[j]))
  }

  ghost predicate RunComplete(pairings: Pairings, run: nat) {
    forall i :: i in pairings && pairings[i].run == run ==> pairings[i].status == Created
  }

  /** A round is paired only when every Battle of the round before it has been created. */
  ghost predicate RoundsInOrder(runs: LeagueRuns, pairings: Pairings) {
    forall k :: k in runs && k.1 > 1 ==> (k.0, k.1 - 1) in runs && RunComplete(pairings, runs[(k.0, k.1 - 1)].id)
  }

  ghost predicate PairedTables(runs: LeagueRuns, pairings: Pairings, nextRun: nat, next: nat) {
    RunsKnown(runs, nextRun) && PairingsKnown(pairings, next, nextRun) && RoundsInOrder(runs, pairings)
  }

  ghost predicate PairedInv(db: Db) {
    PairedTables(db.leagueRuns, db.leaguePairings, db.nextLeagueRun, db.nextLeaguePairing)
  }

  // ----- the plan of a League run places every active member once -----

  function Member(players: seq<Swiss.PairingPlayer>, i: nat): Wallet { Swiss.At(players, i).wallet }

  function PlacedIndices(plan: Swiss.PairingResult): seq<nat> {
    Pairs.Flatten(plan.pairs) + if plan.bye.Some? then [plan.bye.value] else []
  }

  lemma PlacedIndicesOnce(players: seq<Swiss.PairingPlayer>, tie: Swiss.TieKeys)
    requires Swiss.PlanSwiss(players, tie).Ok?
    ensures var placed := PlacedIndices(Swiss.PlanSwiss(players, tie).value);
            && Distinct(placed) && forall i: nat :: i in placed <==> i < |players|
  {
    hide Swiss.PlanSwiss, Pairs.Flatten;
    var plan := Swiss.PlanSwiss(players, tie).value;
    Swiss.SwissPairsEveryone(players, tie);
    var placed, all := PlacedIndices(plan), Swiss.Indices(|players|);
    assert multiset(placed) == multiset(all);
    DistinctPermuted(all, placed);
    forall i: nat ensures i in placed <==> i < |players| {
      SameElements(all, placed, i);
      if i < |players| { assert all[i] == i; }
    }
  }

  ghost predicate OneWalletEach(players: seq<Swiss.PairingPlayer>) {
    forall i, j :: 0 <= i < j < |players| ==> players[i].wallet != players[j].wallet
  }

  lemma CandidatesDistinct(db: Db, league: LeagueId, f: Facts)
    ensures OneWalletEach(Candidates(db, league, f))
    ensures forall w :: w in ActiveMembers(db, league)
              <==> exists i :: 0 <= i < |Candidates(db, league, f)| && Candidates(db, league, f)[i].wallet == w
  {
    var members := Ascending(ActiveMembers(db, league));
    AscendingMeaning(ActiveMembers(db, league));
    var players := Candidates(db, league, f);
    assert forall i :: 0 <= i < |players| ==> players[i].wallet == members[i];
    forall w ensures w in ActiveMembers(db, league) <==> exists i :: 0 <= i < |players| && players[i].wallet == w {
      if w in members { var i :| 0 <= i < |members| && members[i] == w; assert players[i].wallet == w; }
    }
  }

  lemma DuelsFromPairs(players: seq<Swiss.PairingPlayer>, plan: Swiss.PairingResult)
    ensures var duels, placed := DuelsOf(players, plan.pairs), PlacedIndices(plan);
            && 2 * |duels| <= |placed|
            && (forall k :: 0 <= k < |duels| ==>
                  duels[k].a == Member(players, placed[2 * k]) && duels[k].b == Member(players, placed[2 * k + 1]))
  {
    Pairs.FlattenAt(plan.pairs);
  }

  /** In a League run nobody is paired twice. */
  lemma LeagueDuelsApart(players: seq<Swiss.PairingPlayer>, tie: Swiss.TieKeys)
    requires OneWalletEach(players) && Swiss.PlanSwiss(players, tie).Ok?
    ensures DuelsApart(DuelsOf(players, Swiss.PlanSwiss(players, tie).value.pairs))
  {
    hide Swiss.PlanSwiss, PlacedIndices, DuelsOf;
    var plan := Swiss.PlanSwiss(players, tie).value;
    PlacedIndicesOnce(players, tie);
    DuelsFromPairs(players, plan);
    DistinctMembers(players, PlacedIndices(plan), DuelsOf(players, plan.pairs));
  }

  lemma DistinctMembers(players: seq<Swiss.PairingPlayer>, placed: seq<nat>, duels: seq<Duel>)
    requires OneWalletEach(players) && Distinct(placed) && forall i: nat :: i in placed <==> i < |players|
    requires 2 * |duels| <= |placed|
    requires forall k :: 0 <= k < |duels| ==>
               duels[k].a == Member(players, placed[2 * k]) && duels[k].b == Member(players, placed[2 * k + 1])
    ensures DuelsApart(duels)
  {
    forall i, j | 0 <= i < |placed| && 0 <= j < |placed| && i != j
      ensures Member(players, placed[i]) != Member(players, placed[j])
    {
      assert placed[i] in placed && placed[j] in placed;
      assert placed[i] != placed[j];
    }
  }

  lemma PlacedSomewhere(plan: Swiss.PairingResult, i: nat)
    requires i in PlacedIndices(plan)
    ensures plan.bye == Some(i) || exists k :: 0 <= k < |plan.pairs| && (plan.pairs[k].0 == i || plan.pairs[k].1 == i)
  {
    var flat := Pairs.Flatten(plan.pairs);
    if i in flat { var k := Swiss.EndIn(plan.pairs, i); }
  }

  ghost predicate InDuel(duels: seq<Duel>, w: Wallet) {
    exists k :: 0 <= k < |duels| && (duels[k].a == w || duels[k].b == w)
  }

  lemma MemberInDuel(players: seq<Swiss.PairingPlayer>, pairs: seq<Swiss.Pair>, k: nat, i: nat)
    requires k < |pairs| && (pairs[k].0 == i || pairs[k].1 == i)
    ensures InDuel(DuelsOf(players, pairs), Member(players, i))
  {
    var d := DuelsOf(players, pairs)[k];
    assert d.a == Member(players, i) || d.b == Member(players, i);
  }

  /** A League run pairs every active member or gives them the bye. */
  lemma EveryMemberPlaced(db: Db, league: LeagueId, f: Facts, tie: Swiss.TieKeys, w: Wallet)
    requires w in ActiveMembers(db, league)
    ensures var players := Candidates(db, league, f);
            && Swiss.PlanSwiss(players, tie).Ok?
            && var plan := Swiss.PlanSwiss(players, tie).value;
            (ByeWallet(players, plan.bye) == Some(w) || InDuel(DuelsOf(players, plan.pairs), w))
  {
    hide Swiss.PlanSwiss, Candidates, ActiveMembers, InDuel, DuelsOf, PlacedIndices, Distinct;
    var players := Candidates(db, league, f);
    Swiss.SwissPairsEveryone(players, tie);
    var plan := Swiss.PlanSwiss(players, tie).value;
    CandidatesDistinct(db, league, f);
    PlacedIndicesOnce(players, tie);
    var i :| 0 <= i < |players| && players[i].wallet == w;
    PlacedSomewhere(plan, i);
    if plan.bye != Some(i) {
      var k :| 0 <= k < |plan.pairs| && (plan.pairs[k].0 == i || plan.pairs[k].1 == i);
      MemberInDuel(players, plan.pairs, k, i);
    }
  }

  // ----- a run is stored -----

  lemma NewRunKnown(runs: LeagueRuns, nextRun: nat, league: LeagueId, no: int, round: RoundId, bye: Option<Wallet>)
    requires RunsKnown(runs, nextRun) && no >= 1
    ensures RunsKnown(runs[(league, no) := LeagueRun(nextRun, round, bye)], nextRun + 1)
  {
  }

  lemma NewPairingsKnown(pairings: Pairings, next: nat, nextRun: nat, round: RoundId, duels: seq<Duel>)
    requires PairingsKnown(pairings, next, nextRun) && DuelsApart(duels)
    ensures PairingsKnown(Inserted(pairings, next, nextRun, round, duels), next + |duels|, nextRun + 1)
  {
    var pairings' := Inserted(pairings, next, nextRun, round, duels);
    assert forall i :: i in pairings ==> PairingKnown(i, pairings[i], next, nextRun);
    InsertedMeaning(pairings, next, nextRun, round, duels);
    hide Inserted;
    forall i | i in pairings' ensures PairingKnown(i, pairings'[i], next + |duels|, nextRun + 1) {
      if i in pairings { assert PairingKnown(i, pairings[i], next, nextRun); }
    }
    forall i, j | i in pairings' && j in pairings' && i != j ensures !SameRunShare(pairings'[i], pairings'[j]) {
      NewPairingsShareNot(pairings, pairings', next, nextRun, round, duels, i, j);
    }
  }

  lemma NewPairingsShareNot(pairings: Pairings, pairings': Pairings, next: nat, nextRun: nat, round: RoundId,
                            duels: seq<Duel>,
                            i: nat, j: nat)
    requires PairingsKnown(pairings, next, nextRun) && DuelsApart(duels) && i in pairings' && j in pairings' && i != j
    requires forall k :: k in pairings' <==> k in pairings || next <= k < next + |duels|
    requires forall k :: k in pairings ==> pairings'[k] == pairings[k]
    requires forall k :: next <= k < next + |duels| ==> pairings'[k] == NewPairing(nextRun, round, duels[k - next])
    ensures !SameRunShare(pairings'[i], pairings'[j])
  {
    if i in pairings && j in pairings {
      assert !SameRunShare(pairings[i], pairings[j]);
    } else if i in pairings {
      assert PairingKnown(i, pairings[i], next, nextRun);
    } else if j in pairings {
      assert PairingKnown(j, pairings[j], next, nextRun);
    } else if i < j {
      assert DuelApart(duels[i - next], duels[j - next]);
    } else {
      assert DuelApart(duels[j - next], duels[i - next]);
    }
  }

  lemma NewRunInOrder(runs: LeagueRuns, pairings: Pairings, pairings': Pairings, nextRun: nat, league: LeagueId,
                      no: int, run: LeagueRun)
    requires RunsKnown(runs, nextRun) && RoundsInOrder(runs, pairings) && (league, no) !in runs && run.id == nextRun
    requires no > 1 ==> (league, no - 1) in runs && RunComplete(pairings, runs[(league, no - 1)].id)
    requires forall i ::
               i in pairings' ==> (i in pairings && pairings'[i] == pairings[i]) || pairings'[i].run == nextRun
    ensures RoundsInOrder(runs[(league, no) := run], pairings')
  {
    var runs' := runs[(league, no) := run];
    forall k | k in runs' && k.1 > 1
      ensures (k.0, k.1 - 1) in runs' && RunComplete(pairings', runs'[(k.0, k.1 - 1)].id)
    {
      assert (k.0, k.1 - 1) in runs;
      assert RunComplete(pairings, runs[(k.0, k.1 - 1)].id);
      assert (k.0, k.1 - 1) != (league, no);
    }
  }

  lemma ResolvedIsComplete(db: Db, league: LeagueId, no: int, f: Facts)
    requires PreviousResolved(db, league, no, f.resolved) && no > 1
    ensures (league, no - 1) in db.leagueRuns && RunComplete(db.leaguePairings, db.leagueRuns[(league, no - 1)].id)
  {
  }

  lemma StoredRunKeeps(runs: LeagueRuns, pairings: Pairings, nextRun: nat, next: nat, league: LeagueId, no: int,
                       round: RoundId,
                       bye: Option<Wallet>, duels: seq<Duel>)
    requires PairedTables(runs, pairings, nextRun, next) && DuelsApart(duels) && (league, no) !in runs && no >= 1
    requires no > 1 ==> (league, no - 1) in runs && RunComplete(pairings, runs[(league, no - 1)].id)
    ensures PairedTables(runs[(league, no) := LeagueRun(nextRun, round, bye)],
                         Inserted(pairings, next, nextRun, round, duels),
                         nextRun + 1, next + |duels|)
  {
    assert forall i :: i in pairings ==> PairingKnown(i, pairings[i], next, nextRun);
    InsertedMeaning(pairings, next, nextRun, round, duels);
    hide RunsKnown, PairingsKnown, RoundsInOrder, RunComplete, DuelsApart, Inserted;
    NewRunKnown(runs, nextRun, league, no, round, bye);
    NewPairingsKnown(pairings, next, nextRun, round, duels);
    NewRunInOrder(runs, pairings, Inserted(pairings, next, nextRun, round, duels), nextRun, league, no,
                  LeagueRun(nextRun, round, bye));
  }

  lemma RunStoredKeeps(db: Db, league: LeagueId, no: int, round: RoundId, bye: Option<Wallet>, duels: seq<Duel>,
                       now: int)
    requires PairedInv(db) && (league, no) !in db.leagueRuns && no >= 1 && DuelsApart(duels)
    requires no > 1 ==>
               (league, no - 1) in db.leagueRuns && RunComplete(db.leaguePairings, db.leagueRuns[(league, no - 1)].id)
    ensures PairedInv(RunStored(db, league, no, round, bye, duels, now))
  {
    hide PairedTables, Inserted, WithBye, RunComplete, DuelsApart;
    StoredRunKeeps(db.leagueRuns, db.leaguePairings, db.nextLeagueRun, db.nextLeaguePairing, league, no, round, bye,
                   duels);
  }

  lemma FreshPairingsKeep(db: Db, league: LeagueId, no: int, now: int, f: Facts, tie: Swiss.TieKeys)
    requires PairedInv(db) && (league, no) !in db.leagueRuns && no >= 1
    requires no > 1 ==>
               (league, no - 1) in db.leagueRuns && RunComplete(db.leaguePairings, db.leagueRuns[(league, no - 1)].id)
    ensures PairedInv(FreshPairings(db, league, no, now, f, tie).db)
  {
    hide PairedInv, Swiss.PlanSwiss, Candidates, DuelsOf, FindSlot, ByeWallet, RunComplete, DuelsApart, RunStored;
    var players := Candidates(db, league, f);
    var slot := FindSlot(ScheduleOf(db, league), no);
    if Swiss.PlanSwiss(players, tie).Ok? && slot.Some? {
      var plan := Swiss.PlanSwiss(players, tie).value;
      CandidatesDistinct(db, league, f);
      LeagueDuelsApart(players, tie);
      RunStoredKeeps(db, league, no, slot.value, ByeWallet(players, plan.bye), DuelsOf(players, plan.pairs), now);
    }
  }

  lemma PairingKeeps(db: Db, league: LeagueId, no: int, blockTime: int, now: int, f: Facts, tie: Swiss.TieKeys)
    requires PairedInv(db)
    ensures PairedInv(PairingsCreated(db, league, no, blockTime, now, f, tie).db)
  {
    hide PairedInv, FreshPairings, Candidates, PreviousResolved, FindSlot, RunComplete;
    if league > 0 && no > 0 && blockTime >= 0 && league in db.leagues && (league, no) !in db.leagueRuns
       && PairingFault(db, league, no, blockTime, now, f).None? {
      if no > 1 { ResolvedIsComplete(db, league, no, f); }
      FreshPairingsKeep(db, league, no, now, f, tie);
    }
  }

  lemma CreatedKeepsPaired(runs: LeagueRuns, pairings: Pairings, nextRun: nat, next: nat, id: nat, p: Pairing)
    requires PairedTables(runs, pairings, nextRun, next) && id in pairings
    requires p.run == pairings[id].run && p.a == pairings[id].a && p.b == pairings[id].b && p.status == Created
    ensures PairedTables(runs, pairings[id := p], nextRun, next)
  {
    var pairings' := pairings[id := p];
    hide RunsKnown;
    forall i, j | i in pairings' && j in pairings' && i != j ensures !SameRunShare(pairings'[i], pairings'[j]) {
      assert !SameRunShare(pairings[i], pairings[j]);
    }
    forall k | k in runs && k.1 > 1 ensures (k.0, k.1 - 1) in runs && RunComplete(pairings', runs[(k.0, k.1 - 1)].id) {
      assert RunComplete(pairings, runs[(k.0, k.1 - 1)].id);
    }
  }
}
