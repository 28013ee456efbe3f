/** What every Ranked operation keeps: pairings and queue entries agree, nobody is paired twice in
    a round, and a matchmaker run splits the queue exactly. */
module RankedInvariants {
  import opened Wrappers
  import opened Sequences
  import opened Tables
  import opened RankedOperations
  import opened LeagueInvariants
  import Pairs = RankedPairing

  type Runs = map<(RoundId, int), nat>
  type Pairings = map<nat, Pairing>

  ghost predicate RunHeld(runs: Runs, ws: Windows, round: RoundId) {
    round in ws && (round, ws[round].close) in runs
  }

  /** Until its round's matchmaker has run, an entry is queued or cancelled. */
  ghost predicate QuietBeforeRun(q: Queue, runs: Runs, ws: Windows) {
    forall k :: k in q ==>
      q[k].status != Snapshotted && (RunHeld(runs, ws, k.0) || q[k].status == Queued || q[k].status == CancelledEntry)
  }

  ghost predicate RunKeys(runs: Runs, ws: Windows, nextRun: nat) {
    && (forall k :: k in runs ==> k.0 in ws && k.1 == ws[k.0].close && runs[k] < nextRun)
    && (forall j, k :: j in runs && k in runs && runs[j] == runs[k] ==> j == k)
  }

  function EntryStatus(p: Pairing): QueueStatus { if p.status == Created then BattleCreated else Matched }

  ghost predicate Entry(q: Queue, round: RoundId, w: Wallet, status: QueueStatus) {
    (round, w) in q && q[(round, w)].status == status
  }

  /** A pairing belongs to its round's run, and both entries say how far its Battle has come. */
  ghost predicate PairingStands(q: Queue, runs: Runs, ws: Windows, next: nat, i: nat, p: Pairing) {
    && i < next && p.a != p.b
    && RunHeld(runs, ws, p.round) && p.run == runs[(p.round, ws[p.round].close)]
    && Entry(q, p.round, p.a, EntryStatus(p)) && Entry(q, p.round, p.b, EntryStatus(p))
    && p.battle == (if p.status == Created then Some(BattleAddress(p.round, i)) else None)
  }

  ghost predicate PairingsStand(q: Queue, runs: Runs, ws: Windows, pairings: Pairings, next: nat) {
    forall i :: i in pairings ==> PairingStands(q, runs, ws, next, i, pairings[i])
  }

  predicate PairingsShare(p: Pairing, r: Pairing) { p.round == r.round && (p.Has(r.a) || p.Has(r.b)) }

  /** Nobody is in two pairings of one round. */
  ghost predicate PairingsApart(pairings: Pairings) {
    forall i, j :: i in pairings && j in pairings && i != j ==> !PairingsShare(pairings[i], pairings[j])
  }

  ghost predicate PairedIn(pairings: Pairings, round: RoundId, w: Wallet) {
    exists i :: i in pairings && pairings[i].round == round && pairings[i].Has(w)
  }

  /** A matched entry belongs to a pairing. */
  ghost predicate EntriesPaired(q: Queue, pairings: Pairings) {
    forall k :: k in q && (q[k].status == Matched || q[k].status == BattleCreated) ==> PairedIn(pairings, k.0, k.1)
  }

  ghost predicate RankedTables(q: Queue, runs: Runs, ws: Windows, pairings: Pairings, nextRun: nat, next: nat) {
    && QuietBeforeRun(q, runs, ws) && RunKeys(runs, ws, nextRun) && PairingsStand(q, runs, ws, pairings, next)
    && PairingsApart(pairings) && EntriesPaired(q, pairings)
  }

  ghost predicate RankedInv(db: Db) {
    RankedTables(db.queue, db.runs, WindowsOf(db), db.pairings, db.nextRun, db.nextPairing)
  }

  /** What holds once the clock has reached `t`: a round whose matchmaker has run is past its
      queue's close and has nobody left queued. */
  ghost predicate ClosedBy(q: Queue, runs: Runs, ws: Windows, t: int) {
    && (forall k :: k in runs ==> k.0 in ws && ws[k.0].close <= t)
    && (forall k :: k in q && RunHeld(runs, ws, k.0) ==> q[k].status != Queued)
  }

  // ----- the plan of a run splits the queue -----

  lemma {:induction false} EligibleSplits(db: Db, h: History, round: RoundId, wallets: seq<Wallet>)
    requires IsAscending(wallets)
    ensures var e := WalletsOf(EligibleOf(db, h, round, wallets));
            IsAscending(e) && forall w :: w in e <==> w in wallets && !IsBlocked(db, h, round, w)
  {
    hide IsBlocked;
    if wallets != [] {
      var init, last := wallets[..|wallets| - 1], wallets[|wallets| - 1];
      assert wallets == init + [last];
      EligibleSplits(db, h, round, init);
      var e := WalletsOf(EligibleOf(db, h, round, init));
      InitBelowLast(wallets, init, last);
      PushAscending(e, last);
      assert WalletsOf(EligibleOf(db, h, round, wallets)) == if IsBlocked(db, h, round, last) then e else e + [last];
    }
  }

  lemma {:induction false} BlockedSplits(db: Db, h: History, round: RoundId, wallets: seq<Wallet>)
    requires IsAscending(wallets)
    ensures var b := BlockedOf(db, h, round, wallets);
            IsAscending(b) && forall w :: w in b <==> w in wallets && IsBlocked(db, h, round, w)
  {
    hide IsBlocked;
    if wallets != [] {
      var init, last := wallets[..|wallets| - 1], wallets[|wallets| - 1];
      assert wallets == init + [last];
      BlockedSplits(db, h, round, init);
      InitBelowLast(wallets, init, last);
      PushAscending(BlockedOf(db, h, round, init), last);
    }
  }

  lemma InitBelowLast(s: seq<nat>, init: seq<nat>, last: nat)
    requires s == init + [last] && IsAscending(s)
    ensures IsAscending(init) && forall x :: x in init ==> x < last
    ensures forall x :: x in s <==> x in init || x == last
  {
    assert forall i :: 0 <= i < |init| ==> init[i] == s[i];
    forall x | x in init ensures x < last {
      var i :| 0 <= i < |init| && init[i] == x;
      assert s[i] < s[|init|];
    }
  }

  lemma PushAscending(s: seq<nat>, x: nat)
    requires IsAscending(s) && forall y :: y in s ==> y < x
    ensures IsAscending(s + [x])
  {
    forall i, j | 0 <= i < j < |s + [x]| ensures (s + [x])[i] < (s + [x])[j] {
      assert s[i] in s;
    }
  }

  lemma {:induction false} DuelWalletsMeaning(duels: seq<Duel>, w: Wallet)
    ensures w in DuelWallets(duels) <==> exists k :: 0 <= k < |duels| && (duels[k].a == w || duels[k].b == w)
  {
    if duels != [] {
      var init, last := duels[..|duels| - 1], duels[|duels| - 1];
      DuelWalletsMeaning(init, w);
      assert duels == init + [last];
      if w in DuelWallets(init) {
        var k :| 0 <= k < |init| && (init[k].a == w || init[k].b == w);
        assert duels[k] == init[k];
      }
    }
  }

  /** The wallets of the pairs, then the one left over. */
  function PlacedWallets(eligible: seq<Pairs.RankedPlayer>): seq<Wallet> {
    WalletsOf(Pairs.Flatten(Pairs.PairPlayers(eligible))) + WalletsOf(Pairs.Unpaired(eligible))
  }

  lemma PlacedOnce(eligible: seq<Pairs.RankedPlayer>)
    requires Distinct(WalletsOf(eligible))
    ensures Distinct(PlacedWallets(eligible))
    ensures forall w :: w in PlacedWallets(eligible) <==> w in WalletsOf(eligible)
  {
    hide Pairs.PairPlayers, Pairs.Unpaired, Pairs.Flatten;
    var flat, over := Pairs.Flatten(Pairs.PairPlayers(eligible)), Pairs.Unpaired(eligible);
    Pairs.PairsPartition(eligible);
    assert multiset(flat + over) == multiset(eligible);
    MapPermuted(flat + over, eligible, (p: Pairs.RankedPlayer) => p.wallet);
    assert WalletsOf(flat + over) == PlacedWallets(eligible);
    assert multiset(WalletsOf(eligible)) == multiset(PlacedWallets(eligible));
    DistinctPermuted(WalletsOf(eligible), PlacedWallets(eligible));
    forall w ensures w in PlacedWallets(eligible) <==> w in WalletsOf(eligible) {
      SameElements(WalletsOf(eligible), PlacedWallets(eligible), w);
    }
  }

  lemma DuelsPlaced(eligible: seq<Pairs.RankedPlayer>)
    ensures var duels, placed := DuelsOf(Pairs.PairPlayers(eligible)), PlacedWallets(eligible);
            && 2 * |duels| <= |placed| && |placed| == 2 * |duels| + |Pairs.Unpaired(eligible)|
            && (forall k :: 0 <= k < |duels| ==> duels[k].a == placed[2 * k] && duels[k].b == placed[2 * k + 1])
            && placed[2 * |duels|..] == WalletsOf(Pairs.Unpaired(eligible))
  {
    hide Pairs.PairPlayers, Pairs.Unpaired, Pairs.Flatten;
    Pairs.FlattenAt(Pairs.PairPlayers(eligible));
  }

  ghost predicate PlanSplits(plan: MatchPlan, wallets: set<Wallet>) {
    && DuelsApart(plan.duels) && |plan.unmatched| <= 1
    && DuelWallets(plan.duels) + SetOf(plan.unmatched) + SetOf(plan.blocked) == wallets
    && DuelWallets(plan.duels) !! SetOf(plan.unmatched)
    && (DuelWallets(plan.duels) + SetOf(plan.unmatched)) !! SetOf(plan.blocked)
    && IsAscending(plan.blocked) && IsAscending(plan.unmatched)
  }

  lemma DistinctDuels(duels: seq<Duel>, placed: seq<Wallet>)
    requires 2 * |duels| <= |placed| && Distinct(placed)
    requires forall k :: 0 <= k < |duels| ==> duels[k].a == placed[2 * k] && duels[k].b == placed[2 * k + 1]
    ensures DuelsApart(duels)
  {
  }

  lemma PlacedIn(duels: seq<Duel>, placed: seq<Wallet>, over: seq<Wallet>, w: Wallet)
    requires 2 * |duels| <= |placed| && Distinct(placed) && placed[2 * |duels|..] == over
    requires forall k :: 0 <= k < |duels| ==> duels[k].a == placed[2 * k] && duels[k].b == placed[2 * k + 1]
    ensures w in placed <==> w in DuelWallets(duels) || w in over
    ensures !(w in DuelWallets(duels) && w in over)
  {
    hide DuelWallets;
    DuelWalletsMeaning(duels, w);
    if w in placed {
      var i :| 0 <= i < |placed| && placed[i] == w;
      if i < 2 * |duels| {
        assert duels[i / 2].a == placed[2 * (i / 2)] && duels[i / 2].b == placed[2 * (i / 2) + 1];
        assert i == 2 * (i / 2) || i == 2 * (i / 2) + 1;
      } else {
        assert over[i - 2 * |duels|] == w;
      }
    }
    if w in over {
      var j :| 0 <= j < |over| && over[j] == w;
      assert placed[2 * |duels| + j] == w;
    }
  }

  /** Where the plan of a run puts one wallet. */
  lemma PlanWallet(db: Db, h: History, round: RoundId, w: Wallet)
    ensures var plan := PlanOf(db, h, round);
            && (w in DuelWallets(plan.duels) || w in plan.unmatched
                <==> w in WalletsWith(db, round, Queued) && !IsBlocked(db, h, round, w))
            && !(w in DuelWallets(plan.duels) && w in plan.unmatched)
            && (w in plan.blocked <==> w in WalletsWith(db, round, Queued) && IsBlocked(db, h, round, w))
  {
    hide IsBlocked, DuelWallets, DuelsOf, Pairs.PairPlayers, Pairs.Unpaired, Distinct, IsAscending;
    var wallets := QueuedWallets(db, round);
    AscendingMeaning(WalletsWith(db, round, Queued));
    EligibleSplits(db, h, round, wallets);
    BlockedSplits(db, h, round, wallets);
    var eligible := EligibleOf(db, h, round, wallets);
    AscendingDistinct(WalletsOf(eligible));
    hide EligibleOf, BlockedOf, PlacedWallets, WalletsOf;
    PlacedOnce(eligible);
    DuelsPlaced(eligible);
    PlacedIn(PlanOf(db, h, round).duels, PlacedWallets(eligible), PlanOf(db, h, round).unmatched, w);
  }

  lemma PlanShape(db: Db, h: History, round: RoundId)
    ensures var plan := PlanOf(db, h, round);
            DuelsApart(plan.duels) && |plan.unmatched| <= 1 && IsAscending(plan.unmatched) && IsAscending(plan.blocked)
  {
    hide IsBlocked, DuelsApart, DuelsOf, Pairs.PairPlayers, Pairs.Unpaired, Distinct;
    var wallets := QueuedWallets(db, round);
    AscendingMeaning(WalletsWith(db, round, Queued));
    EligibleSplits(db, h, round, wallets);
    BlockedSplits(db, h, round, wallets);
    var eligible := EligibleOf(db, h, round, wallets);
    AscendingDistinct(WalletsOf(eligible));
    hide EligibleOf, BlockedOf, PlacedWallets;
    PlacedOnce(eligible);
    DuelsPlaced(eligible);
    DistinctDuels(PlanOf(db, h, round).duels, PlacedWallets(eligible));
    Pairs.PairsPartition(eligible);
  }

  /** The queued wallets are exactly the paired, the unmatched and the blocked ones; these are
      disjoint, nobody is paired twice and at most one wallet is unmatched. */
  lemma PlanPartition(db: Db, h: History, round: RoundId)
    ensures PlanSplits(PlanOf(db, h, round), WalletsWith(db, round, Queued))
  {
    hide IsBlocked, DuelWallets, PlanOf, WalletsWith, DuelsApart, IsAscending;
    var plan := PlanOf(db, h, round);
    PlanShape(db, h, round);
    forall w: Wallet
      ensures w in DuelWallets(plan.duels) + SetOf(plan.unmatched) + SetOf(plan.blocked)
              <==> w in WalletsWith(db, round, Queued)
      ensures !(w in DuelWallets(plan.duels) && w in SetOf(plan.unmatched))
      ensures !(w in DuelWallets(plan.duels) + SetOf(plan.unmatched) && w in SetOf(plan.blocked))
    {
      PlanWallet(db, h, round, w);
    }
  }

  // ----- the queue after a run -----

  lemma {:induction false} AdmittedAt(db: Db, h: History, round: RoundId, wallets: seq<Wallet>, k: (RoundId, Wallet))
    ensures var q, admitted := Admitted(db, h, round, wallets), k.0 == round && k.1 in wallets;
            && (k in q <==> k in db.queue || admitted)
            && (k in q ==> q[k] == if admitted then AdmittedRow(db, h, round, k.1) else db.queue[k])
  {
    hide AdmittedRow;
    if wallets != [] {
      var init, last := wallets[..|wallets| - 1], wallets[|wallets| - 1];
      AdmittedAt(db, h, round, init, k);
      assert wallets == init + [last];
    }
  }

  /** How a run leaves a queued entry. */
  function FinalStatus(plan: MatchPlan, w: Wallet): QueueStatus {
    if w in plan.unmatched then Unmatched
    else if w in DuelWallets(plan.duels) then Matched
    else Blocked
  }

  ghost predicate QueueSettled(q: Queue, q': Queue, round: RoundId, plan: MatchPlan) {
    && q'.Keys == q.Keys
    && forall k :: k in q ==>
         if k.0 == round && q[k].status == Queued then q'[k].status == FinalStatus(plan, k.1) else q'[k] == q[k]
  }

  lemma QueuedAt(db: Db, round: RoundId, k: (RoundId, Wallet))
    ensures k.0 == round ==> (k.1 in WalletsWith(db, round, Queued) <==> k in db.queue && db.queue[k].status == Queued)
    ensures k.1 in QueuedWallets(db, round) <==> k.1 in WalletsWith(db, round, Queued)
  {
    AscendingMeaning(WalletsWith(db, round, Queued));
    if k.1 in WalletsWith(db, round, Queued) && k.0 == round {
      var j :| j in db.queue && j.0 == round && db.queue[j].status == Queued && j.1 == k.1;
      assert j == k;
    }
  }

  lemma EntryAfterRun(db: Db, h: History, round: RoundId, k: (RoundId, Wallet))
    requires round in db.rounds
    ensures var q, q' := db.queue, FreshRun(db, h, round).db.queue;
            && (k in q' <==> k in q)
            && (k in q ==> if k.0 == round && q[k].status == Queued
                           then q'[k].status == FinalStatus(PlanOf(db, h, round), k.1) else q'[k] == q[k])
  {
    AdmittedAt(db, h, round, QueuedWallets(db, round), k);
    QueuedAt(db, round, k);
    PlanWallet(db, h, round, k.1);
    hide Admitted, DuelWallets, PlanOf, QueuedWallets, WalletsWith, IsBlocked, Inserted, NewViews;
  }

  /** A run changes exactly the queued entries of its round: each becomes matched, unmatched or
      blocked as planned. */
  lemma QueueAfterRun(db: Db, h: History, round: RoundId)
    requires round in db.rounds
    ensures QueueSettled(db.queue, FreshRun(db, h, round).db.queue, round, PlanOf(db, h, round))
  {
    hide FreshRun, PlanOf, FinalStatus;
    var q, q', plan := db.queue, FreshRun(db, h, round).db.queue, PlanOf(db, h, round);
    forall k: (RoundId, Wallet)
      ensures k in q' <==> k in q
      ensures k in q ==>
                if k.0 == round && q[k].status == Queued then q'[k].status == FinalStatus(plan, k.1) else q'[k] == q[k]
    {
      EntryAfterRun(db, h, round, k);
    }
  }

  // ----- one entry changes -----

  predicate Loose(status: QueueStatus) { status == Queued || status == CancelledEntry }

  predicate PairedStatus(status: QueueStatus) { status == Matched || status == BattleCreated }

  /** Queueing or cancelling an entry that is in no pairing keeps the tables consistent. */
  lemma EntryChangeKeeps(q: Queue, runs: Runs, ws: Windows, pairings: Pairings, nextRun: nat, next: nat,
                         k: (RoundId, Wallet), row: QueueRow)
    requires RankedTables(q, runs, ws, pairings, nextRun, next)
    requires Loose(row.status) && (k in q ==> !PairedStatus(q[k].status))
    ensures RankedTables(q[k := row], runs, ws, pairings, nextRun, next)
  {
    var q' := q[k := row];
    hide RunHeld, PairedIn, PairingsApart, RunKeys;
    forall i | i in pairings ensures PairingStands(q', runs, ws, next, i, pairings[i]) {
      assert PairingStands(q, runs, ws, next, i, pairings[i]);
    }
  }

  lemma QueueChangeKeeps(db: Db, k: (RoundId, Wallet), row: QueueRow)
    requires RankedInv(db) && Loose(row.status) && (k in db.queue ==> !PairedStatus(db.queue[k].status))
    ensures RankedInv(db.(queue := db.queue[k := row]))
  {
    hide RankedTables, WindowsOf;
    SameWindows(db, db.(queue := db.queue[k := row]));
    EntryChangeKeeps(db.queue, db.runs, WindowsOf(db), db.pairings, db.nextRun, db.nextPairing, k, row);
  }

  lemma JoinQueueKeeps(db: Db, w: Wallet, round: RoundId, now: int, unresolved: bool)
    requires RankedInv(db)
    ensures RankedInv(Joined(db, w, round, now, unresolved).db)
  {
    hide RankedInv, HasLeagueReservation, QueueRoundFault;
    if Joined(db, w, round, now, unresolved).result.Ok? && !StillQueued(db, w, round) {
      QueueChangeKeeps(db, (round, w), QueueRow(Queued, None));
    }
  }

  lemma LeaveQueueKeeps(db: Db, w: Wallet, round: RoundId, now: int)
    requires RankedInv(db)
    ensures RankedInv(LeftQueue(db, w, round, now).db)
  {
    hide RankedInv, LoadFault;
    if LeftQueue(db, w, round, now).result.Ok? {
      QueueChangeKeeps(db, (round, w), db.queue[(round, w)].(status := CancelledEntry));
    }
  }

  // ----- a run -----

  lemma NoPairingYet(q: Queue, runs: Runs, ws: Windows, pairings: Pairings, next: nat, round: RoundId)
    requires PairingsStand(q, runs, ws, pairings, next) && round in ws && (round, ws[round].close) !in runs
    ensures forall i :: i in pairings ==> pairings[i].round != round
  {
    hide Entry;
    forall i | i in pairings ensures pairings[i].round != round {
      assert PairingStands(q, runs, ws, next, i, pairings[i]);
    }
  }

  ghost predicate FreshQueue(q: Queue, q': Queue, round: RoundId, plan: MatchPlan) {
    QueueSettled(q, q', round, plan) && forall k :: k in q && k.0 == round ==> Loose(q[k].status)
  }

  lemma RunQuiet(q: Queue, q': Queue, runs: Runs, ws: Windows, round: RoundId, plan: MatchPlan, run: nat)
    requires QuietBeforeRun(q, runs, ws) && QueueSettled(q, q', round, plan) && round in ws
    ensures QuietBeforeRun(q', runs[(round, ws[round].close) := run], ws)
  {
    hide DuelWallets;
  }

  lemma NewPairingStands(q: Queue, q': Queue, runs: Runs, ws: Windows, round: RoundId, plan: MatchPlan, run: nat,
                         d: Duel,
                         i: nat, next: nat)
    requires QueueSettled(q, q', round, plan) && PlanSplits(plan, QueuedIn(q, round)) && round in ws
    requires d in plan.duels && runs == runs[(round, ws[round].close) := run] && i < next
    ensures PairingStands(q', runs, ws, next, i, NewPairing(run, round, d))
  {
    var k :| 0 <= k < |plan.duels| && plan.duels[k] == d;
    assert (round, ws[round].close) in runs && runs[(round, ws[round].close)] == run;
    DuelWalletsMeaning(plan.duels, d.a);
    DuelWalletsMeaning(plan.duels, d.b);
    assert d.a in QueuedIn(q, round) && d.b in QueuedIn(q, round);
    hide DuelWallets;
    QueuedInMeaning(q, round, d.a);
    QueuedInMeaning(q, round, d.b);
  }

  ghost function QueuedIn(q: Queue, round: RoundId): set<Wallet> {
    set k | k in q && k.0 == round && q[k].status == Queued :: k.1
  }

  lemma QueuedInMeaning(q: Queue, round: RoundId, w: Wallet)
    ensures w in QueuedIn(q, round) <==> Entry(q, round, w, Queued)
  {
    if w in QueuedIn(q, round) {
      var k :| k in q && k.0 == round && q[k].status == Queued && k.1 == w;
      assert k == (round, w);
    }
    if Entry(q, round, w, Queued) { assert (round, w).1 in QueuedIn(q, round); }
  }

  lemma OldPairingStands(q: Queue, q': Queue, runs: Runs, ws: Windows, round: RoundId, plan: MatchPlan, run: nat,
                         p: Pairing,
                         i: nat, next: nat, next': nat)
    requires PairingStands(q, runs, ws, next, i, p) && next <= next' && p.round != round && round in ws
    requires QueueSettled(q, q', round, plan)
    ensures PairingStands(q', runs[(round, ws[round].close) := run], ws, next', i, p)
  {
    hide FinalStatus;
  }

  lemma RunPairingsStand(q: Queue, q': Queue, runs: Runs, ws: Windows, pairings: Pairings, next: nat, round: RoundId,
                         plan: MatchPlan, run: nat)
    requires PairingsStand(q, runs, ws, pairings, next) && round in ws && (round, ws[round].close) !in runs
    requires QueueSettled(q, q', round, plan) && PlanSplits(plan, QueuedIn(q, round))
    ensures PairingsStand(q', runs[(round, ws[round].close) := run], ws,
                          Inserted(pairings, next, run, round, plan.duels),
                          next + |plan.duels|)
  {
    var pairings', runs' := Inserted(pairings, next, run, round, plan.duels), runs[(round, ws[round].close) := run];
    NoPairingYet(q, runs, ws, pairings, next, round);
    hide PairingStands, QueueSettled, PlanSplits, Inserted;
    assert forall i :: i in pairings ==> i < next by { IdsBelow(q, runs, ws, pairings, next); }
    InsertedMeaning(pairings, next, run, round, plan.duels);
    forall i | i in pairings' ensures PairingStands(q', runs', ws, next + |plan.duels|, i, pairings'[i]) {
      if i in pairings {
        OldPairingStands(q, q', runs, ws, round, plan, run, pairings[i], i, next, next + |plan.duels|);
      } else {
        NewPairingStands(q, q', runs', ws, round, plan, run, plan.duels[i - next], i, next + |plan.duels|);
      }
    }
  }

  lemma IdsBelow(q: Queue, runs: Runs, ws: Windows, pairings: Pairings, next: nat)
    requires PairingsStand(q, runs, ws, pairings, next)
    ensures forall i :: i in pairings ==> i < next
  {
    forall i | i in pairings ensures i < next { assert PairingStands(q, runs, ws, next, i, pairings[i]); }
  }

  lemma RunPairingsApart(pairings: Pairings, next: nat, run: nat, round: RoundId, duels: seq<Duel>)
    requires PairingsApart(pairings) && DuelsApart(duels)
    requires forall i :: i in pairings ==> i < next && pairings[i].round != round
    ensures PairingsApart(Inserted(pairings, next, run, round, duels))
  {
    var pairings' := Inserted(pairings, next, run, round, duels);
    InsertedMeaning(pairings, next, run, round, duels);
    hide Inserted;
    forall i, j | i in pairings' && j in pairings' && i != j ensures !PairingsShare(pairings'[i], pairings'[j]) {
      if i in pairings || j in pairings {
      } else if i < j {
        assert DuelApart(duels[i - next], duels[j - next]);
      } else {
        assert DuelApart(duels[j - next], duels[i - next]);
      }
    }
  }

  lemma RunEntriesPaired(q: Queue, q': Queue, pairings: Pairings, next: nat, round: RoundId, plan: MatchPlan, run: nat)
    requires EntriesPaired(q, pairings) && QueueSettled(q, q', round, plan)
    requires forall i :: i in pairings ==> i < next
    ensures EntriesPaired(q', Inserted(pairings, next, run, round, plan.duels))
  {
    var pairings' := Inserted(pairings, next, run, round, plan.duels);
    InsertedMeaning(pairings, next, run, round, plan.duels);
    hide Inserted;
    forall k | k in q' && (q'[k].status == Matched || q'[k].status == BattleCreated)
      ensures PairedIn(pairings', k.0, k.1)
    {
      if k.0 == round && q[k].status == Queued {
        DuelWalletsMeaning(plan.duels, k.1);
        var j :| 0 <= j < |plan.duels| && (plan.duels[j].a == k.1 || plan.duels[j].b == k.1);
        assert pairings'[next + j] == NewPairing(run, round, plan.duels[j]);
        assert pairings'[next + j].round == round && pairings'[next + j].Has(k.1);
      } else {
        assert PairedIn(pairings, k.0, k.1);
        var i :| i in pairings && pairings[i].round == k.0 && pairings[i].Has(k.1);
        assert pairings'[i] == pairings[i];
      }
    }
  }

  lemma RunKeysKept(runs: Runs, ws: Windows, nextRun: nat, round: RoundId)
    requires RunKeys(runs, ws, nextRun) && round in ws && (round, ws[round].close) !in runs
    ensures RunKeys(runs[(round, ws[round].close) := nextRun], ws, nextRun + 1)
  {
  }

  lemma RunTablesKept(q: Queue, q': Queue, runs: Runs, ws: Windows, pairings: Pairings, run: nat, next: nat,
                      round: RoundId,
                      plan: MatchPlan)
    requires RankedTables(q, runs, ws, pairings, run, next) && round in ws && (round, ws[round].close) !in runs
    requires QueueSettled(q, q', round, plan) && PlanSplits(plan, QueuedIn(q, round)) && DuelsApart(plan.duels)
    ensures RankedTables(q', runs[(round, ws[round].close) := run], ws,
                         Inserted(pairings, next, run, round, plan.duels),
                         run + 1, next + |plan.duels|)
  {
    hide QuietBeforeRun, RunKeys, PairingsStand, PairingsApart, EntriesPaired, Inserted, QueueSettled, PlanSplits,
      DuelsApart;
    NoPairingYet(q, runs, ws, pairings, next, round);
    IdsBelow(q, runs, ws, pairings, next);
    RunQuiet(q, q', runs, ws, round, plan, run);
    RunPairingsStand(q, q', runs, ws, pairings, next, round, plan, run);
    RunPairingsApart(pairings, next, run, round, plan.duels);
    RunEntriesPaired(q, q', pairings, next, round, plan, run);
    RunKeysKept(runs, ws, run, round);
  }

  lemma FreshRunKeeps(db: Db, h: History, round: RoundId)
    requires RankedInv(db) && round in db.rounds && (round, db.rounds[round].window.close) !in db.runs
    ensures RankedInv(FreshRun(db, h, round).db)
  {
    var plan, ws := PlanOf(db, h, round), WindowsOf(db);
    var d := FreshRun(db, h, round).db;
    assert ws[round].close == db.rounds[round].window.close;
    hide PlanOf, RankedTables, Inserted, QueueSettled, PlanSplits, DuelsApart, Admitted, Marked, DuelWallets, NewViews,
      WindowsOf;
    SameWindows(db, d);
    QueueAfterRun(db, h, round);
    PlanPartition(db, h, round);
    assert WalletsWith(db, round, Queued) == QueuedIn(db.queue, round);
    assert DuelsApart(plan.duels) by { PlanShape(db, h, round); }
    RunTablesKept(db.queue, d.queue, db.runs, ws, db.pairings, db.nextRun, db.nextPairing, round, plan);
  }

  lemma MatchmakerKeeps(db: Db, h: History, round: RoundId, now: int)
    requires RankedInv(db)
    ensures RankedInv(MatchmakerRun(db, h, round, now).db)
  {
    hide RankedInv, FreshRun, StoredRun;
    if MatchmakerFault(db, round, now).None? && (round, db.rounds[round].window.close) !in db.runs {
      FreshRunKeeps(db, h, round);
    }
  }

  // ----- confirmation -----

  function Materialized(p: Pairing, id: nat): Pairing {
    p.(battle := Some(BattleAddress(p.round, id)), status := Created)
  }

  function Announced(q: Queue, p: Pairing): Queue { Marked(q, p.round, {p.a, p.b}, BattleCreated) }

  lemma ConfirmedStand(q: Queue, runs: Runs, ws: Windows, pairings: Pairings, next: nat, id: nat)
    requires PairingsStand(q, runs, ws, pairings, next) && PairingsApart(pairings)
    requires id in pairings && pairings[id].status == PendingCoordinator
    ensures PairingsStand(Announced(q, pairings[id]), runs, ws, pairings[id := Materialized(pairings[id], id)], next)
  {
    var p := pairings[id];
    var pairings' := pairings[id := Materialized(p, id)];
    hide RunHeld;
    forall i | i in pairings' ensures PairingStands(Announced(q, p), runs, ws, next, i, pairings'[i]) {
      assert PairingStands(q, runs, ws, next, i, pairings[i]);
      assert i != id ==> !PairingsShare(p, pairings[i]) && !PairingsShare(pairings[i], p);
    }
  }

  lemma ConfirmedApart(pairings: Pairings, id: nat)
    requires PairingsApart(pairings) && id in pairings
    ensures PairingsApart(pairings[id := Materialized(pairings[id], id)])
  {
    var pairings' := pairings[id := Materialized(pairings[id], id)];
    forall i, j | i in pairings' && j in pairings' && i != j ensures !PairingsShare(pairings'[i], pairings'[j]) {
      assert !PairingsShare(pairings[i], pairings[j]);
    }
  }

  lemma ConfirmedPaired(q: Queue, pairings: Pairings, id: nat)
    requires EntriesPaired(q, pairings) && id in pairings
    ensures EntriesPaired(Announced(q, pairings[id]), pairings[id := Materialized(pairings[id], id)])
  {
    var p := pairings[id];
    var q', pairings' := Announced(q, p), pairings[id := Materialized(p, id)];
    forall k | k in q' && (q'[k].status == Matched || q'[k].status == BattleCreated)
      ensures PairedIn(pairings', k.0, k.1)
    {
      if k.0 == p.round && p.Has(k.1) {
        assert pairings'[id].round == k.0 && pairings'[id].Has(k.1);
      } else {
        assert PairedIn(pairings, k.0, k.1);
        var i :| i in pairings && pairings[i].round == k.0 && pairings[i].Has(k.1);
        assert pairings'[i].round == k.0 && pairings'[i].Has(k.1);
      }
    }
  }

  lemma ConfirmTablesKept(q: Queue, runs: Runs, ws: Windows, pairings: Pairings, nextRun: nat, next: nat, id: nat)
    requires RankedTables(q, runs, ws, pairings, nextRun, next) && id in pairings
             && pairings[id].status == PendingCoordinator
    ensures RankedTables(Announced(q, pairings[id]), runs, ws, pairings[id := Materialized(pairings[id], id)], nextRun,
                         next)
  {
    assert PairingStands(q, runs, ws, next, id, pairings[id]);
    hide RunKeys, PairingsStand, PairingsApart, EntriesPaired;
    ConfirmedStand(q, runs, ws, pairings, next, id);
    ConfirmedApart(pairings, id);
    ConfirmedPaired(q, pairings, id);
  }

  lemma ConfirmedDbKeeps(db: Db, d: Db, id: nat)
    requires RankedInv(db) && id in db.pairings && db.pairings[id].status == PendingCoordinator
    requires d.rounds == db.rounds && d.runs == db.runs && d.nextRun == db.nextRun && d.nextPairing == db.nextPairing
    requires d.queue == Announced(db.queue, db.pairings[id])
    requires d.pairings == db.pairings[id := Materialized(db.pairings[id], id)]
    ensures RankedInv(d)
  {
    hide RankedTables, WindowsOf;
    SameWindows(db, d);
    ConfirmTablesKept(db.queue, db.runs, WindowsOf(db), db.pairings, db.nextRun, db.nextPairing, id);
  }

  lemma ConfirmKeeps(db: Db, id: nat, address: BattleAddress)
    requires RankedInv(db)
    ensures RankedInv(Confirmed(db, id, address).db)
  {
    hide RankedInv, Marked;
    var d := Confirmed(db, id, address).db;
    if Confirmed(db, id, address).result.Ok? && db.pairings[id].status == PendingCoordinator {
      ConfirmedDbKeeps(db, d, id);
    }
  }
}
