/** Which instructions are planned and in what order, and what each does on chain, said from the snapshot
    and the accounts alone. */
module SettlementMeaning {
  import opened Wrappers
  import opened Sequences
  import opened Settlement
  import opened SettlementOrder
  import opened SettlementChain
  import opened PriceReturn

  // ----- refused snapshots -----

  /** What is wrong with a snapshot, the first of these; `battles` is the first fault of its Battles. */
  lemma FaultMeans(s: Snapshot, battles: Option<SettlementError>)
    requires battles == BattlesFault(s.battles, Ids(s.assets))
    ensures Fault(s) ==
            if s.source == OtherSource then Some(UnsupportedSource)
            else if s.source == Pyth && !s.pythVerified then Some(PythGateNotPassed)
            else if exists i, j :: 0 <= i < j < |s.assets| && s.assets[i].id == s.assets[j].id then Some(DuplicateAsset)
            else if battles.Some? then battles
            else if s.resolved > s.rated || s.rated != |s.battles| then Some(CountMismatch)
            else if s.state in {FinalizedRound, VoidedRound} && s.resolved < s.rated then Some(InvalidRoundState)
            else None
  {
    assert Distinct(Ids(s.assets)) <==> !(exists i, j :: 0 <= i < j < |s.assets| && s.assets[i].id == s.assets[j].id);
  }

  /** A Battle is faulty after faultless others if its id is among theirs, or else unless it selects six
      different assets of the round. */
  lemma {:induction false} BattlesMean(battles: seq<Battle>, ids: seq<nat>)
    ensures BattlesFault(battles, ids).None? <==> forall k :: 0 <= k < |battles| ==> ErrorAt(battles, ids, k).None?
    ensures BattlesFault(battles, ids).Some? ==>
              exists k :: 0 <= k < |battles| && BattlesFault(battles, ids) == ErrorAt(battles, ids, k)
                && forall j :: 0 <= j < k ==> ErrorAt(battles, ids, j).None?
  {
    if battles != [] {
      var n := |battles| - 1;
      BattlesMean(battles[..n], ids);
      LastBattle(battles, ids);
      forall k | 0 <= k < n ensures ErrorAt(battles[..n], ids, k) == ErrorAt(battles, ids, k) {
      }
      hide ErrorAt;
      if BattlesFault(battles[..n], ids).Some? {
        var k :| 0 <= k < n && BattlesFault(battles[..n], ids) == ErrorAt(battles[..n], ids, k)
          && forall j :: 0 <= j < k ==> ErrorAt(battles[..n], ids, j).None?;
        assert BattlesFault(battles, ids) == ErrorAt(battles, ids, k);
      } else {
        assert BattlesFault(battles, ids) == ErrorAt(battles, ids, n);
      }
    }
  }

  function ErrorAt(battles: seq<Battle>, ids: seq<nat>, k: nat): Option<SettlementError>
    requires k < |battles|
  {
    var chosen := battles[k].selected;
    if exists j | 0 <= j < k :: battles[j].id == battles[k].id then Some(DuplicateBattle)
    else if |chosen| == 6 && (forall i, j | 0 <= i < j < 6 :: chosen[i] != chosen[j])
            && (forall i | 0 <= i < 6 :: chosen[i] in ids) then None
    else Some(InvalidBattleAsset)
  }

  lemma LastBattle(battles: seq<Battle>, ids: seq<nat>)
    requires battles != []
    ensures var n := |battles| - 1;
            BattlesFault(battles, ids) ==
            if BattlesFault(battles[..n], ids).Some? then BattlesFault(battles[..n], ids) else ErrorAt(battles, ids, n)
  {
    var n := |battles| - 1;
    var earlier := battles[..n];
    assert battles[n].id in BattleIds(earlier) <==> exists j | 0 <= j < n :: battles[j].id == battles[n].id by {
      if j :| 0 <= j < n && battles[j].id == battles[n].id { assert BattleIds(earlier)[j] == battles[n].id; }
    }
    SixValid(battles[n].selected, ids);
    hide SelectionValid;
  }

  lemma SixValid(chosen: seq<nat>, ids: seq<nat>)
    ensures SelectionValid(chosen, ids) <==>
            |chosen| == 6 && (forall i, j | 0 <= i < j < 6 :: chosen[i] != chosen[j])
            && (forall i | 0 <= i < 6 :: chosen[i] in ids)
  {
  }

  // ----- planned instructions -----

  predicate Due(s: Snapshot, a: Asset, phase: Phase) {
    match phase
    case Start => a.start == Pending && a.startDeadline < s.now
    case End => a.end == Pending && a.endDeadline < s.now
  }

  predicate Quorum(a: Asset, phase: Phase) { (phase == Start && a.startQuorum) || (phase == End && a.endQuorum) }

  ghost predicate Priced(s: Snapshot, b: Battle) {
    forall i :: i in b.selected ==>
      exists a :: a in s.assets && a.id == i && a.start == Finalized && a.end == Finalized
  }

  predicate BothRevealed(b: Battle) { b.revealedA && b.revealedB }

  predicate Voidable(b: Battle) { b.selectedUnavailable && (b.revealedA || b.revealedB) }

  /** A due phase is finalized with a quorum and marked without one. */
  predicate ForAsset(s: Snapshot, a: Asset, action: Action) {
    match action
    case FinalizePhase(source, i, phase) => source == s.source && i == a.id && Due(s, a, phase) && Quorum(a, phase)
    case MarkUnavailable(source, i, phase) => source == s.source && i == a.id && Due(s, a, phase) && !Quorum(a, phase)
    case _ => false
  }

  /** A pending Battle is voided if a price it needs is unavailable and a side is revealed; otherwise
      forfeited past its deadline if a side is not; otherwise finalized once both are scored; and
      otherwise each unscored side is scored if all its six are priced. */
  ghost predicate ForBattle(s: Snapshot, b: Battle, action: Action) {
    b.pending &&
    match action
    case VoidPriceUnavailable(j) => j == b.id && Voidable(b)
    case Forfeit(j) => j == b.id && !Voidable(b) && !BothRevealed(b) && b.revealDeadline < s.now
    case FinalizeBattle(j) => j == b.id && !Voidable(b) && BothRevealed(b) && b.scoredA && b.scoredB
    case SettleSide(j, side) =>
      j == b.id && !Voidable(b) && BothRevealed(b) && Priced(s, b)
      && ((side == 0 && !b.scoredA) || (side == 1 && !b.scoredB))
    case _ => false
  }

  /** What there is to do while a round is being settled. */
  ghost predicate IsWork(s: Snapshot, action: Action) {
    (exists a :: a in s.assets && ForAsset(s, a, action)) || (exists b :: b in s.battles && ForBattle(s, b, action))
  }

  ghost predicate NoWork(s: Snapshot) { forall action :: !IsWork(s, action) }

  lemma {:induction false} AssetWork(s: Snapshot, assets: seq<Asset>, action: Action)
    ensures action in AllAssetActions(s, assets) <==> exists a :: a in assets && action in AssetActions(s, a)
  {
    hide AssetActions;
    if assets != [] {
      var init, last := assets[..|assets| - 1], assets[|assets| - 1];
      assert assets == init + [last];
      AssetWork(s, init, action);
    }
  }

  lemma {:induction false} BattleWork(s: Snapshot, battles: seq<Battle>, action: Action)
    ensures action in AllBattleActions(s, battles) <==> exists b :: b in battles && action in BattleActions(s, b)
  {
    hide BattleActions;
    if battles != [] {
      var init, last := battles[..|battles| - 1], battles[|battles| - 1];
      assert battles == init + [last];
      BattleWork(s, init, action);
    }
  }

  lemma AssetActionsAre(s: Snapshot, a: Asset, action: Action)
    requires s.source != OtherSource
    ensures action in AssetActions(s, a) <==> ForAsset(s, a, action)
  {
  }

  lemma PricedIs(s: Snapshot, b: Battle)
    ensures AllAvailable(s.assets, b.selected) <==> Priced(s, b)
  {
    forall i: nat ensures AssetAvailable(s.assets, i) <==>
        exists a :: a in s.assets && a.id == i && a.start == Finalized && a.end == Finalized
    {
    }
    hide AssetAvailable;
  }

  lemma BattleActionsAre(s: Snapshot, b: Battle, action: Action)
    ensures action in BattleActions(s, b) <==> ForBattle(s, b, action)
  {
    PricedIs(s, b);
    hide AllAvailable, Priced;
  }

  lemma WorkIs(s: Snapshot, action: Action)
    requires s.source != OtherSource
    ensures action in WorkActions(s) <==> IsWork(s, action)
  {
    hide AllAssetActions, AllBattleActions, AssetActions, BattleActions, ForAsset, ForBattle;
    var assets, battles := SortBy(s.assets, AssetOrder()), SortBy(s.battles, BattleOrder());
    SortPermutes(s.assets, AssetOrder());
    SortPermutes(s.battles, BattleOrder());
    forall a ensures a in assets <==> a in s.assets { SameElements(assets, s.assets, a); }
    forall b ensures b in battles <==> b in s.battles { SameElements(battles, s.battles, b); }
    AssetWork(s, assets, action);
    BattleWork(s, battles, action);
    forall a ensures action in AssetActions(s, a) <==> ForAsset(s, a, action) { AssetActionsAre(s, a, action); }
    forall b ensures action in BattleActions(s, b) <==> ForBattle(s, b, action) { BattleActionsAre(s, b, action); }
  }

  /** An accepted snapshot of an ended round advances it; of a round being settled it plans exactly the work
      there is, or closes the round when there is none, every phase is resolved and all Battles are; of a
      closed round nothing. */
  lemma PlannedExactly(s: Snapshot, action: Action)
    requires Fault(s).None?
    ensures Plan(s).Ok?
    ensures action in Plan(s).value <==>
            || (s.state == Ended && action == AdvanceRound)
            || (s.state == Settling && IsWork(s, action))
            || (s.state == Settling && action == FinalizeRound(s.source) && NoWork(s) && s.resolved == s.rated
                && forall a :: a in s.assets ==> a.start != Pending && a.end != Pending)
  {
    forall x ensures x in WorkActions(s) <==> IsWork(s, x) { WorkIs(s, x); }
    hide WorkActions, IsWork, Fault;
    assert s.source != OtherSource by { FaultMeans(s, BattlesFault(s.battles, Ids(s.assets))); }
    if WorkActions(s) != [] { assert WorkActions(s)[0] in WorkActions(s); }
  }

  // ----- their order -----

  function Rank(action: Action): (int, int, int) {
    match action
    case FinalizePhase(_, i, phase) => (0, i, if phase == Start then 0 else 1)
    case MarkUnavailable(_, i, phase) => (0, i, if phase == Start then 0 else 1)
    case SettleSide(j, side) => (1, j, side)
    case Forfeit(j) => (1, j, 0)
    case VoidPriceUnavailable(j) => (1, j, 0)
    case FinalizeBattle(j) => (1, j, 0)
    case _ => (2, 0, 0)
  }

  predicate Earlier(x: Action, y: Action) {
    var a, b := Rank(x), Rank(y);
    a.0 < b.0 || (a.0 == b.0 && (a.1 < b.1 || (a.1 == b.1 && a.2 < b.2)))
  }

  ghost predicate Ascends(actions: seq<Action>) {
    forall i, j :: 0 <= i < j < |actions| ==> Earlier(actions[i], actions[j])
  }

  lemma AscendsAppend(x: seq<Action>, y: seq<Action>)
    requires Ascends(x) && Ascends(y) && forall a, b :: a in x && b in y ==> Earlier(a, b)
    ensures Ascends(x + y)
  {
    hide Earlier;
    forall i, j | 0 <= i < j < |x + y| ensures Earlier((x + y)[i], (x + y)[j]) {
      if i < |x| <= j { assert x[i] in x && y[j - |x|] in y; }
    }
  }

  lemma {:induction false} AssetsAscend(s: Snapshot, assets: seq<Asset>)
    requires forall i, j :: 0 <= i < j < |assets| ==> assets[i].id < assets[j].id
    ensures Ascends(AllAssetActions(s, assets))
    ensures forall x :: x in AllAssetActions(s, assets) ==>
              Rank(x).0 == 0 && exists a :: a in assets && Rank(x).1 == a.id
  {
    if assets != [] {
      var init, last := assets[..|assets| - 1], assets[|assets| - 1];
      assert assets == init + [last];
      AssetsAscend(s, init);
      OneAssetAscends(s, last);
      hide AssetActions, Rank, Ascends;
      forall a, b | a in AllAssetActions(s, init) && b in AssetActions(s, last) ensures Earlier(a, b) {
        var c :| c in init && Rank(a).1 == c.id;
        var k :| 0 <= k < |init| && init[k] == c;
        assert assets[k] == c;
      }
      AscendsAppend(AllAssetActions(s, init), AssetActions(s, last));
    }
  }

  lemma OneAssetAscends(s: Snapshot, a: Asset)
    ensures Ascends(AssetActions(s, a))
    ensures forall x :: x in AssetActions(s, a) ==> Rank(x).0 == 0 && Rank(x).1 == a.id
  {
  }

  lemma {:induction false} BattlesAscend(s: Snapshot, battles: seq<Battle>)
    requires forall i, j :: 0 <= i < j < |battles| ==> battles[i].id < battles[j].id
    ensures Ascends(AllBattleActions(s, battles))
    ensures forall x :: x in AllBattleActions(s, battles) ==>
              Rank(x).0 == 1 && exists b :: b in battles && Rank(x).1 == b.id
  {
    if battles != [] {
      var init, last := battles[..|battles| - 1], battles[|battles| - 1];
      assert battles == init + [last];
      BattlesAscend(s, init);
      OneBattleAscends(s, last);
      hide BattleActions, Rank, Ascends;
      forall a, b | a in AllBattleActions(s, init) && b in BattleActions(s, last) ensures Earlier(a, b) {
        var c :| c in init && Rank(a).1 == c.id;
        var k :| 0 <= k < |init| && init[k] == c;
        assert battles[k] == c;
      }
      AscendsAppend(AllBattleActions(s, init), BattleActions(s, last));
    }
  }

  lemma OneBattleAscends(s: Snapshot, b: Battle)
    ensures Ascends(BattleActions(s, b))
    ensures forall x :: x in BattleActions(s, b) ==> Rank(x).0 == 1 && Rank(x).1 == b.id
  {
    hide AllAvailable;
  }

  /** Asset instructions come before Battle instructions, each kind by ascending id, a start before its end
      and side 0 before side 1; so nothing is planned twice. */
  lemma PlanAscends(s: Snapshot)
    requires Fault(s).None?
    ensures Plan(s).Ok? && Ascends(Plan(s).value)
  {
    var assets, battles := SortBy(s.assets, AssetOrder()), SortBy(s.battles, BattleOrder());
    BattlesFaultMeaning(s.battles, Ids(s.assets));
    AssetsSorted(s.assets);
    BattlesSorted(s.battles);
    hide AllAssetActions, AllBattleActions, Rank, Ascends, BattlesFault, SelectionsValid, SortBy;
    StrictIds(assets, battles);
    AssetsAscend(s, assets);
    BattlesAscend(s, battles);
    AscendsAppend(AllAssetActions(s, assets), AllBattleActions(s, battles));
    OneAscends(AdvanceRound);
    OneAscends(FinalizeRound(s.source));
  }

  lemma StrictIds(assets: seq<Asset>, battles: seq<Battle>)
    requires StrictlySorted(assets, (a: Asset, b: Asset) => a.id < b.id)
    requires StrictlySorted(battles, (a: Battle, b: Battle) => a.id < b.id)
    ensures forall i, j :: 0 <= i < j < |assets| ==> assets[i].id < assets[j].id
    ensures forall i, j :: 0 <= i < j < |battles| ==> battles[i].id < battles[j].id
  {
  }

  lemma OneAscends(action: Action)
    ensures Ascends([action]) && Ascends([])
  {
  }

  // ----- on chain -----

  /** What the program does with an asset: under Jupiter an unresolved phase past its deadline is finalized with
      a quorum and marked without one, under Pyth whatever is not final is finalized with evidence and
      marked past its deadline; an end is finalized only after its start and if the return fits. */
  lemma AssetMeans(source: SourceKind, now: int, a: AssetState, action: Action)
    ensures var r := AssetAfter(source, now, a, action);
            && (action.FinalizePhase? && action.phase == Start ==>
                  r == if action.source == source && a.startQuorum
                          && ((source == Jupiter && a.start == Pending && now > a.startDeadline)
                              || (source == Pyth && a.start != Finalized))
                       then a.(start := Finalized) else a)
            && (action.FinalizePhase? && action.phase == End ==>
                  r == if action.source == source && a.endQuorum && a.start == Finalized
                          && ReturnQ9(a.startPrice, a.endPrice).Some?
                          && ((source == Jupiter && a.end == Pending && now > a.endDeadline)
                              || (source == Pyth && a.end != Finalized))
                       then a.(end := Finalized) else a)
            && (action.MarkUnavailable? && action.phase == Start ==>
                  r == if action.source == source && now > a.startDeadline
                          && ((source == Jupiter && a.start == Pending && !a.startQuorum)
                              || (source == Pyth && a.start != Finalized))
                       then a.(start := Unavailable) else a)
            && (action.MarkUnavailable? && action.phase == End ==>
                  r == if action.source == source && now > a.endDeadline
                          && ((source == Jupiter && a.end == Pending && !a.endQuorum)
                              || (source == Pyth && a.end != Finalized))
                       then a.(end := Unavailable) else a)
            && (!action.FinalizePhase? && !action.MarkUnavailable? ==> r == a)
  {
    hide ReturnQ9;
  }

  ghost predicate Complete(assets: map<nat, AssetState>, lineup: seq<nat>) {
    forall i :: i in lineup ==> i in assets && assets[i].start == Finalized && assets[i].end == Finalized
  }

  ghost predicate Lost(assets: map<nat, AssetState>, lineup: seq<nat>) {
    exists i :: i in lineup && i in assets && (assets[i].start == Unavailable || assets[i].end == Unavailable)
  }

  /** And with a pending Battle: past the deadline whoever has not revealed forfeits, both if neither has; a
      revealed side that lost a price voids it; a revealed unscored side is scored when its own six are
      final; and with both scored it is played. */
  lemma BattleMeans(assets: map<nat, AssetState>, now: int, b: BattleState, action: Action)
    ensures var r := BattleAfter(assets, now, b, action);
            && (b.result != PendingResult ==> r == b)
            && (b.result == PendingResult ==>
                  && (action.Forfeit? ==>
                        r == if now <= b.revealDeadline || (b.revealedA && b.revealedB) then b
                             else if b.revealedA then b.(result := ForfeitB)
                             else if b.revealedB then b.(result := ForfeitA)
                             else b.(result := BothForfeit))
                  && (action.VoidPriceUnavailable? ==>
                        r == if (b.revealedA && Lost(assets, b.lineupA)) || (b.revealedB && Lost(assets, b.lineupB))
                             then b.(result := VoidedResult) else b)
                  && (action.SettleSide? && action.side == 0 ==>
                        r == if b.revealedA && !b.scoredA
                          && Complete(assets, b.lineupA) then b.(scoredA := true) else b)
                  && (action.SettleSide? && action.side == 1 ==>
                        r == if b.revealedB && !b.scoredB
                          && Complete(assets, b.lineupB) then b.(scoredB := true) else b)
                  && (action.FinalizeBattle? ==> r == if b.scoredA && b.scoredB then b.(result := Played) else b))
  {
    ChosenLost(assets, b);
    CompleteIs(assets, b.lineupA);
    CompleteIs(assets, b.lineupB);
    hide AllFinal, AnyBroken, Complete, Lost, Chosen;
  }

  lemma CompleteIs(assets: map<nat, AssetState>, lineup: seq<nat>)
    ensures AllFinal(assets, lineup) <==> Complete(assets, lineup)
  {
  }

  lemma ChosenLost(assets: map<nat, AssetState>, b: BattleState)
    ensures (b.revealedA || b.revealedB) && AnyBroken(assets, Chosen(b))
            <==> (b.revealedA && Lost(assets, b.lineupA)) || (b.revealedB && Lost(assets, b.lineupB))
  {
    if AnyBroken(assets, Chosen(b)) {
      var i :| i in Chosen(b) && Broken(assets, i);
      assert (b.revealedA && i in b.lineupA) || (b.revealedB && i in b.lineupB);
    }
    if b.revealedA && Lost(assets, b.lineupA) {
      var i :| i in b.lineupA && i in assets && (assets[i].start == Unavailable || assets[i].end == Unavailable);
      assert i in Chosen(b) && Broken(assets, i);
    }
    if b.revealedB && Lost(assets, b.lineupB) {
      var i :| i in b.lineupB && i in assets && (assets[i].start == Unavailable || assets[i].end == Unavailable);
      assert i in Chosen(b) && Broken(assets, i);
    }
  }

  /** And with the round: it settles once it has ended, and closes when every phase and Battle is resolved,
      voided if a phase is unavailable. An instruction changes only its own asset or Battle. */
  lemma ApplyMeans(c: Chain, action: Action)
    ensures var d := Apply(c, action);
            && d.source == c.source && d.now == c.now
            && d.assets.Keys == c.assets.Keys && d.battles.Keys == c.battles.Keys
            && (forall i :: i in c.assets ==>
                  d.assets[i] == if (action.FinalizePhase? || action.MarkUnavailable?) && action.asset == i
                                 then AssetAfter(c.source, c.now, c.assets[i], action) else c.assets[i])
            && (forall j :: j in c.battles ==>
                  d.battles[j] == if (action.Forfeit? || action.VoidPriceUnavailable? || action.SettleSide?
                                      || action.FinalizeBattle?) && action.battle == j
                                  then BattleAfter(c.assets, c.now, c.battles[j], action) else c.battles[j])
    ensures var closes := c.state == Settling && action == FinalizeRound(c.source)
                          && (forall j :: j in c.battles ==> c.battles[j].result != PendingResult)
                          && (forall i :: i in c.assets ==> c.assets[i].start != Pending && c.assets[i].end != Pending);
            var broken := exists i ::
              i in c.assets && (c.assets[i].start == Unavailable || c.assets[i].end == Unavailable);
            Apply(c, action).state ==
              if c.state == Ended && action == AdvanceRound then Settling
              else if closes then if broken then VoidedRound else FinalizedRound
              else c.state
  {
    BrokenIs(c.assets);
    hide AssetAfter, BattleAfter, SomeBroken;
  }

  lemma BrokenIs(assets: map<nat, AssetState>)
    ensures SomeBroken(assets) <==>
            exists i :: i in assets && (assets[i].start == Unavailable || assets[i].end == Unavailable)
  {
    if i :| i in assets && (assets[i].start == Unavailable || assets[i].end == Unavailable) {
      assert Broken(assets, i);
    }
  }
}
