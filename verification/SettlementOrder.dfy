/** The plan is a function of the sets of assets and Battles, whatever order the snapshot lists
    them in, and acts only on what is still open. */
module SettlementOrder {
  import opened Wrappers
  import opened Sequences
  import opened Settlement

  ghost predicate SameUpToOrder(s: Snapshot, t: Snapshot) {
    && t == s.(assets := t.assets, battles := t.battles)
    && multiset(s.assets) == multiset(t.assets) && multiset(s.battles) == multiset(t.battles)
  }

  // ----- the same snapshots are accepted -----

  ghost predicate SelectionsValid(battles: seq<Battle>, ids: seq<nat>) {
    forall b :: b in battles ==> SelectionValid(b.selected, ids)
  }

  lemma {:induction false} BattlesFaultMeaning(battles: seq<Battle>, ids: seq<nat>)
    ensures BattlesFault(battles, ids).None? <==> Distinct(BattleIds(battles)) && SelectionsValid(battles, ids)
  {
    hide SelectionValid;
    if battles != [] {
      var earlier, b := battles[..|battles| - 1], battles[|battles| - 1];
      BattlesFaultMeaning(earlier, ids);
      assert battles == earlier + [b];
      assert BattleIds(battles) == BattleIds(earlier) + [b.id];
      DistinctPush(BattleIds(earlier), b.id);
    }
  }

  lemma DistinctPush<T>(s: seq<T>, x: T)
    ensures Distinct(s + [x]) <==> Distinct(s) && x !in s
  {
    var t := s + [x];
    if Distinct(t) {
      forall i, j | 0 <= i < j < |s| ensures s[i] != s[j] { assert t[i] != t[j]; }
      forall i | 0 <= i < |s| ensures s[i] != x { assert t[i] != t[|s|]; }
    }
  }

  lemma SelectionsPermuted(battles: seq<Battle>, battles': seq<Battle>, ids: seq<nat>, ids': seq<nat>)
    requires multiset(battles) == multiset(battles') && multiset(ids) == multiset(ids') && SelectionsValid(battles, ids)
    ensures SelectionsValid(battles', ids')
  {
    forall b | b in battles' ensures SelectionValid(b.selected, ids') {
      SameElements(battles, battles', b);
      forall i | i in b.selected ensures i in ids' { SameElements(ids, ids', i); }
    }
  }

  lemma FaultPermuted(s: Snapshot, t: Snapshot)
    requires SameUpToOrder(s, t) && Fault(s).None?
    ensures Fault(t).None?
  {
    var ids, ids' := Ids(s.assets), Ids(t.assets);
    MapPermuted(s.assets, t.assets, (a: Asset) => a.id);
    MapPermuted(s.battles, t.battles, (b: Battle) => b.id);
    SameLength(s.battles, t.battles);
    hide SelectionValid, BattlesFault, Distinct, SelectionsValid;
    DistinctPermuted(ids, ids');
    BattlesFaultMeaning(s.battles, ids);
    BattlesFaultMeaning(t.battles, ids');
    DistinctPermuted(BattleIds(s.battles), BattleIds(t.battles));
    SelectionsPermuted(s.battles, t.battles, ids, ids');
  }

  // ----- and planned alike -----

  lemma AssetsSortAlike(s: seq<Asset>, t: seq<Asset>)
    requires multiset(s) == multiset(t) && Distinct(Ids(s))
    ensures SortBy(s, AssetOrder()) == SortBy(t, AssetOrder())
  {
    var lt := (a: Asset, b: Asset) => a.id < b.id;
    MapPermuted(s, t, (a: Asset) => a.id);
    DistinctPermuted(Ids(s), Ids(t));
    AssetsSorted(s);
    AssetsSorted(t);
    SortPermutes(s, AssetOrder());
    SortPermutes(t, AssetOrder());
    StrictSortUnique(SortBy(s, AssetOrder()), SortBy(t, AssetOrder()), lt);
  }

  lemma AssetsSorted(s: seq<Asset>)
    requires Distinct(Ids(s))
    ensures StrictlySorted(SortBy(s, AssetOrder()), (a: Asset, b: Asset) => a.id < b.id)
  {
    var r := SortBy(s, AssetOrder());
    SortSorts(s, AssetOrder());
    SortPermutes(s, AssetOrder());
    MapPermuted(s, r, (a: Asset) => a.id);
    DistinctPermuted(Ids(s), Ids(r));
    forall i, j | 0 <= i < j < |r| ensures r[i].id < r[j].id {
      assert AssetOrder()(r[i], r[j]) && Ids(r)[i] != Ids(r)[j];
    }
  }

  lemma BattlesSortAlike(s: seq<Battle>, t: seq<Battle>)
    requires multiset(s) == multiset(t) && Distinct(BattleIds(s))
    ensures SortBy(s, BattleOrder()) == SortBy(t, BattleOrder())
  {
    var lt := (a: Battle, b: Battle) => a.id < b.id;
    MapPermuted(s, t, (b: Battle) => b.id);
    DistinctPermuted(BattleIds(s), BattleIds(t));
    BattlesSorted(s);
    BattlesSorted(t);
    SortPermutes(s, BattleOrder());
    SortPermutes(t, BattleOrder());
    StrictSortUnique(SortBy(s, BattleOrder()), SortBy(t, BattleOrder()), lt);
  }

  lemma BattlesSorted(s: seq<Battle>)
    requires Distinct(BattleIds(s))
    ensures StrictlySorted(SortBy(s, BattleOrder()), (a: Battle, b: Battle) => a.id < b.id)
  {
    var r := SortBy(s, BattleOrder());
    SortSorts(s, BattleOrder());
    SortPermutes(s, BattleOrder());
    MapPermuted(s, r, (b: Battle) => b.id);
    DistinctPermuted(BattleIds(s), BattleIds(r));
    forall i, j | 0 <= i < j < |r| ensures r[i].id < r[j].id {
      assert BattleOrder()(r[i], r[j]) && BattleIds(r)[i] != BattleIds(r)[j];
    }
  }

  lemma AvailablePermuted(s: seq<Asset>, t: seq<Asset>, id: nat)
    requires multiset(s) == multiset(t)
    ensures AssetAvailable(s, id) <==> AssetAvailable(t, id)
  {
    forall a ensures a in s <==> a in t { SameElements(s, t, a); }
  }

  lemma {:induction false} AssetActionsAlike(s: Snapshot, t: Snapshot, assets: seq<Asset>)
    requires SameUpToOrder(s, t)
    ensures AllAssetActions(s, assets) == AllAssetActions(t, assets)
  {
    if assets != [] { AssetActionsAlike(s, t, assets[..|assets| - 1]); }
  }

  lemma {:induction false} BattleActionsAlike(s: Snapshot, t: Snapshot, battles: seq<Battle>)
    requires SameUpToOrder(s, t)
    ensures AllBattleActions(s, battles) == AllBattleActions(t, battles)
  {
    hide AssetAvailable;
    forall id: nat ensures AssetAvailable(s.assets, id) <==> AssetAvailable(t.assets, id) {
      AvailablePermuted(s.assets, t.assets, id);
    }
    if battles != [] { BattleActionsAlike(s, t, battles[..|battles| - 1]); }
  }

  lemma ResolvedPermuted(s: seq<Asset>, t: seq<Asset>)
    requires multiset(s) == multiset(t)
    ensures AllResolved(s) <==> AllResolved(t)
  {
    forall a ensures a in s <==> a in t { SameElements(s, t, a); }
  }

  /** Reordering a snapshot's assets and Battles changes neither whether it is accepted nor the
      plan made from it. */
  lemma PlanPermuted(s: Snapshot, t: Snapshot)
    requires SameUpToOrder(s, t)
    ensures Plan(s).Ok? <==> Plan(t).Ok?
    ensures Plan(s).Ok? ==> Plan(s) == Plan(t)
  {
    assert SameUpToOrder(t, s);
    hide SameUpToOrder, Fault, AllAssetActions, AllBattleActions, AllResolved, Distinct;
    if Fault(s).None? { FaultPermuted(s, t); }
    if Fault(t).None? { FaultPermuted(t, s); }
    if Fault(s).None? { WorkPermuted(s, t); }
  }

  lemma WorkPermuted(s: Snapshot, t: Snapshot)
    requires SameUpToOrder(s, t) && Fault(s).None?
    ensures WorkActions(s) == WorkActions(t) && (AllResolved(s.assets) <==> AllResolved(t.assets))
    ensures t == s.(assets := t.assets, battles := t.battles)
  {
    hide AllAssetActions, AllBattleActions, AllResolved, BattlesFault, SelectionValid, SelectionsValid, Distinct;
    assert Distinct(Ids(s.assets));
    BattlesFaultMeaning(s.battles, Ids(s.assets));
    AssetsSortAlike(s.assets, t.assets);
    BattlesSortAlike(s.battles, t.battles);
    AssetActionsAlike(s, t, SortBy(s.assets, AssetOrder()));
    BattleActionsAlike(s, t, SortBy(s.battles, BattleOrder()));
    ResolvedPermuted(s.assets, t.assets);
  }

  // ----- which error a rejected snapshot gives -----

  /** Some Battle id occurs more than once, and one of the Battles with it has a valid selection. */
  ghost predicate Repeats(battles: seq<Battle>, ids: seq<nat>) {
    exists b :: b in battles && SelectionValid(b.selected, ids) && multiset(BattleIds(battles))[b.id] >= 2
  }

  lemma {:induction false} DuplicateMeansRepeats(battles: seq<Battle>, ids: seq<nat>)
    requires BattlesFault(battles, ids) == Some(DuplicateBattle)
    ensures Repeats(battles, ids)
  {
    hide SelectionValid;
    var earlier, last := battles[..|battles| - 1], battles[|battles| - 1];
    assert battles == earlier + [last] && BattleIds(battles) == BattleIds(earlier) + [last.id];
    if BattlesFault(earlier, ids).Some? {
      DuplicateMeansRepeats(earlier, ids);
      var b :| b in earlier && SelectionValid(b.selected, ids) && multiset(BattleIds(earlier))[b.id] >= 2;
      assert b in battles;
    } else {
      BattlesFaultMeaning(earlier, ids);
      var k :| 0 <= k < |earlier| && BattleIds(earlier)[k] == last.id;
      assert earlier[k] in earlier && earlier[k] in battles;
      assert multiset(BattleIds(earlier))[last.id] >= 1;
    }
  }

  /** If all selections are valid, the only fault is a repeated id. */
  lemma {:induction false} ValidMeansDuplicate(battles: seq<Battle>, ids: seq<nat>)
    requires SelectionsValid(battles, ids) && BattlesFault(battles, ids).Some?
    ensures BattlesFault(battles, ids) == Some(DuplicateBattle)
  {
    hide SelectionValid;
    var earlier, last := battles[..|battles| - 1], battles[|battles| - 1];
    assert last in battles && forall b :: b in earlier ==> b in battles;
    if BattlesFault(earlier, ids).Some? { ValidMeansDuplicate(earlier, ids); }
  }

  lemma {:induction false} FaultKinds(battles: seq<Battle>, ids: seq<nat>)
    ensures BattlesFault(battles, ids).Some? ==>
              BattlesFault(battles, ids).value in {DuplicateBattle, InvalidBattleAsset}
  {
    hide SelectionValid;
    if battles != [] { FaultKinds(battles[..|battles| - 1], ids); }
  }

  lemma RepeatsPermuted(battles: seq<Battle>, battles': seq<Battle>, ids: seq<nat>, ids': seq<nat>)
    requires multiset(battles) == multiset(battles') && multiset(ids) == multiset(ids') && Repeats(battles, ids)
    ensures Repeats(battles', ids')
  {
    MapPermuted(battles, battles', (b: Battle) => b.id);
    var b :| b in battles && SelectionValid(b.selected, ids) && multiset(BattleIds(battles))[b.id] >= 2;
    SameElements(battles, battles', b);
    assert SelectionValid(b.selected, ids') by {
      forall i | i in b.selected ensures i in ids' { SameElements(ids, ids', i); }
    }
  }

  /** Unless the fault of the Battles can be of either kind, it is the same in every order. */
  lemma OneKind(s: seq<Battle>, t: seq<Battle>, ids: seq<nat>, ids': seq<nat>)
    requires multiset(s) == multiset(t) && multiset(ids) == multiset(ids')
    requires !Repeats(s, ids) || SelectionsValid(s, ids)
    requires BattlesFault(s, ids).Some? && BattlesFault(t, ids').Some?
    ensures BattlesFault(s, ids) == BattlesFault(t, ids')
  {
    hide SelectionsValid, Repeats, BattlesFault;
    FaultKinds(s, ids);
    FaultKinds(t, ids');
    if SelectionsValid(s, ids) {
      SelectionsPermuted(s, t, ids, ids');
      ValidMeansDuplicate(s, ids);
      ValidMeansDuplicate(t, ids');
    } else {
      if BattlesFault(s, ids) == Some(DuplicateBattle) { DuplicateMeansRepeats(s, ids); }
      if BattlesFault(t, ids') == Some(DuplicateBattle) {
        DuplicateMeansRepeats(t, ids');
        RepeatsPermuted(t, s, ids', ids);
      }
    }
  }

  /** A Battle moved to the front. */
  lemma ToFront(battles: seq<Battle>, k: nat) returns (moved: seq<Battle>)
    requires k < |battles|
    ensures moved == [battles[k]] + RemoveAt(battles, k) && multiset(moved) == multiset(battles)
  {
    moved := [battles[k]] + RemoveAt(battles, k);
    RemoveAtMultiset(battles, k);
  }

  lemma InvalidFirst(battles: seq<Battle>, ids: seq<nat>) returns (order: seq<Battle>)
    requires !SelectionsValid(battles, ids)
    ensures multiset(order) == multiset(battles) && BattlesFault(order, ids) == Some(InvalidBattleAsset)
  {
    hide SelectionValid;
    var b :| b in battles && !SelectionValid(b.selected, ids);
    var k :| 0 <= k < |battles| && battles[k] == b;
    order := ToFront(battles, k);
    assert order[..1] == [b] && [b][..0] == [];
    assert BattlesFault([b], ids) == Some(InvalidBattleAsset);
    FaultStays(order, ids, 1);
  }

  lemma OtherCopy(battles: seq<Battle>, k: nat) returns (j: nat)
    requires k < |battles| && multiset(BattleIds(battles))[battles[k].id] >= 2
    ensures j < |RemoveAt(battles, k)| && RemoveAt(battles, k)[j].id == battles[k].id
  {
    var rest := RemoveAt(battles, k);
    RemoveAtMultiset(BattleIds(battles), k);
    assert BattleIds(rest) == RemoveAt(BattleIds(battles), k);
    assert battles[k].id in multiset(BattleIds(rest));
    assert battles[k].id in BattleIds(rest);
    j :| 0 <= j < |rest| && BattleIds(rest)[j] == battles[k].id;
  }

  lemma CopyIsDuplicate(b: Battle, copy: Battle, ids: seq<nat>)
    requires SelectionValid(b.selected, ids) && copy.id == b.id
    ensures BattlesFault([b, copy], ids) == Some(DuplicateBattle)
  {
    hide SelectionValid;
    assert [b, copy][..1] == [b] && [b][..0] == [];
    assert BattlesFault([b], ids).None? && BattleIds([b]) == [b.id];
  }

  lemma CopyFirst(battles: seq<Battle>, ids: seq<nat>) returns (order: seq<Battle>)
    requires Repeats(battles, ids)
    ensures multiset(order) == multiset(battles) && BattlesFault(order, ids) == Some(DuplicateBattle)
  {
    hide SelectionValid, BattlesFault, BattleIds, RemoveAt;
    var b :| b in battles && SelectionValid(b.selected, ids) && multiset(BattleIds(battles))[b.id] >= 2;
    var k :| 0 <= k < |battles| && battles[k] == b;
    var j := OtherCopy(battles, k);
    var rest := RemoveAt(battles, k);
    RemoveAtMultiset(battles, k);
    var moved := ToFront(rest, j);
    order := [b] + moved;
    assert order[..2] == [b, rest[j]];
    CopyIsDuplicate(b, rest[j], ids);
    FaultStays(order, ids, 2);
  }

  /** The snapshot gets as far as its Battles, some Battle id is repeated and names a valid selection,
      and some selection is invalid. */
  ghost predicate TwoFaults(s: Snapshot) {
    var ids := Ids(s.assets);
    SourceFault(s).None? && Distinct(ids) && Repeats(s.battles, ids) && !SelectionsValid(s.battles, ids)
  }

  /** The answer for a snapshot, error included, depends on the order of its assets and Battles exactly
      when the Battles hold both kinds of fault. */
  lemma AnswerDependsExactly(s: Snapshot)
    ensures (exists t :: SameUpToOrder(s, t) && Plan(t) != Plan(s)) <==> TwoFaults(s)
  {
    if TwoFaults(s) {
      TwoAnswers(s);
    }
    if t :| SameUpToOrder(s, t) && Plan(t) != Plan(s) {
      if !TwoFaults(s) {
        OneAnswer(s, t);
        assert false;
      }
    }
  }

  lemma TwoAnswers(s: Snapshot)
    requires TwoFaults(s)
    ensures exists t :: SameUpToOrder(s, t) && Plan(t) != Plan(s)
  {
    hide BattlesFault, Repeats, SelectionsValid, SettlingActions, Distinct;
    var first := CopyFirst(s.battles, Ids(s.assets));
    var second := InvalidFirst(s.battles, Ids(s.assets));
    var t, u := s.(battles := first), s.(battles := second);
    assert SameUpToOrder(s, t) && SameUpToOrder(s, u);
    assert Plan(t) == Err(DuplicateBattle) && Plan(u) == Err(InvalidBattleAsset);
  }

  lemma OneAnswer(s: Snapshot, t: Snapshot)
    requires SameUpToOrder(s, t) && !TwoFaults(s)
    ensures Plan(s) == Plan(t)
  {
    PlanPermuted(s, t);
    MapPermuted(s.assets, t.assets, (a: Asset) => a.id);
    SameLength(s.battles, t.battles);
    var ids, ids' := Ids(s.assets), Ids(t.assets);
    hide BattlesFault, Repeats, SelectionsValid, SettlingActions, Distinct, Ids;
    if Distinct(ids) { DistinctPermuted(ids, ids'); }
    if Distinct(ids') { DistinctPermuted(ids', ids); }
    if Plan(s).Err? && SourceFault(s).None? && Distinct(ids) {
      BattlesAlike(s, t, ids, ids');
    }
  }

  lemma BattlesAlike(s: Snapshot, t: Snapshot, ids: seq<nat>, ids': seq<nat>)
    requires multiset(s.battles) == multiset(t.battles) && multiset(ids) == multiset(ids')
    requires !Repeats(s.battles, ids) || SelectionsValid(s.battles, ids)
    ensures BattlesFault(s.battles, ids) == BattlesFault(t.battles, ids')
  {
    MapPermuted(s.battles, t.battles, (b: Battle) => b.id);
    hide BattlesFault, Repeats, SelectionsValid, Distinct, BattleIds;
    BattlesFaultMeaning(s.battles, ids);
    BattlesFaultMeaning(t.battles, ids');
    if BattlesFault(s.battles, ids).None? {
      DistinctPermuted(BattleIds(s.battles), BattleIds(t.battles));
      SelectionsPermuted(s.battles, t.battles, ids, ids');
    } else if BattlesFault(t.battles, ids').None? {
      DistinctPermuted(BattleIds(t.battles), BattleIds(s.battles));
      SelectionsPermuted(t.battles, s.battles, ids', ids);
    } else {
      OneKind(s.battles, t.battles, ids, ids');
    }
  }

  // ----- planned actions are open -----

  ghost predicate AssetOpen(assets: seq<Asset>, id: nat, phase: Phase) {
    exists a :: a in assets && a.id == id && (if phase == Start then a.start else a.end) == Pending
  }

  ghost predicate BattleOpen(battles: seq<Battle>, id: nat) {
    exists b :: b in battles && b.id == id && b.pending
  }

  ghost predicate SideOpen(battles: seq<Battle>, id: nat, side: nat) {
    exists b :: b in battles && b.id == id && b.pending && !(if side == 0 then b.scoredA else b.scoredB)
  }

  ghost predicate SideReady(s: Snapshot, id: nat) {
    exists b :: b in s.battles && b.id == id && b.revealedA && b.revealedB && AllAvailable(s.assets, b.selected)
  }

  /** What an action needs to be planned: an unresolved phase, an unresolved Battle, an unscored
      side whose six assets are final in both phases, or a round with nothing left. */
  ghost predicate Open(s: Snapshot, action: Action) {
    match action
    case AdvanceRound => s.state == Ended
    case FinalizePhase(_, asset, phase) => AssetOpen(s.assets, asset, phase)
    case MarkUnavailable(_, asset, phase) => AssetOpen(s.assets, asset, phase)
    case Forfeit(battle) => BattleOpen(s.battles, battle)
    case VoidPriceUnavailable(battle) => BattleOpen(s.battles, battle)
    case SettleSide(battle, side) => SideOpen(s.battles, battle, side) && SideReady(s, battle)
    case FinalizeBattle(battle) => BattleOpen(s.battles, battle)
    case FinalizeRound(_) => AllResolved(s.assets) && s.resolved == s.rated
  }

  lemma {:induction false} AssetActionsOpen(s: Snapshot, assets: seq<Asset>, action: Action)
    requires action in AllAssetActions(s, assets) && forall a :: a in assets ==> a in s.assets
    ensures Open(s, action)
  {
    var init, a := assets[..|assets| - 1], assets[|assets| - 1];
    if action in AllAssetActions(s, init) {
      AssetActionsOpen(s, init, action);
    } else {
      assert action in AssetActions(s, a);
      assert a in s.assets;
    }
  }

  lemma {:induction false} BattleActionsOpen(s: Snapshot, battles: seq<Battle>, action: Action)
    requires action in AllBattleActions(s, battles) && forall b :: b in battles ==> b in s.battles
    ensures Open(s, action)
  {
    var init, b := battles[..|battles| - 1], battles[|battles| - 1];
    if action in AllBattleActions(s, init) {
      BattleActionsOpen(s, init, action);
    } else {
      assert action in BattleActions(s, b);
      assert b in s.battles;
    }
  }

  /** No resolved phase, Battle or side is ever planned, and a side is scored only when all its
      assets are final in both phases. */
  lemma PlannedIsOpen(s: Snapshot, action: Action)
    requires Plan(s).Ok? && action in Plan(s).value
    ensures Open(s, action)
  {
    hide Fault, AllAssetActions, AllBattleActions;
    if s.state == Settling && action in WorkActions(s) {
      var assets, battles := SortBy(s.assets, AssetOrder()), SortBy(s.battles, BattleOrder());
      SortPermutes(s.assets, AssetOrder());
      SortPermutes(s.battles, BattleOrder());
      forall a | a in assets ensures a in s.assets { SameElements(assets, s.assets, a); }
      forall b | b in battles ensures b in s.battles { SameElements(battles, s.battles, b); }
      if action in AllAssetActions(s, assets) {
        AssetActionsOpen(s, assets, action);
      } else {
        BattleActionsOpen(s, battles, action);
      }
    }
  }
}
