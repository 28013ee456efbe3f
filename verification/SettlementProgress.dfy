/** Planning and sending in turn: what one batch does to a whole round, and when the round is
    finished. */
module SettlementProgress {
  import opened Wrappers
  import opened Sequences
  import opened Settlement
  import opened SettlementOrder
  import opened SettlementChain

  // ----- the indexed snapshot is accepted -----

  lemma CountMeaning(c: Chain)
    ensures |ResolvedBattles(c)| <= |c.battles|
    ensures |ResolvedBattles(c)| == |c.battles| <==> EveryBattleResolved(c.battles)
  {
    assert ResolvedBattles(c) <= c.battles.Keys;
    SubsetSize(ResolvedBattles(c), c.battles.Keys);
    if |ResolvedBattles(c)| == |c.battles| { SameSize(ResolvedBattles(c), c.battles.Keys); }
    if EveryBattleResolved(c.battles) { assert ResolvedBattles(c) == c.battles.Keys; }
  }

  lemma ListedIds(c: Chain)
    ensures Ids(AssetList(c)) == Ascending(c.assets.Keys) && Distinct(Ids(AssetList(c)))
    ensures forall i :: i in Ids(AssetList(c)) <==> i in c.assets
    ensures BattleIds(BattleList(c)) == Ascending(c.battles.Keys) && Distinct(BattleIds(BattleList(c)))
  {
    AscendingMeaning(c.assets.Keys);
    AscendingMeaning(c.battles.Keys);
  }

  lemma ListedBattle(c: Chain, b: Battle)
    requires b in BattleList(c)
    ensures b.id in c.battles && b == IndexBattle(c.assets, b.id, c.battles[b.id])
  {
    AscendingMeaning(c.battles.Keys);
    var ids := Ascending(c.battles.Keys);
    var k :| 0 <= k < |ids| && BattleList(c)[k] == b;
    assert ids[k] in ids;
  }

  lemma IndexedAccepted(c: Chain)
    requires WellFormed(c)
    ensures Fault(Indexed(c)).None?
  {
    hide BattlesFault, AnyBroken, AssetList, BattleList, Distinct;
    ListedIds(c);
    forall b | b in BattleList(c) ensures SelectionValid(b.selected, Ids(AssetList(c))) {
      ListedBattle(c, b);
      assert Selectable(c, c.battles[b.id].listed);
    }
    BattlesFaultMeaning(BattleList(c), Ids(AssetList(c)));
    CountMeaning(c);
    assert |BattleList(c)| == |BattleIds(BattleList(c))| == |Ascending(c.battles.Keys)|;
    AscendingLength(c.battles.Keys);
  }

  lemma {:induction false} AscendingLength(s: set<nat>)
    ensures |Ascending(s)| == |s|
    decreases |s|
  {
    if s != {} { AscendingLength(s - {Least(s)}); }
  }

  lemma ListsSorted(c: Chain)
    ensures SortBy(AssetList(c), AssetOrder()) == AssetList(c)
    ensures SortBy(BattleList(c), BattleOrder()) == BattleList(c)
  {
    AscendingMeaning(c.assets.Keys);
    AscendingMeaning(c.battles.Keys);
    SortedStays(AssetList(c), AssetOrder());
    SortedStays(BattleList(c), BattleOrder());
  }

  lemma ListedFinal(c: Chain, i: nat)
    ensures AssetAvailable(AssetList(c), i) <==> Final(c.assets, i)
  {
    AscendingMeaning(c.assets.Keys);
    var ids := Ascending(c.assets.Keys);
    forall a | a in AssetList(c) ensures a.id in c.assets && a == IndexAsset(a.id, c.assets[a.id]) {
      var k :| 0 <= k < |ids| && AssetList(c)[k] == a;
      assert ids[k] in ids;
    }
    if i in c.assets {
      assert i in ids;
      var k :| 0 <= k < |ids| && ids[k] == i;
      assert AssetList(c)[k] == IndexAsset(i, c.assets[i]);
    }
  }

  lemma ListedResolved(c: Chain)
    ensures AllResolved(AssetList(c)) <==> EveryPhaseResolved(c.assets)
  {
    AscendingMeaning(c.assets.Keys);
    var ids := Ascending(c.assets.Keys);
    if AllResolved(AssetList(c)) {
      forall i | i in c.assets ensures c.assets[i].start != Pending && c.assets[i].end != Pending {
        assert i in ids;
        var k :| 0 <= k < |ids| && ids[k] == i;
        assert AssetList(c)[k] in AssetList(c);
      }
    }
    if EveryPhaseResolved(c.assets) {
      forall a | a in AssetList(c) ensures Resolved(a) {
        var k :| 0 <= k < |ids| && AssetList(c)[k] == a;
        assert ids[k] in ids;
      }
    }
  }

  // ----- what a batch does to one asset and one Battle -----

  lemma {:induction false} ApplyConcat(c: Chain, x: seq<Action>, y: seq<Action>)
    ensures ApplyAll(c, x + y) == ApplyAll(ApplyAll(c, x), y)
  {
    hide Apply;
    if y == [] {
      assert x + y == x;
    } else {
      assert (x + y)[..|x + y| - 1] == x + y[..|y| - 1];
      ApplyConcat(c, x, y[..|y| - 1]);
    }
  }

  function PhaseSettled(now: int, a: AssetState, phase: Phase): AssetState {
    if StatusOf(a, phase) != Pending || now <= DeadlineOf(a, phase) then a
    else if !QuorumOf(a, phase) then WithStatus(a, phase, Unavailable)
    else if phase == Start || (a.start == Finalized && ReturnFits(a)) then WithStatus(a, phase, Finalized)
    else a
  }

  /** Every due phase is resolved, except an end whose start did not become final or whose return does
      not fit. */
  function SettledAsset(now: int, a: AssetState): AssetState { PhaseSettled(now, PhaseSettled(now, a, Start), End) }

  function SettledAssets(c: Chain): map<nat, AssetState> { map i | i in c.assets :: SettledAsset(c.now, c.assets[i]) }

  /** Planned from the snapshot before the batch, executed when the batch's phases are settled. */
  function SettledBattle(c: Chain, b: BattleState): BattleState {
    if b.result != PendingResult then b
    else if AnyBroken(c.assets, b.listed) && (b.revealedA || b.revealedB) then
      if AnyBroken(SettledAssets(c), Chosen(b)) then b.(result := VoidedResult) else b
    else if !b.revealedA || !b.revealedB then
      if c.now > b.revealDeadline then b.(result := ForfeitResult(b)) else b
    else if b.scoredA && b.scoredB then b.(result := Played)
    else if AllFinal(c.assets, b.listed) then
      b.(scoredA := b.scoredA || AllFinal(SettledAssets(c), b.lineupA),
         scoredB := b.scoredB || AllFinal(SettledAssets(c), b.lineupB))
    else b
  }

  lemma ApplyOne(c: Chain, action: Action)
    ensures ApplyAll(c, [action]) == Apply(c, action)
  {
    assert [action][..0] == [];
  }

  lemma ApplyTwo(c: Chain, x: Action, y: Action)
    ensures ApplyAll(c, [x, y]) == Apply(Apply(c, x), y)
  {
    assert [x, y][..1] == [x];
    ApplyOne(c, x);
  }

  function WithAsset(c: Chain, i: nat, a: AssetState): Chain { c.(assets := c.assets[i := a]) }

  function WithBattle(c: Chain, i: nat, b: BattleState): Chain { c.(battles := c.battles[i := b]) }

  lemma PhaseBatch(s: Snapshot, c: Chain, i: nat, phase: Phase)
    requires c.source == s.source != OtherSource && c.now == s.now && i in c.assets
    ensures var a := c.assets[i];
            ApplyAll(c, PhaseActions(s, i, phase, StatusOf(a, phase), DeadlineOf(a, phase), QuorumOf(a, phase)))
            == WithAsset(c, i, PhaseSettled(c.now, a, phase))
  {
    var a := c.assets[i];
    assert c.assets[i := a] == c.assets;
    var actions := PhaseActions(s, i, phase, StatusOf(a, phase), DeadlineOf(a, phase), QuorumOf(a, phase));
    if actions != [] {
      ApplyOne(c, actions[0]);
      assert actions == [actions[0]];
    }
  }

  lemma WithAssetTwice(c: Chain, i: nat, a: AssetState, a': AssetState)
    ensures WithAsset(WithAsset(c, i, a), i, a') == WithAsset(c, i, a')
  {
    assert c.assets[i := a][i := a'] == c.assets[i := a'];
  }

  lemma AssetBatch(s: Snapshot, c: Chain, i: nat)
    requires c.source == s.source != OtherSource && c.now == s.now && i in c.assets
    ensures ApplyAll(c, AssetActions(s, IndexAsset(i, c.assets[i])))
              == WithAsset(c, i, SettledAsset(c.now, c.assets[i]))
  {
    hide ApplyAll, PhaseActions;
    var a := c.assets[i];
    var a' := PhaseSettled(c.now, a, Start);
    assert a'.end == a.end && a'.endDeadline == a.endDeadline && a'.endQuorum == a.endQuorum;
    var starts := PhaseActions(s, i, Start, a.start, a.startDeadline, a.startQuorum);
    var ends := PhaseActions(s, i, End, a.end, a.endDeadline, a.endQuorum);
    ApplyConcat(c, starts, ends);
    PhaseBatch(s, c, i, Start);
    PhaseBatch(s, WithAsset(c, i, a'), i, End);
    hide PhaseSettled;
    WithAssetTwice(c, i, a', PhaseSettled(c.now, a', End));
  }

  // ----- what it does to all of them -----

  function SettledUpTo(c: Chain, done: seq<nat>): map<nat, AssetState> {
    map i | i in c.assets :: if i in done then SettledAsset(c.now, c.assets[i]) else c.assets[i]
  }

  function SettledBattlesUpTo(c: Chain, done: seq<nat>): map<nat, BattleState> {
    map i | i in c.battles :: if i in done then SettledBattle(c, c.battles[i]) else c.battles[i]
  }

  function SettledBattles(c: Chain): map<nat, BattleState> { map i | i in c.battles :: SettledBattle(c, c.battles[i]) }

  lemma SettledPush(c: Chain, done: seq<nat>, i: nat)
    requires i in c.assets && i !in done
    ensures WithAsset(c.(assets := SettledUpTo(c, done)), i, SettledAsset(c.now, c.assets[i]))
              == c.(assets := SettledUpTo(c, done + [i]))
    ensures SettledUpTo(c, done)[i] == c.assets[i]
  {
    hide SettledAsset;
    assert SettledUpTo(c, done)[i := SettledAsset(c.now, c.assets[i])] == SettledUpTo(c, done + [i]);
  }

  lemma AssetAt(c: Chain, k: nat)
    requires k < |Ascending(c.assets.Keys)|
    ensures var ids := Ascending(c.assets.Keys);
            && |AssetList(c)| == |ids| && ids[k] in c.assets && AssetList(c)[k] == IndexAsset(ids[k], c.assets[ids[k]])
            && ids[k] !in ids[..k] && ids[..k + 1] == ids[..k] + [ids[k]]
  {
    AscendingMeaning(c.assets.Keys);
    var ids := Ascending(c.assets.Keys);
    assert ids[k] in ids;
  }

  lemma BattleAt(c: Chain, k: nat)
    requires k < |Ascending(c.battles.Keys)|
    ensures var ids := Ascending(c.battles.Keys);
            && |BattleList(c)| == |ids| && ids[k] in c.battles
               && BattleList(c)[k] == IndexBattle(c.assets, ids[k], c.battles[ids[k]])
            && ids[k] !in ids[..k] && ids[..k + 1] == ids[..k] + [ids[k]]
  {
    AscendingMeaning(c.battles.Keys);
    var ids := Ascending(c.battles.Keys);
    assert ids[k] in ids;
  }

  lemma AssetActionsPush(s: Snapshot, list: seq<Asset>, k: nat)
    requires k < |list|
    ensures AllAssetActions(s, list[..k + 1]) == AllAssetActions(s, list[..k]) + AssetActions(s, list[k])
  {
    hide AssetActions;
    assert list[..k + 1][..k] == list[..k];
  }

  lemma BattleActionsPush(s: Snapshot, list: seq<Battle>, k: nat)
    requires k < |list|
    ensures AllBattleActions(s, list[..k + 1]) == AllBattleActions(s, list[..k]) + BattleActions(s, list[k])
  {
    hide BattleActions;
    assert list[..k + 1][..k] == list[..k];
  }

  lemma AssetStep(c: Chain, done: seq<nat>, i: nat, actions: seq<Action>)
    requires c.source != OtherSource && i in c.assets && i !in done
    requires ApplyAll(c, actions) == c.(assets := SettledUpTo(c, done))
    ensures ApplyAll(c, actions + AssetActions(Indexed(c), IndexAsset(i, c.assets[i])))
              == c.(assets := SettledUpTo(c, done + [i]))
  {
    hide ApplyAll, AssetActions, SettledAsset, SettledUpTo, AssetList, BattleList, WithAsset;
    ApplyConcat(c, actions, AssetActions(Indexed(c), IndexAsset(i, c.assets[i])));
    SettledPush(c, done, i);
    assert i in SettledUpTo(c, done) by { UpToKeys(c, done); }
    AssetBatch(Indexed(c), c.(assets := SettledUpTo(c, done)), i);
  }

  lemma UpToKeys(c: Chain, done: seq<nat>)
    ensures SettledUpTo(c, done).Keys == c.assets.Keys
    ensures SettledUpTo(c, []) == c.assets
  {
    hide SettledAsset;
  }

  lemma {:induction false} AssetsBatch(c: Chain, k: nat)
    requires c.source != OtherSource && k <= |AssetList(c)| == |Ascending(c.assets.Keys)|
    ensures ApplyAll(c, AllAssetActions(Indexed(c), AssetList(c)[..k]))
            == c.(assets := SettledUpTo(c, Ascending(c.assets.Keys)[..k]))
  {
    hide ApplyAll, AssetActions, SettledUpTo, AssetList, Indexed, IndexAsset;
    var ids, list := Ascending(c.assets.Keys), AssetList(c);
    if k == 0 {
      UpToKeys(c, []);
      assert ids[..0] == [] && list[..0] == [];
      NothingApplied(c);
    } else {
      AssetsBatch(c, k - 1);
      AssetAt(c, k - 1);
      AssetActionsPush(Indexed(c), list, k - 1);
      AssetStep(c, ids[..k - 1], ids[k - 1], AllAssetActions(Indexed(c), list[..k - 1]));
    }
  }

  lemma NothingApplied(c: Chain)
    ensures ApplyAll(c, []) == c
  {
  }

  lemma SettledKeeps(now: int, a: AssetState)
    ensures a.start != Pending ==> SettledAsset(now, a).start == a.start
    ensures a.end != Pending ==> SettledAsset(now, a).end == a.end
  {
  }

  /** What holds before a batch of an asset list still holds when its phases are settled. */
  lemma GuardsKept(c: Chain, ids: seq<nat>)
    ensures AllFinal(c.assets, ids) ==> AllFinal(SettledAssets(c), ids)
    ensures AnyBroken(c.assets, ids) ==> AnyBroken(SettledAssets(c), ids)
  {
    hide SettledAsset;
    forall i | i in c.assets
      ensures Final(c.assets, i) ==> Final(SettledAssets(c), i)
      ensures Broken(c.assets, i) ==> Broken(SettledAssets(c), i)
    {
      SettledKeeps(c.now, c.assets[i]);
    }
    if AnyBroken(c.assets, ids) {
      var i :| i in ids && Broken(c.assets, i);
      assert Broken(SettledAssets(c), i);
    }
  }

  lemma OneBattleAction(d: Chain, j: nat, action: Action)
    requires j in d.battles && BattleTarget(action) == Some(j)
    ensures ApplyAll(d, [action]) == WithBattle(d, j, BattleAfter(d.assets, d.now, d.battles[j], action))
  {
    hide ApplyAll, BattleAfter;
    ApplyOne(d, action);
  }

  lemma TwoBattleActions(d: Chain, j: nat, x: Action, y: Action)
    requires j in d.battles && BattleTarget(x) == Some(j) && BattleTarget(y) == Some(j)
    ensures ApplyAll(d, [x, y])
            == WithBattle(d, j, BattleAfter(d.assets, d.now, BattleAfter(d.assets, d.now, d.battles[j], x), y))
  {
    hide ApplyAll, BattleAfter;
    ApplyTwo(d, x, y);
    var b := BattleAfter(d.assets, d.now, d.battles[j], x);
    assert d.battles[j := b][j := BattleAfter(d.assets, d.now, b, y)]
             == d.battles[j := BattleAfter(d.assets, d.now, b, y)];
  }

  lemma NoBattleAction(d: Chain, j: nat)
    requires j in d.battles
    ensures ApplyAll(d, []) == WithBattle(d, j, d.battles[j])
  {
    assert d.battles[j := d.battles[j]] == d.battles;
  }

  lemma BattleBatch(c: Chain, d: Chain, j: nat)
    requires d.assets == SettledAssets(c) && d.now == c.now && j in c.battles && j in d.battles
             && d.battles[j] == c.battles[j]
    ensures ApplyAll(d, BattleActions(Indexed(c), IndexBattle(c.assets, j, c.battles[j])))
            == WithBattle(d, j, SettledBattle(c, c.battles[j]))
  {
    hide SettledAssets, AnyBroken, AllFinal, AllAvailable, AssetList, BattleList, ApplyAll, WithBattle;
    var b := c.battles[j];
    AvailableIsFinal(c, b.listed);
    var actions := BattleActions(Indexed(c), IndexBattle(c.assets, j, b));
    if |actions| == 0 {
      NoBattleAction(d, j);
    } else if |actions| == 1 {
      assert actions == [actions[0]];
      OneBattleAction(d, j, actions[0]);
    } else {
      assert actions == [SettleSide(j, 0), SettleSide(j, 1)];
      TwoBattleActions(d, j, SettleSide(j, 0), SettleSide(j, 1));
    }
  }

  lemma AvailableIsFinal(c: Chain, selected: seq<nat>)
    ensures AllAvailable(AssetList(c), selected) <==> AllFinal(c.assets, selected)
  {
    hide AssetAvailable, Final, AssetList;
    forall i: nat ensures AssetAvailable(AssetList(c), i) <==> Final(c.assets, i) { ListedFinal(c, i); }
  }

  lemma SettledBattlePush(c: Chain, d: Chain, done: seq<nat>, i: nat)
    requires i in c.battles && i !in done
    ensures WithBattle(d.(battles := SettledBattlesUpTo(c, done)), i, SettledBattle(c, c.battles[i]))
            == d.(battles := SettledBattlesUpTo(c, done + [i]))
    ensures SettledBattlesUpTo(c, done)[i] == c.battles[i]
  {
    hide SettledBattle;
    assert SettledBattlesUpTo(c, done)[i := SettledBattle(c, c.battles[i])] == SettledBattlesUpTo(c, done + [i]);
  }

  lemma BattleStep(c: Chain, d: Chain, done: seq<nat>, i: nat, actions: seq<Action>)
    requires d == c.(assets := SettledAssets(c)) && i in c.battles && i !in done
    requires ApplyAll(d, actions) == d.(battles := SettledBattlesUpTo(c, done))
    ensures ApplyAll(d, actions + BattleActions(Indexed(c), IndexBattle(c.assets, i, c.battles[i])))
            == d.(battles := SettledBattlesUpTo(c, done + [i]))
  {
    hide ApplyAll, BattleActions, SettledBattle, SettledBattlesUpTo, SettledAssets, WithBattle, Indexed, IndexBattle;
    ApplyConcat(d, actions, BattleActions(Indexed(c), IndexBattle(c.assets, i, c.battles[i])));
    SettledBattlePush(c, d, done, i);
    BattleUpToKeys(c, done);
    BattleBatch(c, d.(battles := SettledBattlesUpTo(c, done)), i);
  }

  lemma BattleUpToKeys(c: Chain, done: seq<nat>)
    ensures SettledBattlesUpTo(c, done).Keys == c.battles.Keys
    ensures SettledBattlesUpTo(c, []) == c.battles
  {
    hide SettledBattle;
  }

  lemma {:induction false} BattlesBatch(c: Chain, d: Chain, k: nat)
    requires d == c.(assets := SettledAssets(c)) && k <= |BattleList(c)| == |Ascending(c.battles.Keys)|
    ensures ApplyAll(d, AllBattleActions(Indexed(c), BattleList(c)[..k]))
            == d.(battles := SettledBattlesUpTo(c, Ascending(c.battles.Keys)[..k]))
  {
    hide ApplyAll, BattleActions, SettledBattlesUpTo, SettledAssets, BattleList, Indexed, IndexBattle;
    var ids, list := Ascending(c.battles.Keys), BattleList(c);
    if k == 0 {
      BattleUpToKeys(c, []);
      assert ids[..0] == [] && list[..0] == [];
      NothingApplied(d);
    } else {
      BattlesBatch(c, d, k - 1);
      BattleAt(c, k - 1);
      BattleActionsPush(Indexed(c), list, k - 1);
      BattleStep(c, d, ids[..k - 1], ids[k - 1], AllBattleActions(Indexed(c), list[..k - 1]));
    }
  }

  lemma SettledAll(c: Chain)
    ensures SettledUpTo(c, Ascending(c.assets.Keys)) == SettledAssets(c)
    ensures SettledBattlesUpTo(c, Ascending(c.battles.Keys)) == SettledBattles(c)
    ensures |AssetList(c)| == |Ascending(c.assets.Keys)| && |BattleList(c)| == |Ascending(c.battles.Keys)|
  {
    hide SettledAsset, SettledBattle;
    AscendingMeaning(c.assets.Keys);
    AscendingMeaning(c.battles.Keys);
  }

  lemma Whole<T>(s: seq<T>)
    ensures s[..|s|] == s
  {
  }

  /** Sending the planned work, in the planned order, settles every asset and every Battle. */
  lemma WorkDone(c: Chain)
    requires c.source != OtherSource
    ensures ApplyAll(c, WorkActions(Indexed(c))) == c.(assets := SettledAssets(c), battles := SettledBattles(c))
  {
    hide ApplyAll, AllAssetActions, AllBattleActions, SettledUpTo, SettledBattlesUpTo, SettledAssets, SettledBattles,
      AssetList, BattleList;
    SettledAll(c);
    ListsSorted(c);
    Whole(AssetList(c));
    Whole(BattleList(c));
    Whole(Ascending(c.assets.Keys));
    Whole(Ascending(c.battles.Keys));
    AssetsBatch(c, |AssetList(c)|);
    BattlesBatch(c, c.(assets := SettledAssets(c)), |BattleList(c)|);
    ApplyConcat(c, AllAssetActions(Indexed(c), AssetList(c)), AllBattleActions(Indexed(c), BattleList(c)));
  }
}
