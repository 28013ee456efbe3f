/** Plan-and-send terminates, within five batches, exactly when no asset is stuck and the six assets
    listed for each Battle tell the planner what the program will find. The program finalizes an end
    only after its start and only if the return fits; it scores a side from that side's own lineup,
    and voids for the lineups of the revealed sides. Whatever it refuses is planned again in every
    batch. */
module SettlementTermination {
  import opened Wrappers
  import opened Sequences
  import opened Settlement
  import opened SettlementOrder
  import opened PriceReturn
  import opened SettlementChain
  import opened SettlementProgress

  ghost predicate DeadlinesPassed(c: Chain) {
    && (forall i :: i in c.assets ==> c.now > c.assets[i].startDeadline && c.now > c.assets[i].endDeadline)
    && (forall j :: j in c.battles ==> c.now > c.battles[j].revealDeadline)
  }

  /** The end has a quorum but cannot become final: its start cannot, or the return does not fit. */
  predicate Stuck(a: AssetState) {
    && a.end == Pending && a.endQuorum
    && (a.start == Unavailable || (a.start == Pending && !a.startQuorum) || !ReturnFits(a))
  }

  ghost predicate NoneStuck(c: Chain) { forall i :: i in c.assets ==> !Stuck(c.assets[i]) }

  /** The listed assets of a pending Battle lead the planner to what the program accepts: a void is
      planned only if a revealed lineup will have lost a price, and two revealed sides still to be
      scored are voided or scored as their own lineups allow. */
  ghost predicate Readable(c: Chain, b: BattleState) {
    b.result == PendingResult ==>
      && (AnyBroken(c.assets, b.listed) && (b.revealedA || b.revealedB) ==> AnyBroken(SettledAssets(c), Chosen(b)))
      && (b.revealedA && b.revealedB && !(b.scoredA && b.scoredB) ==>
            if AnyBroken(SettledAssets(c), b.listed) then AnyBroken(SettledAssets(c), Chosen(b))
            else
              && (b.scoredA || AllFinal(SettledAssets(c), b.lineupA))
              && (b.scoredB || AllFinal(SettledAssets(c), b.lineupB)))
  }

  ghost predicate AllReadable(c: Chain) { forall j :: j in c.battles ==> Readable(c, c.battles[j]) }

  ghost predicate Sound(c: Chain) { WellFormed(c) && DeadlinesPassed(c) && NoneStuck(c) && AllReadable(c) }

  predicate Finished(c: Chain) { c.state == FinalizedRound || c.state == VoidedRound }

  predicate Unscored(b: BattleState) { b.result == PendingResult && !(b.scoredA && b.scoredB) }

  /** How far the round is from finished. */
  function Stage(c: Chain): nat {
    if Finished(c) then 0
    else if c.state == Ended then 5
    else if !EveryPhaseResolved(c.assets) then 4
    else if exists j | j in c.battles :: Unscored(c.battles[j]) then 3
    else if !EveryBattleResolved(c.battles) then 2
    else 1
  }

  // ----- what one batch does to the round -----

  lemma {:induction false} NoAssetWork(s: Snapshot, assets: seq<Asset>)
    requires AllResolved(assets)
    ensures AllAssetActions(s, assets) == []
  {
    if assets != [] {
      assert assets[|assets| - 1] in assets;
      assert forall a :: a in assets[..|assets| - 1] ==> a in assets;
      NoAssetWork(s, assets[..|assets| - 1]);
    }
  }

  lemma {:induction false} NoBattleWork(s: Snapshot, battles: seq<Battle>)
    requires forall b :: b in battles ==> !b.pending
    ensures AllBattleActions(s, battles) == []
  {
    if battles != [] {
      assert battles[|battles| - 1] in battles;
      assert forall b :: b in battles[..|battles| - 1] ==> b in battles;
      NoBattleWork(s, battles[..|battles| - 1]);
    }
  }

  lemma NoWork(c: Chain)
    requires EveryPhaseResolved(c.assets) && EveryBattleResolved(c.battles)
    ensures WorkActions(Indexed(c)) == []
  {
    hide AllAssetActions, AllBattleActions, AllResolved, AssetList, BattleList;
    ListsSorted(c);
    ListedResolved(c);
    forall b | b in BattleList(c) ensures !b.pending { ListedBattle(c, b); }
    NoAssetWork(Indexed(c), AssetList(c));
    NoBattleWork(Indexed(c), BattleList(c));
  }

  function Worked(c: Chain): Chain { c.(assets := SettledAssets(c), battles := SettledBattles(c)) }

  function Closed(c: Chain): Chain { c.(state := if SomeBroken(c.assets) then VoidedRound else FinalizedRound) }

  /** One batch: the round starts settling, or everything due is settled, or, once nothing is
      open, the round is closed. */
  lemma AdvanceIs(c: Chain)
    requires WellFormed(c)
    ensures c.state == Ended ==> Advance(c) == c.(state := Settling)
    ensures Finished(c) ==> Advance(c) == c
    ensures c.state == Settling ==>
              Advance(c) ==
                if EveryPhaseResolved(c.assets) && EveryBattleResolved(c.battles) then Closed(c) else Worked(c)
  {
    hide Fault, WorkActions, Indexed, EveryPhaseResolved, EveryBattleResolved, SomeBroken, SettledAssets,
      SettledBattles, ApplyAll;
    IndexedAccepted(c);
    IndexedParts(c);
    WorkDone(c);
    NothingApplied(c);
    if c.state == Ended {
      ApplyOne(c, AdvanceRound);
    } else if c.state == Settling {
      CountMeaning(c);
      ListedResolved(c);
      if EveryPhaseResolved(c.assets) && EveryBattleResolved(c.battles) {
        NoWork(c);
        ApplyOne(c, FinalizeRound(c.source));
      }
    }
  }

  lemma IndexedParts(c: Chain)
    ensures var s := Indexed(c);
            && s.state == c.state && s.source == c.source && s.assets == AssetList(c)
            && s.resolved == |ResolvedBattles(c)| && s.rated == |c.battles|
  {
  }

  // ----- each batch brings the round nearer -----

  lemma AssetResolves(now: int, a: AssetState)
    requires now > a.startDeadline && now > a.endDeadline && !Stuck(a)
    ensures var r := SettledAsset(now, a); r.start != Pending && r.end != Pending
  {
  }

  lemma AssetsResolve(c: Chain)
    requires DeadlinesPassed(c) && NoneStuck(c)
    ensures EveryPhaseResolved(SettledAssets(c))
  {
    hide SettledAsset, Stuck;
    forall i | i in c.assets ensures SettledAssets(c)[i].start != Pending && SettledAssets(c)[i].end != Pending {
      AssetResolves(c.now, c.assets[i]);
    }
  }

  lemma ResolvedUnchanged(c: Chain)
    requires EveryPhaseResolved(c.assets)
    ensures SettledAssets(c) == c.assets
  {
    forall i | i in c.assets ensures SettledAsset(c.now, c.assets[i]) == c.assets[i] {
    }
  }

  lemma SameSettled(c: Chain, d: Chain)
    requires d.assets == c.assets && d.now == c.now
    ensures SettledAssets(d) == SettledAssets(c)
  {
    hide SettledAsset;
  }

  lemma FinalNotBroken(assets: map<nat, AssetState>, ids: seq<nat>)
    requires AllFinal(assets, ids)
    ensures !AnyBroken(assets, ids)
  {
    forall i | i in ids ensures !Broken(assets, i) { assert Final(assets, i); }
  }

  lemma ResolvedIsFinal(assets: map<nat, AssetState>, ids: seq<nat>)
    requires EveryPhaseResolved(assets) && !AnyBroken(assets, ids) && forall i :: i in ids ==> i in assets
    ensures AllFinal(assets, ids)
  {
    forall i | i in ids ensures Final(assets, i) { assert !Broken(assets, i); }
  }

  /** With all phases resolved, one batch decides a readable Battle or scores both of its sides, and
      decides it if they were scored. */
  lemma BattleScored(c: Chain, j: nat)
    requires WellFormed(c) && DeadlinesPassed(c) && EveryPhaseResolved(c.assets) && SettledAssets(c) == c.assets
    requires j in c.battles && Readable(c, c.battles[j])
    ensures !Unscored(SettledBattle(c, c.battles[j]))
    ensures !Unscored(c.battles[j]) ==> SettledBattle(c, c.battles[j]).result != PendingResult
  {
    hide AnyBroken, AllFinal, EveryPhaseResolved, SettledAssets;
    var b := c.battles[j];
    assert Selectable(c, b.listed);
    if !AnyBroken(c.assets, b.listed) { ResolvedIsFinal(c.assets, b.listed); }
  }

  /** A batch leaves a Battle readable or not, as it was; an unreadable one also stays pending. */
  lemma BattleStaysReadable(c: Chain, d: Chain, b: BattleState)
    requires d.assets == SettledAssets(c) && SettledAssets(d) == d.assets && c.now > b.revealDeadline
    ensures Readable(c, b) ==> Readable(d, SettledBattle(c, b))
    ensures !Readable(c, b) ==> !Readable(d, SettledBattle(c, b)) && SettledBattle(c, b).result == PendingResult
  {
    hide AnyBroken, AllFinal, SettledAssets;
    GuardsKept(c, b.listed);
    if AllFinal(SettledAssets(c), b.listed) { FinalNotBroken(SettledAssets(c), b.listed); }
  }

  lemma BatchKeeps(c: Chain)
    requires Sound(c) && Stage(c) > 0
    ensures Sound(Advance(c))
  {
    AdvanceIs(c);
    hide Advance;
    if c.state == Settling && !(EveryPhaseResolved(c.assets) && EveryBattleResolved(c.battles)) {
      AssetsResolve(c);
      WorkedKeeps(c);
      WorkedReadable(c);
    } else {
      SameExceptState(c, Advance(c));
    }
  }

  lemma SameExceptState(c: Chain, d: Chain)
    requires WellFormed(c) && DeadlinesPassed(c) && NoneStuck(c) && d == c.(state := d.state)
    requires Finished(d) ==> EveryBattleResolved(c.battles)
    ensures WellFormed(d) && DeadlinesPassed(d) && NoneStuck(d)
    ensures forall b :: Readable(d, b) <==> Readable(c, b)
    ensures AllReadable(d) <==> AllReadable(c)
  {
    hide AnyBroken, AllFinal, SettledAssets, Stuck, EveryBattleResolved;
    SameSettled(c, d);
    forall j | j in d.battles ensures Selectable(d, d.battles[j].listed) { assert Selectable(c, c.battles[j].listed); }
    forall b ensures Readable(d, b) <==> Readable(c, b) { }
    hide Readable;
    assert forall j :: j in d.battles ==> d.battles[j] == c.battles[j];
  }

  lemma WorkedKeeps(c: Chain)
    requires WellFormed(c) && DeadlinesPassed(c) && c.state == Settling && EveryPhaseResolved(SettledAssets(c))
    ensures WellFormed(Worked(c)) && DeadlinesPassed(Worked(c)) && NoneStuck(Worked(c))
    ensures SettledAssets(Worked(c)) == Worked(c).assets
  {
    hide AnyBroken, AllFinal, SettledAsset;
    var d := Worked(c);
    forall j | j in d.battles ensures Selectable(d, d.battles[j].listed) { assert Selectable(c, c.battles[j].listed); }
    forall i | i in d.assets ensures d.now > d.assets[i].startDeadline && d.now > d.assets[i].endDeadline {
      SettledDeadlines(c.now, c.assets[i]);
    }
    ResolvedUnchanged(d);
  }

  lemma WorkedReadable(c: Chain)
    requires DeadlinesPassed(c) && SettledAssets(Worked(c)) == Worked(c).assets
    ensures forall j :: j in c.battles ==>
              j in Worked(c).battles && (Readable(c, c.battles[j]) <==> Readable(Worked(c), Worked(c).battles[j]))
    ensures AllReadable(c) ==> AllReadable(Worked(c))
    ensures forall j :: j in c.battles && !Readable(c, c.battles[j]) ==> Worked(c).battles[j].result == PendingResult
  {
    hide Readable, SettledAssets, SettledBattle;
    forall j | j in c.battles
      ensures Readable(c, c.battles[j]) <==> Readable(Worked(c), Worked(c).battles[j])
      ensures !Readable(c, c.battles[j]) ==> Worked(c).battles[j].result == PendingResult
    {
      BattleStaysReadable(c, Worked(c), c.battles[j]);
    }
  }

  lemma SettledDeadlines(now: int, a: AssetState)
    ensures var r := SettledAsset(now, a);
            r.startDeadline == a.startDeadline && r.endDeadline == a.endDeadline && r.startQuorum == a.startQuorum
              && r.endQuorum == a.endQuorum
  {
  }

  /** Every batch strictly lowers the stage, until the round is finished: voided if and only if
      some phase was unavailable. */
  lemma StageDrops(c: Chain)
    requires Sound(c) && Stage(c) > 0
    ensures Stage(Advance(c)) < Stage(c)
    ensures Finished(Advance(c)) ==> (Advance(c).state == VoidedRound <==> SomeBroken(Advance(c).assets))
  {
    hide SettledAsset, SettledBattle, Advance, SomeBroken, WellFormed, DeadlinesPassed, NoneStuck, Readable;
    AdvanceIs(c);
    if c.state == Settling && !EveryPhaseResolved(c.assets) {
      AssetsResolve(c);
    } else if c.state == Settling {
      ResolvedUnchanged(c);
      forall j | j in c.battles
        ensures !Unscored(SettledBattle(c, c.battles[j]))
        ensures !Unscored(c.battles[j]) ==> SettledBattle(c, c.battles[j]).result != PendingResult
      {
        BattleScored(c, j);
      }
    }
  }

  function Advances(c: Chain, n: nat): Chain { if n == 0 then c else Advance(Advances(c, n - 1)) }

  lemma {:induction false} StageBound(c: Chain, n: nat)
    requires Sound(c)
    ensures Sound(Advances(c, n))
    ensures Stage(Advances(c, n)) <= if n <= Stage(c) then Stage(c) - n else 0
  {
    hide Advance, WellFormed, DeadlinesPassed, NoneStuck, AllReadable;
    if n > 0 {
      StageBound(c, n - 1);
      var d := Advances(c, n - 1);
      if Stage(d) > 0 {
        BatchKeeps(d);
        StageDrops(d);
      } else {
        AdvanceIs(d);
      }
    }
  }

  /** Five batches are enough. */
  lemma FiveBatches(c: Chain)
    requires Sound(c)
    ensures Finished(Advances(c, 5))
  {
    hide Advances, Sound, EveryPhaseResolved, EveryBattleResolved;
    StageBound(c, 5);
  }

  // ----- a stuck asset blocks the round for good -----

  lemma StuckStays(now: int, a: AssetState)
    requires now > a.startDeadline && now > a.endDeadline && Stuck(a)
    ensures Stuck(SettledAsset(now, a))
  {
  }

  ghost predicate Blocked(c: Chain, i: nat) {
    WellFormed(c) && DeadlinesPassed(c) && i in c.assets && Stuck(c.assets[i]) && !Finished(c)
  }

  lemma BlockedStays(c: Chain, i: nat)
    requires Blocked(c, i)
    ensures Blocked(Advance(c), i)
  {
    hide SettledAsset, Advance, AnyBroken, AllFinal, SettledBattle;
    AdvanceIs(c);
    var d := Advance(c);
    StuckStays(c.now, c.assets[i]);
    forall j | j in d.battles ensures Selectable(d, d.battles[j].listed) {
      assert Selectable(c, c.battles[j].listed);
      ListKept(c, c.battles[j]);
    }
    forall j | j in d.battles ensures d.now > d.battles[j].revealDeadline { ListKept(c, c.battles[j]); }
    forall k | k in d.assets ensures d.now > d.assets[k].startDeadline && d.now > d.assets[k].endDeadline {
      SettledDeadlines(c.now, c.assets[k]);
    }
  }

  lemma ListKept(c: Chain, b: BattleState)
    ensures SettledBattle(c, b).listed == b.listed && SettledBattle(c, b).revealDeadline == b.revealDeadline
  {
    hide AnyBroken, AllFinal, SettledAssets;
  }

  lemma {:induction false} NeverFinishes(c: Chain, i: nat, n: nat)
    requires Blocked(c, i)
    ensures Blocked(Advances(c, n), i)
  {
    hide Advance, Blocked;
    if n > 0 {
      NeverFinishes(c, i, n - 1);
      BlockedStays(Advances(c, n - 1), i);
    }
  }

  // ----- and so does a Battle whose list misleads the planner -----

  ghost predicate Misled(c: Chain, j: nat) {
    && WellFormed(c) && DeadlinesPassed(c) && NoneStuck(c) && !Finished(c)
    && j in c.battles && !Readable(c, c.battles[j])
  }

  lemma MisledStays(c: Chain, j: nat)
    requires Misled(c, j)
    ensures Misled(Advance(c), j)
  {
    hide Advance, AnyBroken, AllFinal, SettledAssets, SettledBattles, EveryPhaseResolved;
    AdvanceIs(c);
    assert c.battles[j].result == PendingResult;
    if c.state == Settling {
      AssetsResolve(c);
      WorkedKeeps(c);
      WorkedReadable(c);
    } else {
      SameExceptState(c, Advance(c));
    }
  }

  lemma {:induction false} NeverResolved(c: Chain, j: nat, n: nat)
    requires Misled(c, j)
    ensures Misled(Advances(c, n), j)
  {
    hide Advance, Misled;
    if n > 0 {
      NeverResolved(c, j, n - 1);
      MisledStays(Advances(c, n - 1), j);
    }
  }

  /** With deadlines passed and prices and evidence fixed, planning and sending finishes the round if
      and only if no asset is stuck and every pending Battle's list is readable. */
  lemma FinishesExactly(c: Chain)
    requires WellFormed(c) && DeadlinesPassed(c) && !Finished(c)
    ensures NoneStuck(c) && AllReadable(c) <==> exists n: nat :: Finished(Advances(c, n))
  {
    hide Advances, WellFormed, DeadlinesPassed, Stuck, Readable;
    if !NoneStuck(c) {
      var i :| i in c.assets && Stuck(c.assets[i]);
      forall n: nat ensures !Finished(Advances(c, n)) { NeverFinishes(c, i, n); }
    } else if !AllReadable(c) {
      var j :| j in c.battles && !Readable(c, c.battles[j]);
      forall n: nat ensures !Finished(Advances(c, n)) { NeverResolved(c, j, n); }
    } else {
      FiveBatches(c);
    }
  }

  // ----- when one list of six can be right -----

  ghost predicate SameIds(x: seq<nat>, y: seq<nat>) { forall i :: i in x <==> i in y }

  ghost predicate ListsRevealed(b: BattleState) {
    (b.revealedA ==> SameIds(b.lineupA, b.listed)) && (b.revealedB ==> SameIds(b.lineupB, b.listed))
  }

  /** If every revealed side chose exactly the listed assets, nothing misleads the planner. */
  lemma EqualLineupsAreReadable(c: Chain)
    requires WellFormed(c) && DeadlinesPassed(c) && NoneStuck(c)
    requires forall j :: j in c.battles && c.battles[j].result == PendingResult ==> ListsRevealed(c.battles[j])
    ensures AllReadable(c)
  {
    hide SettledAsset, Stuck, AnyBroken, AllFinal, SettledAssets, EveryPhaseResolved;
    AssetsResolve(c);
    forall j | j in c.battles && c.battles[j].result == PendingResult ensures Readable(c, c.battles[j]) {
      EqualLineupsRead(c, c.battles[j]);
    }
  }

  lemma EqualLineupsRead(c: Chain, b: BattleState)
    requires ListsRevealed(b) && EveryPhaseResolved(SettledAssets(c)) && Selectable(c, b.listed)
    ensures Readable(c, b)
  {
    hide SettledAsset, EveryPhaseResolved, AnyBroken, AllFinal, SameIds;
    var settled := SettledAssets(c);
    GuardsKept(c, b.listed);
    if AnyBroken(settled, b.listed) {
      if b.revealedA || b.revealedB { BrokenAlike(settled, b); }
    } else {
      ResolvedIsFinal(settled, b.listed);
      if b.revealedA { FinalAlike(settled, b.listed, b.lineupA); }
      if b.revealedB { FinalAlike(settled, b.listed, b.lineupB); }
    }
  }

  lemma BrokenAlike(assets: map<nat, AssetState>, b: BattleState)
    requires ListsRevealed(b) && (b.revealedA || b.revealedB) && AnyBroken(assets, b.listed)
    ensures AnyBroken(assets, Chosen(b))
  {
    var i :| i in b.listed && Broken(assets, i);
    assert i in Chosen(b);
  }

  lemma FinalAlike(assets: map<nat, AssetState>, x: seq<nat>, y: seq<nat>)
    requires SameIds(x, y) || SameIds(y, x)
    requires AllFinal(assets, x)
    ensures AllFinal(assets, y)
  {
  }

  /** Six listed assets cover two lineups of six only if the lineups are the same: of two different
      lineups some asset is always left out. */
  lemma OneListForTwoLineups(b: BattleState)
    requires |b.listed| == |b.lineupA| == |b.lineupB| == LINEUP_SIZE
    requires Distinct(b.listed) && Distinct(b.lineupA) && Distinct(b.lineupB)
    ensures (forall i :: i in b.lineupA + b.lineupB ==> i in b.listed)
            <==> SameIds(b.lineupA, b.listed) && SameIds(b.lineupB, b.listed)
  {
    if forall i :: i in b.lineupA + b.lineupB ==> i in b.listed {
      assert forall i :: i in b.lineupA ==> i in b.lineupA + b.lineupB;
      assert forall i :: i in b.lineupB ==> i in b.lineupA + b.lineupB;
      CoversAll(b.lineupA, b.listed);
      CoversAll(b.lineupB, b.listed);
    }
  }

  lemma CoversAll(x: seq<nat>, y: seq<nat>)
    requires Distinct(x) && Distinct(y) && |x| == |y| && forall i :: i in x ==> i in y
    ensures SameIds(x, y)
  {
    ElementCount(x);
    ElementCount(y);
    assert Elements(x) <= Elements(y);
    SameSize(Elements(x), Elements(y));
    forall i ensures i in x <==> i in y { assert i in Elements(x) <==> i in x; assert i in Elements(y) <==> i in y; }
  }

  function Elements(x: seq<nat>): set<nat> { set i | i in x }

  lemma {:induction false} ElementCount(x: seq<nat>)
    requires Distinct(x)
    ensures |Elements(x)| == |x|
  {
    if x == [] {
      assert Elements(x) == {};
    } else {
      var init, last := x[..|x| - 1], x[|x| - 1];
      DistinctPush(init, last);
      hide Distinct;
      assert x == init + [last];
      ElementCount(init);
      OneMoreElement(init, last);
    }
  }

  lemma OneMoreElement(init: seq<nat>, last: nat)
    requires last !in init
    ensures |Elements(init + [last])| == |Elements(init)| + 1
  {
    assert Elements(init + [last]) == Elements(init) + {last} && last !in Elements(init);
  }
}
