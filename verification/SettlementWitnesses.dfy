/** Rounds that meet the conditions under which settlement stalls or depends on the order of a batch. */
module SettlementWitnesses {
  import opened Wrappers
  import opened Sequences
  import opened Settlement
  import opened SettlementChain
  import opened SettlementProgress
  import opened SettlementTermination
  import opened SettlementBatches
  import opened PriceReturn

  function Priced(status: PhaseStatus, end: PhaseStatus): AssetState {
    AssetState(status, 10, true, 100, end, 20, true, 150)
  }

  /** The start was marked unavailable; the end has a quorum. */
  function NoStart(): Chain {
    Chain(Jupiter, 100, Settling, map[0 := AssetState(Unavailable, 10, false, 0, Pending, 20, true, 150)], map[])
  }

  lemma UnavailableStartStalls(n: nat)
    ensures WellFormed(NoStart()) && DeadlinesPassed(NoStart())
    ensures !Finished(Advances(NoStart(), n))
  {
    assert Blocked(NoStart(), 0);
    NeverFinishes(NoStart(), 0, n);
  }

  /** Both prices have a quorum, and the return between them exceeds 64 bits. */
  function HugeReturn(): Chain {
    Chain(Jupiter, 100, Settling, map[0 := AssetState(Pending, 10, true, 1, Pending, 20, true, 9_223_372_038)], map[])
  }

  lemma HugeReturnStalls(n: nat)
    ensures WellFormed(HugeReturn()) && DeadlinesPassed(HugeReturn())
    ensures !Finished(Advances(HugeReturn(), n))
  {
    ReturnExactly(1, 9_223_372_038);
    assert Blocked(HugeReturn(), 0);
    NeverFinishes(HugeReturn(), 0, n);
  }

  /** A Pyth end with evidence of a price too far above the start price. */
  function FarEnd(end: PhaseStatus): Chain {
    Chain(Pyth, 100, Settling, map[0 := AssetState(Finalized, 10, true, 1, end, 20, true, 9_223_372_038)], map[])
  }

  /** It can be marked unavailable, and is then never final, although the source is Pyth. */
  lemma FarEndIsLost(events: seq<Event>)
    ensures Apply(FarEnd(Pending), MarkUnavailable(Pyth, 0, End)) == FarEnd(Unavailable)
    ensures PricesPositive(FarEnd(Unavailable).assets[0])
    ensures !ShowsStatus(HappenAll(FarEnd(Unavailable), events), 0, End, Finalized)
  {
    hide HappenAll, ReturnQ9;
    ReturnExactly(1, 9_223_372_038);
    MarksEnd();
    UnreturnableStays(FarEnd(Unavailable), events, 0);
  }

  lemma MarksEnd()
    ensures Apply(FarEnd(Pending), MarkUnavailable(Pyth, 0, End)) == FarEnd(Unavailable)
  {
    var c := FarEnd(Pending);
    assert c.assets[0 := c.assets[0].(end := Unavailable)] == FarEnd(Unavailable).assets;
  }

  function FirstSix(): seq<nat> { seq(6, k => k + 1) }

  function LastSix(): seq<nat> { seq(6, k => k + 2) }

  lemma SixIds()
    ensures |FirstSix()| == LINEUP_SIZE && Distinct(FirstSix())
    ensures forall i: nat :: i in FirstSix() <==> 1 <= i <= 6
    ensures forall i: nat :: i in LastSix() <==> 2 <= i <= 7
  {
    forall i: nat | 1 <= i <= 6 ensures i in FirstSix() { assert FirstSix()[i - 1] == i; }
    forall i: nat | 2 <= i <= 7 ensures i in LastSix() { assert LastSix()[i - 2] == i; }
  }

  function SevenAssets(seventh: AssetState): map<nat, AssetState> {
    map i | i in FirstSix() + [7] :: if i == 7 then seventh else Priced(Finalized, Finalized)
  }

  /** The sides chose the first six and the last six of seven assets, and the first six are listed. */
  function TwoLineups(seventh: AssetState): Chain {
    var b := BattleState(PendingResult, 30, true, true, false, false, FirstSix(), LastSix(), FirstSix());
    Chain(Jupiter, 100, Settling, SevenAssets(seventh), map[0 := b])
  }

  lemma SevenAre(seventh: AssetState)
    ensures forall i: nat :: i in SevenAssets(seventh) <==> 1 <= i <= 7
    ensures forall i :: i in SevenAssets(seventh) ==>
              SevenAssets(seventh)[i] == if i == 7 then seventh else Priced(Finalized, Finalized)
  {
    SixIds();
    assert forall i :: i in FirstSix() + [7] <==> i in FirstSix() || i == 7;
  }

  lemma TwoLineupsFormed(seventh: AssetState)
    requires seventh.startDeadline < 100 && seventh.endDeadline < 100
    ensures WellFormed(TwoLineups(seventh)) && DeadlinesPassed(TwoLineups(seventh))
  {
    hide FirstSix, LastSix, Distinct, SevenAssets;
    var c := TwoLineups(seventh);
    SixIds();
    SevenAre(seventh);
    assert Selectable(c, FirstSix());
  }

  lemma FirstSixFinal(assets: map<nat, AssetState>)
    requires forall i: nat :: 1 <= i <= 6 ==> Final(assets, i)
    ensures AllFinal(assets, FirstSix())
    ensures AllFinal(assets, LastSix()) <==> Final(assets, 7)
  {
    hide FirstSix, LastSix, Final;
    SixIds();
  }

  lemma SixStayFinal(seventh: AssetState)
    ensures var c := TwoLineups(seventh);
            && (forall i: nat :: 1 <= i <= 6 ==> Final(c.assets, i) && Final(SettledAssets(c), i))
            && 7 in c.assets && c.assets[7] == seventh
            && 7 in SettledAssets(c) && SettledAssets(c)[7] == SettledAsset(100, seventh)
  {
    hide ReturnFits, SevenAssets;
    SevenAre(seventh);
    assert SettledAsset(100, Priced(Finalized, Finalized)) == Priced(Finalized, Finalized);
  }

  /** The unlisted asset is unavailable: the second side's scoring is planned and refused for ever. */
  lemma UnlistedAssetStalls(n: nat)
    ensures var c := TwoLineups(Priced(Finalized, Unavailable));
            WellFormed(c) && DeadlinesPassed(c) && NoneStuck(c) && !Finished(Advances(c, n))
  {
    hide AllFinal, AnyBroken, SettledAssets, Advances, ReturnQ9, FirstSix, LastSix, SevenAssets;
    var seventh := Priced(Finalized, Unavailable);
    var c := TwoLineups(seventh);
    SevenAre(seventh);
    TwoLineupsFormed(seventh);
    SixStayFinal(seventh);
    FirstSixFinal(SettledAssets(c));
    FinalNotBroken(SettledAssets(c), FirstSix());
    assert !Readable(c, c.battles[0]);
    NeverResolved(c, 0, n);
  }

  /** The unlisted asset's end becomes final in the batch that scores the side: sent first, the
      scoring is refused, and nothing is chained. */
  lemma UnlistedAssetRaces() returns (perm: seq<Action>)
    ensures var c := TwoLineups(Priced(Finalized, Pending));
            && WellFormed(c) && NoneChained(c)
            && multiset(perm) == multiset(Batch(c)) && ApplyAll(c, perm) != Advance(c)
  {
    hide AllFinal, AnyBroken, SettledAssets, ApplyAll, Batch, FirstSix, LastSix, SevenAssets;
    var seventh := Priced(Finalized, Pending);
    var c := TwoLineups(seventh);
    assert ReturnFits(seventh) by { ReturnExactly(100, 150); }
    SevenAre(seventh);
    TwoLineupsFormed(seventh);
    SixStayFinal(seventh);
    FirstSixFinal(c.assets);
    FirstSixFinal(SettledAssets(c));
    assert Final(SettledAssets(c), 7) && !Final(c.assets, 7);
    FinalNotBroken(c.assets, FirstSix());
    assert Racing(c, c.battles[0]);
    perm := RacingWitness(c, 0);
  }
}
