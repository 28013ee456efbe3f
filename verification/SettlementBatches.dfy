/** Runs of the settlement program under any senders, and the order in which one batch's
    instructions are executed. */
module SettlementBatches {
  import opened Wrappers
  import opened Sequences
  import opened Settlement
  import opened SettlementOrder
  import opened PriceReturn
  import opened SettlementChain
  import opened SettlementProgress

  // ----- any run -----

  /** An instruction sent by anybody, a system-incident void, the clock, or new reports. */
  datatype Event =
    | Sent(action: Action)
    | Incident(battle: nat)
    | ClockAt(now: int)
    | Reported(asset: nat, phase: Phase, quorum: bool, price: int)

  function Happen(c: Chain, e: Event): Chain {
    match e
    case Sent(action) => Apply(c, action)
    case Incident(j) =>
      if j in c.battles && c.battles[j].result == PendingResult
      then c.(battles := c.battles[j := c.battles[j].(result := VoidedResult)]) else c
    case ClockAt(now) => if now >= c.now then c.(now := now) else c
    case Reported(i, phase, quorum, price) =>
      if i in c.assets && price > 0
      then c.(assets := c.assets[i := Informed(c.source, c.assets[i], phase, quorum, price)]) else c
  }

  /** Reports are of positive prices, and change nothing once the phase is final. A Pyth account of
      evidence is created once: it is never withdrawn or rewritten. */
  function Informed(source: SourceKind, a: AssetState, phase: Phase, quorum: bool, price: int): AssetState {
    if StatusOf(a, phase) == Finalized then a
    else if source == Pyth && (!quorum || QuorumOf(a, phase)) then a
    else if phase == Start then a.(startQuorum := quorum, startPrice := price)
    else a.(endQuorum := quorum, endPrice := price)
  }

  function HappenAll(c: Chain, events: seq<Event>): Chain {
    if events == [] then c else Happen(HappenAll(c, events[..|events| - 1]), events[|events| - 1])
  }

  /** A side is scored only when the assets of its own lineup are final in both phases. */
  ghost predicate ScoredFromFinal(c: Chain) {
    forall j :: j in c.battles ==> SidesFinal(c.assets, c.battles[j])
  }

  ghost predicate SidesFinal(assets: map<nat, AssetState>, b: BattleState) {
    (b.scoredA ==> AllFinal(assets, b.lineupA)) && (b.scoredB ==> AllFinal(assets, b.lineupB))
  }

  ghost predicate AssetGoesOn(a: AssetState, a': AssetState) {
    && (a.start != Pending ==> a'.start != Pending) && (a.end != Pending ==> a'.end != Pending)
    && (a.start == Finalized ==> a'.start == Finalized) && (a.end == Finalized ==> a'.end == Finalized)
  }

  ghost predicate BattleGoesOn(b: BattleState, b': BattleState) {
    && b'.lineupA == b.lineupA && b'.lineupB == b.lineupB && b'.revealedA == b.revealedA && b'.revealedB == b.revealedB
    && b'.listed == b.listed && (b.result != PendingResult ==> b'.result == b.result)
    && (b.scoredA ==> b'.scoredA) && (b.scoredB ==> b'.scoredB)
  }

  /** Nothing resolved is undone. */
  ghost predicate GoesOn(c: Chain, d: Chain) {
    && d.assets.Keys == c.assets.Keys && d.battles.Keys == c.battles.Keys
    && (forall i :: i in c.assets ==> AssetGoesOn(c.assets[i], d.assets[i]))
    && (forall j :: j in c.battles ==> BattleGoesOn(c.battles[j], d.battles[j]))
  }

  lemma AssetActionGoesOn(source: SourceKind, now: int, a: AssetState, x: Action)
    ensures AssetGoesOn(a, AssetAfter(source, now, a, x))
  {
    hide ReturnFits;
  }

  lemma BattleActionGoesOn(assets: map<nat, AssetState>, now: int, b: BattleState, x: Action)
    ensures BattleGoesOn(b, BattleAfter(assets, now, b, x))
  {
    hide AllFinal, AnyBroken, Chosen;
  }

  lemma EventGoesOn(c: Chain, e: Event)
    ensures GoesOn(c, Happen(c, e))
  {
    hide AllFinal, AnyBroken, StateAfter, AssetAfter, BattleAfter;
    match e {
      case Sent(x) => {
        var i, j := AssetTarget(x), BattleTarget(x);
        if i.Some? && i.value in c.assets { AssetActionGoesOn(c.source, c.now, c.assets[i.value], x); }
        if j.Some? && j.value in c.battles { BattleActionGoesOn(c.assets, c.now, c.battles[j.value], x); }
      }
      case _ =>
    }
  }

  lemma FinalStays(c: Chain, d: Chain, ids: seq<nat>)
    requires GoesOn(c, d) && AllFinal(c.assets, ids)
    ensures AllFinal(d.assets, ids)
  {
    forall i | i in ids
      ensures Final(d.assets, i)
    {
      assert Final(c.assets, i) && AssetGoesOn(c.assets[i], d.assets[i]);
    }
  }

  lemma EventKeepsScores(c: Chain, e: Event)
    requires ScoredFromFinal(c)
    ensures ScoredFromFinal(Happen(c, e))
  {
    hide AllFinal, AnyBroken, EveryBattleResolved, EveryPhaseResolved, SomeBroken, ForfeitResult, AssetAfter, GoesOn;
    var d := Happen(c, e);
    EventGoesOn(c, e);
    SameBattles(c, d);
    forall j | j in d.battles ensures SidesFinal(d.assets, d.battles[j]) {
      assert SidesFinal(c.assets, c.battles[j]);
      if AllFinal(c.assets, d.battles[j].lineupA) { FinalStays(c, d, d.battles[j].lineupA); }
      if AllFinal(c.assets, d.battles[j].lineupB) { FinalStays(c, d, d.battles[j].lineupB); }
    }
  }

  lemma SameBattles(c: Chain, d: Chain)
    requires GoesOn(c, d)
    ensures d.battles.Keys == c.battles.Keys && d.assets.Keys == c.assets.Keys
    ensures forall j :: j in c.battles ==> BattleGoesOn(c.battles[j], d.battles[j])
  {
  }

  /** In every run, whoever sends what, resolved phases and Battles stay resolved, final phases
      stay final, and sides are scored only from assets final in both phases. */
  lemma {:induction false} RunIsSafe(c: Chain, events: seq<Event>)
    requires ScoredFromFinal(c)
    ensures GoesOn(c, HappenAll(c, events)) && ScoredFromFinal(HappenAll(c, events))
  {
    hide Happen, ScoredFromFinal;
    if events != [] {
      var init, last := events[..|events| - 1], events[|events| - 1];
      RunIsSafe(c, init);
      EventGoesOn(HappenAll(c, init), last);
      EventKeepsScores(HappenAll(c, init), last);
    }
  }

  ghost predicate ActsOnPhase(action: Action, i: nat, phase: Phase) {
    match action
    case FinalizePhase(_, asset, p) => asset == i && p == phase
    case MarkUnavailable(_, asset, p) => asset == i && p == phase
    case _ => false
  }

  /** A phase or Battle once resolved is never planned again, however long after and whatever else
      was sent in between. */
  lemma NeverActedOnAgain(c: Chain, events: seq<Event>, action: Action)
    requires ScoredFromFinal(c) && action in Batch(HappenAll(c, events))
    ensures forall i, phase :: i in c.assets && StatusOf(c.assets[i], phase) != Pending ==>
              !ActsOnPhase(action, i, phase)
    ensures forall j :: j in c.battles && c.battles[j].result != PendingResult ==> BattleTarget(action) != Some(j)
  {
    hide ScoredFromFinal, HappenAll, Plan, AnyBroken, AllFinal;
    var d := HappenAll(c, events);
    RunIsSafe(c, events);
    PlannedIsOpen(Indexed(d), action);
    forall i, phase | i in c.assets && StatusOf(c.assets[i], phase) != Pending ensures !ActsOnPhase(action, i, phase) {
      assert AssetGoesOn(c.assets[i], d.assets[i]);
      forall a | a in AssetList(d) && a.id == i
        ensures (if phase == Start then a.start else a.end) != Pending
      {
        ListedAsset(d, a);
      }
    }
    forall j | j in c.battles && c.battles[j].result != PendingResult ensures BattleTarget(action) != Some(j) {
      assert BattleGoesOn(c.battles[j], d.battles[j]);
      forall b | b in BattleList(d) && b.id == j ensures !b.pending { ListedBattle(d, b); }
    }
  }

  lemma ListedAsset(c: Chain, a: Asset)
    requires a in AssetList(c)
    ensures a.id in c.assets && a == IndexAsset(a.id, c.assets[a.id])
  {
    AscendingMeaning(c.assets.Keys);
    var ids := Ascending(c.assets.Keys);
    var k :| 0 <= k < |ids| && AssetList(c)[k] == a;
    assert ids[k] in ids;
  }

  // ----- unavailable phases -----

  ghost predicate ShowsStatus(c: Chain, i: nat, phase: Phase, status: PhaseStatus) {
    i in c.assets && StatusOf(c.assets[i], phase) == status
  }

  lemma EventKeepsUnavailable(c: Chain, e: Event, i: nat, phase: Phase)
    requires c.source != Pyth && ShowsStatus(c, i, phase, Unavailable)
    ensures Happen(c, e).source == c.source && ShowsStatus(Happen(c, e), i, phase, Unavailable)
  {
    hide AllFinal, AnyBroken, EveryBattleResolved, EveryPhaseResolved, SomeBroken, ReturnFits, BattleAfter;
  }

  /** Outside Pyth an unavailable phase stays unavailable over every run. */
  lemma {:induction false} UnavailableStays(c: Chain, events: seq<Event>, i: nat, phase: Phase)
    requires c.source != Pyth && ShowsStatus(c, i, phase, Unavailable)
    ensures HappenAll(c, events).source == c.source && ShowsStatus(HappenAll(c, events), i, phase, Unavailable)
  {
    hide Happen;
    if events != [] {
      UnavailableStays(c, events[..|events| - 1], i, phase);
      EventKeepsUnavailable(HappenAll(c, events[..|events| - 1]), events[|events| - 1], i, phase);
    }
  }

  /** Prices that are final or recorded as evidence are positive. */
  predicate PricesPositive(a: AssetState) {
    (a.start == Finalized || a.startQuorum ==> a.startPrice > 0) && (a.endQuorum ==> a.endPrice > 0)
  }

  /** The start price can no longer change: it is final, or recorded as evidence. */
  predicate StartFixed(a: AssetState) { a.start == Finalized || a.startQuorum }

  /** Both prices are fixed and no return can be computed from them. */
  predicate Unreturnable(a: AssetState) { StartFixed(a) && a.endQuorum && !ReturnFits(a) }

  lemma EventKeepsUnreturnable(c: Chain, e: Event, i: nat)
    requires c.source == Pyth && i in c.assets && Unreturnable(c.assets[i]) && c.assets[i].end != Finalized
    ensures var d := Happen(c, e);
            d.source == Pyth && i in d.assets && Unreturnable(d.assets[i]) && d.assets[i].end != Finalized
  {
    hide AllFinal, AnyBroken, EveryBattleResolved, EveryPhaseResolved, SomeBroken, ReturnQ9, BattleAfter;
  }

  /** An end whose recorded prices give no return is never final under Pyth. */
  lemma {:induction false} UnreturnableStays(c: Chain, events: seq<Event>, i: nat)
    requires c.source == Pyth && i in c.assets && Unreturnable(c.assets[i]) && c.assets[i].end != Finalized
    ensures var d := HappenAll(c, events);
            d.source == Pyth && i in d.assets && Unreturnable(d.assets[i]) && d.assets[i].end != Finalized
  {
    hide Happen, Unreturnable;
    if events != [] {
      UnreturnableStays(c, events[..|events| - 1], i);
      EventKeepsUnreturnable(HappenAll(c, events[..|events| - 1]), events[|events| - 1], i);
    }
  }

  /** Evidence of a price for the start, its finalization, evidence of the same price for the end, and
      its finalization. */
  function Recovery(i: nat, price: int): seq<Event> {
    [Reported(i, Start, true, price), Sent(FinalizePhase(Pyth, i, Start)),
     Reported(i, End, true, price), Sent(FinalizePhase(Pyth, i, End))]
  }

  /** A price that leaves no return to overflow, where there is a choice. */
  function RecoveryPrice(a: AssetState): int {
    if StartFixed(a) then a.startPrice else if a.endQuorum then a.endPrice else 1
  }

  lemma HappenOne(c: Chain, events: seq<Event>, e: Event)
    ensures HappenAll(c, events + [e]) == Happen(HappenAll(c, events), e)
  {
    hide Happen;
    assert (events + [e])[..|events|] == events;
  }

  /** Unless its recorded prices give no return, an end that is not final can be made so under Pyth. */
  lemma PythRecovers(c: Chain, i: nat)
    requires c.source == Pyth && i in c.assets && c.assets[i].end != Finalized
    requires PricesPositive(c.assets[i]) && !Unreturnable(c.assets[i])
    ensures ShowsStatus(HappenAll(c, Recovery(i, RecoveryPrice(c.assets[i]))), i, End, Finalized)
  {
    hide Happen, HappenAll, Unreturnable, PricesPositive, RecoveryPrice;
    var price := RecoveryPrice(c.assets[i]);
    var es := Recovery(i, price);
    NoEvents(c);
    HappenOne(c, [], es[0]);
    HappenOne(c, [es[0]], es[1]);
    HappenOne(c, [es[0], es[1]], es[2]);
    HappenOne(c, [es[0], es[1], es[2]], es[3]);
    assert [] + [es[0]] == [es[0]] && [es[0]] + [es[1]] == [es[0], es[1]];
    assert [es[0], es[1]] + [es[2]] == [es[0], es[1], es[2]] && [es[0], es[1], es[2]] + [es[3]] == es;
    StartRecovers(c, i, price);
    EndRecovers(Happen(Happen(c, es[0]), es[1]), i, price);
  }

  lemma NoEvents(c: Chain)
    ensures HappenAll(c, []) == c
  {
  }

  /** The start is final at the price, and the end can still be. */
  predicate HalfRecovered(a: AssetState, price: int) {
    && a.start == Finalized && a.startPrice == price && price > 0 && a.end != Finalized
    && (a.endQuorum ==> ReturnFits(a))
  }

  lemma StartRecovers(c: Chain, i: nat, price: int)
    requires c.source == Pyth && i in c.assets && c.assets[i].end != Finalized && price == RecoveryPrice(c.assets[i])
    requires PricesPositive(c.assets[i]) && !Unreturnable(c.assets[i])
    ensures var d := Happen(Happen(c, Reported(i, Start, true, price)), Sent(FinalizePhase(Pyth, i, Start)));
            d.source == Pyth && i in d.assets && HalfRecovered(d.assets[i], price)
  {
    hide AllFinal, AnyBroken, EveryBattleResolved, EveryPhaseResolved, SomeBroken, ReturnQ9, BattleAfter;
    if !StartFixed(c.assets[i]) && c.assets[i].endQuorum { NoChange(price); }
  }

  lemma EndRecovers(c: Chain, i: nat, price: int)
    requires c.source == Pyth && i in c.assets && HalfRecovered(c.assets[i], price)
    ensures var d := Happen(Happen(c, Reported(i, End, true, price)), Sent(FinalizePhase(Pyth, i, End)));
            ShowsStatus(d, i, End, Finalized)
  {
    hide AllFinal, AnyBroken, EveryBattleResolved, EveryPhaseResolved, SomeBroken, BattleAfter, ReturnQ9;
    NoChange(price);
  }

  /** A phase marked unavailable can still become final if and only if the source is Pyth and, for an
      end, its recorded price and the fixed start price, if there are both, give a return. */
  lemma UnavailableRecoversExactly(c: Chain, i: nat, phase: Phase)
    requires ShowsStatus(c, i, phase, Unavailable) && PricesPositive(c.assets[i])
    ensures c.source == Pyth && (phase == End ==> !Unreturnable(c.assets[i]))
            <==> exists events :: ShowsStatus(HappenAll(c, events), i, phase, Finalized)
  {
    hide HappenAll, Unreturnable, PricesPositive, ReturnFits;
    if c.source != Pyth {
      forall events ensures !ShowsStatus(HappenAll(c, events), i, phase, Finalized) {
        UnavailableStays(c, events, i, phase);
      }
    } else if phase == Start {
      StartAlone(c, i);
    } else if Unreturnable(c.assets[i]) {
      forall events ensures !ShowsStatus(HappenAll(c, events), i, phase, Finalized) { UnreturnableStays(c, events, i); }
    } else {
      PythRecovers(c, i);
    }
  }

  lemma StartAlone(c: Chain, i: nat)
    requires c.source == Pyth && ShowsStatus(c, i, Start, Unavailable)
    ensures exists events :: ShowsStatus(HappenAll(c, events), i, Start, Finalized)
  {
    hide AllFinal, AnyBroken, EveryBattleResolved, EveryPhaseResolved, SomeBroken, ReturnFits, BattleAfter, HappenAll;
    var first, second := Reported(i, Start, true, 1), Sent(FinalizePhase(Pyth, i, Start));
    NoEvents(c);
    HappenOne(c, [], first);
    HappenOne(c, [first], second);
    assert [] + [first] == [first] && ShowsStatus(HappenAll(c, [first] + [second]), i, Start, Finalized);
  }

  // ----- the order within a batch -----

  /** Neither refers to the whole round; on one asset they concern different phases; on one Battle
      they score different sides. */
  predicate Compatible(x: Action, y: Action) {
    && !x.AdvanceRound? && !y.AdvanceRound? && !x.FinalizeRound? && !y.FinalizeRound?
    && (AssetTarget(x).Some? && AssetTarget(x) == AssetTarget(y) ==> x.phase != y.phase)
    && (BattleTarget(x).Some? && BattleTarget(x) == BattleTarget(y) ==>
          x.SettleSide? && y.SettleSide? && x.side != y.side)
  }

  /** On the way from here to the settled assets: what is resolved is resolved as it will be. */
  ghost predicate Within(assets: map<nat, AssetState>, settled: map<nat, AssetState>) {
    forall i :: i in assets ==> i in settled && OnTheWay(assets[i], settled[i])
  }

  predicate OnTheWay(a: AssetState, s: AssetState) {
    && (a.start != Pending ==> s.start == a.start) && (a.end != Pending ==> s.end == a.end)
    && s.startPrice == a.startPrice && s.endPrice == a.endPrice
  }

  /** What the plan guarantees, with nothing chained or racing: a phase instruction that is accepted
      has the settled outcome, an end is finalized now or not in this batch, and a Battle
      instruction the settled assets allow is allowed now. */
  ghost predicate Ready(c: Chain, settled: map<nat, AssetState>, action: Action) {
    match action
    case FinalizePhase(_, i, phase) =>
      i in c.assets && i in settled ==> FinalizeReady(c.source, c.now, c.assets[i], settled[i], phase)
    case MarkUnavailable(_, i, phase) =>
      i in c.assets && i in settled && CanMark(c.source, c.now, c.assets[i], phase) ==>
        StatusOf(settled[i], phase) == Unavailable
    case SettleSide(j, side) => j in c.battles ==> SideReady(c.assets, settled, c.battles[j], side)
    case VoidPriceUnavailable(j) =>
      j in c.battles && AnyBroken(settled, Chosen(c.battles[j])) ==> AnyBroken(c.assets, Chosen(c.battles[j]))
    case _ => true
  }

  predicate FinalizeReady(source: SourceKind, now: int, a: AssetState, s: AssetState, phase: Phase) {
    && StatusOf(a, phase) != Unavailable
    && (CanFinalize(source, now, a, phase) ==> StatusOf(s, phase) == Finalized)
    && (phase == End ==> a.start == Finalized || s.start != Finalized || !ReturnFits(a))
  }

  ghost predicate SideReady(assets: map<nat, AssetState>, settled: map<nat, AssetState>, b: BattleState, side: nat) {
    && (side == 0 && AllFinal(settled, b.lineupA) ==> AllFinal(assets, b.lineupA))
    && (side == 1 && AllFinal(settled, b.lineupB) ==> AllFinal(assets, b.lineupB))
  }

  // Along the way an asset list that is final or broken is so when settled.
  lemma WithinGuards(assets: map<nat, AssetState>, settled: map<nat, AssetState>, ids: seq<nat>)
    requires Within(assets, settled)
    ensures AllFinal(assets, ids) ==> AllFinal(settled, ids)
    ensures AnyBroken(assets, ids) ==> AnyBroken(settled, ids)
  {
    if AllFinal(assets, ids) {
      forall i | i in ids ensures Final(settled, i) { assert Final(assets, i) && OnTheWay(assets[i], settled[i]); }
    }
    if AnyBroken(assets, ids) {
      var i :| i in ids && Broken(assets, i);
      assert OnTheWay(assets[i], settled[i]) && Broken(settled, i);
    }
  }

  lemma AssetStaysOnTheWay(source: SourceKind, now: int, a: AssetState, s: AssetState, x: Action)
    requires OnTheWay(a, s)
    requires x.FinalizePhase? ==> FinalizeReady(source, now, a, s, x.phase)
    requires x.MarkUnavailable? && CanMark(source, now, a, x.phase) ==> StatusOf(s, x.phase) == Unavailable
    ensures OnTheWay(AssetAfter(source, now, a, x), s)
  {
    hide ReturnFits;
  }

  lemma StaysWithin(c: Chain, settled: map<nat, AssetState>, x: Action)
    requires Within(c.assets, settled) && Ready(c, settled, x)
    ensures Within(Apply(c, x).assets, settled)
  {
    hide AssetAfter, OnTheWay, BattlesAfter, StateAfter, FinalizeReady, CanMark, AllFinal, AnyBroken, SideReady;
    var t := AssetTarget(x);
    if t.Some? && t.value in c.assets {
      assert OnTheWay(c.assets[t.value], settled[t.value]);
      AssetStaysOnTheWay(c.source, c.now, c.assets[t.value], settled[t.value], x);
    }
  }

  lemma AssetsCommute(source: SourceKind, now: int, a: AssetState, s: AssetState, x: Action, y: Action)
    requires (x.FinalizePhase? || x.MarkUnavailable?) && (y.FinalizePhase? || y.MarkUnavailable?) && x.phase != y.phase
    requires OnTheWay(a, s)
    requires x.FinalizePhase? ==> FinalizeReady(source, now, a, s, x.phase)
    requires y.FinalizePhase? ==> FinalizeReady(source, now, a, s, y.phase)
    ensures AssetAfter(source, now, AssetAfter(source, now, a, x), y)
              == AssetAfter(source, now, AssetAfter(source, now, a, y), x)
  {
    hide ReturnQ9;
  }

  lemma SidesCommute(assets: map<nat, AssetState>, now: int, b: BattleState, x: Action, y: Action)
    requires x.SettleSide? && y.SettleSide? && x.side != y.side
    ensures BattleAfter(assets, now, BattleAfter(assets, now, b, x), y)
              == BattleAfter(assets, now, BattleAfter(assets, now, b, y), x)
  {
    hide AllFinal;
  }

  lemma FinalKept(c: Chain, x: Action, ids: seq<nat>)
    requires AllFinal(c.assets, ids)
    ensures AllFinal(AssetsAfter(c, x), ids)
  {
    forall i | i in ids ensures Final(AssetsAfter(c, x), i) { assert Final(c.assets, i); }
  }

  lemma BrokenKept(c: Chain, settled: map<nat, AssetState>, x: Action, ids: seq<nat>)
    requires AnyBroken(c.assets, ids) && Ready(c, settled, x) && Within(c.assets, settled)
    ensures AnyBroken(AssetsAfter(c, x), ids)
  {
    var i :| i in ids && Broken(c.assets, i);
    assert OnTheWay(c.assets[i], settled[i]);
    assert Broken(AssetsAfter(c, x), i);
  }

  lemma ReadyKept(c: Chain, settled: map<nat, AssetState>, x: Action, y: Action)
    requires Ready(c, settled, x) && Ready(c, settled, y) && Compatible(x, y) && Within(c.assets, settled)
    ensures Ready(Apply(c, x), settled, y)
  {
    hide AllFinal, AnyBroken, BattleAfter, AssetAfter, FinalizeReady, CanMark, GoesOn;
    var d := Apply(c, x);
    EventGoesOn(c, Sent(x));
    SameBattles(c, d);
    match y {
      case SettleSide(j, _) => if j in c.battles {
        var b := c.battles[j];
        if AllFinal(c.assets, b.lineupA) { FinalKept(c, x, b.lineupA); }
        if AllFinal(c.assets, b.lineupB) { FinalKept(c, x, b.lineupB); }
      }
      case VoidPriceUnavailable(j) => if j in c.battles && AnyBroken(c.assets, Chosen(c.battles[j])) {
        BrokenKept(c, settled, x, Chosen(c.battles[j]));
      }
      case FinalizePhase(_, i, phase) => if i in c.assets && i in settled { PhaseKept(c, settled, x, y, i); }
      case MarkUnavailable(_, i, phase) => if i in c.assets && i in settled { PhaseKept(c, settled, x, y, i); }
      case _ =>
    }
  }

  lemma PhaseKept(c: Chain, settled: map<nat, AssetState>, x: Action, y: Action, i: nat)
    requires Ready(c, settled, x) && Ready(c, settled, y) && Compatible(x, y) && Within(c.assets, settled)
    requires AssetTarget(y) == Some(i) && i in c.assets && i in settled
    ensures Ready(Apply(c, x), settled, y)
  {
    hide AllFinal, AnyBroken, EveryBattleResolved, EveryPhaseResolved, SomeBroken, BattleAfter, AssetAfter,
      FinalizeReady, CanMark, OnTheWay;
    assert OnTheWay(c.assets[i], settled[i]);
    if AssetTarget(x) == Some(i) { AssetReadyKept(c.source, c.now, c.assets[i], settled[i], x, y); }
  }

  lemma AssetReadyKept(source: SourceKind, now: int, a: AssetState, s: AssetState, x: Action, y: Action)
    requires (x.FinalizePhase? || x.MarkUnavailable?) && (y.FinalizePhase? || y.MarkUnavailable?) && x.phase != y.phase
    requires OnTheWay(a, s)
    requires x.FinalizePhase? ==> FinalizeReady(source, now, a, s, x.phase)
    requires y.FinalizePhase? ==> FinalizeReady(source, now, a, s, y.phase)
    requires y.MarkUnavailable? && CanMark(source, now, a, y.phase) ==> StatusOf(s, y.phase) == Unavailable
    ensures y.FinalizePhase? ==> FinalizeReady(source, now, AssetAfter(source, now, a, x), s, y.phase)
    ensures y.MarkUnavailable? && CanMark(source, now, AssetAfter(source, now, a, x), y.phase) ==>
              StatusOf(s, y.phase) == Unavailable
  {
    hide ReturnQ9;
  }

  /** The guard of a planned Battle action reads the same before and after a phase action. */
  lemma BattleAfterSame(c: Chain, settled: map<nat, AssetState>, x: Action, y: Action, j: nat)
    requires BattleTarget(y) == Some(j) && j in c.battles && BattleTarget(x).None?
    requires Ready(c, settled, x) && Ready(c, settled, y) && Within(c.assets, settled)
    ensures BattleAfter(AssetsAfter(c, x), c.now, c.battles[j], y) == BattleAfter(c.assets, c.now, c.battles[j], y)
  {
    hide AllFinal, AnyBroken, AssetsAfter, Within, FinalizeReady, CanMark;
    var b := c.battles[j];
    StaysWithin(c, settled, x);
    WithinGuards(AssetsAfter(c, x), settled, b.lineupA);
    WithinGuards(AssetsAfter(c, x), settled, b.lineupB);
    WithinGuards(AssetsAfter(c, x), settled, Chosen(b));
    if AllFinal(c.assets, b.lineupA) { FinalKept(c, x, b.lineupA); }
    if AllFinal(c.assets, b.lineupB) { FinalKept(c, x, b.lineupB); }
    if AnyBroken(c.assets, Chosen(b)) { BrokenKept(c, settled, x, Chosen(b)); }
  }

  /** Two planned instructions that are ready and compatible may be executed in either order. */
  lemma PairCommutes(c: Chain, settled: map<nat, AssetState>, x: Action, y: Action)
    requires Ready(c, settled, x) && Ready(c, settled, y) && Compatible(x, y) && Within(c.assets, settled)
    ensures Apply(Apply(c, x), y) == Apply(Apply(c, y), x)
  {
    hide AssetAfter, BattleAfter, Ready, AllFinal, AnyBroken, Within;
    AssetSideCommutes(c, settled, x, y);
    BattleSideCommutes(c, settled, x, y);
  }

  lemma AssetSideCommutes(c: Chain, settled: map<nat, AssetState>, x: Action, y: Action)
    requires Ready(c, settled, x) && Ready(c, settled, y) && Compatible(x, y) && Within(c.assets, settled)
    ensures Apply(Apply(c, x), y).assets == Apply(Apply(c, y), x).assets
  {
    hide AssetAfter, BattlesAfter, FinalizeReady, CanMark, OnTheWay, AllFinal, AnyBroken;
    if AssetTarget(x).Some? && AssetTarget(x) == AssetTarget(y) && AssetTarget(x).value in c.assets {
      var i := AssetTarget(x).value;
      assert OnTheWay(c.assets[i], settled[i]);
      AssetsCommute(c.source, c.now, c.assets[i], settled[i], x, y);
    }
  }

  lemma BattleSideCommutes(c: Chain, settled: map<nat, AssetState>, x: Action, y: Action)
    requires Ready(c, settled, x) && Ready(c, settled, y) && Compatible(x, y) && Within(c.assets, settled)
    ensures Apply(Apply(c, x), y).battles == Apply(Apply(c, y), x).battles
  {
    hide Ready, Within, BattleAfter;
    if BattleTarget(x).Some? && BattleTarget(y).Some? {
      BothBattles(c, x, y);
    } else if BattleTarget(y).Some? {
      OneBattle(c, settled, x, y);
    } else if BattleTarget(x).Some? {
      OneBattle(c, settled, y, x);
    }
  }

  lemma BothBattles(c: Chain, x: Action, y: Action)
    requires BattleTarget(x).Some? && BattleTarget(y).Some? && Compatible(x, y)
    ensures Apply(Apply(c, x), y).battles == Apply(Apply(c, y), x).battles
  {
    hide BattleAfter;
    assert Apply(c, x).assets == c.assets && Apply(c, y).assets == c.assets;
    if BattleTarget(x) == BattleTarget(y) && BattleTarget(x).value in c.battles {
      SidesCommute(c.assets, c.now, c.battles[BattleTarget(x).value], x, y);
    }
  }

  lemma OneBattle(c: Chain, settled: map<nat, AssetState>, x: Action, y: Action)
    requires BattleTarget(x).None? && BattleTarget(y).Some?
    requires Ready(c, settled, x) && Ready(c, settled, y) && Within(c.assets, settled)
    ensures Apply(Apply(c, x), y).battles == Apply(Apply(c, y), x).battles
  {
    hide BattleAfter, AssetsAfter, AllFinal, AnyBroken, Ready, Within;
    var j := BattleTarget(y).value;
    if j in c.battles { BattleAfterSame(c, settled, x, y, j); }
  }

  ghost predicate AllCompatible(actions: seq<Action>) {
    forall i, j :: 0 <= i < |actions| && 0 <= j < |actions| && i != j ==> Compatible(actions[i], actions[j])
  }

  ghost predicate AllReady(c: Chain, settled: map<nat, AssetState>, actions: seq<Action>) {
    Within(c.assets, settled) && forall x :: x in actions ==> Ready(c, settled, x)
  }

  lemma RestReady(c: Chain, settled: map<nat, AssetState>, actions: seq<Action>)
    requires actions != [] && AllCompatible(actions) && AllReady(c, settled, actions)
    ensures AllReady(Apply(c, actions[0]), settled, actions[1..]) && AllCompatible(actions[1..])
  {
    hide Compatible, Ready, Within;
    StaysWithin(c, settled, actions[0]);
    forall x | x in actions[1..] ensures Ready(Apply(c, actions[0]), settled, x) {
      var k :| 0 <= k < |actions[1..]| && actions[1..][k] == x;
      assert Compatible(actions[0], actions[k + 1]) && actions[0] in actions && actions[k + 1] in actions;
      ReadyKept(c, settled, actions[0], x);
    }
    forall i, j | 0 <= i < |actions[1..]| && 0 <= j < |actions[1..]| && i != j
      ensures Compatible(actions[1..][i], actions[1..][j])
    {
      assert Compatible(actions[i + 1], actions[j + 1]);
    }
  }

  lemma ApplyFirst(c: Chain, actions: seq<Action>)
    requires actions != []
    ensures ApplyAll(c, actions) == ApplyAll(Apply(c, actions[0]), actions[1..])
  {
    hide ApplyAll, Apply;
    assert actions == [actions[0]] + actions[1..];
    ApplyConcat(c, [actions[0]], actions[1..]);
    ApplyOne(c, actions[0]);
  }

  /** An instruction anywhere in the batch may be executed first. */
  lemma {:induction false} BringForward(c: Chain, settled: map<nat, AssetState>, actions: seq<Action>, k: nat)
    requires k < |actions| && AllCompatible(actions) && AllReady(c, settled, actions)
    ensures ApplyAll(c, actions) == ApplyAll(Apply(c, actions[k]), RemoveAt(actions, k))
    decreases |actions|
  {
    hide ApplyAll, Apply, Compatible, Ready, AllReady, Within;
    ApplyFirst(c, actions);
    if k == 0 {
      assert RemoveAt(actions, 0) == actions[1..];
    } else {
      var first, x, rest := actions[0], actions[k], actions[1..];
      RestReady(c, settled, actions);
      assert rest[k - 1] == x;
      BringForward(Apply(c, first), settled, rest, k - 1);
      assert Compatible(first, x);
      ReadyAt(c, settled, actions, 0);
      ReadyAt(c, settled, actions, k);
      PairCommutes(c, settled, first, x);
      var removed := RemoveAt(actions, k);
      assert removed[0] == first && removed[1..] == RemoveAt(rest, k - 1);
      ApplyFirst(Apply(c, x), removed);
    }
  }

  lemma ReadyAt(c: Chain, settled: map<nat, AssetState>, actions: seq<Action>, k: nat)
    requires AllReady(c, settled, actions) && k < |actions|
    ensures Ready(c, settled, actions[k]) && Within(c.assets, settled)
  {
    hide Ready, Within;
    assert actions[k] in actions;
  }

  /** Compatible, ready instructions have one joint effect, in whatever order they are executed. */
  lemma {:induction false} OrderIrrelevant(c: Chain, settled: map<nat, AssetState>, actions: seq<Action>,
                                           perm: seq<Action>)
    requires multiset(actions) == multiset(perm) && AllCompatible(actions) && AllReady(c, settled, actions)
    ensures ApplyAll(c, perm) == ApplyAll(c, actions)
    decreases |actions|
  {
    hide ApplyAll, Apply, Compatible, Ready, RemoveAt, AllReady, AllCompatible;
    SameLength(actions, perm);
    if actions != [] {
      var k := FirstIn(actions, perm);
      BringForward(c, settled, actions, k);
      ApplyFirst(c, perm);
      MovedReady(c, settled, actions, k);
      OrderIrrelevant(Apply(c, actions[k]), settled, RemoveAt(actions, k), perm[1..]);
    } else {
      assert perm == actions;
    }
  }

  lemma FirstIn(actions: seq<Action>, perm: seq<Action>) returns (k: nat)
    requires multiset(actions) == multiset(perm) && perm != []
    ensures k < |actions| && actions[k] == perm[0] && multiset(RemoveAt(actions, k)) == multiset(perm[1..])
  {
    SameElements(actions, perm, perm[0]);
    k :| 0 <= k < |actions| && actions[k] == perm[0];
    RemoveAtMultiset(actions, k);
    RemoveAtMultiset(perm, 0);
    assert RemoveAt(perm, 0) == perm[1..];
    assert multiset(RemoveAt(actions, k)) == multiset(actions) - multiset{perm[0]};
    assert multiset(perm[1..]) == multiset(perm) - multiset{perm[0]};
  }

  lemma MovedReady(c: Chain, settled: map<nat, AssetState>, actions: seq<Action>, k: nat)
    requires k < |actions| && AllCompatible(actions) && AllReady(c, settled, actions)
    ensures AllReady(Apply(c, actions[k]), settled, RemoveAt(actions, k)) && AllCompatible(RemoveAt(actions, k))
  {
    hide Compatible, Ready, Within;
    var rest := RemoveAt(actions, k);
    assert actions[k] in actions;
    StaysWithin(c, settled, actions[k]);
    forall x | x in rest ensures Ready(Apply(c, actions[k]), settled, x) {
      var i :| 0 <= i < |rest| && rest[i] == x;
      var j := if i < k then i else i + 1;
      assert rest[i] == actions[j] && actions[j] in actions && actions[k] in actions;
      assert Compatible(actions[k], actions[j]);
      ReadyKept(c, settled, actions[k], x);
    }
    forall i, j | 0 <= i < |rest| && 0 <= j < |rest| && i != j ensures Compatible(rest[i], rest[j]) {
      assert Compatible(actions[if i < k then i else i + 1], actions[if j < k then j else j + 1]);
    }
  }

  // ----- one planned batch -----

  /** Both phases of the asset are due and have a quorum, and the return fits: the end becomes final
      only if its start does so before it. */
  predicate Chained(now: int, a: AssetState) {
    && a.start == Pending && now > a.startDeadline && a.startQuorum
    && a.end == Pending && now > a.endDeadline && a.endQuorum && ReturnFits(a)
  }

  ghost predicate NoneChained(c: Chain) { forall i :: i in c.assets ==> !Chained(c.now, c.assets[i]) }

  /** A scoring is planned of a side whose lineup becomes final in the same batch. */
  ghost predicate SideRacing(c: Chain, scored: bool, lineup: seq<nat>) {
    !scored && AllFinal(SettledAssets(c), lineup) && !AllFinal(c.assets, lineup)
  }

  /** A void is planned for lineups that first lose a price in the same batch, or a scoring of a side
      whose lineup becomes final in it. */
  ghost predicate Racing(c: Chain, b: BattleState) {
    && b.result == PendingResult
    && if AnyBroken(c.assets, b.listed) && (b.revealedA || b.revealedB)
       then AnyBroken(SettledAssets(c), Chosen(b)) && !AnyBroken(c.assets, Chosen(b))
       else b.revealedA && b.revealedB && !(b.scoredA && b.scoredB) && AllFinal(c.assets, b.listed)
            && (SideRacing(c, b.scoredA, b.lineupA) || SideRacing(c, b.scoredB, b.lineupB))
  }

  ghost predicate NoneRacing(c: Chain) { forall j :: j in c.battles ==> !Racing(c, c.battles[j]) }

  lemma {:induction false} FromAsset(s: Snapshot, list: seq<Asset>, x: Action) returns (k: nat)
    requires x in AllAssetActions(s, list)
    ensures k < |list| && x in AssetActions(s, list[k])
  {
    hide AssetActions;
    if x in AssetActions(s, list[|list| - 1]) {
      k := |list| - 1;
    } else {
      k := FromAsset(s, list[..|list| - 1], x);
    }
  }

  lemma {:induction false} FromBattle(s: Snapshot, list: seq<Battle>, x: Action) returns (k: nat)
    requires x in AllBattleActions(s, list)
    ensures k < |list| && x in BattleActions(s, list[k])
  {
    hide BattleActions;
    if x in BattleActions(s, list[|list| - 1]) {
      k := |list| - 1;
    } else {
      k := FromBattle(s, list[..|list| - 1], x);
    }
  }

  lemma CompatibleConcat(x: seq<Action>, y: seq<Action>)
    requires AllCompatible(x) && AllCompatible(y)
    requires forall a, b :: a in x && b in y ==> Compatible(a, b) && Compatible(b, a)
    ensures AllCompatible(x + y)
  {
    hide Compatible;
    var z := x + y;
    forall i, j | 0 <= i < |z| && 0 <= j < |z| && i != j ensures Compatible(z[i], z[j]) {
      if i < |x| && j < |x| {
        assert Compatible(x[i], x[j]);
      } else if i >= |x| && j >= |x| {
        assert Compatible(y[i - |x|], y[j - |x|]);
      } else if i < |x| {
        assert x[i] in x && y[j - |x|] in y;
      } else {
        assert x[j] in x && y[i - |x|] in y;
      }
    }
  }

  lemma {:induction false} AssetListCompatible(s: Snapshot, list: seq<Asset>)
    requires Distinct(Ids(list)) && forall a :: a in list ==> AllCompatible(AssetActions(s, a))
    ensures AllCompatible(AllAssetActions(s, list))
  {
    hide AssetActions, AllCompatible;
    if list != [] {
      var init, last := list[..|list| - 1], list[|list| - 1];
      assert list == init + [last];
      assert Ids(list) == Ids(init) + [last.id];
      DistinctPush(Ids(init), last.id);
      AssetListCompatible(s, init);
      forall x, y | x in AllAssetActions(s, init) && y in AssetActions(s, last)
        ensures Compatible(x, y) && Compatible(y, x)
      {
        var k := FromAsset(s, init, x);
        assert Ids(init)[k] == init[k].id;
        AssetTargets(s, init[k], x);
        AssetTargets(s, last, y);
      }
      CompatibleConcat(AllAssetActions(s, init), AssetActions(s, last));
    } else {
      NoActionsCompatible();
    }
  }

  lemma NoActionsCompatible()
    ensures AllCompatible([])
  {
  }

  lemma AssetTargets(s: Snapshot, a: Asset, x: Action)
    requires x in AssetActions(s, a)
    ensures AssetTarget(x) == Some(a.id) && BattleTarget(x) == None && !x.AdvanceRound? && !x.FinalizeRound?
  {
  }

  lemma BattleTargets(s: Snapshot, b: Battle, x: Action)
    requires x in BattleActions(s, b)
    ensures BattleTarget(x) == Some(b.id) && AssetTarget(x) == None && !x.AdvanceRound? && !x.FinalizeRound?
  {
  }

  lemma OneBattleCompatible(s: Snapshot, b: Battle)
    ensures AllCompatible(BattleActions(s, b))
  {
  }

  lemma OneAssetCompatible(s: Snapshot, a: Asset)
    ensures AllCompatible(AssetActions(s, a))
  {
  }

  lemma {:induction false} BattleListCompatible(s: Snapshot, list: seq<Battle>)
    requires Distinct(BattleIds(list))
    ensures AllCompatible(AllBattleActions(s, list))
  {
    hide BattleActions, AllCompatible;
    if list != [] {
      var init, last := list[..|list| - 1], list[|list| - 1];
      assert list == init + [last];
      assert BattleIds(list) == BattleIds(init) + [last.id];
      DistinctPush(BattleIds(init), last.id);
      BattleListCompatible(s, init);
      OneBattleCompatible(s, last);
      forall x, y | x in AllBattleActions(s, init) && y in BattleActions(s, last)
        ensures Compatible(x, y) && Compatible(y, x)
      {
        var k := FromBattle(s, init, x);
        assert BattleIds(init)[k] == init[k].id;
        BattleTargets(s, init[k], x);
        BattleTargets(s, last, y);
      }
      CompatibleConcat(AllBattleActions(s, init), BattleActions(s, last));
    } else {
      NoActionsCompatible();
    }
  }

  lemma CrossCompatible(s: Snapshot, assets: seq<Asset>, battles: seq<Battle>, x: Action, y: Action)
    requires x in AllAssetActions(s, assets) && y in AllBattleActions(s, battles)
    ensures Compatible(x, y) && Compatible(y, x)
  {
    hide AssetActions, BattleActions, AllAssetActions, AllBattleActions;
    var k := FromAsset(s, assets, x);
    var l := FromBattle(s, battles, y);
    AssetTargets(s, assets[k], x);
    BattleTargets(s, battles[l], y);
  }

  lemma WorkCompatible(c: Chain)
    ensures AllCompatible(WorkActions(Indexed(c)))
  {
    hide AssetActions, BattleActions, AllCompatible, Chained, AllAssetActions, AllBattleActions, AssetList, BattleList,
      Compatible,
      Distinct, Ids;
    var s := Indexed(c);
    ListsSorted(c);
    ListedIds(c);
    forall a | a in AssetList(c) ensures AllCompatible(AssetActions(s, a)) {
      OneAssetCompatible(s, a);
    }
    AssetListCompatible(s, AssetList(c));
    BattleListCompatible(s, BattleList(c));
    forall x, y | x in AllAssetActions(s, AssetList(c)) && y in AllBattleActions(s, BattleList(c))
      ensures Compatible(x, y) && Compatible(y, x)
    {
      CrossCompatible(s, AssetList(c), BattleList(c), x, y);
    }
    CompatibleConcat(AllAssetActions(s, AssetList(c)), AllBattleActions(s, BattleList(c)));
  }

  lemma AssetReady(c: Chain, i: nat, x: Action)
    requires i in c.assets && x in AssetActions(Indexed(c), IndexAsset(i, c.assets[i])) && !Chained(c.now, c.assets[i])
    ensures Ready(c, SettledAssets(c), x)
  {
    hide AssetList, BattleList, AllFinal, AnyBroken, ReturnQ9;
  }

  lemma BattleReady(c: Chain, j: nat, x: Action)
    requires j in c.battles && x in BattleActions(Indexed(c), IndexBattle(c.assets, j, c.battles[j]))
             && !Racing(c, c.battles[j])
    ensures Ready(c, SettledAssets(c), x)
  {
    hide AssetList, BattleList, AllFinal, AnyBroken, AllAvailable, SettledAssets;
    AvailableIsFinal(c, c.battles[j].listed);
  }

  lemma SettledWithin(c: Chain)
    ensures Within(c.assets, SettledAssets(c))
  {
    hide ReturnFits;
  }

  lemma WorkReady(c: Chain)
    requires NoneChained(c) && NoneRacing(c)
    ensures AllReady(c, SettledAssets(c), WorkActions(Indexed(c)))
  {
    hide AllAssetActions, AllBattleActions, AssetActions, BattleActions, IndexAsset, IndexBattle, Ready, AssetList,
      BattleList, Within,
      Chained, Racing, SettledAssets;
    var s := Indexed(c);
    ListsSorted(c);
    SettledWithin(c);
    forall x | x in WorkActions(s) ensures Ready(c, SettledAssets(c), x) {
      if x in AllAssetActions(s, AssetList(c)) {
        var k := FromAsset(s, AssetList(c), x);
        ListedAsset(c, AssetList(c)[k]);
        AssetReady(c, AssetList(c)[k].id, x);
      } else {
        var k := FromBattle(s, BattleList(c), x);
        ListedBattle(c, BattleList(c)[k]);
        BattleReady(c, BattleList(c)[k].id, x);
      }
    }
  }

  /** A batch in which nothing is chained or racing has one effect, in whatever order its
      instructions land. */
  lemma BatchOrderIrrelevant(c: Chain, perm: seq<Action>)
    requires WellFormed(c) && NoneChained(c) && NoneRacing(c) && multiset(perm) == multiset(Batch(c))
    ensures ApplyAll(c, perm) == Advance(c)
  {
    hide ApplyAll, WorkActions, NoneChained, NoneRacing, Fault, AllCompatible, AllReady, AllResolved, Indexed;
    IndexedAccepted(c);
    if |Batch(c)| <= 1 {
      SameLength(perm, Batch(c));
      if |perm| == 1 {
        SameElements(perm, Batch(c), perm[0]);
        assert perm == Batch(c);
      }
    } else {
      WorkCompatible(c);
      WorkReady(c);
      OrderIrrelevant(c, SettledAssets(c), WorkActions(Indexed(c)), perm);
    }
  }

  // ----- a chained asset makes the order matter -----

  lemma {:induction false} Untouched(c: Chain, actions: seq<Action>, i: nat)
    requires i in c.assets && forall x :: x in actions ==> AssetTarget(x) != Some(i)
    ensures var d := ApplyAll(c, actions);
            i in d.assets && d.assets[i] == c.assets[i] && d.source == c.source && d.now == c.now
  {
    hide AssetAfter, BattlesAfter, StateAfter;
    if actions != [] {
      assert actions[|actions| - 1] in actions;
      assert forall x :: x in actions[..|actions| - 1] ==> x in actions;
      Untouched(c, actions[..|actions| - 1], i);
    }
  }

  lemma {:induction false} AssetActionsConcat(s: Snapshot, x: seq<Asset>, y: seq<Asset>)
    ensures AllAssetActions(s, x + y) == AllAssetActions(s, x) + AllAssetActions(s, y)
  {
    hide AssetActions;
    if y == [] {
      assert x + y == x;
    } else {
      assert (x + y)[..|x + y| - 1] == x + y[..|y| - 1];
      AssetActionsConcat(s, x, y[..|y| - 1]);
    }
  }

  lemma SplitAssets(s: Snapshot, list: seq<Asset>, m: nat)
    requires m < |list|
    ensures AllAssetActions(s, list) == AllAssetActions(s, list[..m]) + AssetActions(s, list[m])
              + AllAssetActions(s, list[m + 1..])
  {
    hide AssetActions, AllAssetActions;
    var left, right := list[..m], list[m + 1..];
    assert list == left + [list[m]] + right;
    AssetActionsConcat(s, left, [list[m]]);
    AssetActionsConcat(s, left + [list[m]], right);
    OneAssetActions(s, list[m]);
  }

  lemma OthersElsewhere(s: Snapshot, list: seq<Asset>, m: nat, x: Action)
    requires m < |list| && Distinct(Ids(list))
    requires x in AllAssetActions(s, list[..m]) || x in AllAssetActions(s, list[m + 1..])
    ensures AssetTarget(x) != Some(list[m].id)
  {
    hide AssetActions, AllAssetActions;
    if x in AllAssetActions(s, list[..m]) {
      var k := FromAsset(s, list[..m], x);
      AssetTargets(s, list[k], x);
      assert Ids(list)[k] != Ids(list)[m];
    } else {
      var k := FromAsset(s, list[m + 1..], x);
      AssetTargets(s, list[m + 1 + k], x);
      assert Ids(list)[m] != Ids(list)[m + 1 + k];
    }
  }

  lemma BattlesElsewhere(s: Snapshot, battles: seq<Battle>, x: Action)
    requires x in AllBattleActions(s, battles)
    ensures AssetTarget(x) == None
  {
    hide BattleActions, AllBattleActions;
    var k := FromBattle(s, battles, x);
    BattleTargets(s, battles[k], x);
  }

  lemma ListedAt(c: Chain, i: nat) returns (m: nat)
    requires i in c.assets
    ensures m < |AssetList(c)| && AssetList(c)[m] == IndexAsset(i, c.assets[i])
  {
    AscendingMeaning(c.assets.Keys);
    var ids := Ascending(c.assets.Keys);
    assert i in ids;
    m :| 0 <= m < |ids| && ids[m] == i;
  }

  lemma WorkIs(c: Chain)
    ensures WorkActions(Indexed(c)) == AllAssetActions(Indexed(c), AssetList(c))
              + AllBattleActions(Indexed(c), BattleList(c))
  {
    hide AllAssetActions, AllBattleActions, AssetList, BattleList;
    ListsSorted(c);
  }

  lemma Regroup<T>(a: seq<T>, b: seq<T>, c: seq<T>, d: seq<T>)
    ensures a + b + c + d == a + b + (c + d)
  {
  }

  /** The planned work around one asset's own instructions; nothing else concerns that asset. */
  lemma WorkAround(c: Chain, i: nat) returns (before: seq<Action>, after: seq<Action>)
    requires i in c.assets
    ensures WorkActions(Indexed(c)) == before + AssetActions(Indexed(c), IndexAsset(i, c.assets[i])) + after
    ensures forall x :: x in before + after ==> AssetTarget(x) != Some(i)
  {
    hide AssetActions, AllAssetActions, AllBattleActions, AssetList, BattleList, BattleActions, Distinct, Ids,
      WorkActions, Indexed,
      AssetTarget;
    var s, list, battles := Indexed(c), AssetList(c), BattleList(c);
    WorkIs(c);
    ListedIds(c);
    var m := ListedAt(c, i);
    SplitAssets(s, list, m);
    Regroup(AllAssetActions(s, list[..m]), AssetActions(s, list[m]), AllAssetActions(s, list[m + 1..]),
            AllBattleActions(s, battles));
    before, after := AllAssetActions(s, list[..m]), AllAssetActions(s, list[m + 1..]) + AllBattleActions(s, battles);
    forall x | x in before + after ensures AssetTarget(x) != Some(i) {
      if x in AllBattleActions(s, battles) {
        BattlesElsewhere(s, battles, x);
      } else {
        OthersElsewhere(s, list, m, x);
      }
    }
  }

  lemma OneAssetActions(s: Snapshot, a: Asset)
    ensures AllAssetActions(s, [a]) == AssetActions(s, a)
  {
    hide AssetActions;
    assert [a][..0] == [];
  }

  lemma ChainedSwapped(c: Chain, i: nat, before: seq<Action>, after: seq<Action>)
    requires i in c.assets && Chained(c.now, c.assets[i]) && c.source != OtherSource
    requires forall x :: x in before + after ==> AssetTarget(x) != Some(i)
    ensures var d := ApplyAll(c, before + [FinalizePhase(c.source, i, End), FinalizePhase(c.source, i, Start)] + after);
            i in d.assets && d.assets[i].end == Pending
  {
    hide ApplyAll, Apply;
    var swapped := [FinalizePhase(c.source, i, End), FinalizePhase(c.source, i, Start)];
    ApplyConcat(c, before + swapped, after);
    ApplyConcat(c, before, swapped);
    var b := ApplyAll(c, before);
    assert forall x :: x in before ==> x in before + after;
    assert forall x :: x in after ==> x in before + after;
    Untouched(c, before, i);
    ApplyTwo(b, swapped[0], swapped[1]);
    SwappedPair(b, i);
    Untouched(ApplyAll(b, swapped), after, i);
  }

  lemma SwappedPair(c: Chain, i: nat)
    requires i in c.assets && Chained(c.now, c.assets[i]) && c.source != OtherSource
    ensures var d := Apply(Apply(c, FinalizePhase(c.source, i, End)), FinalizePhase(c.source, i, Start));
            i in d.assets && d.assets[i].end == Pending && d.source == c.source && d.now == c.now
  {
  }

  // ----- so does a racing Battle -----

  /** Whatever else lands, a side nobody scores stays as it was. */
  lemma {:induction false} SideUntouched(c: Chain, actions: seq<Action>, j: nat, side: nat)
    requires j in c.battles && side <= 1
    requires forall x :: x in actions ==> BattleTarget(x) != Some(j) || (x.SettleSide? && x.side != side)
    ensures var d := ApplyAll(c, actions);
            && j in d.battles && d.battles[j].result == c.battles[j].result
            && (if side == 0 then d.battles[j].scoredA == c.battles[j].scoredA
                  else d.battles[j].scoredB == c.battles[j].scoredB)
  {
    hide AssetsAfter, StateAfter, AllFinal, AnyBroken;
    if actions != [] {
      assert actions[|actions| - 1] in actions;
      assert forall x :: x in actions[..|actions| - 1] ==> x in actions;
      SideUntouched(c, actions[..|actions| - 1], j, side);
    }
  }

  lemma {:induction false} BattleActionsConcat(s: Snapshot, x: seq<Battle>, y: seq<Battle>)
    ensures AllBattleActions(s, x + y) == AllBattleActions(s, x) + AllBattleActions(s, y)
  {
    hide BattleActions;
    if y == [] {
      assert x + y == x;
    } else {
      assert (x + y)[..|x + y| - 1] == x + y[..|y| - 1];
      BattleActionsConcat(s, x, y[..|y| - 1]);
    }
  }

  lemma OneBattleActions(s: Snapshot, b: Battle)
    ensures AllBattleActions(s, [b]) == BattleActions(s, b)
  {
    hide BattleActions;
    assert [b][..0] == [];
  }

  lemma SplitBattles(s: Snapshot, list: seq<Battle>, m: nat)
    requires m < |list|
    ensures AllBattleActions(s, list) == AllBattleActions(s, list[..m]) + BattleActions(s, list[m])
              + AllBattleActions(s, list[m + 1..])
  {
    hide BattleActions, AllBattleActions;
    var left, right := list[..m], list[m + 1..];
    assert list == left + [list[m]] + right;
    BattleActionsConcat(s, left, [list[m]]);
    BattleActionsConcat(s, left + [list[m]], right);
    OneBattleActions(s, list[m]);
  }

  lemma OtherBattles(s: Snapshot, list: seq<Battle>, m: nat, x: Action)
    requires m < |list| && Distinct(BattleIds(list))
    requires x in AllBattleActions(s, list[..m]) || x in AllBattleActions(s, list[m + 1..])
    ensures BattleTarget(x) != Some(list[m].id)
  {
    hide BattleActions, AllBattleActions;
    if x in AllBattleActions(s, list[..m]) {
      var k := FromBattle(s, list[..m], x);
      BattleTargets(s, list[k], x);
      assert BattleIds(list)[k] != BattleIds(list)[m];
    } else {
      var k := FromBattle(s, list[m + 1..], x);
      BattleTargets(s, list[m + 1 + k], x);
      assert BattleIds(list)[m] != BattleIds(list)[m + 1 + k];
    }
  }

  lemma AssetsElsewhere(s: Snapshot, assets: seq<Asset>, x: Action)
    requires x in AllAssetActions(s, assets)
    ensures BattleTarget(x) == None
  {
    hide AssetActions, AllAssetActions;
    var k := FromAsset(s, assets, x);
    AssetTargets(s, assets[k], x);
  }

  lemma ListedBattleAt(c: Chain, j: nat) returns (m: nat)
    requires j in c.battles
    ensures m < |BattleList(c)| && BattleList(c)[m] == IndexBattle(c.assets, j, c.battles[j])
  {
    AscendingMeaning(c.battles.Keys);
    var ids := Ascending(c.battles.Keys);
    assert j in ids;
    m :| 0 <= m < |ids| && ids[m] == j;
  }

  /** The planned work around one Battle's own instructions; nothing else concerns that Battle. */
  lemma WorkAroundBattle(c: Chain, j: nat) returns (before: seq<Action>, after: seq<Action>)
    requires j in c.battles
    ensures WorkActions(Indexed(c)) == before + BattleActions(Indexed(c), IndexBattle(c.assets, j, c.battles[j]))
              + after
    ensures forall x :: x in before + after ==> BattleTarget(x) != Some(j)
  {
    hide AssetActions, AllAssetActions, AllBattleActions, AssetList, BattleList, BattleActions, Distinct, BattleIds,
      WorkActions, Indexed,
      BattleTarget;
    var s, assets, list := Indexed(c), AssetList(c), BattleList(c);
    WorkIs(c);
    ListedIds(c);
    var m := ListedBattleAt(c, j);
    SplitBattles(s, list, m);
    Prepended(AllAssetActions(s, assets), AllBattleActions(s, list[..m]), BattleActions(s, list[m]),
              AllBattleActions(s, list[m + 1..]));
    before, after := AllAssetActions(s, assets) + AllBattleActions(s, list[..m]), AllBattleActions(s, list[m + 1..]);
    forall x | x in before + after ensures BattleTarget(x) != Some(j) {
      if x in AllAssetActions(s, assets) {
        AssetsElsewhere(s, assets, x);
      } else {
        OtherBattles(s, list, m, x);
      }
    }
  }

  lemma Prepended<T>(a: seq<T>, b: seq<T>, c: seq<T>, d: seq<T>)
    ensures a + (b + c + d) == a + b + c + d
  {
  }

  lemma MovedFirst<T>(before: seq<T>, own: seq<T>, k: nat, after: seq<T>)
    requires k < |own|
    ensures multiset([own[k]] + (before + (own[..k] + own[k + 1..]) + after)) == multiset(before + own + after)
  {
    assert own == own[..k] + [own[k]] + own[k + 1..];
  }

  /** The refused instruction of a racing Battle, and the side it is about. */
  lemma RacingAction(c: Chain, j: nat) returns (k: nat, side: nat)
    requires j in c.battles && Racing(c, c.battles[j])
    ensures var own, b := BattleActions(Indexed(c), IndexBattle(c.assets, j, c.battles[j])), c.battles[j];
            && side <= 1 && k < |own| && Apply(c, own[k]) == c && BattleTarget(own[k]) == Some(j)
            && (forall x :: x in own[..k] + own[k + 1..] ==> x.SettleSide? && x.side != side)
            && (SettledBattle(c, b).result != b.result
                || (if side == 0 then SettledBattle(c, b).scoredA != b.scoredA
                      else SettledBattle(c, b).scoredB != b.scoredB))
  {
    hide AnyBroken, AllFinal, AllAvailable, AssetList, BattleList, SettledAssets, EveryPhaseResolved,
      EveryBattleResolved, SomeBroken;
    var b := c.battles[j];
    AvailableIsFinal(c, b.listed);
    k, side := 0, 0;
    if !(AnyBroken(c.assets, b.listed) && (b.revealedA || b.revealedB)) && !SideRacing(c, b.scoredA, b.lineupA) {
      side := 1;
      k := if b.scoredA then 0 else 1;
    }
    var own := BattleActions(Indexed(c), IndexBattle(c.assets, j, b));
    assert own[k] == VoidPriceUnavailable(j) || own[k] == SettleSide(j, side);
    assert BattleAfter(c.assets, c.now, b, own[k]) == b;
    assert c.battles[j := b] == c.battles;
  }

  lemma RacingWitness(c: Chain, j: nat) returns (perm: seq<Action>)
    requires WellFormed(c) && c.state == Settling && j in c.battles && Racing(c, c.battles[j])
    ensures multiset(perm) == multiset(Batch(c)) && ApplyAll(c, perm) != Advance(c)
  {
    hide ApplyAll, Apply, WorkActions, Fault, AllResolved, AssetList, BattleList, BattleActions, Racing, SettledBattle,
      SettledAssets,
      BattleTarget, Indexed;
    IndexedAccepted(c);
    IndexedState(c);
    var before, after := WorkAroundBattle(c, j);
    var own := BattleActions(Indexed(c), IndexBattle(c.assets, j, c.battles[j]));
    var k, side := RacingAction(c, j);
    assert WorkActions(Indexed(c)) == before + own + after && own[k] in before + own + after;
    var rest := before + (own[..k] + own[k + 1..]) + after;
    perm := [own[k]] + rest;
    MovedFirst(before, own, k, after);
    assert perm[0] == own[k] && perm[1..] == rest;
    ApplyFirst(c, perm);
    forall x | x in rest ensures BattleTarget(x) != Some(j) || (x.SettleSide? && x.side != side) {
      if x in before || x in after { assert x in before + after; }
    }
    SideUntouched(c, rest, j, side);
    WorkDone(c);
  }

  lemma IndexedState(c: Chain)
    ensures Indexed(c).state == c.state
  {
  }

  /** One planned batch of a settling round has the same effect in every order if and only if no
      asset is chained and no Battle is racing. */
  lemma OrderMattersExactly(c: Chain)
    requires WellFormed(c) && c.state == Settling
    ensures NoneChained(c) && NoneRacing(c)
            <==> forall perm :: multiset(perm) == multiset(Batch(c)) ==> ApplyAll(c, perm) == Advance(c)
  {
    hide ApplyAll, WellFormed, Chained, Racing, Batch;
    if !NoneChained(c) {
      var i :| i in c.assets && Chained(c.now, c.assets[i]);
      var perm := ChainedWitness(c, i);
    } else if !NoneRacing(c) {
      var j :| j in c.battles && Racing(c, c.battles[j]);
      var perm := RacingWitness(c, j);
    } else {
      forall perm | multiset(perm) == multiset(Batch(c))
        ensures ApplyAll(c, perm) == Advance(c)
      {
        BatchOrderIrrelevant(c, perm);
      }
    }
  }

  lemma ChainedWitness(c: Chain, i: nat) returns (perm: seq<Action>)
    requires WellFormed(c) && c.state == Settling && i in c.assets && Chained(c.now, c.assets[i])
    ensures multiset(perm) == multiset(Batch(c)) && ApplyAll(c, perm) != Advance(c)
  {
    hide ApplyAll, WorkActions, Fault, AllResolved, AssetList, BattleList;
    IndexedAccepted(c);
    var before, after := WorkAround(c, i);
    var first, second := FinalizePhase(c.source, i, Start), FinalizePhase(c.source, i, End);
    assert AssetActions(Indexed(c), IndexAsset(i, c.assets[i])) == [first, second];
    assert Batch(c) == before + [first, second] + after;
    perm := before + [second, first] + after;
    ChainedSwapped(c, i, before, after);
    WorkDone(c);
    assert SettledAssets(c)[i].end == Finalized;
  }
}
