/** The instructions the planner sends, as the program executes them (programs/tickersix): a
    refused instruction changes nothing. One clock reading serves the plan and the instructions
    sent for it. */
module SettlementChain {
  import opened Wrappers
  import opened Sequences
  import opened Settlement
  import opened PriceReturn

  datatype BattleResult = PendingResult | VoidedResult | ForfeitA | ForfeitB | BothForfeit | Played

  /** The prices of one asset; `quorum` says that compatible reports, or verified evidence, exist,
      and the price is the one they give, or the stored one once the phase is final. */
  datatype AssetState = AssetState(
    start: PhaseStatus, startDeadline: int, startQuorum: bool, startPrice: int,
    end: PhaseStatus, endDeadline: int, endQuorum: bool, endPrice: int)

  /** A side's lineup counts once it is revealed. `listed` are the six assets the snapshot names for
      the Battle; the program does not know them. */
  datatype BattleState = BattleState(
    result: BattleResult, revealDeadline: int, revealedA: bool, revealedB: bool, scoredA: bool, scoredB: bool,
    lineupA: seq<nat>, lineupB: seq<nat>, listed: seq<nat>)

  datatype Chain = Chain(
    source: SourceKind, now: int, state: RoundState, assets: map<nat, AssetState>, battles: map<nat, BattleState>)

  // ----- one asset -----

  function StatusOf(a: AssetState, phase: Phase): PhaseStatus { if phase == Start then a.start else a.end }

  function DeadlineOf(a: AssetState, phase: Phase): int { if phase == Start then a.startDeadline else a.endDeadline }

  function QuorumOf(a: AssetState, phase: Phase): bool { if phase == Start then a.startQuorum else a.endQuorum }

  function WithStatus(a: AssetState, phase: Phase, status: PhaseStatus): AssetState {
    if phase == Start then a.(start := status) else a.(end := status)
  }

  /** The return between the two prices fits its integer type. */
  predicate ReturnFits(a: AssetState) { ReturnQ9(a.startPrice, a.endPrice).Some? }

  /** Jupiter finalizes an unresolved phase after its deadline from a quorum; Pyth finalizes any
      phase not yet final for which evidence exists. Both finalize an end only after its start, and
      only if the return can be computed. */
  predicate CanFinalize(source: SourceKind, now: int, a: AssetState, phase: Phase) {
    && QuorumOf(a, phase) && (phase == End ==> a.start == Finalized && ReturnFits(a))
    && match source
       case Jupiter => StatusOf(a, phase) == Pending && now > DeadlineOf(a, phase)
       case Pyth => StatusOf(a, phase) != Finalized
       case OtherSource => false
  }

  predicate CanMark(source: SourceKind, now: int, a: AssetState, phase: Phase) {
    now > DeadlineOf(a, phase) &&
    match source
    case Jupiter => StatusOf(a, phase) == Pending && !QuorumOf(a, phase)
    case Pyth => StatusOf(a, phase) != Finalized
    case OtherSource => false
  }

  function AssetAfter(source: SourceKind, now: int, a: AssetState, action: Action): AssetState {
    match action
    case FinalizePhase(s, _, phase) =>
      if s == source && CanFinalize(source, now, a, phase) then WithStatus(a, phase, Finalized) else a
    case MarkUnavailable(s, _, phase) =>
      if s == source && CanMark(source, now, a, phase) then WithStatus(a, phase, Unavailable) else a
    case _ => a
  }

  // ----- one Battle -----

  predicate Final(assets: map<nat, AssetState>, i: nat) {
    i in assets && assets[i].start == Finalized && assets[i].end == Finalized
  }

  predicate Broken(assets: map<nat, AssetState>, i: nat) {
    i in assets && (assets[i].start == Unavailable || assets[i].end == Unavailable)
  }

  predicate AllFinal(assets: map<nat, AssetState>, selected: seq<nat>) { forall i | i in selected :: Final(assets, i) }

  predicate AnyBroken(assets: map<nat, AssetState>, selected: seq<nat>) {
    exists i | i in selected :: Broken(assets, i)
  }

  function ForfeitResult(b: BattleState): BattleResult
    requires !b.revealedA || !b.revealedB
  {
    if b.revealedB then ForfeitA else if b.revealedA then ForfeitB else BothForfeit
  }

  /** The assets of the revealed sides. */
  function Chosen(b: BattleState): seq<nat> {
    (if b.revealedA then b.lineupA else []) + (if b.revealedB then b.lineupB else [])
  }

  function BattleAfter(assets: map<nat, AssetState>, now: int, b: BattleState, action: Action): BattleState {
    if b.result != PendingResult then b
    else
      match action
      case Forfeit(_) =>
        if now > b.revealDeadline && (!b.revealedA || !b.revealedB) then b.(result := ForfeitResult(b)) else b
      case VoidPriceUnavailable(_) =>
        if (b.revealedA || b.revealedB) && AnyBroken(assets, Chosen(b)) then b.(result := VoidedResult) else b
      case SettleSide(_, side) =>
        if side == 0 && b.revealedA && !b.scoredA && AllFinal(assets, b.lineupA) then b.(scoredA := true)
        else if side == 1 && b.revealedB && !b.scoredB && AllFinal(assets, b.lineupB) then b.(scoredB := true)
        else b
      case FinalizeBattle(_) => if b.scoredA && b.scoredB then b.(result := Played) else b
      case _ => b
  }

  // ----- the round -----

  predicate EveryPhaseResolved(assets: map<nat, AssetState>) {
    forall i | i in assets :: assets[i].start != Pending && assets[i].end != Pending
  }

  predicate EveryBattleResolved(battles: map<nat, BattleState>) {
    forall i | i in battles :: battles[i].result != PendingResult
  }

  predicate SomeBroken(assets: map<nat, AssetState>) { exists i | i in assets :: Broken(assets, i) }

  function StateAfter(c: Chain, action: Action): RoundState {
    match action
    case AdvanceRound => if c.state == Ended then Settling else c.state
    case FinalizeRound(source) =>
      if c.state == Settling && source == c.source && EveryBattleResolved(c.battles) && EveryPhaseResolved(c.assets)
      then if SomeBroken(c.assets) then VoidedRound else FinalizedRound
      else c.state
    case _ => c.state
  }

  function AssetTarget(action: Action): Option<nat> {
    match action
    case FinalizePhase(_, asset, _) => Some(asset)
    case MarkUnavailable(_, asset, _) => Some(asset)
    case _ => None
  }

  function BattleTarget(action: Action): Option<nat> {
    match action
    case Forfeit(battle) => Some(battle)
    case VoidPriceUnavailable(battle) => Some(battle)
    case SettleSide(battle, _) => Some(battle)
    case FinalizeBattle(battle) => Some(battle)
    case _ => None
  }

  function AssetsAfter(c: Chain, action: Action): map<nat, AssetState> {
    var t := AssetTarget(action);
    if t.Some? && t.value in c.assets
    then c.assets[t.value := AssetAfter(c.source, c.now, c.assets[t.value], action)] else c.assets
  }

  function BattlesAfter(c: Chain, action: Action): map<nat, BattleState> {
    var t := BattleTarget(action);
    if t.Some? && t.value in c.battles
    then c.battles[t.value := BattleAfter(c.assets, c.now, c.battles[t.value], action)] else c.battles
  }

  function Apply(c: Chain, action: Action): Chain {
    c.(state := StateAfter(c, action), assets := AssetsAfter(c, action), battles := BattlesAfter(c, action))
  }

  function ApplyAll(c: Chain, actions: seq<Action>): Chain {
    if actions == [] then c else Apply(ApplyAll(c, actions[..|actions| - 1]), actions[|actions| - 1])
  }

  // ----- the snapshot the indexer builds -----

  function IndexAsset(i: nat, a: AssetState): Asset {
    Asset(i, a.start, a.startDeadline, a.startQuorum, a.end, a.endDeadline, a.endQuorum)
  }

  function IndexBattle(assets: map<nat, AssetState>, i: nat, b: BattleState): Battle {
    Battle(i, b.result == PendingResult, b.revealDeadline, b.revealedA, b.revealedB, b.scoredA, b.scoredB, b.listed,
           AnyBroken(assets, b.listed))
  }

  function AssetList(c: Chain): seq<Asset> {
    var ids := Ascending(c.assets.Keys);
    AscendingMeaning(c.assets.Keys);
    seq(|ids|, k requires 0 <= k < |ids| => assert ids[k] in ids; IndexAsset(ids[k], c.assets[ids[k]]))
  }

  function BattleList(c: Chain): seq<Battle> {
    var ids := Ascending(c.battles.Keys);
    AscendingMeaning(c.battles.Keys);
    seq(|ids|, k requires 0 <= k < |ids| => assert ids[k] in ids; IndexBattle(c.assets, ids[k], c.battles[ids[k]]))
  }

  function ResolvedBattles(c: Chain): set<nat> { set i | i in c.battles && c.battles[i].result != PendingResult }

  function Indexed(c: Chain): Snapshot {
    Snapshot(c.source, true, c.now, c.state, |c.battles|, |ResolvedBattles(c)|, AssetList(c), BattleList(c))
  }

  /** An enabled source, and six different assets of the round listed for every Battle. */
  ghost predicate WellFormed(c: Chain) {
    && c.source != OtherSource
    && (forall j :: j in c.battles ==> Selectable(c, c.battles[j].listed))
    && ((c.state == FinalizedRound || c.state == VoidedRound) ==> EveryBattleResolved(c.battles))
  }

  ghost predicate Selectable(c: Chain, selected: seq<nat>) {
    |selected| == LINEUP_SIZE && Distinct(selected) && forall i :: i in selected ==> i in c.assets
  }

  /** One planner batch, sent in order. */
  function Batch(c: Chain): seq<Action> {
    var plan := Plan(Indexed(c));
    if plan.Ok? then plan.value else []
  }

  function Advance(c: Chain): Chain { ApplyAll(c, Batch(c)) }
}
