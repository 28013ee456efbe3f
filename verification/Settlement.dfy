/** The settlement planner (backend/src/settlement.rs): from an indexed snapshot of a round it
    lists the next instructions to send. */
module Settlement {
  import opened Wrappers
  import opened Sequences

  datatype SourceKind = Jupiter | Pyth | OtherSource

  datatype Phase = Start | End

  datatype RoundState = Ended | Settling | FinalizedRound | VoidedRound

  datatype PhaseStatus = Pending | Finalized | Unavailable

  datatype Asset = Asset(
    id: nat, start: PhaseStatus, startDeadline: int, startQuorum: bool, end: PhaseStatus, endDeadline: int,
      endQuorum: bool)

  datatype Battle = Battle(
    id: nat, pending: bool, revealDeadline: int, revealedA: bool, revealedB: bool, scoredA: bool, scoredB: bool,
    selected: seq<nat>, selectedUnavailable: bool)

  datatype Snapshot = Snapshot(
    source: SourceKind, pythVerified: bool, now: int, state: RoundState, rated: nat, resolved: nat,
    assets: seq<Asset>, battles: seq<Battle>)

  datatype Action =
    | AdvanceRound
    | FinalizePhase(source: SourceKind, asset: nat, phase: Phase)
    | MarkUnavailable(source: SourceKind, asset: nat, phase: Phase)
    | Forfeit(battle: nat)
    | VoidPriceUnavailable(battle: nat)
    | SettleSide(battle: nat, side: nat)
    | FinalizeBattle(battle: nat)
    | FinalizeRound(source: SourceKind)

  datatype SettlementError =
    | UnsupportedSource | PythGateNotPassed | DuplicateAsset | DuplicateBattle | InvalidBattleAsset | CountMismatch
    | InvalidRoundState

  const LINEUP_SIZE := 6

  // ----- rejected snapshots -----

  function SourceFault(s: Snapshot): Option<SettlementError> {
    match s.source
    case Jupiter => None
    case Pyth => if s.pythVerified then None else Some(PythGateNotPassed)
    case OtherSource => Some(UnsupportedSource)
  }

  function Ids(assets: seq<Asset>): seq<nat> { Map(assets, (a: Asset) => a.id) }

  function BattleIds(battles: seq<Battle>): seq<nat> { Map(battles, (b: Battle) => b.id) }

  /** Six different assets of the round. */
  predicate SelectionValid(selected: seq<nat>, ids: seq<nat>) {
    |selected| == LINEUP_SIZE && Distinct(selected) && forall i | i in selected :: i in ids
  }

  function BattlesFault(battles: seq<Battle>, ids: seq<nat>): Option<SettlementError> {
    if battles == [] then None
    else
      var earlier, b := battles[..|battles| - 1], battles[|battles| - 1];
      var fault := BattlesFault(earlier, ids);
      if fault.Some? then fault
      else if b.id in BattleIds(earlier) then Some(DuplicateBattle)
      else if !SelectionValid(b.selected, ids) then Some(InvalidBattleAsset)
      else None
  }

  function CountFault(s: Snapshot): Option<SettlementError> {
    if s.rated < s.resolved || s.rated != |s.battles| then Some(CountMismatch)
    else if (s.state == FinalizedRound || s.state == VoidedRound) && s.resolved != s.rated then Some(InvalidRoundState)
    else None
  }

  function Fault(s: Snapshot): Option<SettlementError> {
    if SourceFault(s).Some? then SourceFault(s)
    else if !Distinct(Ids(s.assets)) then Some(DuplicateAsset)
    else if BattlesFault(s.battles, Ids(s.assets)).Some? then BattlesFault(s.battles, Ids(s.assets))
    else CountFault(s)
  }

  // ----- the plan -----

  function PhaseActions(s: Snapshot, asset: nat, phase: Phase, status: PhaseStatus, deadline: int, quorum: bool)
    : seq<Action>
  {
    if status != Pending || s.now <= deadline || s.source == OtherSource then []
    else if quorum then [FinalizePhase(s.source, asset, phase)]
    else [MarkUnavailable(s.source, asset, phase)]
  }

  function AssetActions(s: Snapshot, a: Asset): seq<Action> {
    PhaseActions(s, a.id, Start, a.start, a.startDeadline, a.startQuorum)
    + PhaseActions(s, a.id, End, a.end, a.endDeadline, a.endQuorum)
  }

  predicate AssetAvailable(assets: seq<Asset>, id: nat) {
    exists a | a in assets :: a.id == id && a.start == Finalized && a.end == Finalized
  }

  predicate AllAvailable(assets: seq<Asset>, selected: seq<nat>) {
    forall i | i in selected :: AssetAvailable(assets, i)
  }

  function BattleActions(s: Snapshot, b: Battle): seq<Action> {
    if !b.pending then []
    else if b.selectedUnavailable && (b.revealedA || b.revealedB) then [VoidPriceUnavailable(b.id)]
    else if !b.revealedA || !b.revealedB then
      if s.now > b.revealDeadline then [Forfeit(b.id)] else []
    else if b.scoredA && b.scoredB then [FinalizeBattle(b.id)]
    else if AllAvailable(s.assets, b.selected) then
      (if b.scoredA then [] else [SettleSide(b.id, 0)]) + (if b.scoredB then [] else [SettleSide(b.id, 1)])
    else []
  }

  function AllAssetActions(s: Snapshot, assets: seq<Asset>): seq<Action> {
    if assets == [] then []
    else AllAssetActions(s, assets[..|assets| - 1]) + AssetActions(s, assets[|assets| - 1])
  }

  function AllBattleActions(s: Snapshot, battles: seq<Battle>): seq<Action> {
    if battles == [] then []
    else AllBattleActions(s, battles[..|battles| - 1]) + BattleActions(s, battles[|battles| - 1])
  }

  function AssetOrder(): (Asset, Asset) -> bool { (a: Asset, b: Asset) => a.id <= b.id }

  function BattleOrder(): (Battle, Battle) -> bool { (a: Battle, b: Battle) => a.id <= b.id }

  predicate Resolved(a: Asset) { a.start != Pending && a.end != Pending }

  predicate AllResolved(assets: seq<Asset>) { forall a | a in assets :: Resolved(a) }

  function WorkActions(s: Snapshot): seq<Action> {
    AllAssetActions(s, SortBy(s.assets, AssetOrder())) + AllBattleActions(s, SortBy(s.battles, BattleOrder()))
  }

  function SettlingActions(s: Snapshot): seq<Action> {
    var work := WorkActions(s);
    if AllResolved(s.assets) && s.resolved == s.rated && work == [] && s.source != OtherSource
    then [FinalizeRound(s.source)] else work
  }

  function Plan(s: Snapshot): Result<seq<Action>, SettlementError> {
    if Fault(s).Some? then Err(Fault(s).value)
    else
      match s.state
      case Ended => Ok([AdvanceRound])
      case Settling => Ok(SettlingActions(s))
      case FinalizedRound | VoidedRound => Ok([])
  }

  // ----- the planner's loops -----

  method ValidateSnapshot(s: Snapshot) returns (fault: Option<SettlementError>)
    ensures fault == Fault(s)
  {
    hide BattlesFault, SelectionValid;
    if SourceFault(s).Some? {
      return SourceFault(s);
    }
    var assetIds: seq<nat> := [];
    for k := 0 to |s.assets|
      invariant assetIds == Ids(s.assets)[..k] && Distinct(assetIds)
    {
      var id := s.assets[k].id;
      if id in assetIds {
        return Some(DuplicateAsset);
      }
      assetIds := assetIds + [id];
    }
    assert assetIds == Ids(s.assets);
    fault := ValidateBattles(s.battles, assetIds);
    if fault.Some? {
      return;
    }
    return CountFault(s);
  }

  method ValidateBattles(battles: seq<Battle>, assetIds: seq<nat>) returns (fault: Option<SettlementError>)
    ensures fault == BattlesFault(battles, assetIds)
  {
    hide SelectionValid;
    var battleIds: seq<nat> := [];
    for k := 0 to |battles|
      invariant battleIds == BattleIds(battles[..k]) && BattlesFault(battles[..k], assetIds).None?
    {
      var b := battles[k];
      assert battles[..k + 1][..k] == battles[..k];
      if b.id in battleIds {
        FaultStays(battles, assetIds, k + 1);
        return Some(DuplicateBattle);
      }
      battleIds := battleIds + [b.id];
      if !SelectionValid(b.selected, assetIds) {
        FaultStays(battles, assetIds, k + 1);
        return Some(InvalidBattleAsset);
      }
    }
    assert battles[..|battles|] == battles;
    return None;
  }

  lemma {:induction false} FaultStays(battles: seq<Battle>, ids: seq<nat>, k: nat)
    requires k <= |battles| && BattlesFault(battles[..k], ids).Some?
    ensures BattlesFault(battles, ids) == BattlesFault(battles[..k], ids)
    decreases |battles| - k
  {
    if k < |battles| {
      assert battles[..k + 1][..k] == battles[..k];
      FaultStays(battles, ids, k + 1);
    } else {
      assert battles[..k] == battles;
    }
  }

  method PlanPhase(actions: seq<Action>, s: Snapshot, asset: nat, phase: Phase, status: PhaseStatus, deadline: int,
                   quorum: bool)
    returns (r: seq<Action>)
    ensures r == actions + PhaseActions(s, asset, phase, status, deadline, quorum)
  {
    if status != Pending || s.now <= deadline {
      return actions;
    }
    match s.source {
      case OtherSource => return actions;
      case _ =>
        return actions
                 + [if quorum then FinalizePhase(s.source, asset, phase) else MarkUnavailable(s.source, asset, phase)];
    }
  }

  method PlanSettlement(s: Snapshot) returns (r: Result<seq<Action>, SettlementError>)
    ensures r == Plan(s)
  {
    hide Fault, AllResolved, AssetActions, BattleActions;
    var fault := ValidateSnapshot(s);
    if fault.Some? {
      return Err(fault.value);
    }
    if s.state == Ended {
      return Ok([AdvanceRound]);
    }
    if s.state != Settling {
      return Ok([]);
    }
    var actions := PlanAssets(s, SortBy(s.assets, AssetOrder()));
    actions := PlanBattles(s, SortBy(s.battles, BattleOrder()), actions);
    if AllResolved(s.assets) && s.resolved == s.rated && actions == [] {
      match s.source {
        case OtherSource => return Ok(actions);
        case _ => return Ok([FinalizeRound(s.source)]);
      }
    }
    return Ok(actions);
  }

  method PlanAssets(s: Snapshot, assets: seq<Asset>) returns (actions: seq<Action>)
    ensures actions == AllAssetActions(s, assets)
  {
    hide PhaseActions;
    actions := [];
    for k := 0 to |assets|
      invariant actions == AllAssetActions(s, assets[..k])
    {
      var a := assets[k];
      assert assets[..k + 1][..k] == assets[..k];
      var more := PlanPhase(actions, s, a.id, Start, a.start, a.startDeadline, a.startQuorum);
      more := PlanPhase(more, s, a.id, End, a.end, a.endDeadline, a.endQuorum);
      assert more == actions + AssetActions(s, a);
      actions := more;
    }
    assert assets[..|assets|] == assets;
  }

  method PlanBattles(s: Snapshot, battles: seq<Battle>, earlier: seq<Action>) returns (actions: seq<Action>)
    ensures actions == earlier + AllBattleActions(s, battles)
  {
    hide AllAvailable;
    actions := earlier;
    for k := 0 to |battles|
      invariant actions == earlier + AllBattleActions(s, battles[..k])
    {
      var b, before := battles[k], actions;
      assert battles[..k + 1][..k] == battles[..k];
      if b.pending {
        if b.selectedUnavailable && (b.revealedA || b.revealedB) {
          actions := actions + [VoidPriceUnavailable(b.id)];
        } else if !b.revealedA || !b.revealedB {
          if s.now > b.revealDeadline {
            actions := actions + [Forfeit(b.id)];
          }
        } else if b.scoredA && b.scoredB {
          actions := actions + [FinalizeBattle(b.id)];
        } else if AllAvailable(s.assets, b.selected) {
          if !b.scoredA {
            actions := actions + [SettleSide(b.id, 0)];
          }
          if !b.scoredB {
            actions := actions + [SettleSide(b.id, 1)];
          }
        }
      }
      assert actions == before + BattleActions(s, b);
    }
    assert battles[..|battles|] == battles;
  }
}
