/** The captain-weighted lineup score (crates/protocol/src/lib.rs) and the proof layer's own copy of
    it (backend/src/proof.rs). */
module LineupScore {
  import opened Wrappers
  import opened Sequences
  import opened Arithmetic

  const LINEUP_SIZE := 6
  const TOTAL_WEIGHT := 7
  const I64_MIN := -0x8000_0000_0000_0000
  const I64_MAX := 0x7fff_ffff_ffff_ffff
  const I128_MIN := -0x8000_0000_0000_0000_0000_0000_0000_0000
  const I128_MAX := 0x7fff_ffff_ffff_ffff_ffff_ffff_ffff_ffff

  type AssetId = i: int | 0 <= i <= 0xffff
  type ReturnQ9 = i: int | -0x8000_0000_0000_0000 <= i <= 0x7fff_ffff_ffff_ffff

  /** An asset's return beside its id. */
  type Scored = (ReturnQ9, AssetId)

  datatype MathError = InvalidLineup | CaptainNotInLineup | Overflow

  function LineupFault(ids: seq<AssetId>, captain: AssetId): Option<MathError> {
    if |ids| != LINEUP_SIZE || !Distinct(ids) then Some(InvalidLineup)
    else if captain !in ids then Some(CaptainNotInLineup)
    else None
  }

  /** One asset's contribution. */
  function Weighted(captain: AssetId): Scored -> int { (p: Scored) => if p.1 == captain then 2 * p.0 else p.0 }

  function Zip(gains: seq<ReturnQ9>, ids: seq<AssetId>): (r: seq<Scored>)
    requires |gains| == |ids|
    ensures |r| == |ids| && forall k :: 0 <= k < |r| ==> r[k] == (gains[k], ids[k])
  {
    seq(|ids|, k requires 0 <= k < |ids| => (gains[k], ids[k]))
  }

  function Narrow(n: int): Option<int> { if I64_MIN <= n <= I64_MAX then Some(n) else None }

  function Total(gains: seq<ReturnQ9>, ids: seq<AssetId>, captain: AssetId): int
    requires |gains| == |ids|
  {
    Sum(Zip(gains, ids), Weighted(captain))
  }

  function Score(gains: seq<ReturnQ9>, ids: seq<AssetId>, captain: AssetId): Result<int, MathError>
    requires |gains| == LINEUP_SIZE
  {
    if LineupFault(ids, captain).Some? then Err(LineupFault(ids, captain).value)
    else
      var score := Narrow(Truncated(Total(gains, ids, captain), TOTAL_WEIGHT));
      if score.None? then Err(Overflow) else Ok(score.value)
  }

  // ----- bounds -----

  /** How often the captain's weight counts. */
  function Captains(pairs: seq<Scored>, captain: AssetId): nat {
    if pairs == [] then 0
    else Captains(pairs[..|pairs| - 1], captain) + if pairs[|pairs| - 1].1 == captain then 1 else 0
  }

  lemma Distribute(x: int, n: int, w: int)
    ensures x * (n + w) == x * n + x * w
  {
  }

  lemma {:induction false} TotalBounds(pairs: seq<Scored>, captain: AssetId, lo: int, hi: int)
    requires forall k :: 0 <= k < |pairs| ==> lo <= pairs[k].0 <= hi
    ensures var n := |pairs| + Captains(pairs, captain);
            lo * n <= Sum(pairs, Weighted(captain)) <= hi * n
  {
    if pairs != [] {
      var init, last := pairs[..|pairs| - 1], pairs[|pairs| - 1];
      TotalBounds(init, captain, lo, hi);
      var n, w := |init| + Captains(init, captain), if last.1 == captain then 2 else 1;
      var gain: int := last.0;
      assert Weighted(captain)(last) == w * gain;
      Distribute(lo, n, w);
      Distribute(hi, n, w);
    }
  }

  lemma {:induction false} OneCaptain(pairs: seq<Scored>, captain: AssetId)
    requires forall i, j :: 0 <= i < j < |pairs| ==> pairs[i].1 != pairs[j].1
    ensures Captains(pairs, captain) == if exists k :: 0 <= k < |pairs| && pairs[k].1 == captain then 1 else 0
  {
    if pairs != [] {
      var init, last := pairs[..|pairs| - 1], pairs[|pairs| - 1];
      OneCaptain(init, captain);
      assert forall k :: 0 <= k < |init| ==> init[k] == pairs[k];
      if last.1 == captain { assert pairs[|pairs| - 1].1 == captain; }
    }
  }

  lemma TruncatedBounds(n: int, lo: int, hi: int)
    requires lo * TOTAL_WEIGHT <= n <= hi * TOTAL_WEIGHT
    ensures lo <= Truncated(n, TOTAL_WEIGHT) <= hi
  {
  }

  /** The score of a valid lineup never overflows and lies between its lowest and highest return. */
  lemma ScoreWithinReturns(gains: seq<ReturnQ9>, ids: seq<AssetId>, captain: AssetId, lo: int, hi: int)
    requires |gains| == LINEUP_SIZE && LineupFault(ids, captain).None?
    requires forall k :: 0 <= k < LINEUP_SIZE ==> lo <= gains[k] <= hi
    requires I64_MIN <= lo && hi <= I64_MAX
    ensures Score(gains, ids, captain).Ok? && lo <= Score(gains, ids, captain).value <= hi
  {
    var pairs := Zip(gains, ids);
    TotalBounds(pairs, captain, lo, hi);
    OneCaptain(pairs, captain);
    var c :| 0 <= c < |ids| && ids[c] == captain;
    assert pairs[c].1 == captain;
    TruncatedBounds(Total(gains, ids, captain), lo, hi);
  }

  /** A lineup is scored exactly when it has six different assets, the captain among them. */
  lemma ScoredExactly(gains: seq<ReturnQ9>, ids: seq<AssetId>, captain: AssetId)
    requires |gains| == LINEUP_SIZE
    ensures Score(gains, ids, captain).Ok? <==> |ids| == LINEUP_SIZE && Distinct(ids) && captain in ids
  {
    if LineupFault(ids, captain).None? { ScoreWithinReturns(gains, ids, captain, I64_MIN, I64_MAX); }
  }

  predicate Opposite(x: int, y: int) { x == -y }

  lemma {:induction false} TotalNegated(pairs: seq<Scored>, negated: seq<Scored>, captain: AssetId)
    requires |pairs| == |negated|
             && forall k :: 0 <= k < |pairs| ==> negated[k].1 == pairs[k].1 && Opposite(negated[k].0, pairs[k].0)
    ensures Sum(negated, Weighted(captain)) == -Sum(pairs, Weighted(captain))
  {
    if pairs != [] { TotalNegated(pairs[..|pairs| - 1], negated[..|negated| - 1], captain); }
  }

  /** The captain's multiplier is symmetric: opposite returns give opposite scores. */
  lemma ScoreSymmetric(gains: seq<ReturnQ9>, negated: seq<ReturnQ9>, ids: seq<AssetId>, captain: AssetId)
    requires |gains| == |negated| == LINEUP_SIZE && LineupFault(ids, captain).None?
    requires forall k :: 0 <= k < LINEUP_SIZE ==> Opposite(negated[k], gains[k])
    ensures Score(gains, ids, captain).Ok? && Score(negated, ids, captain) == Ok(-Score(gains, ids, captain).value)
  {
    ScoredExactly(gains, ids, captain);
    ScoredExactly(negated, ids, captain);
    TotalNegated(Zip(gains, ids), Zip(negated, ids), captain);
  }

  /** Listing the assets in another order, each with its own return, changes nothing. */
  lemma ScorePermuted(gains: seq<ReturnQ9>, ids: seq<AssetId>, gains': seq<ReturnQ9>, ids': seq<AssetId>,
                      captain: AssetId)
    requires |gains| == |gains'| == |ids| == |ids'| == LINEUP_SIZE
    requires multiset(Zip(gains, ids)) == multiset(Zip(gains', ids'))
    ensures Score(gains, ids, captain) == Score(gains', ids', captain)
  {
    var id := (p: Scored) => p.1;
    MapPermuted(Zip(gains, ids), Zip(gains', ids'), id);
    assert Map(Zip(gains, ids), id) == ids && Map(Zip(gains', ids'), id) == ids';
    SumPermuted(Zip(gains, ids), Zip(gains', ids'), Weighted(captain));
    SameElements(ids, ids', captain);
    if Distinct(ids) { DistinctPermuted(ids, ids'); }
    if Distinct(ids') { DistinctPermuted(ids', ids); }
  }

  // ----- the proof layer's copy -----

  /** The proof layer sums without checking the lineup; on a lineup that passed its checks it
      finds the score the indexer validated. */
  method ProofScore(gains: seq<ReturnQ9>, ids: seq<AssetId>, captain: AssetId) returns (r: Option<int>)
    requires |gains| == |ids| == LINEUP_SIZE
    ensures Distinct(ids) && captain in ids ==> r.Some? && Score(gains, ids, captain) == Ok(r.value)
    ensures r == Narrow(Truncated(Total(gains, ids, captain), TOTAL_WEIGHT))
  {
    var total: int := 0;
    ghost var pairs := Zip(gains, ids);
    for k := 0 to LINEUP_SIZE
      invariant total == Sum(pairs[..k], Weighted(captain))
      invariant 2 * k * I64_MIN <= total <= 2 * k * I64_MAX
    {
      var weight, gain: int := if ids[k] == captain then 2 else 1, gains[k];
      assert pairs[..k + 1] == pairs[..k] + [pairs[k]];
      SumPush(pairs[..k], pairs[k], Weighted(captain));
      total := total + gain * weight;
      assert I128_MIN <= total <= I128_MAX;
    }
    assert pairs[..LINEUP_SIZE] == pairs;
    ScoredExactly(gains, ids, captain);
    return Narrow(Truncated(total, TOTAL_WEIGHT));
  }
}

/** Battle rows and the finalized facts beside them, as the indexer writes them
    (backend/src/indexer.rs, backend/src/battle_facts.rs). */
module Evidence {
  import opened Wrappers
  import opened Sequences
  import opened LineupScore

  type Key = nat

  const FACTS_VERSION := 1

  datatype Mode = Ranked | League | OtherMode

  datatype BattleStage = Open | Finalized | Settled | Voided

  datatype BattleResult = PlayerA | PlayerB | Draw | ForfeitA | ForfeitB | BothForfeit | VoidedResult | UnknownResult

  datatype Facts = Facts(
    version: int, slot: int, lineupA: seq<AssetId>, captainA: AssetId, returnsA: seq<ReturnQ9>,
    lineupB: seq<AssetId>, captainB: AssetId, returnsB: seq<ReturnQ9>)

  datatype IndexedBattle = IndexedBattle(
    key: Key, mode: Mode, rated: bool, playerA: nat, playerB: nat, stage: BattleStage, result: Option<BattleResult>,
    scoreA: Option<ReturnQ9>, scoreB: Option<ReturnQ9>, committedA: Option<bool>, committedB: Option<bool>,
    facts: Option<Facts>, indexedAt: int)

  datatype Row = Row(
    mode: Mode, rated: bool, playerA: nat, playerB: nat, stage: BattleStage, result: Option<BattleResult>,
    scoreA: Option<ReturnQ9>, scoreB: Option<ReturnQ9>, committedA: Option<bool>, committedB: Option<bool>,
      indexedAt: int)

  datatype StoredFacts = StoredFacts(facts: Facts, indexedAt: int)

  datatype IndexerError = InvalidBattle | InvalidBattleFacts | BattleFactsConflict

  datatype FactsError = UnsupportedVersion | InvalidFinalizedSlot | BadLineup | CaptainMissing | ScoreMismatch
    | ArithmeticOverflow

  // ----- facts against scores -----

  function SideFault(lineup: seq<AssetId>, captain: AssetId, gains: seq<ReturnQ9>, expected: int): Option<FactsError>
    requires |gains| == LINEUP_SIZE
  {
    if |lineup| != LINEUP_SIZE then Some(BadLineup)
    else
      match LineupScore.Score(gains, lineup, captain)
      case Err(InvalidLineup) => Some(BadLineup)
      case Err(CaptainNotInLineup) => Some(CaptainMissing)
      case Err(Overflow) => Some(ArithmeticOverflow)
      case Ok(score) => if score != expected then Some(ScoreMismatch) else None
  }

  predicate Shaped(f: Facts) { |f.returnsA| == LINEUP_SIZE && |f.returnsB| == LINEUP_SIZE }

  function FactsFault(f: Facts, scoreA: int, scoreB: int): Option<FactsError>
    requires Shaped(f)
  {
    if f.version != FACTS_VERSION then Some(UnsupportedVersion)
    else if f.slot < 0 then Some(InvalidFinalizedSlot)
    else
      var sideA := SideFault(f.lineupA, f.captainA, f.returnsA, scoreA);
      if sideA.Some? then sideA else SideFault(f.lineupB, f.captainB, f.returnsB, scoreB)
  }

  /** Both scores follow from the facts. */
  ghost predicate Reproduces(f: Facts, scoreA: int, scoreB: int) {
    && Shaped(f)
    && LineupScore.Score(f.returnsA, f.lineupA, f.captainA) == Ok(scoreA)
    && LineupScore.Score(f.returnsB, f.lineupB, f.captainB) == Ok(scoreB)
  }

  /** The lineup checks accept facts exactly when they are of the current version, have a slot, and
      reproduce both scores. */
  lemma FactsAcceptedExactly(f: Facts, scoreA: int, scoreB: int)
    requires Shaped(f)
    ensures FactsFault(f, scoreA, scoreB).None?
            <==> f.version == FACTS_VERSION && f.slot >= 0 && Reproduces(f, scoreA, scoreB)
  {
    hide LineupScore.Total, LineupScore.Narrow;
  }

  // ----- Battles -----

  predicate Terminal(stage: BattleStage) { stage != Open }

  predicate PlayedResult(result: Option<BattleResult>) {
    result == Some(PlayerA) || result == Some(PlayerB) || result == Some(Draw)
  }

  predicate ResultFits(result: BattleResult, scoreA: int, scoreB: int) {
    match result
    case PlayerA => scoreA > scoreB
    case PlayerB => scoreA < scoreB
    case Draw => scoreA == scoreB
    case _ => false
  }

  predicate Negative(score: Option<ReturnQ9>) { score.Some? && score.value < 0 }

  function BattleFault(b: IndexedBattle): Option<IndexerError>
    requires b.facts.Some? ==> Shaped(b.facts.value)
  {
    var league := b.mode == League && b.rated && Terminal(b.stage);
    var played := PlayedResult(b.result);
    if b.playerA == b.playerB || Negative(b.scoreA) || Negative(b.scoreB) then Some(InvalidBattle)
    else if league && (b.result.None? || b.result.value == UnknownResult) then Some(InvalidBattle)
    else if league && played then
      if b.scoreA.None? || b.scoreB.None? then Some(InvalidBattle)
      else if !ResultFits(b.result.value, b.scoreA.value, b.scoreB.value) then Some(InvalidBattle)
      else if b.facts.None? || FactsFault(b.facts.value, b.scoreA.value, b.scoreB.value).Some?
              then Some(InvalidBattleFacts)
      else None
    else if b.facts.Some? then
      if !Terminal(b.stage) || !played || b.scoreA.None? || b.scoreB.None?
         || FactsFault(b.facts.value, b.scoreA.value, b.scoreB.value).Some?
      then Some(InvalidBattleFacts) else None
    else None
  }

  function Coalesce<T>(x: Option<T>, y: Option<T>): Option<T> { if x.Some? then x else y }

  function RowOf(b: IndexedBattle, was: Option<Row>): Row {
    Row(b.mode, b.rated, b.playerA, b.playerB, b.stage, b.result, b.scoreA, b.scoreB,
        if was.Some? then Coalesce(b.committedA, was.value.committedA) else b.committedA,
        if was.Some? then Coalesce(b.committedB, was.value.committedB) else b.committedB, b.indexedAt)
  }

  datatype Store = Store(battles: map<Key, Row>, facts: map<Key, StoredFacts>)

  function BattlesAfter(s: Store, b: IndexedBattle): map<Key, Row> {
    if b.key !in s.battles then s.battles[b.key := RowOf(b, None)]
    else if s.battles[b.key].indexedAt <= b.indexedAt then s.battles[b.key := RowOf(b, Some(s.battles[b.key]))]
    else s.battles
  }

  function Later(x: int, y: int): int { if x >= y then x else y }

  /** Facts are inserted, or met again unchanged, or refused. */
  function FactsAfter(facts: map<Key, StoredFacts>, key: Key, f: Facts, at: int): Option<map<Key, StoredFacts>> {
    if key !in facts then Some(facts[key := StoredFacts(f, at)])
    else if facts[key].facts == f then Some(facts[key := StoredFacts(f, Later(facts[key].indexedAt, at))])
    else None
  }

  datatype Outcome = Outcome(store: Store, result: Result<(), IndexerError>)

  function Upserted(s: Store, b: IndexedBattle): Outcome
    requires b.facts.Some? ==> Shaped(b.facts.value)
  {
    if BattleFault(b).Some? then Outcome(s, Err(BattleFault(b).value))
    else
      var battles := BattlesAfter(s, b);
      if b.facts.None? then Outcome(s.(battles := battles), Ok(()))
      else
        match FactsAfter(s.facts, b.key, b.facts.value, b.indexedAt)
        case None => Outcome(s, Err(BattleFactsConflict))
        case Some(facts) => Outcome(Store(battles, facts), Ok(()))
  }

  class Projection {
    var battles: map<Key, Row>
    var facts: map<Key, StoredFacts>

    function Value(): Store
      reads this
    {
      Store(battles, facts)
    }

    /** One transaction: the row unless a newer one is stored, then the facts; a conflict undoes
        both. */
    method UpsertBattle(b: IndexedBattle) returns (r: Result<(), IndexerError>)
      requires b.facts.Some? ==> Shaped(b.facts.value)
      modifies this
      ensures Outcome(Value(), r) == old(Upserted(Value(), b))
    {
      hide BattleFault;
      var fault := BattleFault(b);
      if fault.Some? {
        return Err(fault.value);
      }
      var before := battles;
      if b.key !in battles {
        battles := battles[b.key := RowOf(b, None)];
      } else if battles[b.key].indexedAt <= b.indexedAt {
        battles := battles[b.key := RowOf(b, Some(battles[b.key]))];
      }
      if b.facts.Some? {
        var stored := FactsAfter(facts, b.key, b.facts.value, b.indexedAt);
        if stored.None? {
          battles := before;
          return Err(BattleFactsConflict);
        }
        facts := stored.value;
      }
      return Ok(());
    }
  }

  // ----- every run -----

  /** An upsert of any account, or the coordinator's own insert of a Battle not yet indexed. */
  datatype Step = Indexed(battle: IndexedBattle) | Coordinated(key: Key, row: Row)

  ghost predicate Possible(step: Step) {
    match step
    case Indexed(b) => b.facts.Some? ==> Shaped(b.facts.value)
    case Coordinated(_, row) => row.stage == Open
  }

  ghost function After(s: Store, step: Step): Store
    requires Possible(step)
  {
    match step
    case Indexed(b) => Upserted(s, b).store
    case Coordinated(key, row) => if key in s.battles then s else s.(battles := s.battles[key := row])
  }

  ghost predicate AllPossible(steps: seq<Step>) { forall step :: step in steps ==> Possible(step) }

  ghost function Run(s: Store, steps: seq<Step>): Store
    requires AllPossible(steps)
  {
    if steps == [] then s
    else
      assert steps[|steps| - 1] in steps;
      After(Run(s, steps[..|steps| - 1]), steps[|steps| - 1])
  }

  predicate NeedsEvidence(row: Row) {
    row.mode == League && row.rated && Terminal(row.stage) && PlayedResult(row.result)
  }

  /** A finished, played, rated League row has both scores, a result in their order, and facts that
      reproduce them. */
  ghost predicate Evidenced(s: Store, key: Key)
    requires key in s.battles
  {
    var row := s.battles[key];
    NeedsEvidence(row) ==>
      && row.scoreA.Some? && row.scoreB.Some? && ResultFits(row.result.value, row.scoreA.value, row.scoreB.value)
      && key in s.facts && Reproduces(s.facts[key].facts, row.scoreA.value, row.scoreB.value)
  }

  ghost predicate AllEvidenced(s: Store) { forall key :: key in s.battles ==> Evidenced(s, key) }

  ghost predicate FactsKept(s: Store, t: Store) {
    forall key :: key in s.facts ==> key in t.facts && t.facts[key].facts == s.facts[key].facts
  }

  lemma StepKeepsFacts(s: Store, step: Step)
    requires Possible(step)
    ensures FactsKept(s, After(s, step))
  {
    hide BattleFault;
  }

  /** An accepted account whose row needs evidence brings it. */
  lemma AcceptedIsEvidenced(b: IndexedBattle)
    requires (b.facts.Some? ==> Shaped(b.facts.value)) && BattleFault(b).None?
    requires b.mode == League && b.rated && Terminal(b.stage) && PlayedResult(b.result)
    ensures b.scoreA.Some? && b.scoreB.Some? && ResultFits(b.result.value, b.scoreA.value, b.scoreB.value)
    ensures b.facts.Some? && Reproduces(b.facts.value, b.scoreA.value, b.scoreB.value)
  {
    hide FactsFault, LineupScore.Score;
    if b.facts.Some? && b.scoreA.Some? && b.scoreB.Some? {
      FactsAcceptedExactly(b.facts.value, b.scoreA.value, b.scoreB.value);
    }
  }

  lemma StepKeepsEvidence(s: Store, step: Step)
    requires Possible(step) && AllEvidenced(s)
    ensures AllEvidenced(After(s, step))
  {
    hide BattleFault, Reproduces;
    var t := After(s, step);
    StepKeepsFacts(s, step);
    forall key | key in t.battles ensures Evidenced(t, key) {
      if step.Indexed? && key == step.battle.key && t.battles != s.battles && NeedsEvidence(t.battles[key]) {
        AcceptedIsEvidenced(step.battle);
      } else if key in s.battles {
        assert Evidenced(s, key);
      }
    }
  }

  /** Whatever is indexed, in any order, stale, repeated or conflicting: stored facts never change,
      and every finished, played, rated League Battle has facts that reproduce its stored scores. */
  lemma {:induction false} EvidenceHolds(s: Store, steps: seq<Step>)
    requires AllPossible(steps) && AllEvidenced(s)
    ensures AllEvidenced(Run(s, steps)) && FactsKept(s, Run(s, steps))
  {
    hide After, Evidenced;
    if steps != [] {
      var init, last := steps[..|steps| - 1], steps[|steps| - 1];
      assert last in steps;
      EvidenceHolds(s, init);
      StepKeepsEvidence(Run(s, init), last);
      StepKeepsFacts(Run(s, init), last);
    }
  }

  /** A stale upsert leaves the row alone. */
  lemma StaleKeepsRow(s: Store, b: IndexedBattle)
    requires (b.facts.Some? ==> Shaped(b.facts.value)) && b.key in s.battles && b.indexedAt < s.battles[b.key].indexedAt
    ensures Upserted(s, b).store.battles == s.battles
  {
    hide BattleFault;
  }

  /** Repeating an upsert changes nothing. */
  lemma UpsertRepeats(s: Store, b: IndexedBattle)
    requires b.facts.Some? ==> Shaped(b.facts.value)
    ensures Upserted(Upserted(s, b).store, b).store == Upserted(s, b).store
    ensures Upserted(s, b).result.Ok? ==> Upserted(Upserted(s, b).store, b).result.Ok?
  {
    hide BattleFault;
    if Upserted(s, b).result.Ok? {
      var t := Upserted(s, b).store;
      assert t.battles[b.key := t.battles[b.key]] == t.battles;
      if b.facts.Some? { assert t.facts[b.key := t.facts[b.key]] == t.facts; }
    }
  }

  /** A finished, played, rated League Battle of different players, with a result in the order of its
      scores, current facts that reproduce both, and no different facts stored. */
  ghost predicate Truthful(s: Store, b: IndexedBattle) {
    && b.mode == League && b.rated && Terminal(b.stage) && PlayedResult(b.result) && b.playerA != b.playerB
    && b.scoreA.Some? && b.scoreB.Some? && ResultFits(b.result.value, b.scoreA.value, b.scoreB.value)
    && b.facts.Some? && b.facts.value.version == FACTS_VERSION && b.facts.value.slot >= 0
    && Reproduces(b.facts.value, b.scoreA.value, b.scoreB.value)
    && (b.key in s.facts ==> s.facts[b.key].facts == b.facts.value)
  }

  /** A score below zero is refused whatever else the account says. */
  lemma NegativeScoreRefused(s: Store, b: IndexedBattle)
    requires (b.facts.Some? ==> Shaped(b.facts.value)) && (Negative(b.scoreA) || Negative(b.scoreB))
    ensures Upserted(s, b) == Outcome(s, Err(InvalidBattle))
  {
  }

  /** A truthful account is accepted if and only if neither score is below zero. */
  lemma TruthfulAcceptedExactly(s: Store, b: IndexedBattle)
    requires Truthful(s, b)
    ensures Upserted(s, b).result.Ok? <==> b.scoreA.value >= 0 && b.scoreB.value >= 0
  {
    hide FactsFault, LineupScore.Score;
    FactsAcceptedExactly(b.facts.value, b.scoreA.value, b.scoreB.value);
    if Negative(b.scoreA) || Negative(b.scoreB) { NegativeScoreRefused(s, b); }
  }

  /** A drawn Battle of two falling lineups is such an account, and is refused. */
  lemma FallingBattleRefused(s: Store, key: Key, fall: ReturnQ9) returns (b: IndexedBattle)
    requires fall < 0 && key !in s.facts
    ensures b.key == key && Truthful(s, b) && Upserted(s, b).result.Err?
  {
    hide FactsFault, LineupScore.Score, LineupFault;
    var ids: seq<AssetId> := seq(LINEUP_SIZE, (k: nat) requires k < LINEUP_SIZE => k as AssetId);
    var gains := seq(LINEUP_SIZE, _ => fall);
    LowestLineup(ids);
    FallingLineup(ids, 0, fall);
    var facts := Facts(FACTS_VERSION, 0, ids, 0, gains, ids, 0, gains);
    b := IndexedBattle(key, League, true, 0, 1, Settled, Some(Draw), Some(fall), Some(fall), None, None, Some(facts),
                       0);
    TruthfulAcceptedExactly(s, b);
  }

  lemma LowestLineup(ids: seq<AssetId>)
    requires |ids| == LINEUP_SIZE && forall k :: 0 <= k < LINEUP_SIZE ==> ids[k] == k
    ensures LineupFault(ids, 0).None?
  {
    assert ids[0] == 0;
  }

  /** Falling assets do score below zero. */
  lemma FallingLineup(ids: seq<AssetId>, captain: AssetId, fall: ReturnQ9)
    requires LineupFault(ids, captain).None? && fall < 0
    ensures LineupScore.Score(seq(LINEUP_SIZE, _ => fall), ids, captain) == Ok(fall)
  {
    ScoreWithinReturns(seq(LINEUP_SIZE, _ => fall), ids, captain, fall, fall);
  }
}
