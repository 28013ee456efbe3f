/** Ordered, idempotent Elo application for finalized rated Battles (backend/src/rating.rs).

    The `battles` table is held in the order both worker queries read it: by Market Round
    sequence, then by Battle address. Addresses are naturals; only their equality and order
    matter. A Market Round is identified by its unique sequence number. One season is active. */
module Rating {
  import opened Wrappers
  import opened Elo

  const RATING_FORMULA_VERSION := 1
  const FORFEIT_ELO_PENALTY := 8

  type Wallet = nat
  type BattleKey = nat

  datatype RatingError =
    | InvalidResult | SnapshotMismatch | ConflictingEvents | InvalidState | Math | Storage

  /** `Unresolved` stands for every state other than the three named ones. */
  datatype BattleState = Unresolved | Finalized | Settled | VoidedState

  datatype ResultText =
    | PlayerA | PlayerB | DrawGame | ForfeitA | ForfeitB | BothForfeit | Voided | Pending | OtherText

  datatype Resolution = Played | AForfeits | BForfeits | BothForfeited | Void | Unsupported

  /** A Battle row joined with its Market Round and, when there is one, its Ranked pairing. */
  datatype BattleRow = BattleRow(
    key: BattleKey, round: int, rated: bool, replay: bool, playerA: Wallet, playerB: Wallet,
    state: BattleState, result: Option<ResultText>,
    ratingABefore: Option<int>, ratingBBefore: Option<int>, formulaVersion: Option<int>,
    pairingRatingA: Option<int>, pairingRatingB: Option<int>)
  {
    predicate Has(w: Wallet) { playerA == w || playerB == w }

    predicate Shares(other: BattleRow) { Has(other.playerA) || Has(other.playerB) }

    /** The state and result with which a row can affect ratings. */
    predicate Terminal() {
      (state == Finalized || state == Settled) && result.Some? && result.value != Pending
    }
  }

  datatype RatingRow = RatingRow(rating: int, ratedGames: nat, peak: int, wins: nat, draws: nat, losses: nat)

  const NEW_RATING := RatingRow(INITIAL_RATING, 0, INITIAL_RATING, 0, 0, 0)

  datatype EventKind = PlayedRatedBattle | ForfeitPenalty

  datatype RatingEvent = RatingEvent(
    round: int, battle: BattleKey, wallet: Wallet, opponent: Wallet, kind: EventKind,
    before: int, opponentRating: int, delta: int, after: int, elo: Option<EloUpdate>)

  /** The three tables. `events` is append-only, an event's id is its index. */
  datatype Tables = Tables(battles: seq<BattleRow>, ratings: map<Wallet, RatingRow>, events: seq<RatingEvent>)

  datatype ApplyReport = ApplyReport(
    battle: BattleKey, round: int, kind: EventKind, eventsCreated: nat, ratingAAfter: int, ratingBAfter: int)

  type ApplyResult = Result<Option<ApplyReport>, RatingError>

  function Classify(text: ResultText): Resolution {
    match text
    case PlayerA | PlayerB | DrawGame => Played
    case ForfeitA => AForfeits
    case ForfeitB => BForfeits
    case BothForfeit => BothForfeited
    case Voided => Void
    case Pending | OtherText => Unsupported
  }

  /** Outcomes of the two players of a played Battle. */
  function PlayedOutcomes(text: ResultText): (EloOutcome, EloOutcome)
    requires Classify(text).Played?
  {
    match text
    case PlayerA => (Win, Loss)
    case PlayerB => (Loss, Win)
    case DrawGame => (Draw, Draw)
  }

  // ----- reading the event log -----

  function EventsOf(events: seq<RatingEvent>, key: BattleKey): seq<RatingEvent> {
    if events == [] then []
    else
      var last := events[|events| - 1];
      EventsOf(events[..|events| - 1], key) + if last.battle == key then [last] else []
  }

  /** Later rows overwrite earlier ones, as inserting into the status map does. */
  function KindByWallet(events: seq<RatingEvent>): map<Wallet, EventKind> {
    if events == [] then map[]
    else
      var last := events[|events| - 1];
      KindByWallet(events[..|events| - 1])[last.wallet := last.kind]
  }

  predicate KindIs(kinds: map<Wallet, EventKind>, wallet: Wallet, kind: EventKind) {
    wallet in kinds && kinds[wallet] == kind
  }

  predicate EffectsComplete(row: BattleRow, resolution: Resolution, count: nat, kinds: map<Wallet, EventKind>) {
    match resolution
    case Played =>
      count == 2 && KindIs(kinds, row.playerA, PlayedRatedBattle) && KindIs(kinds, row.playerB, PlayedRatedBattle)
    case AForfeits => count == 1 && KindIs(kinds, row.playerA, ForfeitPenalty)
    case BForfeits => count == 1 && KindIs(kinds, row.playerB, ForfeitPenalty)
    case BothForfeited =>
      count == 2 && KindIs(kinds, row.playerA, ForfeitPenalty) && KindIs(kinds, row.playerB, ForfeitPenalty)
    case Void => false
    case Unsupported => false
  }

  predicate Complete(events: seq<RatingEvent>, row: BattleRow, resolution: Resolution) {
    var mine := EventsOf(events, row.key);
    EffectsComplete(row, resolution, |mine|, KindByWallet(mine))
  }

  // ----- which Battle is applied next -----

  /** The rows the chain query returns for a Battle of `a` and `b` in `round`. */
  predicate InPriorChain(row: BattleRow, a: Wallet, b: Wallet, round: int) {
    row.rated && !row.replay && (row.Has(a) || row.Has(b)) && row.round < round
  }

  datatype ChainVerdict = Continue | Blocked | ChainError(error: RatingError)

  function ChainRow(events: seq<RatingEvent>, row: BattleRow): ChainVerdict {
    if !(row.state == Finalized || row.state == Settled) || row.result.None? then Blocked
    else
      var resolution := Classify(row.result.value);
      if resolution.Unsupported? then ChainError(InvalidResult)
      else if resolution.Void? then Continue
      else if Complete(events, row, resolution) then Continue
      else Blocked
  }

  /** The verdict of the first row, from index `j` on, that decides the chain. */
  function PriorChain(t: Tables, a: Wallet, b: Wallet, round: int, j: nat): ChainVerdict
    requires j <= |t.battles|
    decreases |t.battles| - j
  {
    if j == |t.battles| then Continue
    else if !InPriorChain(t.battles[j], a, b, round) then PriorChain(t, a, b, round, j + 1)
    else
      match ChainRow(t.events, t.battles[j])
      case Continue => PriorChain(t, a, b, round, j + 1)
      case Blocked => Blocked
      case ChainError(e) => ChainError(e)
  }

  datatype Verdict = Skip | Fail(error: RatingError) | Ready

  /** What the worker does on reaching row `i`. */
  function Judge(t: Tables, i: nat): Verdict
    requires i < |t.battles|
  {
    var row := t.battles[i];
    if !(row.rated && !row.replay && row.Terminal()) then Skip
    else
      var resolution := Classify(row.result.value);
      var count := |EventsOf(t.events, row.key)|;
      if resolution.Unsupported? then Fail(InvalidResult)
      else if resolution.Void? then if count != 0 then Fail(ConflictingEvents) else Skip
      else if Complete(t.events, row, resolution) then Skip
      else if count != 0 then Fail(ConflictingEvents)
      else
        match PriorChain(t, row.playerA, row.playerB, row.round, 0)
        case Continue => Ready
        case Blocked => Skip
        case ChainError(e) => Fail(e)
  }

  datatype Pick = Nothing | PickError(error: RatingError) | Chosen(index: nat)

  function NextPick(t: Tables, i: nat): Pick
    requires i <= |t.battles|
    decreases |t.battles| - i
  {
    if i == |t.battles| then Nothing
    else
      match Judge(t, i)
      case Skip => NextPick(t, i + 1)
      case Fail(e) => PickError(e)
      case Ready => Chosen(i)
  }

  // ----- the effect of one Battle -----

  function ForfeitRatingAfter(before: int): int { Max(before - FORFEIT_ELO_PENALTY, RATING_FLOOR) }

  function PlayedRow(row: RatingRow, after: int, outcome: EloOutcome): RatingRow {
    RatingRow(after, row.ratedGames + 1, Max(row.peak, after),
              row.wins + (if outcome.Win? then 1 else 0),
              row.draws + (if outcome.Draw? then 1 else 0),
              row.losses + (if outcome.Loss? then 1 else 0))
  }

  function ForfeitRow(row: RatingRow): RatingRow {
    var after := ForfeitRatingAfter(row.rating);
    row.(rating := after, peak := Max(row.peak, after))
  }

  function PlayedEvent(row: BattleRow, wallet: Wallet, opponent: Wallet, u: EloUpdate): RatingEvent {
    RatingEvent(row.round, row.key, wallet, opponent, PlayedRatedBattle,
                u.ratingBefore, u.opponentRating, u.delta, u.ratingAfter, Some(u))
  }

  function ForfeitEvent(row: BattleRow, wallet: Wallet, opponent: Wallet, before: int, opponentRating: int)
    : RatingEvent
  {
    var after := ForfeitRatingAfter(before);
    RatingEvent(row.round, row.key, wallet, opponent, ForfeitPenalty, before, opponentRating, after - before, after,
                None)
  }

  datatype Effect = Effect(rowA: RatingRow, rowB: RatingRow, events: seq<RatingEvent>)

  predicate Effectful(row: BattleRow) {
    row.rated && !row.replay && row.result.Some?
    && var r := Classify(row.result.value); !r.Void? && !r.Unsupported?
  }

  /** The new rating rows and events of a Battle, from its players' rows before it. */
  function EffectOn(curve: Curve, row: BattleRow, a: RatingRow, b: RatingRow): Effect
    requires Effectful(row)
  {
    match Classify(row.result.value)
    case Played =>
      var (outcomeA, outcomeB) := PlayedOutcomes(row.result.value);
      var ua := UncheckedUpdate(curve, a.rating, b.rating, outcomeA, a.ratedGames);
      var ub := UncheckedUpdate(curve, b.rating, a.rating, outcomeB, b.ratedGames);
      Effect(PlayedRow(a, ua.ratingAfter, outcomeA), PlayedRow(b, ub.ratingAfter, outcomeB),
             [PlayedEvent(row, row.playerA, row.playerB, ua), PlayedEvent(row, row.playerB, row.playerA, ub)])
    case AForfeits =>
      Effect(ForfeitRow(a), b, [ForfeitEvent(row, row.playerA, row.playerB, a.rating, b.rating)])
    case BForfeits =>
      Effect(a, ForfeitRow(b), [ForfeitEvent(row, row.playerB, row.playerA, b.rating, a.rating)])
    case BothForfeited =>
      Effect(ForfeitRow(a), ForfeitRow(b),
             [ForfeitEvent(row, row.playerA, row.playerB, a.rating, b.rating),
              ForfeitEvent(row, row.playerB, row.playerA, b.rating, a.rating)])
  }

  function RowOf(ratings: map<Wallet, RatingRow>, w: Wallet): RatingRow {
    if w in ratings then ratings[w] else NEW_RATING
  }

  predicate SnapshotAgrees(snapshot: Option<int>, rating: int) { snapshot.Some? ==> snapshot.value == rating }

  predicate SnapshotsAgree(row: BattleRow, a: RatingRow, b: RatingRow) {
    && SnapshotAgrees(row.ratingABefore, a.rating) && SnapshotAgrees(row.pairingRatingA, a.rating)
    && SnapshotAgrees(row.ratingBBefore, b.rating) && SnapshotAgrees(row.pairingRatingB, b.rating)
    && SnapshotAgrees(row.formulaVersion, RATING_FORMULA_VERSION)
  }

  /** The partial unique index on played events: one per wallet and Market Round. */
  predicate PlayedInRound(events: seq<RatingEvent>, round: int, w: Wallet) {
    exists k | 0 <= k < |events| ::
      events[k].round == round && events[k].wallet == w && events[k].kind == PlayedRatedBattle
  }

  /** Why an application is refused, if it is: the checks in the order they are met. */
  function Refusal(curve: Curve, t: Tables, row: BattleRow): Option<RatingError>
    requires Effectful(row)
  {
    var a, b := RowOf(t.ratings, row.playerA), RowOf(t.ratings, row.playerB);
    if row.playerA == row.playerB then Some(InvalidState)
    else if !SnapshotsAgree(row, a, b) then Some(SnapshotMismatch)
    else if !Classify(row.result.value).Played? then None
    else
      var (outcomeA, outcomeB) := PlayedOutcomes(row.result.value);
      if ApplyEloUpdate(curve, a.rating, b.rating, outcomeA, a.ratedGames).Err? then Some(Math)
      else if ApplyEloUpdate(curve, b.rating, a.rating, outcomeB, b.ratedGames).Err? then Some(Math)
      else if PlayedInRound(t.events, row.round, row.playerA) || PlayedInRound(t.events, row.round, row.playerB)
      then Some(Storage)
      else if a.ratedGames + 1 > I32_MAX || b.ratedGames + 1 > I32_MAX then Some(Storage)
      else None
  }

  function Applied(curve: Curve, t: Tables, row: BattleRow): Tables
    requires Effectful(row)
  {
    var e := EffectOn(curve, row, RowOf(t.ratings, row.playerA), RowOf(t.ratings, row.playerB));
    Tables(t.battles, t.ratings[row.playerA := e.rowA][row.playerB := e.rowB], t.events + e.events)
  }

  function ReportOf(row: BattleRow, e: Effect): ApplyReport
    requires Effectful(row)
  {
    ApplyReport(row.key, row.round,
                if Classify(row.result.value).Played? then PlayedRatedBattle else ForfeitPenalty,
                |e.events|, e.rowA.rating, e.rowB.rating)
  }

  /** What applying one Battle row may do to the tables, and what it returns. */
  ghost predicate Outcome(curve: Curve, t: Tables, row: BattleRow, t': Tables, r: ApplyResult)
    requires Effectful(row)
  {
    match Refusal(curve, t, row)
    case Some(error) => r == Err(error) && t' == t
    case None =>
      && t' == Applied(curve, t, row)
      && r == Ok(Some(ReportOf(row,
                               EffectOn(curve, row, RowOf(t.ratings, row.playerA), RowOf(t.ratings, row.playerB)))))
  }

  /** Both rows exist in the transaction's copy and the snapshots have been accepted. */
  ghost predicate Accepted(t: Tables, row: BattleRow, created: map<Wallet, RatingRow>) {
    && row.playerA != row.playerB
    && created == t.ratings[row.playerA := RowOf(t.ratings, row.playerA)][row.playerB := RowOf(t.ratings, row.playerB)]
    && SnapshotsAgree(row, RowOf(t.ratings, row.playerA), RowOf(t.ratings, row.playerB))
  }

  lemma PlayedRowRating(row: RatingRow, after: int, outcome: EloOutcome)
    ensures PlayedRow(row, after, outcome).rating == after
  {
  }

  /** One worker transaction: the tables it commits and what it returns. */
  function Worker(curve: Curve, t: Tables): (Tables, ApplyResult) {
    match NextPick(t, 0)
    case Nothing => (t, Ok(None))
    case PickError(e) => (t, Err(e))
    case Chosen(i) =>
      ChosenIsReady(t, 0);
      var row := t.battles[i];
      match Refusal(curve, t, row)
      case Some(error) => (t, Err(error))
      case None =>
        var e := EffectOn(curve, row, RowOf(t.ratings, row.playerA), RowOf(t.ratings, row.playerB));
        (Applied(curve, t, row), Ok(Some(ReportOf(row, e))))
  }

  /** The chosen row is in range, ready, and every row before it is skipped. */
  lemma {:induction false} ChosenIsReady(t: Tables, i: nat)
    requires i <= |t.battles|
    ensures NextPick(t, i).Chosen? ==>
      var k := NextPick(t, i).index;
      i <= k < |t.battles| && Judge(t, k).Ready? && Effectful(t.battles[k])
      && forall j :: i <= j < k ==> Judge(t, j).Skip?
    ensures NextPick(t, i).Nothing? ==> forall j :: i <= j < |t.battles| ==> Judge(t, j).Skip?
    decreases |t.battles| - i
  {
    if i < |t.battles| && Judge(t, i).Skip? { ChosenIsReady(t, i + 1); }
  }

  /** The most recent event of a wallet by (round_sequence, id). */
  function LatestEvent(events: seq<RatingEvent>, w: Wallet): Option<RatingEvent> {
    if events == [] then None
    else
      var last, best := events[|events| - 1], LatestEvent(events[..|events| - 1], w);
      if last.wallet == w && (best.None? || last.round >= best.value.round) then Some(last) else best
  }

  function PlayedGames(events: seq<RatingEvent>, w: Wallet): nat {
    if events == [] then 0
    else
      var last := events[|events| - 1];
      PlayedGames(events[..|events| - 1], w)
      + if last.wallet == w && last.kind == PlayedRatedBattle then 1 else 0
  }

  predicate ProjectionMatches(t: Tables, w: Wallet)
    requires w in t.ratings
  {
    var last := LatestEvent(t.events, w);
    && t.ratings[w].rating == (if last.Some? then last.value.after else INITIAL_RATING)
    && t.ratings[w].ratedGames == PlayedGames(t.events, w)
  }

  /** The given wallets whose rows disagree with the log. */
  ghost function Drifted(t: Tables, wallets: set<Wallet>): set<Wallet>
    requires wallets <= t.ratings.Keys
  {
    set w | w in wallets && !ProjectionMatches(t, w)
  }

  lemma DriftedAdd(t: Tables, wallets: set<Wallet>, w: Wallet)
    requires wallets + {w} <= t.ratings.Keys && w !in wallets
    ensures |Drifted(t, wallets + {w})| == |Drifted(t, wallets)| + if ProjectionMatches(t, w) then 0 else 1
  {
    hide ProjectionMatches;
    if ProjectionMatches(t, w) {
      assert Drifted(t, wallets + {w}) == Drifted(t, wallets);
    } else {
      assert Drifted(t, wallets + {w}) == Drifted(t, wallets) + {w};
    }
  }

  /** The worker's database and its two entry points. Each transaction reads into locals and
      assigns the tables only when it commits. */
  class RatingLedger {
    const curve: Curve
    var battles: seq<BattleRow>
    var ratings: map<Wallet, RatingRow>
    var events: seq<RatingEvent>

    constructor (curve: Curve, battles: seq<BattleRow>)
      ensures this.curve == curve && State() == Tables(battles, map[], [])
    {
      this.curve := curve;
      this.battles := battles;
      ratings, events := map[], [];
    }

    ghost function State(): Tables
      reads this
    {
      Tables(battles, ratings, events)
    }

    /** Counts a Battle's events and indexes their kinds by wallet. */
    method EventStatus(key: BattleKey) returns (count: nat, kinds: map<Wallet, EventKind>)
      ensures var mine := EventsOf(events, key); count == |mine| && kinds == KindByWallet(mine)
    {
      count, kinds := 0, map[];
      ghost var mine := [];
      for k := 0 to |events|
        invariant mine == EventsOf(events[..k], key)
        invariant count == |mine| && kinds == KindByWallet(mine)
      {
        assert events[..k + 1][..k] == events[..k];
        if events[k].battle == key {
          count, kinds := count + 1, kinds[events[k].wallet := events[k].kind];
          mine := mine + [events[k]];
          assert mine[..|mine| - 1] + [events[k]] == mine;
        }
      }
      assert events[..|events|] == events;
    }

    method PriorRatingChainResolved(a: Wallet, b: Wallet, round: int) returns (verdict: ChainVerdict)
      ensures verdict == PriorChain(State(), a, b, round, 0)
    {
      for j := 0 to |battles|
        invariant PriorChain(State(), a, b, round, 0) == PriorChain(State(), a, b, round, j)
      {
        var row := battles[j];
        if InPriorChain(row, a, b, round) {
          if !(row.state == Finalized || row.state == Settled) || row.result.None? {
            return Blocked;
          }
          var resolution := Classify(row.result.value);
          if resolution.Unsupported? {
            return ChainError(InvalidResult);
          }
          if !resolution.Void? {
            var count, kinds := EventStatus(row.key);
            if !EffectsComplete(row, resolution, count, kinds) {
              return Blocked;
            }
          }
        }
      }
      return Continue;
    }

    /** Applies the earliest ready rated Battle, or reports that there is none. A refused or
        failed call leaves every table unchanged. */
    method ApplyNext() returns (r: ApplyResult)
      modifies `ratings, `events
      ensures (State(), r) == Worker(curve, old(State()))
    {
      for i := 0 to |battles|
        invariant NextPick(State(), 0) == NextPick(State(), i)
        invariant State() == old(State())
      {
        var row := battles[i];
        if row.rated && !row.replay && row.Terminal() {
          var resolution := Classify(row.result.value);
          if resolution.Unsupported? {
            return Err(InvalidResult);
          }
          var count, kinds := EventStatus(row.key);
          if resolution.Void? {
            if count != 0 {
              return Err(ConflictingEvents);
            }
          } else if !EffectsComplete(row, resolution, count, kinds) {
            if count != 0 {
              return Err(ConflictingEvents);
            }
            var verdict := PriorRatingChainResolved(row.playerA, row.playerB, row.round);
            if verdict.ChainError? {
              return Err(verdict.error);
            }
            if verdict.Continue? {
              assert Judge(State(), i).Ready? && NextPick(State(), 0) == Chosen(i);
              r := ApplyBattle(row);
              return;
            }
          }
        }
      }
      return Ok(None);
    }

    /** Locks or creates both rating rows, validates the snapshots, and applies the Battle. */
    method ApplyBattle(row: BattleRow) returns (r: ApplyResult)
      requires Effectful(row)
      modifies `ratings, `events
      ensures Outcome(curve, old(State()), row, State(), r)
    {
      hide EffectOn, Applied, ApplyEloUpdate, UncheckedUpdate;
      var created := ratings;
      if row.playerA !in created { created := created[row.playerA := NEW_RATING]; }
      if row.playerB !in created { created := created[row.playerB := NEW_RATING]; }
      if row.playerA == row.playerB {
        return Err(InvalidState);
      }
      var a, b := created[row.playerA], created[row.playerB];
      if !SnapshotsAgree(row, a, b) {
        return Err(SnapshotMismatch);
      }
      match Classify(row.result.value)
      case Played => r := ApplyPlayed(row, created);
      case AForfeits => r := ApplyForfeit(row, created, true);
      case BForfeits => r := ApplyForfeit(row, created, false);
      case BothForfeited => r := ApplyBothForfeit(row, created);
    }

    /** Writes two played events and both players' rows. */
    method ApplyPlayed(row: BattleRow, created: map<Wallet, RatingRow>) returns (r: ApplyResult)
      requires Effectful(row) && Classify(row.result.value).Played? && Accepted(State(), row, created)
      modifies `ratings, `events
      ensures Outcome(curve, old(State()), row, State(), r)
    {
      hide UncheckedUpdate, PlayedInRound, SnapshotsAgree, PlayedRow;
      var a, b := created[row.playerA], created[row.playerB];
      var (outcomeA, outcomeB) := PlayedOutcomes(row.result.value);
      var ua := ApplyEloUpdate(curve, a.rating, b.rating, outcomeA, a.ratedGames);
      if ua.Err? { return Err(Math); }
      var ub := ApplyEloUpdate(curve, b.rating, a.rating, outcomeB, b.ratedGames);
      if ub.Err? { return Err(Math); }
      if PlayedInRound(events, row.round, row.playerA) || PlayedInRound(events, row.round, row.playerB) {
        return Err(Storage);
      }
      if a.ratedGames + 1 > I32_MAX || b.ratedGames + 1 > I32_MAX {
        return Err(Storage);
      }
      var ea, eb := PlayedEvent(row, row.playerA, row.playerB, ua.value),
        PlayedEvent(row, row.playerB, row.playerA, ub.value);
      assert events + [ea] + [eb] == events + [ea, eb];
      events := events + [ea] + [eb];
      var nextA, nextB := PlayedRow(a, ua.value.ratingAfter, outcomeA), PlayedRow(b, ub.value.ratingAfter, outcomeB);
      assert created[row.playerA := nextA][row.playerB := nextB]
             == ratings[row.playerA := nextA][row.playerB := nextB];
      ratings := created[row.playerA := nextA][row.playerB := nextB];
      r := Ok(Some(ApplyReport(row.key, row.round, PlayedRatedBattle, 2, ua.value.ratingAfter, ub.value.ratingAfter)));
      assert nextA.rating == ua.value.ratingAfter && nextB.rating == ub.value.ratingAfter by {
        PlayedRowRating(a, ua.value.ratingAfter, outcomeA);
        PlayedRowRating(b, ub.value.ratingAfter, outcomeB);
      }
    }

    /** Writes one penalty event and the forfeiter's row. */
    method ApplyForfeit(row: BattleRow, created: map<Wallet, RatingRow>, playerAForfeited: bool)
      returns (r: ApplyResult)
      requires Effectful(row) && Accepted(State(), row, created)
      requires Classify(row.result.value) == if playerAForfeited then AForfeits else BForfeits
      modifies `ratings, `events
      ensures Outcome(curve, old(State()), row, State(), r)
    {
      hide SnapshotsAgree;
      var a, b := created[row.playerA], created[row.playerB];
      var forfeiter := if playerAForfeited then row.playerA else row.playerB;
      var opponent := if playerAForfeited then row.playerB else row.playerA;
      var after := ForfeitRatingAfter(created[forfeiter].rating);
      events := events + [ForfeitEvent(row, forfeiter, opponent, created[forfeiter].rating, created[opponent].rating)];
      ratings := created[forfeiter := ForfeitRow(created[forfeiter])];
      r := Ok(Some(ApplyReport(row.key, row.round, ForfeitPenalty, 1,
                               if playerAForfeited then after else a.rating,
                               if playerAForfeited then b.rating else after)));
    }

    /** Writes two penalty events and both players' rows. */
    method ApplyBothForfeit(row: BattleRow, created: map<Wallet, RatingRow>) returns (r: ApplyResult)
      requires Effectful(row) && Classify(row.result.value).BothForfeited? && Accepted(State(), row, created)
      modifies `ratings, `events
      ensures Outcome(curve, old(State()), row, State(), r)
    {
      hide SnapshotsAgree;
      var a, b := created[row.playerA], created[row.playerB];
      events := events + [ForfeitEvent(row, row.playerA, row.playerB, a.rating, b.rating)]
                       + [ForfeitEvent(row, row.playerB, row.playerA, b.rating, a.rating)];
      ratings := created[row.playerA := ForfeitRow(a)][row.playerB := ForfeitRow(b)];
      r := Ok(Some(ApplyReport(row.key, row.round, ForfeitPenalty, 2,
                               ForfeitRatingAfter(a.rating), ForfeitRatingAfter(b.rating))));
    }

    /** Counts the rating rows that disagree with the event log; repairs nothing. */
    method ReconcileProjection() returns (mismatches: nat)
      ensures mismatches == |Drifted(State(), ratings.Keys)|
    {
      hide ProjectionMatches;
      mismatches := 0;
      var rest := ratings.Keys;
      ghost var seen: set<Wallet> := {};
      while rest != {}
        invariant seen + rest == ratings.Keys && seen !! rest
        invariant mismatches == |Drifted(State(), seen)|
        decreases rest
      {
        var w :| w in rest;
        var matches := RowMatches(w);
        if !matches {
          mismatches := mismatches + 1;
        }
        DriftedAdd(State(), seen, w);
        rest, seen := rest - {w}, seen + {w};
      }
      assert seen == ratings.Keys;
    }

    method RowMatches(w: Wallet) returns (matches: bool)
      requires w in ratings
      ensures matches == ProjectionMatches(State(), w)
    {
      var last := LatestEvent(events, w);
      var expected := if last.Some? then last.value.after else INITIAL_RATING;
      matches := ratings[w].rating == expected && ratings[w].ratedGames == PlayedGames(events, w);
    }
  }
}
