/** The V2 Elo rule of crates/protocol/src/lib.rs.

    The expected score is an arbitrary curve into [0, 1] of the rating gap: the logistic
    formula is one such curve, and nothing below depends on its shape. Products and the one
    final rounding are taken over the reals. */
module Elo {
  import opened Wrappers

  const INITIAL_RATING := 1500
  const RATING_FLOOR := 100
  const I32_MIN := -0x8000_0000
  const I32_MAX := 0x7fff_ffff

  /** Expected score as a function of opponent rating minus own rating. */
  type Curve = f: int -> real | forall gap :: 0.0 <= f(gap) <= 1.0 witness ((gap: int) => 0.5)

  datatype EloOutcome = Win | Draw | Loss

  datatype EloUpdate = EloUpdate(
    ratingBefore: int, opponentRating: int, expectedScore: real, actualScore: real,
    kFactor: int, delta: int, ratingAfter: int)

  datatype MathError = Overflow

  /** Rounds half away from zero, as f64::round does. */
  function Round(x: real): int {
    if x >= 0.0 then (x + 0.5).Floor else -(0.5 - x).Floor
  }

  function ActualScore(outcome: EloOutcome): real {
    match outcome
    case Win => 1.0
    case Draw => 0.5
    case Loss => 0.0
  }

  function KFactor(completedGames: nat): int {
    if completedGames <= 4 then 64 else if completedGames <= 29 then 32 else 24
  }

  function Max(a: int, b: int): int { if a >= b then a else b }

  function Scaled(k: int, x: real): real { k as real * x }

  /** The update before any 32-bit range check. */
  function UncheckedUpdate(curve: Curve, before: int, opponent: int, outcome: EloOutcome, games: nat): EloUpdate {
    var expected := curve(opponent - before);
    var k := KFactor(games);
    var delta := Round(Scaled(k, ActualScore(outcome) - expected));
    EloUpdate(before, opponent, expected, ActualScore(outcome), k, delta, Max(before + delta, RATING_FLOOR))
  }

  function ApplyEloUpdate(curve: Curve, before: int, opponent: int, outcome: EloOutcome, games: nat)
    : Result<EloUpdate, MathError>
  {
    var update := UncheckedUpdate(curve, before, opponent, outcome, games);
    if update.delta < I32_MIN || update.delta > I32_MAX then Err(Overflow)
    else if update.ratingAfter > I32_MAX then Err(Overflow)
    else Ok(update)
  }

  lemma RoundBounds(x: real, k: int)
    requires -(k as real) <= x <= k as real
    ensures -k <= Round(x) <= k
    ensures x >= 0.0 ==> Round(x) >= 0
    ensures x <= 0.0 ==> Round(x) <= 0
  {
  }

  lemma ScaledBounds(k: int, x: real)
    requires k >= 0 && -1.0 <= x <= 1.0
    ensures -(k as real) <= Scaled(k, x) <= k as real
    ensures (x >= 0.0 ==> Scaled(k, x) >= 0.0) && (x <= 0.0 ==> Scaled(k, x) <= 0.0)
  {
    assert k as real * (1.0 - x) >= 0.0;
    assert k as real * (1.0 + x) >= 0.0;
  }

  /** A single update moves a rating by at most K in the direction of the outcome, never
      below the floor, and the only failure is a result above the 32-bit range. */
  lemma UpdateBounds(curve: Curve, before: int, opponent: int, outcome: EloOutcome, games: nat)
    ensures var u := UncheckedUpdate(curve, before, opponent, outcome, games);
            && -64 <= -u.kFactor <= u.delta <= u.kFactor <= 64
            && u.ratingAfter >= RATING_FLOOR
            && (outcome.Win? ==> u.delta >= 0)
            && (outcome.Loss? ==> u.delta <= 0)
            && (before >= RATING_FLOOR ==> u.ratingAfter <= before + 64)
            && (ApplyEloUpdate(curve, before, opponent, outcome, games).Err? <==> before + u.delta > I32_MAX)
  {
    hide Round, Scaled;
    DeltaBounds(KFactor(games), ActualScore(outcome) - curve(opponent - before));
  }

  lemma DeltaBounds(k: int, x: real)
    requires k >= 0 && -1.0 <= x <= 1.0
    ensures var d := Round(Scaled(k, x)); -k <= d <= k && (x >= 0.0 ==> d >= 0) && (x <= 0.0 ==> d <= 0)
  {
    hide Round, Scaled;
    ScaledBounds(k, x);
    RoundBounds(Scaled(k, x), k);
  }

  function Opposite(outcome: EloOutcome): EloOutcome {
    match outcome
    case Win => Loss
    case Draw => Draw
    case Loss => Win
  }

  /** Two players with the same K-factor and a symmetric curve exchange rating points:
      what one gains before the floor the other loses. */
  lemma ZeroSum(curve: Curve, a: int, b: int, outcome: EloOutcome, gamesA: nat, gamesB: nat)
    requires KFactor(gamesA) == KFactor(gamesB)
    requires curve(a - b) == 1.0 - curve(b - a)
    ensures UncheckedUpdate(curve, a, b, outcome, gamesA).delta
            == -UncheckedUpdate(curve, b, a, Opposite(outcome), gamesB).delta
  {
    var k := KFactor(gamesA) as real;
    var x := ActualScore(outcome) - curve(b - a);
    var y := ActualScore(Opposite(outcome)) - curve(a - b);
    assert y == -x;
    assert k * y == -(k * x);
  }
}
