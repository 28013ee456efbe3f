/** When each achievement is earned, said from the wallet's facts alone. */
module AchievementMeaning {
  import opened Wrappers
  import opened Achievements

  /** Official, rated, no replay, not void. */
  predicate IsCounted(f: Fact) { f.official && f.rated && !f.replay && !f.voided }

  predicate IsWin(f: Fact) { IsCounted(f) && f.outcome == PlayedWin }

  predicate IsPlayed(f: Fact) { IsCounted(f) && f.outcome in {PlayedWin, PlayedLoss, PlayedDraw} }

  predicate EndsStreak(f: Fact) { IsCounted(f) && f.outcome in {PlayedLoss, PlayedDraw, OwnForfeit} }

  function WinCount(history: seq<Fact>): nat {
    if history == [] then 0
    else WinCount(history[..|history| - 1]) + if IsWin(history[|history| - 1]) then 1 else 0
  }

  function PlayCount(history: seq<Fact>): nat {
    if history == [] then 0
    else PlayCount(history[..|history| - 1]) + if IsPlayed(history[|history| - 1]) then 1 else 0
  }

  /** Wins since the last loss, draw or own forfeit. */
  function WinsInARow(history: seq<Fact>): nat {
    if history == [] || EndsStreak(history[|history| - 1]) then 0
    else WinsInARow(history[..|history| - 1]) + if IsWin(history[|history| - 1]) then 1 else 0
  }

  function Within32(n: nat): nat { if n < 0x1_0000_0000 then n else 0xffff_ffff }

  lemma {:induction false} StateMeans(history: seq<Fact>)
    ensures StateOf(history)
            == State(Within32(WinsInARow(history)), Within32(PlayCount(history)), Within32(WinCount(history)))
  {
    if history != [] { StateMeans(history[..|history| - 1]); }
  }

  predicate LineupStored(f: Fact) { f.settled && f.factsVersion == Some(1) && f.gains.Some? && f.captainGain.Some? }

  /** The fact at `k` earns the code: a first win, three or five in a row, the twenty-fifth or hundredth Battle
      or later, an opponent two hundred points above, a margin of up to ten or from three hundred basis
      points, each with a win; a rating after it of 1850 or 2000; or, with a stored lineup, a captain
      that no asset outdid or six rising assets. */
  predicate Earns(history: seq<Fact>, k: nat, code: Code)
    requires k < |history|
  {
    var f, so := history[k], history[..k + 1];
    IsPlayed(f) &&
    match code
    case FIRST_BLOOD => IsWin(f) && WinCount(so) == 1
    case HAT_TRICK => IsWin(f) && WinsInARow(so) >= 3
    case UNSTOPPABLE => IsWin(f) && WinsInARow(so) >= 5
    case VETERAN_25 => IsWin(f) && PlayCount(so) >= 25
    case CENTURY_100 => IsWin(f) && PlayCount(so) >= 100
    case GIANT_SLAYER =>
      IsWin(f) && f.ownBefore.Some? && f.opponentBefore.Some?
      && (f.opponentBefore.value >= f.ownBefore.value + 200 || f.opponentBefore.value >= 0x7fff_ffff)
    case PHOTO_FINISH => IsWin(f) && f.marginBps.Some? && 0 < f.marginBps.value < 11
    case LANDSLIDE => IsWin(f) && f.marginBps.Some? && f.marginBps.value >= 300
    case DIAMOND => f.ratingAfter.Some? && f.ratingAfter.value >= 1850
    case MASTER => f.ratingAfter.Some? && f.ratingAfter.value >= 2000
    case PERFECT_CAPTAIN => LineupStored(f) && forall g | g in f.gains.value :: g <= f.captainGain.value
    case GREEN_SIX => LineupStored(f) && forall g | g in f.gains.value :: 0 < g
  }

  lemma RuleMeans(history: seq<Fact>, k: nat, code: Code)
    requires k < |history|
    ensures MeetsAt(history, k, code) <==> Earns(history, k, code)
  {
    StateMeans(history[..k + 1]);
    hide StateOf, WinCount, PlayCount, WinsInARow;
  }

  ghost predicate EverEarns(history: seq<Fact>, code: Code) {
    exists k :: 0 <= k < |history| && Earns(history, k, code)
  }

  ghost predicate EarnsFirst(history: seq<Fact>, k: nat, code: Code) {
    k < |history| && Earns(history, k, code) && forall j :: 0 <= j < k ==> !Earns(history, j, code)
  }

  /** A replay keeps what was unlocked, unlocks besides exactly the enabled codes that some fact earns, each
      with the Battle of the first such fact and the counts there. */
  lemma ReplayMeans(history: seq<Fact>, table: Table, enabled: set<Code>, code: Code)
    ensures var t := Replayed(history, table, enabled);
            && (code in t <==> code in table || (code in enabled && EverEarns(history, code)))
            && (code in table ==> t[code] == table[code])
            && (code in t && code !in table ==>
                  exists k: nat :: EarnsFirst(history, k, code)
                    && t[code] == Unlock(code, history[k].battle, Within32(WinsInARow(history[..k + 1])),
                                         Within32(PlayCount(history[..k + 1]))))
  {
    hide Replayed, MeetsAt, Earns, StateOf, FirstMet, WinsInARow, PlayCount, WinCount;
    ReplayIs(history, table, enabled, code);
    forall k | 0 <= k < |history| ensures MeetsAt(history, k, code) <==> Earns(history, k, code) {
      RuleMeans(history, k, code);
    }
    if EverMet(history, code) {
      var k := FirstMet(history, code);
      StateMeans(history[..k + 1]);
      assert EarnsFirst(history, k, code);
    }
  }

  /** The three counts can be stored when each fits a signed 32-bit integer. */
  lemma StorableMeans(history: seq<Fact>)
    ensures CountsStorable(StateOf(history))
            <==> WinsInARow(history) < 0x8000_0000 && PlayCount(history) < 0x8000_0000
                 && WinCount(history) < 0x8000_0000
  {
    StateMeans(history);
    hide StateOf, WinsInARow, PlayCount, WinCount;
  }
}
