/** Battle achievements (backend/src/achievements.rs): a wallet's whole history is replayed, and
    each fact may unlock codes not unlocked before. */
module Achievements {
  import opened Wrappers
  import opened Sequences

  const U32_MAX := 0xffff_ffff
  const I32_MAX := 0x7fff_ffff
  const FACTS_VERSION := 1

  type Key = nat

  datatype Code =
    | FIRST_BLOOD | HAT_TRICK | UNSTOPPABLE | GIANT_SLAYER | PERFECT_CAPTAIN | GREEN_SIX
    | PHOTO_FINISH | LANDSLIDE | VETERAN_25 | CENTURY_100 | DIAMOND | MASTER

  datatype BattleOutcome = PlayedWin | PlayedLoss | PlayedDraw | OwnForfeit | OpponentForfeit | BothForfeit | SystemVoid
    | Ineligible

  datatype Fact = Fact(
    battle: Key, official: bool, rated: bool, replay: bool, voided: bool, settled: bool, outcome: BattleOutcome,
    ownBefore: Option<int>, opponentBefore: Option<int>, ratingAfter: Option<int>, marginBps: Option<int>,
    factsVersion: Option<int>, gains: Option<seq<int>>, captainGain: Option<int>)

  datatype State = State(streak: nat, battles: nat, wins: nat)

  /** An unlocked code with the Battle and the progress that unlocked it. */
  datatype Unlock = Unlock(code: Code, battle: Key, streak: nat, battles: nat)

  const FRESH := State(0, 0, 0)

  // ----- one fact -----

  predicate Counts(f: Fact) { f.official && f.rated && !f.replay && !f.voided }

  predicate Played(f: Fact) { f.outcome == PlayedWin || f.outcome == PlayedLoss || f.outcome == PlayedDraw }

  predicate Breaks(f: Fact) { f.outcome == PlayedLoss || f.outcome == PlayedDraw || f.outcome == OwnForfeit }

  function Saturating(n: int, cap: int): int { if n > cap then cap else n }

  function NextState(f: Fact, s: State): State {
    if !Counts(f) then s
    else
      State(if f.outcome == PlayedWin then Saturating(s.streak + 1, U32_MAX) else if Breaks(f) then 0 else s.streak,
            if Played(f) then Saturating(s.battles + 1, U32_MAX) else s.battles,
            if f.outcome == PlayedWin then Saturating(s.wins + 1, U32_MAX) else s.wins)
  }

  predicate LineupKnown(f: Fact) {
    f.settled && f.factsVersion == Some(FACTS_VERSION) && f.gains.Some? && f.captainGain.Some?
  }

  /** The fact, with the state after it, meets the rule of the code. */
  predicate Meets(code: Code, f: Fact, s: State) {
    Counts(f) && Played(f) &&
    var win := f.outcome == PlayedWin;
    match code
    case FIRST_BLOOD => win && s.wins == 1
    case HAT_TRICK => win && s.streak >= 3
    case UNSTOPPABLE => win && s.streak >= 5
    case VETERAN_25 => win && s.battles >= 25
    case CENTURY_100 => win && s.battles >= 100
    case GIANT_SLAYER =>
      win && f.opponentBefore.Some? && f.ownBefore.Some?
        && f.opponentBefore.value >= Saturating(f.ownBefore.value + 200, I32_MAX)
    case PHOTO_FINISH => win && f.marginBps.Some? && 1 <= f.marginBps.value <= 10
    case LANDSLIDE => win && f.marginBps.Some? && f.marginBps.value >= 300
    case DIAMOND => f.ratingAfter.Some? && f.ratingAfter.value >= 1850
    case MASTER => f.ratingAfter.Some? && f.ratingAfter.value >= 2000
    case PERFECT_CAPTAIN => LineupKnown(f) && forall g | g in f.gains.value :: f.captainGain.value >= g
    case GREEN_SIX => LineupKnown(f) && forall g | g in f.gains.value :: g > 0
  }

  function UnlockOf(code: Code, f: Fact, s: State): Unlock { Unlock(code, f.battle, s.streak, s.battles) }

  function Earned(code: Code, f: Fact, s: State, known: set<Code>): seq<Unlock> {
    if Meets(code, f, s) && code !in known then [UnlockOf(code, f, s)] else []
  }

  function WinPart(f: Fact, s: State, known: set<Code>): seq<Unlock> {
    Earned(FIRST_BLOOD, f, s, known) + Earned(HAT_TRICK, f, s, known) + Earned(UNSTOPPABLE, f, s, known)
    + Earned(VETERAN_25, f, s, known) + Earned(CENTURY_100, f, s, known) + Earned(GIANT_SLAYER, f, s, known)
    + Earned(PHOTO_FINISH, f, s, known) + Earned(LANDSLIDE, f, s, known)
  }

  function Derived(f: Fact, s: State, known: set<Code>): seq<Unlock> {
    WinPart(f, s, known) + Earned(DIAMOND, f, s, known) + Earned(MASTER, f, s, known)
    + Earned(PERFECT_CAPTAIN, f, s, known) + Earned(GREEN_SIX, f, s, known)
  }

  method DeriveBattleUnlocks(f: Fact, state: State, known: set<Code>) returns (next: State, unlocks: seq<Unlock>)
    ensures next == NextState(f, state)
    ensures unlocks == Derived(f, NextState(f, state), known)
  {
    next, unlocks := state, [];
    if !f.official || !f.rated || f.replay || f.voided {
      NothingEarned(f, state, known);
      return;
    }
    if Played(f) {
      next := next.(battles := Saturating(next.battles + 1, U32_MAX));
    }
    match f.outcome {
      case PlayedWin =>
        next := next.(streak := Saturating(next.streak + 1, U32_MAX), wins := Saturating(next.wins + 1, U32_MAX));
      case PlayedLoss | PlayedDraw | OwnForfeit => next := next.(streak := 0);
      case OpponentForfeit | BothForfeit | SystemVoid | Ineligible =>
    }
    if !Played(f) {
      NothingEarned(f, next, known);
      return;
    }
    unlocks := EarnAll(f, next, known);
  }

  method EarnAll(f: Fact, s: State, known: set<Code>) returns (unlocks: seq<Unlock>)
    requires Counts(f) && Played(f)
    ensures unlocks == Derived(f, s, known)
  {
    hide Meets, Earned, AddUnlock, WinPart;
    OtherRules(f, s);
    AddsEarned(f, s, known);
    var won := [];
    if f.outcome == PlayedWin {
      won := EarnWin(f, s, known);
    } else {
      NoWinNothing(f, s, known);
    }
    unlocks := won;
    if f.ratingAfter.Some? && f.ratingAfter.value >= 1850 {
      unlocks := AddUnlock(unlocks, known, DIAMOND, f, s);
    }
    assert unlocks == won + Earned(DIAMOND, f, s, known);
    if f.ratingAfter.Some? && f.ratingAfter.value >= 2000 {
      unlocks := AddUnlock(unlocks, known, MASTER, f, s);
    }
    assert unlocks == won + Earned(DIAMOND, f, s, known) + Earned(MASTER, f, s, known);
    ghost var rated := unlocks;
    if f.settled && f.factsVersion == Some(FACTS_VERSION) && f.gains.Some? && f.captainGain.Some? {
      if forall g | g in f.gains.value :: f.captainGain.value >= g {
        unlocks := AddUnlock(unlocks, known, PERFECT_CAPTAIN, f, s);
      }
      assert unlocks == rated + Earned(PERFECT_CAPTAIN, f, s, known);
      if forall g | g in f.gains.value :: g > 0 {
        unlocks := AddUnlock(unlocks, known, GREEN_SIX, f, s);
      }
    }
    assert unlocks == rated + Earned(PERFECT_CAPTAIN, f, s, known) + Earned(GREEN_SIX, f, s, known);
  }

  method EarnWin(f: Fact, s: State, known: set<Code>) returns (unlocks: seq<Unlock>)
    requires Counts(f) && f.outcome == PlayedWin
    ensures unlocks == WinPart(f, s, known)
  {
    hide Meets, Earned, AddUnlock, Saturating;
    WinRules(f, s);
    AddsEarned(f, s, known);
    unlocks := [];
    if s.wins == 1 {
      unlocks := AddUnlock(unlocks, known, FIRST_BLOOD, f, s);
    }
    assert unlocks == Earned(FIRST_BLOOD, f, s, known);
    if s.streak >= 3 {
      unlocks := AddUnlock(unlocks, known, HAT_TRICK, f, s);
    }
    assert unlocks == Earned(FIRST_BLOOD, f, s, known) + Earned(HAT_TRICK, f, s, known);
    if s.streak >= 5 {
      unlocks := AddUnlock(unlocks, known, UNSTOPPABLE, f, s);
    }
    assert unlocks == Earned(FIRST_BLOOD, f, s, known) + Earned(HAT_TRICK, f, s, known)
             + Earned(UNSTOPPABLE, f, s, known);
    if s.battles >= 25 {
      unlocks := AddUnlock(unlocks, known, VETERAN_25, f, s);
    }
    ghost var counted := unlocks;
    assert counted == Earned(FIRST_BLOOD, f, s, known) + Earned(HAT_TRICK, f, s, known)
             + Earned(UNSTOPPABLE, f, s, known)
                      + Earned(VETERAN_25, f, s, known);
    if s.battles >= 100 {
      unlocks := AddUnlock(unlocks, known, CENTURY_100, f, s);
    }
    assert unlocks == counted + Earned(CENTURY_100, f, s, known);
    if f.opponentBefore.Some? && f.ownBefore.Some?
       && f.opponentBefore.value >= Saturating(f.ownBefore.value + 200, I32_MAX) {
      unlocks := AddUnlock(unlocks, known, GIANT_SLAYER, f, s);
    }
    assert unlocks == counted + Earned(CENTURY_100, f, s, known) + Earned(GIANT_SLAYER, f, s, known);
    if f.marginBps.Some? && 1 <= f.marginBps.value <= 10 {
      unlocks := AddUnlock(unlocks, known, PHOTO_FINISH, f, s);
    }
    assert unlocks == counted + Earned(CENTURY_100, f, s, known) + Earned(GIANT_SLAYER, f, s, known)
             + Earned(PHOTO_FINISH, f, s, known);
    if f.marginBps.Some? && f.marginBps.value >= 300 {
      unlocks := AddUnlock(unlocks, known, LANDSLIDE, f, s);
    }
  }

  function AddUnlock(unlocks: seq<Unlock>, known: set<Code>, code: Code, f: Fact, s: State): seq<Unlock> {
    if code in known then unlocks else unlocks + [UnlockOf(code, f, s)]
  }

  lemma WinRules(f: Fact, s: State)
    requires Counts(f) && f.outcome == PlayedWin
    ensures Meets(FIRST_BLOOD, f, s) <==> s.wins == 1
    ensures Meets(HAT_TRICK, f, s) <==> s.streak >= 3
    ensures Meets(UNSTOPPABLE, f, s) <==> s.streak >= 5
    ensures Meets(VETERAN_25, f, s) <==> s.battles >= 25
    ensures Meets(CENTURY_100, f, s) <==> s.battles >= 100
    ensures Meets(GIANT_SLAYER, f, s) <==>
      f.opponentBefore.Some? && f.ownBefore.Some?
        && f.opponentBefore.value >= Saturating(f.ownBefore.value + 200, I32_MAX)
    ensures Meets(PHOTO_FINISH, f, s) <==> f.marginBps.Some? && 1 <= f.marginBps.value <= 10
    ensures Meets(LANDSLIDE, f, s) <==> f.marginBps.Some? && f.marginBps.value >= 300
  {
  }

  lemma OtherRules(f: Fact, s: State)
    requires Counts(f) && Played(f)
    ensures Meets(DIAMOND, f, s) <==> f.ratingAfter.Some? && f.ratingAfter.value >= 1850
    ensures Meets(MASTER, f, s) <==> f.ratingAfter.Some? && f.ratingAfter.value >= 2000
    ensures Meets(PERFECT_CAPTAIN, f, s) <==>
            LineupKnown(f) && forall g | g in f.gains.value :: f.captainGain.value >= g
    ensures Meets(GREEN_SIX, f, s) <==> LineupKnown(f) && forall g | g in f.gains.value :: g > 0
  {
  }

  lemma AddsEarned(f: Fact, s: State, known: set<Code>)
    ensures forall code, unlocks: seq<Unlock> ::
      Meets(code, f, s) ==> AddUnlock(unlocks, known, code, f, s) == unlocks + Earned(code, f, s, known)
    ensures forall code :: !Meets(code, f, s) ==> Earned(code, f, s, known) == []
  {
    hide Meets, UnlockOf;
  }

  lemma NothingEarned(f: Fact, s: State, known: set<Code>)
    requires !Counts(f) || !Played(f)
    ensures Derived(f, s, known) == []
  {
  }

  lemma NoWinNothing(f: Fact, s: State, known: set<Code>)
    requires f.outcome != PlayedWin
    ensures WinPart(f, s, known) == []
  {
    hide UnlockOf;
  }

  // ----- a whole history -----

  type Table = map<Code, Unlock>

  /** Codes switched off in the catalogue are not inserted. */
  function Inserted(table: Table, unlocks: seq<Unlock>, enabled: set<Code>): Table {
    if unlocks == [] then table
    else
      var t, u := Inserted(table, unlocks[..|unlocks| - 1], enabled), unlocks[|unlocks| - 1];
      if u.code in enabled && u.code !in t then t[u.code := u] else t
  }

  function StateOf(history: seq<Fact>): State {
    if history == [] then FRESH else NextState(history[|history| - 1], StateOf(history[..|history| - 1]))
  }

  function Replayed(history: seq<Fact>, table: Table, enabled: set<Code>): Table {
    if history == [] then table
    else
      var t := Replayed(history[..|history| - 1], table, enabled);
      Inserted(t, Derived(history[|history| - 1], StateOf(history), t.Keys), enabled)
  }

  datatype StorageError = CountOverflow

  predicate CountsStorable(s: State) { s.streak <= I32_MAX && s.battles <= I32_MAX && s.wins <= I32_MAX }

  /** Replays the history. The counts are stored as 32-bit signed integers; if one does not fit,
      nothing is stored. */
  method ReconcileWallet(history: seq<Fact>, table: Table, enabled: set<Code>)
    returns (r: Result<(Table, nat), StorageError>)
    ensures r.Ok? <==> CountsStorable(StateOf(history))
    ensures r.Ok? ==> r.value.0 == Replayed(history, table, enabled) && r.value.1 == |r.value.0| - |table|
  {
    hide Derived, NextState;
    var state, unlocked := FRESH, table;
    var created: nat := 0;
    for k := 0 to |history|
      invariant state == StateOf(history[..k]) && unlocked == Replayed(history[..k], table, enabled)
      invariant created == |unlocked| - |table|
    {
      assert history[..k + 1][..k] == history[..k];
      var next, unlocks := DeriveBattleUnlocks(history[k], state, unlocked.Keys);
      var more, count := InsertUnlocks(unlocked, unlocks, enabled);
      state, unlocked, created := next, more, created + count;
    }
    assert history[..|history|] == history;
    if !CountsStorable(state) {
      return Err(CountOverflow);
    }
    return Ok((unlocked, created));
  }

  method InsertUnlocks(table: Table, unlocks: seq<Unlock>, enabled: set<Code>) returns (t: Table, created: nat)
    ensures t == Inserted(table, unlocks, enabled) && created == |t| - |table|
  {
    t, created := table, 0;
    for k := 0 to |unlocks|
      invariant t == Inserted(table, unlocks[..k], enabled) && created == |t| - |table|
    {
      var u := unlocks[k];
      assert unlocks[..k + 1][..k] == unlocks[..k];
      if u.code in enabled && u.code !in t {
        assert t[u.code := u].Keys == t.Keys + {u.code};
        t, created := t[u.code := u], created + 1;
      }
    }
    assert unlocks[..|unlocks|] == unlocks;
  }

  // ----- each code at the first fact that meets its rule -----

  predicate MeetsAt(history: seq<Fact>, k: nat, code: Code)
    requires k < |history|
  {
    Meets(code, history[k], StateOf(history[..k + 1]))
  }

  ghost predicate EverMet(history: seq<Fact>, code: Code) {
    exists k :: 0 <= k < |history| && MeetsAt(history, k, code)
  }

  /** The rule of the code is met at `k` and at no earlier fact. */
  ghost predicate FirstAt(history: seq<Fact>, k: nat, code: Code) {
    k < |history| && MeetsAt(history, k, code) && forall j :: 0 <= j < k ==> !MeetsAt(history, j, code)
  }

  ghost function FirstMet(history: seq<Fact>, code: Code): (k: nat)
    requires EverMet(history, code)
    ensures FirstAt(history, k, code)
  {
    FirstExists(history, code);
    var k: nat :| FirstAt(history, k, code);
    k
  }

  lemma {:induction false} FirstExists(history: seq<Fact>, code: Code)
    requires EverMet(history, code)
    ensures exists k: nat :: FirstAt(history, k, code)
  {
    hide Meets, StateOf;
    var k :| 0 <= k < |history| && MeetsAt(history, k, code);
    var init := history[..k];
    PrefixMeets(init, history, code);
    if EverMet(init, code) {
      FirstExists(init, code);
      var j: nat :| FirstAt(init, j, code);
      assert FirstAt(history, j, code);
    } else {
      assert FirstAt(history, k, code);
    }
  }

  lemma FirstIsUnique(history: seq<Fact>, j: nat, k: nat, code: Code)
    requires FirstAt(history, j, code) && FirstAt(history, k, code)
    ensures j == k
  {
    hide MeetsAt;
  }

  lemma PrefixMeets(init: seq<Fact>, history: seq<Fact>, code: Code)
    requires init <= history
    ensures forall k :: 0 <= k < |init| ==> (MeetsAt(init, k, code) <==> MeetsAt(history, k, code))
  {
    forall k | 0 <= k < |init| ensures MeetsAt(init, k, code) <==> MeetsAt(history, k, code) {
      assert init[..k + 1] == history[..k + 1];
    }
  }

  lemma EarnedIs(code: Code, f: Fact, s: State, known: set<Code>, u: Unlock)
    ensures u in Earned(code, f, s, known)
            <==> u.code == code && Meets(code, f, s) && code !in known && u == UnlockOf(code, f, s)
  {
    hide Meets;
  }

  lemma DerivedIs(f: Fact, s: State, known: set<Code>, u: Unlock)
    ensures u in Derived(f, s, known) <==> Meets(u.code, f, s) && u.code !in known && u == UnlockOf(u.code, f, s)
  {
    hide Earned, Meets, UnlockOf;
    EarnedIs(FIRST_BLOOD, f, s, known, u);
    EarnedIs(HAT_TRICK, f, s, known, u);
    EarnedIs(UNSTOPPABLE, f, s, known, u);
    EarnedIs(VETERAN_25, f, s, known, u);
    EarnedIs(CENTURY_100, f, s, known, u);
    EarnedIs(GIANT_SLAYER, f, s, known, u);
    EarnedIs(PHOTO_FINISH, f, s, known, u);
    EarnedIs(LANDSLIDE, f, s, known, u);
    EarnedIs(DIAMOND, f, s, known, u);
    EarnedIs(MASTER, f, s, known, u);
    EarnedIs(PERFECT_CAPTAIN, f, s, known, u);
    EarnedIs(GREEN_SIX, f, s, known, u);
  }

  lemma {:induction false} InsertedIs(table: Table, unlocks: seq<Unlock>, enabled: set<Code>, code: Code)
    requires forall u, v :: u in unlocks && v in unlocks && u.code == v.code ==> u == v
    ensures var t := Inserted(table, unlocks, enabled);
            && (code in t <==> code in table || (code in enabled && exists u :: u in unlocks && u.code == code))
            && (code in table ==> t[code] == table[code])
            && (code in t && code !in table ==> t[code] in unlocks && t[code].code == code)
  {
    if unlocks != [] {
      var init, last := unlocks[..|unlocks| - 1], unlocks[|unlocks| - 1];
      assert unlocks == init + [last];
      InsertedIs(table, init, enabled, code);
    }
  }

  lemma StepIs(f: Fact, s: State, table: Table, enabled: set<Code>, code: Code)
    ensures var t := Inserted(table, Derived(f, s, table.Keys), enabled);
            && (code in t <==> code in table || (code in enabled && Meets(code, f, s)))
            && (code in table ==> t[code] == table[code])
            && (code in t && code !in table ==> t[code] == UnlockOf(code, f, s))
  {
    hide Derived, Meets, Inserted;
    var unlocks := Derived(f, s, table.Keys);
    forall u ensures u in unlocks <==> Meets(u.code, f, s) && u.code !in table && u == UnlockOf(u.code, f, s) {
      DerivedIs(f, s, table.Keys, u);
    }
    InsertedIs(table, unlocks, enabled, code);
    if Meets(code, f, s) && code !in table { assert UnlockOf(code, f, s) in unlocks; }
  }

  lemma SameFirst(history: seq<Fact>, longer: seq<Fact>, code: Code)
    requires history <= longer && EverMet(history, code)
    ensures EverMet(longer, code) && FirstMet(longer, code) == FirstMet(history, code)
    ensures var k := FirstMet(history, code); history[k] == longer[k] && history[..k + 1] == longer[..k + 1]
  {
    hide MeetsAt, FirstMet;
    PrefixMeets(history, longer, code);
    var k := FirstMet(history, code);
    assert MeetsAt(longer, k, code);
    assert FirstAt(longer, k, code);
    FirstIsUnique(longer, FirstMet(longer, code), k, code);
  }

  /** Where a code is first met, fact by fact. */
  lemma FirstMetSplits(init: seq<Fact>, last: Fact, history: seq<Fact>, code: Code)
    requires history == init + [last]
    ensures EverMet(history, code) <==> EverMet(init, code) || Meets(code, last, StateOf(history))
    ensures EverMet(init, code) ==>
              var k := FirstMet(init, code);
              FirstMet(history, code) == k && history[k] == init[k] && history[..k + 1] == init[..k + 1]
    ensures EverMet(history, code) && !EverMet(init, code) ==> FirstMet(history, code) == |init|
  {
    hide MeetsAt, Meets, StateOf, FirstMet;
    EverMetSplits(init, last, history, code);
    if EverMet(init, code) {
      SameFirst(init, history, code);
    } else if EverMet(history, code) {
      LastIsFirst(init, last, history, code);
      FirstIsUnique(history, FirstMet(history, code), |init|, code);
    }
  }

  lemma EverMetSplits(init: seq<Fact>, last: Fact, history: seq<Fact>, code: Code)
    requires history == init + [last]
    ensures EverMet(history, code) <==> EverMet(init, code) || Meets(code, last, StateOf(history))
  {
    hide MeetsAt, Meets, StateOf;
    PrefixMeets(init, history, code);
    LastMeets(init, last, history, code);
    if EverMet(init, code) {
      var k :| 0 <= k < |init| && MeetsAt(init, k, code);
      assert MeetsAt(history, k, code);
    }
  }

  lemma LastIsFirst(init: seq<Fact>, last: Fact, history: seq<Fact>, code: Code)
    requires history == init + [last] && !EverMet(init, code) && EverMet(history, code)
    ensures FirstAt(history, |init|, code)
  {
    hide MeetsAt;
    PrefixMeets(init, history, code);
    forall j | 0 <= j < |init| ensures !MeetsAt(history, j, code) { assert !MeetsAt(init, j, code); }
  }

  lemma LastMeets(init: seq<Fact>, last: Fact, history: seq<Fact>, code: Code)
    requires history == init + [last]
    ensures MeetsAt(history, |init|, code) <==> Meets(code, last, StateOf(history))
  {
    hide Meets, StateOf;
    assert history[..|init| + 1] == history;
  }

  /** After a replay a code is unlocked if it was before, or it is enabled and some fact met its
      rule; it then carries the first such fact. */
  lemma {:induction false} ReplayIs(history: seq<Fact>, table: Table, enabled: set<Code>, code: Code)
    ensures var t := Replayed(history, table, enabled);
            && (code in t <==> code in table || (code in enabled && EverMet(history, code)))
            && (code in table ==> t[code] == table[code])
            && (code in t && code !in table ==>
                  var k := FirstMet(history, code); t[code] == UnlockOf(code, history[k], StateOf(history[..k + 1])))
  {
    hide Derived, Meets, NextState, Inserted, FirstMet, StateOf, UnlockOf;
    if history == [] {
      assert Replayed(history, table, enabled) == table;
    } else {
      var init, last := history[..|history| - 1], history[|history| - 1];
      assert history == init + [last] && history[..|init| + 1] == history;
      ReplayIs(init, table, enabled, code);
      StepIs(last, StateOf(history), Replayed(init, table, enabled), enabled, code);
      FirstMetSplits(init, last, history, code);
    }
  }

  /** Replaying a history and later an extension of it unlocks exactly what one replay of the
      extension does. */
  lemma IncrementalAgrees(history: seq<Fact>, longer: seq<Fact>, table: Table, enabled: set<Code>)
    requires history <= longer
    ensures Replayed(longer, Replayed(history, table, enabled), enabled) == Replayed(longer, table, enabled)
  {
    hide Replayed, EverMet, UnlockOf, StateOf;
    var t := Replayed(history, table, enabled);
    forall code: Code
      ensures code in Replayed(longer, t, enabled) <==> code in Replayed(longer, table, enabled)
      ensures code in Replayed(longer, t, enabled) ==>
                Replayed(longer, t, enabled)[code] == Replayed(longer, table, enabled)[code]
    {
      ReplayIs(history, table, enabled, code);
      ReplayIs(longer, t, enabled, code);
      ReplayIs(longer, table, enabled, code);
      if EverMet(history, code) { SameFirst(history, longer, code); }
    }
  }

  /** A rerun unlocks nothing. */
  lemma RerunCreatesNone(history: seq<Fact>, table: Table, enabled: set<Code>)
    ensures Replayed(history, Replayed(history, table, enabled), enabled) == Replayed(history, table, enabled)
  {
    IncrementalAgrees(history, history, table, enabled);
  }

  // ----- a second run over a changed history -----

  /** The unlock the first fact meeting the rule gives. */
  ghost function FirstUnlock(history: seq<Fact>, code: Code): Unlock
    requires EverMet(history, code)
  {
    var k := FirstMet(history, code);
    UnlockOf(code, history[k], StateOf(history[..k + 1]))
  }

  /** The later history earns the code with the same Battle and the same counts as the earlier one. */
  ghost predicate EarnedAlike(earlier: seq<Fact>, later: seq<Fact>, code: Code) {
    EverMet(earlier, code) ==> EverMet(later, code) && FirstUnlock(later, code) == FirstUnlock(earlier, code)
  }

  /** Running over one history and then over another, whatever became of its open Battles, agrees with
      one run over the second exactly when every enabled code that was not unlocked yet and that the
      first history earns is earned alike in the second. */
  lemma SecondRunAgreesExactly(earlier: seq<Fact>, later: seq<Fact>, table: Table, enabled: set<Code>)
    ensures Replayed(later, Replayed(earlier, table, enabled), enabled) == Replayed(later, table, enabled)
            <==> forall code :: code in enabled && code !in table ==> EarnedAlike(earlier, later, code)
  {
    hide Replayed, EverMet, UnlockOf, StateOf, FirstMet;
    var t := Replayed(earlier, table, enabled);
    var twice, once := Replayed(later, t, enabled), Replayed(later, table, enabled);
    forall code: Code
      ensures (code in twice <==> code in once) && (code in twice ==> twice[code] == once[code])
              <==> (code in enabled && code !in table ==> EarnedAlike(earlier, later, code))
    {
      ReplayIs(earlier, table, enabled, code);
      ReplayIs(later, t, enabled, code);
      ReplayIs(later, table, enabled, code);
    }
  }

  function Simple(battle: Key, outcome: BattleOutcome): Fact {
    Fact(battle, true, true, false, false, true, outcome, None, None, None, None, None, None, None)
  }

  lemma OneMore(history: seq<Fact>, battle: Key, outcome: BattleOutcome)
    ensures var s, longer := StateOf(history), history + [Simple(battle, outcome)];
            && (outcome == PlayedWin && s.streak < 10 ==> StateOf(longer).streak == s.streak + 1)
            && (outcome == PlayedLoss ==> StateOf(longer).streak == 0)
            && (outcome == Ineligible ==> StateOf(longer).streak == s.streak)
  {
    assert (history + [Simple(battle, outcome)])[..|history|] == history;
  }

  /** Three wins with another Battle after the first. */
  function ThreeWins(second: BattleOutcome): seq<Fact> {
    [Simple(1, PlayedWin)] + [Simple(2, second)] + [Simple(3, PlayedWin)] + [Simple(4, PlayedWin)]
  }

  function AfterTwo(second: BattleOutcome): seq<Fact> { [Simple(1, PlayedWin)] + [Simple(2, second)] }

  lemma StreakAfterTwo(second: BattleOutcome)
    requires second == PlayedLoss || second == Ineligible
    ensures StateOf([Simple(1, PlayedWin)]).streak == 1
    ensures StateOf(AfterTwo(second)).streak == if second == PlayedLoss then 0 else 1
  {
    assert StateOf([]).streak == 0 && [] + [Simple(1, PlayedWin)] == [Simple(1, PlayedWin)];
    hide StateOf, Simple;
    OneMore([], 1, PlayedWin);
    OneMore([Simple(1, PlayedWin)], 2, second);
  }

  lemma Streaks(second: BattleOutcome)
    requires second == PlayedLoss || second == Ineligible
    ensures StateOf(ThreeWins(second)).streak == if second == PlayedLoss then 2 else 3
    ensures forall k :: 1 <= k <= 3 ==> StateOf(ThreeWins(second)[..k]).streak < 3
  {
    hide StateOf, Simple;
    var two, history := AfterTwo(second), ThreeWins(second);
    StreakAfterTwo(second);
    OneMore(two, 3, PlayedWin);
    OneMore(two + [Simple(3, PlayedWin)], 4, PlayedWin);
    assert history[..1] == [Simple(1, PlayedWin)] && history[..2] == two;
    assert history[..3] == two + [Simple(3, PlayedWin)];
    assert history == two + [Simple(3, PlayedWin)] + [Simple(4, PlayedWin)];
  }

  lemma HatTrickMet(second: BattleOutcome)
    requires second == PlayedLoss || second == Ineligible
    ensures EverMet(ThreeWins(second), HAT_TRICK) <==> second == Ineligible
  {
    hide StateOf;
    var history := ThreeWins(second);
    Streaks(second);
    assert |history| == 4 && history[..4] == history && history[3] == Simple(4, PlayedWin);
    if second == Ineligible {
      assert MeetsAt(history, 3, HAT_TRICK);
    } else {
      forall k | 0 <= k < 4 ensures !MeetsAt(history, k, HAT_TRICK) {
        assert StateOf(history[..k + 1]).streak < 3;
      }
    }
  }

  /** An open Battle between wins that later turns out lost: the first run unlocked a streak that the
      final history does not have. */
  lemma OpenBattleKeepsStreak()
    ensures var earlier, later, enabled := ThreeWins(Ineligible), ThreeWins(PlayedLoss), {HAT_TRICK};
            && HAT_TRICK in Replayed(later, Replayed(earlier, map[], enabled), enabled)
            && HAT_TRICK !in Replayed(later, map[], enabled)
  {
    hide EverMet, Replayed, ThreeWins;
    var earlier, later, enabled := ThreeWins(Ineligible), ThreeWins(PlayedLoss), {HAT_TRICK};
    HatTrickMet(Ineligible);
    HatTrickMet(PlayedLoss);
    ReplayIs(earlier, map[], enabled, HAT_TRICK);
    ReplayIs(later, Replayed(earlier, map[], enabled), enabled, HAT_TRICK);
    ReplayIs(later, map[], enabled, HAT_TRICK);
  }

  // ----- the streak -----

  predicate Breaking(f: Fact) { Counts(f) && Breaks(f) }

  predicate Winning(f: Fact) { Counts(f) && f.outcome == PlayedWin }

  /** Wins in a stretch of history. */
  function Wins(history: seq<Fact>): nat {
    if history == [] then 0 else Wins(history[..|history| - 1]) + if Winning(history[|history| - 1]) then 1 else 0
  }

  function Battles(history: seq<Fact>): nat {
    if history == [] then 0
    else
      var last := history[|history| - 1];
      Battles(history[..|history| - 1]) + if Counts(last) && Played(last) then 1 else 0
  }

  /** `start` is just after the last breaking fact, or the beginning. */
  ghost predicate UnbrokenFrom(history: seq<Fact>, start: nat) {
    && start <= |history| && (start > 0 ==> Breaking(history[start - 1]))
    && forall k :: start <= k < |history| ==> !Breaking(history[k])
  }

  /** The counts are those of the history, and the streak is the number of wins since the last
      loss, draw or own forfeit; all stop at the 32-bit maximum. */
  lemma {:induction false} StateIsCounts(history: seq<Fact>, start: nat)
    requires UnbrokenFrom(history, start)
    ensures StateOf(history).streak == Saturating(Wins(history[start..]), U32_MAX)
    ensures StateOf(history).battles == Saturating(Battles(history), U32_MAX)
    ensures StateOf(history).wins == Saturating(Wins(history), U32_MAX)
  {
    TotalsAreCounts(history);
    StreakIsWins(history, start);
  }

  lemma {:induction false} TotalsAreCounts(history: seq<Fact>)
    ensures StateOf(history).battles == Saturating(Battles(history), U32_MAX)
    ensures StateOf(history).wins == Saturating(Wins(history), U32_MAX)
  {
    if history != [] { TotalsAreCounts(history[..|history| - 1]); }
  }

  lemma {:induction false} StreakIsWins(history: seq<Fact>, start: nat)
    requires UnbrokenFrom(history, start)
    ensures StateOf(history).streak == Saturating(Wins(history[start..]), U32_MAX)
  {
    if start == |history| {
      assert history[start..] == [];
    } else {
      var init := history[..|history| - 1];
      StreakIsWins(init, start);
      assert history[start..][..|history[start..]| - 1] == init[start..];
    }
  }

  // ----- facts that do not count -----

  function Counted(history: seq<Fact>): seq<Fact> {
    if history == [] then []
    else
      var earlier, last := Counted(history[..|history| - 1]), history[|history| - 1];
      if Counts(last) then earlier + [last] else earlier
  }

  /** Replay, void, unofficial and unrated facts change nothing. */
  lemma UncountedChangeNothing(history: seq<Fact>, table: Table, enabled: set<Code>)
    ensures StateOf(Counted(history)) == StateOf(history)
    ensures Replayed(Counted(history), table, enabled) == Replayed(history, table, enabled)
  {
    CountedState(history);
    CountedReplay(history, table, enabled);
  }

  lemma {:induction false} CountedState(history: seq<Fact>)
    ensures StateOf(Counted(history)) == StateOf(history)
  {
    hide NextState;
    if history != [] {
      var init, last := history[..|history| - 1], history[|history| - 1];
      CountedState(init);
      if Counts(last) {
        assert (Counted(init) + [last])[..|Counted(init)|] == Counted(init);
      } else {
        NoStateChange(last, StateOf(init));
      }
    }
  }

  lemma {:induction false} CountedReplay(history: seq<Fact>, table: Table, enabled: set<Code>)
    ensures Replayed(Counted(history), table, enabled) == Replayed(history, table, enabled)
  {
    hide Derived, NextState, Inserted, StateOf, Replayed;
    if history == [] {
      assert Counted(history) == history;
    } else {
      var init, last := history[..|history| - 1], history[|history| - 1];
      assert history == init + [last];
      CountedReplay(init, table, enabled);
      CountedState(history);
      ReplayedStep(init, last, table, enabled);
      if Counts(last) {
        ReplayedStep(Counted(init), last, table, enabled);
      } else {
        NothingInserted(last, StateOf(history), Replayed(init, table, enabled), enabled);
      }
    }
  }

  lemma ReplayedStep(init: seq<Fact>, last: Fact, table: Table, enabled: set<Code>)
    ensures var t := Replayed(init, table, enabled);
            Replayed(init + [last], table, enabled)
                == Inserted(t, Derived(last, StateOf(init + [last]), t.Keys), enabled)
  {
    hide Derived, Inserted, StateOf;
    assert (init + [last])[..|init + [last]| - 1] == init;
  }

  lemma NothingInserted(f: Fact, s: State, table: Table, enabled: set<Code>)
    requires !Counts(f)
    ensures Inserted(table, Derived(f, s, table.Keys), enabled) == table
  {
    hide Derived;
    NothingEarned(f, s, table.Keys);
  }

  lemma NoStateChange(f: Fact, s: State)
    requires !Counts(f)
    ensures NextState(f, s) == s
  {
  }

  /** The Battle code, met by a win once there are enough Battles. */
  function BattlesNeeded(code: Code): nat
    requires code == VETERAN_25 || code == CENTURY_100
  {
    if code == VETERAN_25 then 25 else 100
  }

  /** The veteran's codes are met exactly at a counted win, its own Battle included, with twenty-five or
      a hundred Battles played: the Battles alone, without a later win, unlock nothing. */
  lemma VeteranExactly(history: seq<Fact>, code: Code)
    requires code == VETERAN_25 || code == CENTURY_100
    ensures EverMet(history, code)
            <==> exists k ::
                   0 <= k < |history| && Winning(history[k]) && Battles(history[..k + 1]) >= BattlesNeeded(code)
  {
    hide StateOf, Battles;
    forall k | 0 <= k < |history|
      ensures MeetsAt(history, k, code) <==> Winning(history[k]) && Battles(history[..k + 1]) >= BattlesNeeded(code)
    {
      TotalsAreCounts(history[..k + 1]);
    }
  }
}
