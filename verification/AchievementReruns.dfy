/** Rerunning a wallet when open Battles have finished and new ones follow: which of the newly finished
    Battles make an earlier unlock differ from the one a single replay would give. */
module AchievementReruns {
  import opened Wrappers
  import opened Achievements

  /** An open Battle of the earlier history may have become anything; the others are the same, and new
      ones follow. Each Battle occurs once. */
  ghost predicate Continues(earlier: seq<Fact>, later: seq<Fact>) {
    && |earlier| <= |later|
    && (forall i, j :: 0 <= i < j < |later| ==> later[i].battle != later[j].battle)
    && forall k :: 0 <= k < |earlier| ==> Finishes(earlier[k], later[k])
  }

  predicate Finishes(f: Fact, g: Fact) { g.battle == f.battle && (g == f || f.outcome == Ineligible) }

  /** The Battle was open and now counts. */
  predicate Finished(f: Fact, g: Fact) { f != g && Counts(g) }

  /** Wins since the last loss, draw or own forfeit. */
  function Running(history: seq<Fact>): nat {
    if history == [] then 0
    else
      var last := history[|history| - 1];
      if Breaking(last) then 0 else Running(history[..|history| - 1]) + if Winning(last) then 1 else 0
  }

  /** A streak was running at `j`, and no old fact from there to `k` breaks it. */
  ghost predicate RunsOn(earlier: seq<Fact>, j: nat, k: nat)
    requires j <= k < |earlier|
  {
    Running(earlier[..j]) > 0 && forall i :: j <= i <= k ==> !Breaking(earlier[i])
  }

  /** No Battle finished in the meantime before `k` was played, and none was an own forfeit in the
      middle of the streak that reaches `k`. */
  ghost predicate Undisturbed(earlier: seq<Fact>, later: seq<Fact>, k: nat)
    requires k < |earlier| <= |later|
  {
    forall j :: 0 <= j < k && Finished(earlier[j], later[j]) ==>
      !Played(later[j]) && (later[j].outcome == OwnForfeit ==> !RunsOn(earlier, j, k))
  }

  // ----- the counts of both histories -----

  ghost predicate Pairwise(e: seq<Fact>, l: seq<Fact>) {
    |e| == |l| && forall k :: 0 <= k < |e| ==> Finishes(e[k], l[k])
  }

  /** No Battle finished in the meantime was played. */
  ghost predicate NonePlayed(e: seq<Fact>, l: seq<Fact>)
    requires |e| == |l|
  {
    forall j :: 0 <= j < |e| && Finished(e[j], l[j]) ==> !Played(l[j])
  }

  lemma {:induction false} BattlesCompare(e: seq<Fact>, l: seq<Fact>)
    requires Pairwise(e, l)
    ensures Battles(e) <= Battles(l) && (Battles(e) == Battles(l) <==> NonePlayed(e, l))
  {
    if e != [] {
      var n := |e| - 1;
      assert Finishes(e[n], l[n]);
      forall k | 0 <= k < n ensures Finishes(e[..n][k], l[..n][k]) { assert Finishes(e[k], l[k]); }
      BattlesCompare(e[..n], l[..n]);
      assert NonePlayed(e, l) <==> NonePlayed(e[..n], l[..n]) && (Finished(e[n], l[n]) ==> !Played(l[n])) by {
        LastSplits(e, l);
      }
    }
  }

  lemma LastSplits(e: seq<Fact>, l: seq<Fact>)
    requires |e| == |l| > 0
    ensures var n := |e| - 1;
            NonePlayed(e, l) <==> NonePlayed(e[..n], l[..n]) && (Finished(e[n], l[n]) ==> !Played(l[n]))
  {
    var n := |e| - 1;
    if NonePlayed(e, l) {
      forall j | 0 <= j < n && Finished(e[..n][j], l[..n][j]) ensures !Played(l[..n][j]) {
        assert Finished(e[j], l[j]);
      }
    }
    if NonePlayed(e[..n], l[..n]) {
      forall j | 0 <= j < n && Finished(e[j], l[j]) ensures !Played(l[j]) {
        assert Finished(e[..n][j], l[..n][j]);
      }
    }
  }

  lemma {:induction false} WinsCompare(e: seq<Fact>, l: seq<Fact>)
    requires Pairwise(e, l) && NonePlayed(e, l)
    ensures Wins(e) == Wins(l)
  {
    if e != [] {
      var n := |e| - 1;
      LastSplits(e, l);
      assert Finishes(e[n], l[n]);
      forall k | 0 <= k < n ensures Finishes(e[..n][k], l[..n][k]) { assert Finishes(e[k], l[k]); }
      WinsCompare(e[..n], l[..n]);
    }
  }

  lemma {:induction false} RunningIsStreak(history: seq<Fact>)
    ensures StateOf(history).streak == Saturating(Running(history), U32_MAX)
    ensures Running(history) <= Battles(history)
  {
    if history != [] { RunningIsStreak(history[..|history| - 1]); }
  }

  // ----- the streak of both histories -----

  /** An own forfeit finished in the meantime cuts the streak that reaches the end. */
  ghost predicate CutAt(e: seq<Fact>, l: seq<Fact>, j: nat)
    requires j < |e| == |l|
  {
    && Finished(e[j], l[j]) && l[j].outcome == OwnForfeit
    && Running(e[..j]) > 0 && forall i :: j <= i < |e| ==> !Breaking(e[i])
  }

  ghost predicate Cut(e: seq<Fact>, l: seq<Fact>)
    requires |e| == |l|
  {
    exists j :: 0 <= j < |e| && CutAt(e, l, j)
  }

  lemma {:induction false} RunningGoesOn(e: seq<Fact>, j: nat)
    requires j <= |e| && forall i :: j <= i < |e| ==> !Breaking(e[i])
    ensures Running(e[..j]) <= Running(e)
    decreases |e|
  {
    if j == |e| {
      assert e[..j] == e;
    } else {
      var n := |e| - 1;
      assert e[..n][..j] == e[..j];
      RunningGoesOn(e[..n], j);
    }
  }

  lemma CutSplits(e: seq<Fact>, l: seq<Fact>)
    requires |e| == |l| > 0
    ensures var n := |e| - 1; Cut(e, l) <==> !Breaking(e[n]) && (Cut(e[..n], l[..n]) || CutAt(e, l, n))
  {
    hide Running, Breaking, Finished;
    var n := |e| - 1;
    forall j: nat | j < n ensures CutAt(e, l, j) <==> CutAt(e[..n], l[..n], j) && !Breaking(e[n]) {
      assert e[..n][..j] == e[..j];
      if CutAt(e[..n], l[..n], j) && !Breaking(e[n]) {
        forall i | j <= i < |e| ensures !Breaking(e[i]) {
          if i < n { assert !Breaking(e[..n][i]); }
        }
      }
    }
    if j :| 0 <= j < |e| && CutAt(e, l, j) {
      assert !Breaking(e[n]);
      if j < n { assert CutAt(e[..n], l[..n], j); }
    }
    if !Breaking(e[n]) {
      if j :| 0 <= j < n && CutAt(e[..n], l[..n], j) { assert CutAt(e, l, j); }
    }
  }

  lemma {:induction false} RunningCompare(e: seq<Fact>, l: seq<Fact>)
    requires Pairwise(e, l) && NonePlayed(e, l)
    ensures Running(l) <= Running(e) && (Running(l) == Running(e) <==> !Cut(e, l))
  {
    hide Cut, Finished, Breaking, Winning, NonePlayed, CutAt, Finishes;
    if e == [] {
      assert !Cut(e, l) by { NothingCut(e, l); }
    } else {
      var n := |e| - 1;
      LastSplits(e, l);
      assert Finishes(e[n], l[n]);
      forall k | 0 <= k < n ensures Finishes(e[..n][k], l[..n][k]) { assert Finishes(e[k], l[k]); }
      RunningCompare(e[..n], l[..n]);
      CutSplits(e, l);
      if Cut(e[..n], l[..n]) { CutRuns(e[..n], l[..n]); }
      LastCut(e, l);
      LastRuns(e[n], l[n]);
    }
  }

  lemma NothingCut(e: seq<Fact>, l: seq<Fact>)
    requires |e| == |l| == 0
    ensures !Cut(e, l)
  {
  }

  lemma LastCut(e: seq<Fact>, l: seq<Fact>)
    requires |e| == |l| > 0
    ensures var n := |e| - 1;
            CutAt(e, l, n) <==>
            Finished(e[n], l[n]) && l[n].outcome == OwnForfeit && Running(e[..n]) > 0 && !Breaking(e[n])
  {
    hide Running, Finished, Breaking;
  }

  /** A fact finished in the meantime wins nothing if it was not played, and breaks a streak exactly as
      an own forfeit. */
  lemma LastRuns(f: Fact, g: Fact)
    requires Finishes(f, g) && (Finished(f, g) ==> !Played(g))
    ensures Winning(g) <==> Winning(f)
    ensures Breaking(g) <==> Breaking(f) || (Finished(f, g) && g.outcome == OwnForfeit)
    ensures Finished(f, g) ==> !Breaking(f) && !Winning(f)
    ensures Breaking(f) ==> !Winning(f)
  {
  }

  lemma CutRuns(e: seq<Fact>, l: seq<Fact>)
    requires |e| == |l| && Cut(e, l)
    ensures Running(e) > 0
  {
    var j :| 0 <= j < |e| && CutAt(e, l, j);
    RunningGoesOn(e, j);
  }

  // ----- an unlock of the earlier run -----

  lemma PrefixPairs(earlier: seq<Fact>, later: seq<Fact>, n: nat)
    requires Continues(earlier, later) && n <= |earlier|
    ensures Pairwise(earlier[..n], later[..n])
  {
  }

  lemma {:induction false} BattlesGrow(history: seq<Fact>, n: nat)
    requires n <= |history|
    ensures Battles(history[..n]) <= Battles(history)
    decreases |history|
  {
    if n == |history| {
      assert history[..n] == history;
    } else {
      assert history[..|history| - 1][..n] == history[..n];
      BattlesGrow(history[..|history| - 1], n);
    }
  }

  /** The states of both histories at one fact, when the counts can be stored. */
  lemma StatesCompare(earlier: seq<Fact>, later: seq<Fact>, n: nat)
    requires Continues(earlier, later) && n <= |earlier| && CountsStorable(StateOf(later))
    ensures var e, l := earlier[..n], later[..n];
            && (StateOf(e).battles == StateOf(l).battles <==> NonePlayed(e, l))
            && (NonePlayed(e, l) ==> StateOf(e).wins == StateOf(l).wins && StateOf(l).streak <= StateOf(e).streak
                                     && (StateOf(l).streak == StateOf(e).streak <==> !Cut(e, l)))
  {
    hide StateOf, Battles, Wins, Running, NonePlayed, Cut;
    var e, l := earlier[..n], later[..n];
    PrefixPairs(earlier, later, n);
    BattlesCompare(e, l);
    BattlesGrow(later, n);
    TotalsAreCounts(later);
    TotalsAreCounts(e);
    TotalsAreCounts(l);
    RunningIsStreak(e);
    RunningIsStreak(l);
    if NonePlayed(e, l) {
      WinsCompare(e, l);
      RunningCompare(e, l);
    }
  }

  /** What disturbs the unlock, read off the facts up to and including its own. */
  lemma UndisturbedIs(earlier: seq<Fact>, later: seq<Fact>, k: nat)
    requires k < |earlier| <= |later| && earlier[k] == later[k]
    ensures var e, l := earlier[..k + 1], later[..k + 1];
            Undisturbed(earlier, later, k) <==> NonePlayed(e, l) && !Cut(e, l)
  {
    hide Running, Finished, Breaking;
    var e, l := earlier[..k + 1], later[..k + 1];
    assert !Finished(e[k], l[k]) by { SameNotFinished(e[k]); }
    forall j: nat | j < k ensures CutAt(e, l, j) <==>
        Finished(earlier[j], later[j]) && later[j].outcome == OwnForfeit && RunsOn(earlier, j, k)
    {
      assert e[..j] == earlier[..j];
      if CutAt(e, l, j) { forall i | j <= i <= k ensures !Breaking(earlier[i]) { assert !Breaking(e[i]); } }
    }
    if Undisturbed(earlier, later, k) {
      forall j | 0 <= j < |e| && Finished(e[j], l[j]) ensures !Played(l[j]) && !CutAt(e, l, j) {
        assert Finished(earlier[j], later[j]);
      }
    }
    if NonePlayed(e, l) && !Cut(e, l) {
      forall j | 0 <= j < k && Finished(earlier[j], later[j])
        ensures !Played(later[j]) && (later[j].outcome == OwnForfeit ==> !RunsOn(earlier, j, k))
      {
        assert Finished(e[j], l[j]) && !CutAt(e, l, j);
      }
    }
  }

  lemma SameNotFinished(f: Fact)
    ensures !Finished(f, f)
  {
  }

  lemma MeetsLess(code: Code, f: Fact, s: State, t: State)
    requires s.battles == t.battles && s.wins == t.wins && t.streak <= s.streak && Meets(code, f, t)
    ensures Meets(code, f, s)
  {
  }

  lemma NonePlayedPrefix(e: seq<Fact>, l: seq<Fact>, n: nat)
    requires n <= |e| == |l| && NonePlayed(e, l)
    ensures NonePlayed(e[..n], l[..n])
  {
    forall j | 0 <= j < n && Finished(e[..n][j], l[..n][j]) ensures !Played(l[..n][j]) {
      assert Finished(e[j], l[j]);
    }
  }

  /** An undisturbed unlock is earned at the same fact by the later history. */
  lemma StaysFirst(earlier: seq<Fact>, later: seq<Fact>, k: nat, code: Code)
    requires Continues(earlier, later) && CountsStorable(StateOf(later)) && FirstAt(earlier, k, code)
    requires earlier[k] == later[k] && NonePlayed(earlier[..k + 1], later[..k + 1])
    requires StateOf(earlier[..k + 1]) == StateOf(later[..k + 1])
    ensures FirstAt(later, k, code)
  {
    hide StateOf, Meets, CountsStorable, NonePlayed, Cut;
    forall j | 0 <= j < k ensures !MeetsAt(later, j, code) {
      StatesCompare(earlier, later, j + 1);
      assert earlier[..k + 1][..j + 1] == earlier[..j + 1] && later[..k + 1][..j + 1] == later[..j + 1];
      NonePlayedPrefix(earlier[..k + 1], later[..k + 1], j + 1);
      assert !MeetsAt(earlier, j, code);
      if MeetsAt(later, j, code) {
        if later[j] == earlier[j] {
          MeetsLess(code, later[j], StateOf(earlier[..j + 1]), StateOf(later[..j + 1]));
        } else {
          FinishedUnplayed(earlier[..k + 1], later[..k + 1], j, code, StateOf(later[..j + 1]));
        }
      }
    }
  }

  lemma FinishedUnplayed(e: seq<Fact>, l: seq<Fact>, j: nat, code: Code, s: State)
    requires j < |e| == |l| && NonePlayed(e, l) && e[j] != l[j]
    ensures !Meets(code, l[j], s)
  {
    assert Counts(l[j]) ==> Finished(e[j], l[j]);
  }

  lemma FirstIsPlayed(earlier: seq<Fact>, later: seq<Fact>, k: nat, code: Code)
    requires Continues(earlier, later) && FirstAt(earlier, k, code)
    ensures later[k] == earlier[k] && later[k].battle == earlier[k].battle
  {
    hide StateOf;
    assert Finishes(earlier[k], later[k]) && Played(earlier[k]);
  }

  lemma UndisturbedState(earlier: seq<Fact>, later: seq<Fact>, k: nat)
    requires Continues(earlier, later) && CountsStorable(StateOf(later)) && k < |earlier| && earlier[k] == later[k]
    ensures var s, t := StateOf(earlier[..k + 1]), StateOf(later[..k + 1]);
            && (Undisturbed(earlier, later, k) <==> s.battles == t.battles && s.streak == t.streak)
            && (Undisturbed(earlier, later, k) ==> s == t && NonePlayed(earlier[..k + 1], later[..k + 1]))
  {
    hide StateOf, CountsStorable, NonePlayed, Cut, Undisturbed, Continues;
    LengthsGrow(earlier, later);
    UndisturbedIs(earlier, later, k);
    StatesCompare(earlier, later, k + 1);
  }

  lemma LengthsGrow(earlier: seq<Fact>, later: seq<Fact>)
    requires Continues(earlier, later)
    ensures |earlier| <= |later|
  {
  }

  lemma SameBattleSameFact(earlier: seq<Fact>, later: seq<Fact>, k: nat, j: nat)
    requires Continues(earlier, later) && k < |earlier| && j < |later| && later[j].battle == earlier[k].battle
    ensures j == k
  {
    assert Finishes(earlier[k], later[k]);
  }

  /** A code of the earlier run is earned alike by the later history exactly when it is undisturbed. */
  lemma EarnedAlikeExactly(earlier: seq<Fact>, later: seq<Fact>, code: Code)
    requires Continues(earlier, later) && CountsStorable(StateOf(later)) && EverMet(earlier, code)
    ensures EarnedAlike(earlier, later, code) <==> Undisturbed(earlier, later, FirstMet(earlier, code))
  {
    hide StateOf, CountsStorable, NonePlayed, Undisturbed, FirstMet, MeetsAt, Continues;
    LengthsGrow(earlier, later);
    var k := FirstMet(earlier, code);
    FirstIsPlayed(earlier, later, k, code);
    UndisturbedState(earlier, later, k);
    if Undisturbed(earlier, later, k) {
      StaysFirst(earlier, later, k, code);
      assert MeetsAt(later, k, code);
      FirstIsUnique(later, FirstMet(later, code), k, code);
    }
    if EarnedAlike(earlier, later, code) {
      SameBattleSameFact(earlier, later, k, FirstMet(later, code));
    }
  }

  /** A rerun after open Battles have finished and new ones follow agrees with one replay exactly when
      every code the first run newly unlocked is undisturbed: no Battle finished in the meantime
      before it was played, and none was an own forfeit within its streak. */
  lemma RerunAgreesExactly(earlier: seq<Fact>, later: seq<Fact>, table: Table, enabled: set<Code>)
    requires Continues(earlier, later) && CountsStorable(StateOf(later))
    ensures Replayed(later, Replayed(earlier, table, enabled), enabled) == Replayed(later, table, enabled)
            <==> forall code :: code in enabled && code !in table && EverMet(earlier, code) ==>
                   Undisturbed(earlier, later, FirstMet(earlier, code))
  {
    hide StateOf, Replayed, EverMet, FirstMet, Undisturbed, CountsStorable;
    SecondRunAgreesExactly(earlier, later, table, enabled);
    forall code | code in enabled && code !in table && EverMet(earlier, code)
      ensures EarnedAlike(earlier, later, code) <==> Undisturbed(earlier, later, FirstMet(earlier, code))
    {
      EarnedAlikeExactly(earlier, later, code);
    }
  }
}
