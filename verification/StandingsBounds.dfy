/** What accepted facts bound: with one Battle or bye per member and positive 32-bit round,
    game counts and margins cannot overflow, and head-to-head sums never saturate. */
module StandingsBounds {
  import opened Wrappers
  import opened Sequences
  import opened Standings

  /** Rounds in which `w` plays. */
  function PlayedRounds(battles: seq<Battle>, w: Wallet): set<int> {
    if battles == [] then {}
    else
      var b, rest := battles[|battles| - 1], PlayedRounds(battles[..|battles| - 1], w);
      if b.Has(w) then rest + {b.roundNo} else rest
  }

  lemma {:induction false} PlayedRoundsMeaning(battles: seq<Battle>, w: Wallet, round: int)
    ensures round in PlayedRounds(battles, w) <==> (round, w) in Participants(battles)
  {
    if battles != [] { PlayedRoundsMeaning(battles[..|battles| - 1], w, round); }
  }

  lemma {:induction false} RoundsBound(rounds: set<int>, hi: nat)
    requires forall r :: r in rounds ==> 1 <= r <= hi
    ensures |rounds| <= hi
  {
    if hi > 0 {
      RoundsBound(rounds - {hi}, hi - 1);
    } else {
      assert forall r :: r in rounds ==> r !in rounds;
      assert rounds == {};
    }
  }

  /** Accepted Battles put a member in one Battle per round, so counts and margins are bounded
      by the number of rounds. */
  lemma {:induction false} CountsAreRounds(members: seq<Wallet>, battles: seq<Battle>, w: Wallet)
    requires BattlesFault(members, battles).None?
    ensures var s, n := Record(battles, w), |PlayedRounds(battles, w)|;
            && s.wins + s.draws + s.losses <= n
            && -MARGIN_CAP_Q9 * n <= s.margin <= MARGIN_CAP_Q9 * n
            && (forall r :: r in PlayedRounds(battles, w) ==> 1 <= r <= I32_MAX)
  {
    hide BattlesFault;
    if battles != [] {
      LastBattleIsNew(members, battles, w);
      CountsAreRounds(members, battles[..|battles| - 1], w);
    }
  }

  lemma LastBattleIsNew(members: seq<Wallet>, battles: seq<Battle>, w: Wallet)
    requires battles != [] && BattlesFault(members, battles).None?
    ensures BattlesFault(members, battles[..|battles| - 1]).None?
    ensures var b := battles[|battles| - 1];
            b.Has(w) ==> 1 <= b.roundNo <= I32_MAX && b.roundNo !in PlayedRounds(battles[..|battles| - 1], w)
  {
    hide Record, ScoreFault;
    PlayedRoundsMeaning(battles[..|battles| - 1], w, battles[|battles| - 1].roundNo);
  }

  lemma CountsFit(members: seq<Wallet>, battles: seq<Battle>, w: Wallet)
    requires BattlesFault(members, battles).None?
    ensures var s := Record(battles, w);
            && s.wins + s.draws + s.losses <= I32_MAX
            && -MARGIN_CAP_Q9 * I32_MAX <= s.margin <= MARGIN_CAP_Q9 * I32_MAX
  {
    CountsAreRounds(members, battles, w);
    RoundsBound(PlayedRounds(battles, w), I32_MAX);
  }

  function HeadOf(s: PlayerState): Wallet -> int { (w: Wallet) => HeadPoints(s, w) }

  /** Raising one wallet's value raises a sum over distinct wallets by at most that much. */
  lemma {:induction false} OneChange(ws: seq<Wallet>, f: Wallet -> int, g: Wallet -> int, o: Wallet, d: nat)
    requires Distinct(ws) && g(o) == f(o) + d && forall w: Wallet :: w != o ==> g(w) == f(w)
    ensures Sum(ws, g) == Sum(ws, f) + if o in ws then d else 0
  {
    if ws != [] {
      var init, last := ws[..|ws| - 1], ws[|ws| - 1];
      OneChange(init, f, g, o, d);
      assert ws == init + [last];
      assert o in ws <==> o in init || o == last;
    }
  }

  /** Head-to-head points over any distinct wallets never exceed League points. */
  lemma {:induction false} HeadWithinPoints(battles: seq<Battle>, w: Wallet, ws: seq<Wallet>)
    requires Distinct(ws)
    ensures Sum(ws, HeadOf(Record(battles, w))) <= Record(battles, w).points
  {
    if battles == [] {
      SumSame(ws, HeadOf(Fresh(w)), (x: Wallet) => 0);
      SumBound(ws, (x: Wallet) => 0, 0, 0);
    } else {
      var before, b := Record(battles[..|battles| - 1], w), battles[|battles| - 1];
      HeadWithinPoints(battles[..|battles| - 1], w, ws);
      var after := AddBattle(before, b);
      if b.Has(w) && CountsAsOpponent(b.result) {
        var o := if b.playerA == w then b.playerB else b.playerA;
        var d := if b.playerA == w then PointsA(b.result) else PointsB(b.result);
        OneChange(ws, HeadOf(before), HeadOf(after), o, d);
      } else {
        SumSame(ws, HeadOf(before), HeadOf(after));
      }
    }
  }

  lemma HeadEntryWithinPoints(battles: seq<Battle>, w: Wallet, o: Wallet)
    ensures HeadPoints(Record(battles, w), o) <= Record(battles, w).points
  {
    HeadWithinPoints(battles, w, [o]);
    assert [o][..0] == [];
    assert Sum([o], HeadOf(Record(battles, w))) == HeadPoints(Record(battles, w), o);
  }

  lemma {:induction false} ByesAddPoints(s: PlayerState, byes: seq<Bye>)
    ensures WithByes(s, byes).points == s.points + 3 * (WithByes(s, byes).byes - s.byes)
    ensures WithByes(s, byes).byes >= s.byes
  {
    if byes != [] { ByesAddPoints(s, byes[..|byes| - 1]); }
  }

  // ----- prefixes -----

  lemma {:induction false} FaultStays(members: seq<Wallet>, battles: seq<Battle>, k: nat)
    requires k <= |battles| && BattlesFault(members, battles[..k]).Some?
    ensures BattlesFault(members, battles) == BattlesFault(members, battles[..k])
    decreases |battles|
  {
    if k == |battles| {
      assert battles[..k] == battles;
    } else {
      assert battles[..|battles| - 1][..k] == battles[..k];
      FaultStays(members, battles[..|battles| - 1], k);
    }
  }

  lemma {:induction false} ByeFaultStays(members: seq<Wallet>, battles: seq<Battle>, byes: seq<Bye>, k: nat)
    requires k <= |byes| && ByesFault(members, battles, byes[..k]).Some?
    ensures ByesFault(members, battles, byes) == ByesFault(members, battles, byes[..k])
    decreases |byes|
  {
    if k == |byes| {
      assert byes[..k] == byes;
    } else {
      assert byes[..|byes| - 1][..k] == byes[..k];
      ByeFaultStays(members, battles, byes[..|byes| - 1], k);
    }
  }

  function ByeSet(byes: seq<Bye>, w: Wallet): set<int> {
    if byes == [] then {}
    else
      var y, rest := byes[|byes| - 1], ByeSet(byes[..|byes| - 1], w);
      if y.wallet == w then rest + {y.roundNo} else rest
  }

  lemma {:induction false} ByeSetMeaning(byes: seq<Bye>, w: Wallet, round: int)
    ensures round in ByeSet(byes, w) <==> (round, w) in ByeRounds(byes)
  {
    if byes != [] { ByeSetMeaning(byes[..|byes| - 1], w, round); }
  }

  lemma {:induction false} ByesAreRounds(members: seq<Wallet>, battles: seq<Battle>, byes: seq<Bye>, w: Wallet)
    requires ByesFault(members, battles, byes).None?
    ensures Tally(battles, byes, w).byes == |ByeSet(byes, w)|
    ensures forall r :: r in ByeSet(byes, w) ==> 1 <= r <= I32_MAX
  {
    if byes != [] {
      var earlier, y := byes[..|byes| - 1], byes[|byes| - 1];
      ByesAreRounds(members, battles, earlier, w);
      if y.wallet == w {
        ByeSetMeaning(earlier, w, y.roundNo);
        assert y.roundNo !in ByeSet(earlier, w);
      }
    }
  }

  lemma ByesFit(members: seq<Wallet>, battles: seq<Battle>, byes: seq<Bye>, w: Wallet)
    requires ByesFault(members, battles, byes).None?
    ensures Tally(battles, byes, w).byes <= I32_MAX
  {
    ByesAreRounds(members, battles, byes, w);
    RoundsBound(ByeSet(byes, w), I32_MAX);
  }

  lemma {:induction false} PointsFit(members: seq<Wallet>, battles: seq<Battle>, w: Wallet)
    requires BattlesFault(members, battles).None?
    ensures Record(battles, w).points <= U32_MAX
  {
    if battles != [] { PointsFit(members, battles[..|battles| - 1], w); }
  }

  lemma {:induction false} TallyPointsFit(members: seq<Wallet>, battles: seq<Battle>, byes: seq<Bye>, w: Wallet)
    requires BattlesFault(members, battles).None? && ByesFault(members, battles, byes).None?
    ensures Tally(battles, byes, w).points <= U32_MAX
  {
    if byes == [] {
      PointsFit(members, battles, w);
    } else {
      TallyPointsFit(members, battles, byes[..|byes| - 1], w);
    }
  }
}
