/** What the columns of the standings add up to, and the League points the pairing engine
    computes from the same facts (backend/src/league.rs). */
module StandingsAccounting {
  import opened Wrappers
  import opened Sequences
  import opened Standings
  import opened StandingsBounds
  import opened StandingsTheorems

  /** League points are three per win, one per draw and three per bye. */
  lemma {:induction false} PointsAreResults(battles: seq<Battle>, byes: seq<Bye>, w: Wallet)
    ensures var s := Tally(battles, byes, w); s.points == 3 * s.wins + s.draws + 3 * s.byes
  {
    RecordPoints(battles, w);
    ByesKeepResults(Record(battles, w), byes);
    ByesAddPoints(Record(battles, w), byes);
  }

  lemma {:induction false} RecordPoints(battles: seq<Battle>, w: Wallet)
    ensures var s := Record(battles, w); s.points == 3 * s.wins + s.draws
  {
    hide AddBattle;
    if battles != [] {
      RecordPoints(battles[..|battles| - 1], w);
      BattleKeepsPoints(Record(battles[..|battles| - 1], w), battles[|battles| - 1]);
    }
  }

  lemma BattleKeepsPoints(s: PlayerState, b: Battle)
    requires s.points == 3 * s.wins + s.draws
    ensures var t := AddBattle(s, b); t.points == 3 * t.wins + t.draws
  {
  }

  lemma {:induction false} ByesKeepResults(s: PlayerState, byes: seq<Bye>)
    ensures var r := WithByes(s, byes); r.wins == s.wins && r.draws == s.draws && r.losses == s.losses
  {
    if byes != [] { ByesKeepResults(s, byes[..|byes| - 1]); }
  }

  // ----- sums over the members -----

  function MarginOf(battles: seq<Battle>): Wallet -> int { (w: Wallet) => Record(battles, w).margin }

  function PointsOf(battles: seq<Battle>): Wallet -> int { (w: Wallet) => Record(battles, w).points }

  /** Changing a function at two distinct members changes its sum by both changes. */
  lemma TwoChanges(ws: seq<Wallet>, f: Wallet -> int, g: Wallet -> int, a: Wallet, b: Wallet)
    requires Distinct(ws) && a in ws && b in ws && a != b
    requires forall w: Wallet :: w != a && w != b ==> g(w) == f(w)
    ensures Sum(ws, g) == Sum(ws, f) + (g(a) - f(a)) + (g(b) - f(b))
  {
    var h := (w: Wallet) => if w == a then g(a) else f(w);
    ChangeAt(ws, f, h, a);
    ChangeAt(ws, h, g, b);
  }

  lemma {:induction false} ChangeAt(ws: seq<Wallet>, f: Wallet -> int, g: Wallet -> int, a: Wallet)
    requires Distinct(ws) && forall w: Wallet :: w != a ==> g(w) == f(w)
    ensures Sum(ws, g) == Sum(ws, f) + if a in ws then g(a) - f(a) else 0
  {
    if ws != [] {
      assert ws == ws[..|ws| - 1] + [ws[|ws| - 1]];
      ChangeAt(ws[..|ws| - 1], f, g, a);
    }
  }

  lemma LastPlayers(members: seq<Wallet>, battles: seq<Battle>)
    requires battles != [] && BattlesFault(members, battles).None?
    ensures var b := battles[|battles| - 1];
            && b.playerA in members && b.playerB in members && b.playerA != b.playerB
            && BattlesFault(members, battles[..|battles| - 1]).None?
  {
  }

  /** Margins are exchanged between members: they always sum to zero. */
  lemma {:induction false} MarginsSumToZero(members: seq<Wallet>, battles: seq<Battle>)
    requires Distinct(members) && BattlesFault(members, battles).None?
    ensures Sum(members, MarginOf(battles)) == 0
  {
    if battles == [] {
      SumSame(members, MarginOf(battles), (w: Wallet) => 0);
      SumBound(members, (w: Wallet) => 0, 0, 0);
    } else {
      var init, b := battles[..|battles| - 1], battles[|battles| - 1];
      LastPlayers(members, battles);
      MarginsSumToZero(members, init);
      TwoChanges(members, MarginOf(init), MarginOf(battles), b.playerA, b.playerB);
    }
  }

  function PointsAwarded(battles: seq<Battle>): nat {
    if battles == [] then 0
    else
      var r := battles[|battles| - 1].result;
      PointsAwarded(battles[..|battles| - 1]) + PointsA(r) + PointsB(r)
  }

  /** Every point a Battle awards is somebody's, and nothing else is: three per decided
      Battle, two per draw, none for a void or a double forfeit. */
  lemma {:induction false} PointsAreDistributed(members: seq<Wallet>, battles: seq<Battle>)
    requires Distinct(members) && BattlesFault(members, battles).None?
    ensures Sum(members, PointsOf(battles)) == PointsAwarded(battles)
  {
    if battles == [] {
      SumSame(members, PointsOf(battles), (w: Wallet) => 0);
      SumBound(members, (w: Wallet) => 0, 0, 0);
    } else {
      var init, b := battles[..|battles| - 1], battles[|battles| - 1];
      LastPlayers(members, battles);
      PointsAreDistributed(members, init);
      TwoChanges(members, PointsOf(init), PointsOf(battles), b.playerA, b.playerB);
    }
  }

  // ----- strength of schedule -----

  ghost predicate Met(battles: seq<Battle>, w: Wallet, o: Wallet) {
    exists b :: b in battles && CountsAsOpponent(b.result) && Pairs(b, w, o)
  }

  predicate Pairs(b: Battle, w: Wallet, o: Wallet) {
    (b.playerA == w && b.playerB == o) || (b.playerA == o && b.playerB == w)
  }

  lemma {:induction false} OpponentsAreMet(members: seq<Wallet>, battles: seq<Battle>, w: Wallet, o: Wallet)
    requires BattlesFault(members, battles).None?
    ensures o in Record(battles, w).head <==> Met(battles, w, o)
  {
    if battles != [] {
      var init, b := battles[..|battles| - 1], battles[|battles| - 1];
      LastPlayers(members, battles);
      OpponentsAreMet(members, init, w, o);
      assert battles == init + [b];
      hide Met, BattlesFault;
      MetLast(init, b, w, o);
    }
  }

  lemma MetLast(battles: seq<Battle>, b: Battle, w: Wallet, o: Wallet)
    ensures Met(battles + [b], w, o) <==> Met(battles, w, o) || (CountsAsOpponent(b.result) && Pairs(b, w, o))
  {
    var all := battles + [b];
    assert forall c :: c in all <==> c in battles || c == b;
    if CountsAsOpponent(b.result) && Pairs(b, w, o) { assert b in all; }
  }

  /** Strength of schedule adds the final points of each distinct member met in a non-void
      Battle, once, however often they met. */
  lemma BuchholzCountsEachOnce(members: seq<Wallet>, battles: seq<Battle>, byes: seq<Bye>, w: Wallet,
                               met: Wallet -> int)
    requires BattlesFault(members, battles).None?
    requires forall m: Wallet :: met(m) == if Met(battles, w, m) then Tally(battles, byes, m).points else 0
    ensures Buchholz(members, battles, byes, w) == Sum(members, met)
  {
    hide Sum, Tally, Record, Met, BattlesFault;
    forall m: Wallet ensures OpponentTerm(battles, byes, w)(m) == met(m) {
      OpponentsAreMet(members, battles, w, m);
    }
    SumSame(members, OpponentTerm(battles, byes, w), met);
  }

  // ----- the pairing engine's points -----

  /** One earlier pairing with its Battle's result; none when the text is not recognised. */
  datatype PairingFact = PairingFact(playerA: Wallet, playerB: Wallet, result: Option<GameResult>)

  datatype PairingError = InvalidPairing

  function AsBattle(p: PairingFact): Battle {
    Battle(1, p.playerA, p.playerB, if p.result.Some? then p.result.value else Voided, None, None)
  }

  function FactsOf(ps: seq<PairingFact>): seq<Battle> { Map(ps, p => AsBattle(p)) }

  function ByesOf(wallets: seq<Wallet>): seq<Bye> { Map(wallets, w => Bye(1, w)) }

  function PointsIn(points: map<Wallet, nat>, w: Wallet): nat { if w in points then points[w] else 0 }

  function LeagueResultPoints(result: Option<GameResult>): Option<(nat, nat)> {
    if result.None? then None else Some((PointsA(result.value), PointsB(result.value)))
  }

  ghost predicate Holds(points: map<Wallet, nat>, ps: seq<PairingFact>, byes: seq<Wallet>) {
    forall w: Wallet :: PointsIn(points, w) == Tally(FactsOf(ps), ByesOf(byes), w).points
  }

  ghost predicate PointsInRange(ps: seq<PairingFact>, byes: seq<Wallet>) {
    forall w: Wallet :: Tally(FactsOf(ps), ByesOf(byes), w).points <= U32_MAX
  }

  lemma FactsPush(ps: seq<PairingFact>, k: nat, w: Wallet)
    requires k < |ps|
    ensures Tally(FactsOf(ps[..k + 1]), ByesOf([]), w).points
            == Tally(FactsOf(ps[..k]), ByesOf([]), w).points
               + if ps[k].playerA == w then PointsA(AsBattle(ps[k]).result)
                 else if ps[k].playerB == w then PointsB(AsBattle(ps[k]).result) else 0
  {
    var facts := FactsOf(ps[..k + 1]);
    assert facts[..k] == FactsOf(ps[..k]);
    assert facts[k] == AsBattle(ps[k]);
    assert ByesOf([]) == [];
  }

  lemma {:induction false} FactsMonotone(ps: seq<PairingFact>, k: nat, w: Wallet)
    requires k <= |ps|
    ensures Tally(FactsOf(ps[..k]), ByesOf([]), w).points <= Tally(FactsOf(ps), ByesOf([]), w).points
    decreases |ps| - k
  {
    if k < |ps| {
      FactsPush(ps, k, w);
      FactsMonotone(ps, k + 1, w);
    } else {
      assert ps[..k] == ps;
    }
  }

  lemma ByePush(ps: seq<PairingFact>, byes: seq<Wallet>, k: nat, w: Wallet)
    requires k < |byes|
    ensures Tally(FactsOf(ps), ByesOf(byes[..k + 1]), w).points
            == Tally(FactsOf(ps), ByesOf(byes[..k]), w).points + if byes[k] == w then 3 else 0
  {
    var ys := ByesOf(byes[..k + 1]);
    assert ys[..k] == ByesOf(byes[..k]);
    assert ys[k] == Bye(1, byes[k]);
  }

  lemma {:induction false} ByesMonotone(ps: seq<PairingFact>, byes: seq<Wallet>, k: nat, w: Wallet)
    requires k <= |byes|
    ensures Tally(FactsOf(ps), ByesOf(byes[..k]), w).points <= Tally(FactsOf(ps), ByesOf(byes), w).points
    decreases |byes| - k
  {
    if k < |byes| {
      ByePush(ps, byes, k, w);
      ByesMonotone(ps, byes, k + 1, w);
    } else {
      assert byes[..k] == byes;
    }
  }

  function Credited(points: map<Wallet, nat>, p: PairingFact): map<Wallet, nat> {
    points[p.playerA := PointsIn(points, p.playerA) + PointsA(AsBattle(p).result)]
          [p.playerB := PointsIn(points, p.playerB) + PointsB(AsBattle(p).result)]
  }

  lemma FactsStep(points: map<Wallet, nat>, ps: seq<PairingFact>, k: nat)
    requires k < |ps| && ps[k].playerA != ps[k].playerB && Holds(points, ps[..k], [])
    ensures Holds(Credited(points, ps[k]), ps[..k + 1], [])
  {
    hide Tally, FactsOf, ByesOf;
    var points' := Credited(points, ps[k]);
    forall w: Wallet ensures PointsIn(points', w) == Tally(FactsOf(ps[..k + 1]), ByesOf([]), w).points {
      FactsPush(ps, k, w);
      assert PointsIn(points, w) == Tally(FactsOf(ps[..k]), ByesOf([]), w).points;
    }
  }

  function ByeCredited(points: map<Wallet, nat>, wallet: Wallet): map<Wallet, nat> {
    points[wallet := PointsIn(points, wallet) + 3]
  }

  lemma ByeStep(points: map<Wallet, nat>, ps: seq<PairingFact>, byes: seq<Wallet>, k: nat)
    requires k < |byes| && Holds(points, ps, byes[..k])
    ensures Holds(ByeCredited(points, byes[k]), ps, byes[..k + 1])
  {
    hide Tally, FactsOf, ByesOf;
    var points' := ByeCredited(points, byes[k]);
    forall w: Wallet ensures PointsIn(points', w) == Tally(FactsOf(ps), ByesOf(byes[..k + 1]), w).points {
      ByePush(ps, byes, k, w);
      assert PointsIn(points, w) == Tally(FactsOf(ps), ByesOf(byes[..k]), w).points;
    }
  }

  ghost predicate Fit(points: map<Wallet, nat>) { forall w: Wallet :: PointsIn(points, w) <= U32_MAX }

  lemma FitPut(points: map<Wallet, nat>, w: Wallet, n: nat)
    requires Fit(points) && n <= U32_MAX
    ensures Fit(points[w := n])
  {
    var points' := points[w := n];
    forall v: Wallet ensures PointsIn(points', v) <= U32_MAX {
      assert PointsIn(points, v) <= U32_MAX;
    }
  }

  lemma FitIsInRange(points: map<Wallet, nat>, ps: seq<PairingFact>, byes: seq<Wallet>)
    requires Holds(points, ps, byes)
    ensures Fit(points) <==> PointsInRange(ps, byes)
  {
    hide Tally, FactsOf, ByesOf;
    if Fit(points) {
      forall w: Wallet ensures Tally(FactsOf(ps), ByesOf(byes), w).points <= U32_MAX {
        assert PointsIn(points, w) <= U32_MAX;
      }
    }
  }

  /** The points map of the pairing engine. It fails exactly when a result is unrecognised or
      some wallet's points exceed 32 bits; otherwise it holds the standings' own points. */
  method CandidatePoints(ps: seq<PairingFact>, byes: seq<Wallet>) returns (r: Result<map<Wallet, nat>, PairingError>)
    requires forall p :: p in ps ==> p.playerA != p.playerB
    ensures r.Ok? <==> (forall p :: p in ps ==> p.result.Some?) && PointsInRange(ps, byes)
    ensures r.Ok? ==> Holds(r.value, ps, byes)
  {
    hide Tally, FactsOf, ByesOf, PointsInRange, Holds, Fit;
    var points: map<Wallet, nat> := map[];
    NothingHeld(ps);
    for k := 0 to |ps|
      invariant Holds(points, ps[..k], []) && Fit(points)
      invariant forall p :: p in ps[..k] ==> p.result.Some?
    {
      var p := ps[k];
      var gained := LeagueResultPoints(p.result);
      if gained.None? {
        return Err(InvalidPairing);
      }
      var nextA, nextB := PointsIn(points, p.playerA) + gained.value.0, PointsIn(points, p.playerB) + gained.value.1;
      FactsStep(points, ps, k);
      if nextA > U32_MAX || nextB > U32_MAX {
        OverflowStays(Credited(points, p), ps, byes, k + 1, if nextA > U32_MAX then p.playerA else p.playerB);
        return Err(InvalidPairing);
      }
      FitPut(points, p.playerA, nextA);
      FitPut(points[p.playerA := nextA], p.playerB, nextB);
      points := points[p.playerA := nextA][p.playerB := nextB];
    }
    assert ps[..|ps|] == ps && byes[..0] == [];
    for k := 0 to |byes|
      invariant Holds(points, ps, byes[..k]) && Fit(points)
    {
      var next := PointsIn(points, byes[k]) + 3;
      ByeStep(points, ps, byes, k);
      if next > U32_MAX {
        ByeOverflowStays(ByeCredited(points, byes[k]), ps, byes, k + 1, byes[k]);
        return Err(InvalidPairing);
      }
      FitPut(points, byes[k], next);
      points := points[byes[k] := next];
    }
    assert byes[..|byes|] == byes;
    FitIsInRange(points, ps, byes);
    return Ok(points);
  }

  lemma NothingHeld(ps: seq<PairingFact>)
    ensures Holds(map[], ps[..0], []) && Fit(map[])
  {
    forall w: Wallet ensures PointsIn(map[], w) == Tally(FactsOf(ps[..0]), ByesOf([]), w).points { NoFacts(ps, w); }
  }

  lemma NoFacts(ps: seq<PairingFact>, w: Wallet)
    ensures Tally(FactsOf(ps[..0]), ByesOf([]), w).points == 0
  {
    assert FactsOf(ps[..0]) == [] && ByesOf([]) == [];
  }

  lemma OverflowStays(points: map<Wallet, nat>, ps: seq<PairingFact>, byes: seq<Wallet>, k: nat, w: Wallet)
    requires k <= |ps| && Holds(points, ps[..k], []) && PointsIn(points, w) > U32_MAX
    ensures !PointsInRange(ps, byes)
  {
    hide Tally, FactsOf, ByesOf;
    FactsMonotone(ps, k, w);
    assert byes[..0] == [];
    ByesMonotone(ps, byes, 0, w);
  }

  lemma ByeOverflowStays(points: map<Wallet, nat>, ps: seq<PairingFact>, byes: seq<Wallet>, k: nat, w: Wallet)
    requires k <= |byes| && Holds(points, ps, byes[..k]) && PointsIn(points, w) > U32_MAX
    ensures !PointsInRange(ps, byes)
  {
    hide Tally, FactsOf, ByesOf;
    ByesMonotone(ps, byes, k, w);
  }

  /** Points depend only on players and results, so the pairing engine and the standings
      agree whenever they read the same facts. */
  lemma {:induction false} PointsFromPlayersAndResults(battles: seq<Battle>, battles': seq<Battle>, w: Wallet)
    requires |battles| == |battles'|
    requires forall k :: 0 <= k < |battles| ==>
               battles[k].playerA == battles'[k].playerA && battles[k].playerB == battles'[k].playerB
               && battles[k].result == battles'[k].result
    ensures Record(battles, w).points == Record(battles', w).points
  {
    if battles != [] {
      PointsFromPlayersAndResults(battles[..|battles| - 1], battles'[..|battles'| - 1], w);
    }
  }

  function FactOf(b: Battle): PairingFact { PairingFact(b.playerA, b.playerB, Some(b.result)) }

  lemma CandidatesAgreeWithStandings(battles: seq<Battle>, byes: seq<Bye>, w: Wallet)
    ensures Tally(FactsOf(Map(battles, b => FactOf(b))), ByesOf(Map(byes, (y: Bye) => y.wallet)), w).points
            == Tally(battles, byes, w).points
  {
    var ps, wallets := Map(battles, b => FactOf(b)), Map(byes, (y: Bye) => y.wallet);
    PointsFromPlayersAndResults(FactsOf(ps), battles, w);
    ByeWalletsDecide(Record(FactsOf(ps), w), Record(battles, w), ByesOf(wallets), byes);
  }

  lemma {:induction false} ByeWalletsDecide(s: PlayerState, s': PlayerState, byes: seq<Bye>, byes': seq<Bye>)
    requires s.wallet == s'.wallet && s.points == s'.points && |byes| == |byes'|
    requires forall k :: 0 <= k < |byes| ==> byes[k].wallet == byes'[k].wallet
    ensures WithByes(s, byes).points == WithByes(s', byes').points
  {
    if byes != [] { ByeWalletsDecide(s, s', byes[..|byes| - 1], byes'[..|byes'| - 1]); }
  }
}
