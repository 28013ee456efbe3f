/** Which errors a faulty standings input can give, over every order of its facts, and exactly when
    the error depends on the order. */
module StandingsErrors {
  import opened Wrappers
  import opened Sequences
  import opened Standings
  import opened StandingsBounds
  import opened StandingsTheorems

  // ----- one Battle after others -----

  /** The fault of a Battle on its own. */
  function Alone(members: seq<Wallet>, b: Battle): Option<StandingsError> { BattleFault(members, [], b) }

  /** A positive round and two different members. */
  predicate Named(members: seq<Wallet>, b: Battle) { IdentityFault(members, [], b).None? }

  predicate Overflows(earlier: seq<Battle>, b: Battle) {
    || Record(earlier, b.playerA).points + PointsA(b.result) > U32_MAX
    || Record(earlier, b.playerB).points + PointsB(b.result) > U32_MAX
  }

  lemma FaultAfter(members: seq<Wallet>, earlier: seq<Battle>, b: Battle)
    ensures BattleFault(members, earlier, b) ==
            if !Named(members, b) then IdentityFault(members, [], b)
            else if exists c :: c in earlier && !Compatible(c, b) then Some(DuplicateRoundParticipation)
            else if Overflows(earlier, b) then Some(Overflow)
            else ScoreFault(b)
    ensures Alone(members, b) == if !Named(members, b) then IdentityFault(members, [], b) else ScoreFault(b)
    ensures Alone(members, b) != Some(Overflow) && Alone(members, b) != Some(DuplicateRoundParticipation)
  {
    hide Record, ScoreFault, Participants;
    NewParticipants(earlier, b);
    NewParticipants([], b);
    NoRecord(b.playerA);
    NoRecord(b.playerB);
    ScoreFaultKinds(b);
  }

  lemma NoRecord(w: Wallet)
    ensures Record([], w).points == 0 && Participants([]) == {}
  {
  }

  lemma ScoreFaultKinds(b: Battle)
    ensures ScoreFault(b) != Some(Overflow) && ScoreFault(b) != Some(DuplicateRoundParticipation)
  {
  }

  /** Where the first fault is met. */
  lemma {:induction false} FirstFault(members: seq<Wallet>, battles: seq<Battle>) returns (m: nat)
    requires BattlesFault(members, battles).Some?
    ensures m < |battles| && BattlesFault(members, battles[..m]).None?
    ensures BattlesFault(members, battles) == BattleFault(members, battles[..m], battles[m])
  {
    hide BattleFault;
    var init := battles[..|battles| - 1];
    if BattlesFault(members, init).Some? {
      m := FirstFault(members, init);
      assert init[..m] == battles[..m];
    } else {
      m := |battles| - 1;
    }
  }

  lemma FaultFreeAlone(members: seq<Wallet>, battles: seq<Battle>)
    requires BattlesFault(members, battles).None?
    ensures forall b :: b in battles ==> Alone(members, b).None?
  {
    hide Record, ScoreFault, BattlesFault, Alone, BattleAlone, Compatible;
    BattlesAcceptedIff(members, battles);
    forall b | b in battles ensures Alone(members, b).None? {
      assert BattleAlone(members, b);
      AloneFits(members, b);
    }
  }

  lemma AloneFits(members: seq<Wallet>, b: Battle)
    ensures Alone(members, b).None? <==> BattleAlone(members, b)
  {
    hide ScoreFault, Record, Participants;
    NoRecord(b.playerA);
    NoRecord(b.playerB);
  }

  // ----- the kinds of fault the Battles hold -----

  /** Two Battles of one round share a player; one has no fault of its own, and nothing but its scores
      can be wrong with the other. */
  ghost predicate Clash(members: seq<Wallet>, battles: seq<Battle>) {
    exists b, c :: b in battles && c in battles && (b != c || multiset(battles)[b] >= 2)
      && Alone(members, b).None? && Named(members, c) && !Compatible(b, c)
  }

  function Worth(b: Battle, w: Wallet): nat {
    if b.playerA == w then PointsA(b.result) else if b.playerB == w then PointsB(b.result) else 0
  }

  /** The rounds but one in which a wallet has a faultless Battle of the given worth. */
  ghost function RoundsWorth(members: seq<Wallet>, battles: seq<Battle>, w: Wallet, but: int, points: nat): set<int> {
    set b | b in battles && Alone(members, b).None? && b.Has(w) && b.roundNo != but && Worth(b, w) == points ::
      b.roundNo
  }

  /** The most points a wallet can have from faultless Battles, one in each other round. */
  ghost function MostPoints(members: seq<Wallet>, battles: seq<Battle>, w: Wallet, but: int): nat {
    var threes, ones := RoundsWorth(members, battles, w, but, 3), RoundsWorth(members, battles, w, but, 1);
    3 * |threes| + |ones - threes|
  }

  ghost predicate PointsOverflow(members: seq<Wallet>, battles: seq<Battle>) {
    exists b, w :: b in battles && Named(members, b) && b.Has(w)
      && MostPoints(members, battles, w, b.roundNo) + Worth(b, w) > U32_MAX
  }

  /** A fault of one Battle, a clash of two, or more points than 32 bits hold. */
  ghost predicate BattleKind(members: seq<Wallet>, battles: seq<Battle>, k: StandingsError) {
    || (exists b :: b in battles && Alone(members, b) == Some(k))
    || (k == DuplicateRoundParticipation && Clash(members, battles))
    || (k == Overflow && PointsOverflow(members, battles))
  }

  // ----- every fault met is of such a kind -----

  /** Of the rounds a wallet plays in, those worth three count three and the others at most one. */
  lemma {:induction false} PointsByRound(members: seq<Wallet>, battles: seq<Battle>, w: Wallet, threes: set<int>,
                                         ones: set<int>)
    requires BattlesFault(members, battles).None?
    requires forall b :: b in battles && b.Has(w) ==>
               (Worth(b, w) == 3 ==> b.roundNo in threes) && (Worth(b, w) == 1 ==> b.roundNo in ones)
    ensures var rounds := PlayedRounds(battles, w);
            Record(battles, w).points <= 3 * |rounds * threes| + |rounds * (ones - threes)|
  {
    hide BattlesFault, Record, PlayedRounds;
    if battles == [] {
      NoRecord(w);
    } else {
      var init, last := battles[..|battles| - 1], battles[|battles| - 1];
      assert battles == init + [last];
      LastBattleIsNew(members, battles, w);
      PointsByRound(members, init, w, threes, ones);
      assert last in battles;
      OneMoreRound(battles, w);
      if last.Has(w) { RoundCounted(PlayedRounds(init, w), last.roundNo, threes, ones, Worth(last, w)); }
    }
  }

  lemma OneMoreRound(battles: seq<Battle>, w: Wallet)
    requires battles != []
    ensures var init, last := battles[..|battles| - 1], battles[|battles| - 1];
            && PlayedRounds(battles, w) == PlayedRounds(init, w) + (if last.Has(w) then {last.roundNo} else {})
            && Record(battles, w).points == Record(init, w).points + Worth(last, w)
  {
  }

  lemma RoundCounted(rounds: set<int>, r: int, threes: set<int>, ones: set<int>, points: nat)
    requires r !in rounds && points in {0, 1, 3} && (points == 3 ==> r in threes) && (points == 1 ==> r in ones)
    ensures var more := rounds + {r};
            3 * |more * threes| + |more * (ones - threes)|
            >= 3 * |rounds * threes| + |rounds * (ones - threes)| + points
  {
    var more := rounds + {r};
    if r in threes {
      assert more * threes == rounds * threes + {r};
      assert more * (ones - threes) == rounds * (ones - threes);
    } else if r in ones {
      assert more * threes == rounds * threes;
      assert more * (ones - threes) == rounds * (ones - threes) + {r};
    } else {
      assert more * threes == rounds * threes;
      assert more * (ones - threes) == rounds * (ones - threes);
    }
  }

  lemma PointsWithin(members: seq<Wallet>, battles: seq<Battle>, all: seq<Battle>, w: Wallet, but: int)
    requires BattlesFault(members, battles).None? && forall b :: b in battles ==> b in all
    requires forall b :: b in battles && b.Has(w) ==> b.roundNo != but
    ensures Record(battles, w).points <= MostPoints(members, all, w, but)
  {
    hide BattlesFault, Record, PlayedRounds, Alone;
    FaultFreeAlone(members, battles);
    var threes, ones := RoundsWorth(members, all, w, but, 3), RoundsWorth(members, all, w, but, 1);
    PointsByRound(members, battles, w, threes, ones);
    SubsetSize(PlayedRounds(battles, w) * threes, threes);
    SubsetSize(PlayedRounds(battles, w) * (ones - threes), ones - threes);
  }

  lemma OverflowMet(members: seq<Wallet>, earlier: seq<Battle>, b: Battle, all: seq<Battle>)
    requires BattlesFault(members, earlier).None? && b in all
             && forall c :: c in earlier ==> c in all && Compatible(c, b)
    requires Named(members, b) && Overflows(earlier, b)
    ensures PointsOverflow(members, all)
  {
    hide BattlesFault, Record, MostPoints;
    var w := if Record(earlier, b.playerA).points + PointsA(b.result) > U32_MAX then b.playerA else b.playerB;
    PointsWithin(members, earlier, all, w, b.roundNo);
    assert b.Has(w) && MostPoints(members, all, w, b.roundNo) + Worth(b, w) > U32_MAX;
  }

  lemma TwoOf<T>(s: seq<T>, m: nat, x: T)
    requires m < |s| && x in s[..m]
    ensures x in s && (x != s[m] || multiset(s)[x] >= 2)
  {
    assert s == s[..m] + [s[m]] + s[m + 1..];
  }

  /** Whatever fault the Battles give, they hold it. */
  lemma FaultIsKind(members: seq<Wallet>, battles: seq<Battle>)
    requires BattlesFault(members, battles).Some?
    ensures BattleKind(members, battles, BattlesFault(members, battles).value)
  {
    hide BattlesFault, Alone, Named, Overflows, BattleFault, Compatible, ScoreFault, IdentityFault, PointsOverflow;
    var m := FirstFault(members, battles);
    var earlier, b := battles[..m], battles[m];
    FaultAfter(members, earlier, b);
    FaultFreeAlone(members, earlier);
    assert b in battles && forall c :: c in earlier ==> c in battles;
    if Named(members, b) {
      if c :| c in earlier && !Compatible(c, b) {
        TwoOf(battles, m, c);
        assert Clash(members, battles);
      } else if Overflows(earlier, b) {
        OverflowMet(members, earlier, b, battles);
      }
    }
  }

  // ----- and every such kind is met in some order -----

  lemma WithoutOne<T>(a: multiset<T>, b: multiset<T>, x: T)
    requires multiset{x} + a <= b + multiset{x}
    ensures a <= b
  {
    forall y ensures a[y] <= b[y] {
      assert (multiset{x} + a)[y] <= (b + multiset{x})[y];
    }
  }

  /** Some of the elements, put first. */
  lemma {:induction false} PutFirst<T>(first: seq<T>, all: seq<T>) returns (order: seq<T>)
    requires multiset(first) <= multiset(all)
    ensures multiset(order) == multiset(all) && |first| <= |order| && order[..|first|] == first
  {
    if first == [] {
      order := all;
    } else {
      var x := first[0];
      assert first == [x] + first[1..];
      assert multiset(first) == multiset{x} + multiset(first[1..]);
      assert x in multiset(all);
      var k :| 0 <= k < |all| && all[k] == x;
      RemoveAtMultiset(all, k);
      WithoutOne(multiset(first[1..]), multiset(RemoveAt(all, k)), x);
      var rest := PutFirst(first[1..], RemoveAt(all, k));
      order := [x] + rest;
      assert order[..|first|] == [x] + rest[..|first| - 1];
    }
  }

  lemma MetFirst(members: seq<Wallet>, battles: seq<Battle>, first: seq<Battle>) returns (order: seq<Battle>)
    requires multiset(first) <= multiset(battles) && BattlesFault(members, first).Some?
    ensures multiset(order) == multiset(battles) && BattlesFault(members, order) == BattlesFault(members, first)
  {
    hide BattlesFault;
    order := PutFirst(first, battles);
    FaultStays(members, order, |first|);
  }

  lemma OneFault(members: seq<Wallet>, battles: seq<Battle>, b: Battle) returns (order: seq<Battle>)
    requires b in battles && Alone(members, b).Some?
    ensures multiset(order) == multiset(battles) && BattlesFault(members, order) == Alone(members, b)
  {
    hide BattleFault;
    assert [b][..0] == [];
    assert BattlesFault(members, []).None?;
    assert multiset([b]) <= multiset(battles) by { assert multiset(battles)[b] >= 1; }
    order := MetFirst(members, battles, [b]);
  }

  lemma ClashMet(members: seq<Wallet>, battles: seq<Battle>) returns (order: seq<Battle>)
    requires Clash(members, battles)
    ensures multiset(order) == multiset(battles) && BattlesFault(members, order) == Some(DuplicateRoundParticipation)
  {
    hide BattleFault, Alone, Named, Compatible, ScoreFault, IdentityFault;
    var b, c :| b in battles && c in battles && (b != c || multiset(battles)[b] >= 2)
      && Alone(members, b).None? && Named(members, c) && !Compatible(b, c);
    assert BattlesFault(members, [b]).None? by { OnlyOne(members, b); }
    FaultAfter(members, [b], c);
    assert b in [b];
    assert [b, c][..1] == [b];
    assert multiset([b, c]) <= multiset(battles) by {
      assert multiset(battles)[b] >= 1 && multiset(battles)[c] >= 1 && multiset([b, c]) == multiset{b, c};
    }
    order := MetFirst(members, battles, [b, c]);
  }

  lemma OnlyOne(members: seq<Wallet>, b: Battle)
    ensures BattlesFault(members, [b]) == Alone(members, b)
  {
    hide BattleFault;
    assert [b][..0] == [];
    assert BattlesFault(members, []).None?;
  }

  /** Faultless Battles no two of which share a round and a player. */
  ghost predicate Apart(members: seq<Wallet>, battles: seq<Battle>) {
    && (forall b :: b in battles ==> Alone(members, b).None?)
    && (forall i, j :: 0 <= i < j < |battles| ==> Compatible(battles[i], battles[j]))
  }

  lemma ApartFaults(members: seq<Wallet>, battles: seq<Battle>)
    requires Apart(members, battles)
    ensures BattlesFault(members, battles) in {None, Some(Overflow)}
  {
    hide BattlesFault, Alone, Named, Overflows, BattleFault, Compatible, ScoreFault, IdentityFault;
    if BattlesFault(members, battles).Some? {
      var m := FirstFault(members, battles);
      FaultAfter(members, battles[..m], battles[m]);
      assert battles[m] in battles;
      forall c | c in battles[..m] ensures Compatible(c, battles[m]) {
        var i :| 0 <= i < m && battles[i] == c;
      }
    }
  }

  /** One faultless Battle of the wallet for each round of the set, of the highest worth. */
  ghost predicate Selected(members: seq<Wallet>, battles: seq<Battle>, w: Wallet, but: int, rounds: set<int>,
                           chosen: seq<Battle>) {
    var threes := RoundsWorth(members, battles, w, but, 3);
    && (forall b :: b in chosen ==> b in battles && Alone(members, b).None? && b.Has(w) && b.roundNo in rounds)
    && (forall i, j :: 0 <= i < j < |chosen| ==> chosen[i].roundNo != chosen[j].roundNo)
    && Record(chosen, w).points == 3 * |rounds * threes| + |rounds - threes|
  }

  lemma {:induction false} Select(members: seq<Wallet>, battles: seq<Battle>, w: Wallet, but: int, rounds: set<int>)
    returns (chosen: seq<Battle>)
    requires rounds <= RoundsWorth(members, battles, w, but, 3) + RoundsWorth(members, battles, w, but, 1)
    ensures Selected(members, battles, w, but, rounds, chosen)
    decreases |rounds|
  {
    hide Record, Alone;
    if rounds == {} {
      chosen := [];
      NoRecord(w);
    } else {
      var r :| r in rounds;
      var rest := Select(members, battles, w, but, rounds - {r});
      var threes := RoundsWorth(members, battles, w, but, 3);
      var b := PickOne(members, battles, w, but, r);
      chosen := rest + [b];
      hide RoundsWorth, Worth, Selected;
      SelectedPush(members, battles, w, but, rounds, rest, b);
    }
  }

  lemma PickOne(members: seq<Wallet>, battles: seq<Battle>, w: Wallet, but: int, r: int) returns (b: Battle)
    requires r in RoundsWorth(members, battles, w, but, 3) + RoundsWorth(members, battles, w, but, 1)
    ensures b in battles && Alone(members, b).None? && b.Has(w) && b.roundNo == r
    ensures Worth(b, w) == if r in RoundsWorth(members, battles, w, but, 3) then 3 else 1
  {
    hide Alone, Worth;
    var points := if r in RoundsWorth(members, battles, w, but, 3) then 3 else 1;
    b :| b in battles && Alone(members, b).None? && b.Has(w) && b.roundNo != but && Worth(b, w) == points
      && b.roundNo == r;
  }

  lemma SelectedPush(members: seq<Wallet>, battles: seq<Battle>, w: Wallet, but: int, rounds: set<int>,
                     rest: seq<Battle>, b: Battle)
    requires b.roundNo in rounds && Selected(members, battles, w, but, rounds - {b.roundNo}, rest)
    requires b in battles && Alone(members, b).None? && b.Has(w)
    requires Worth(b, w) == if b.roundNo in RoundsWorth(members, battles, w, but, 3) then 3 else 1
    ensures Selected(members, battles, w, but, rounds, rest + [b])
  {
    hide Record, Alone, RoundsWorth, Worth;
    var chosen := rest + [b];
    assert chosen[..|rest|] == rest;
    OneMoreRound(chosen, w);
    RoundAdded(rounds, b.roundNo, RoundsWorth(members, battles, w, but, 3));
    forall i, j | 0 <= i < j < |chosen| ensures chosen[i].roundNo != chosen[j].roundNo {
      if j == |rest| { assert rest[i] in rest; }
    }
  }

  lemma RoundAdded(rounds: set<int>, r: int, threes: set<int>)
    requires r in rounds
    ensures 3 * |rounds * threes| + |rounds - threes|
            == 3 * |(rounds - {r}) * threes| + |(rounds - {r}) - threes| + (if r in threes then 3 else 1)
  {
    if r in threes {
      assert rounds * threes == (rounds - {r}) * threes + {r};
      assert (rounds - {r}) - threes == rounds - threes;
    } else {
      assert (rounds - {r}) * threes == rounds * threes;
      assert rounds - threes == ((rounds - {r}) - threes) + {r};
    }
  }

  lemma OverflowArises(members: seq<Wallet>, battles: seq<Battle>) returns (order: seq<Battle>)
    requires PointsOverflow(members, battles)
    ensures multiset(order) == multiset(battles) && BattlesFault(members, order) == Some(Overflow)
  {
    hide BattlesFault, Record, Alone, Named;
    var b, w :| b in battles && Named(members, b) && b.Has(w)
      && MostPoints(members, battles, w, b.roundNo) + Worth(b, w) > U32_MAX;
    var chosen := SelectMost(members, battles, w, b.roundNo);
    hide MostPoints;
    SelectedFaults(members, chosen, b, w);
    SelectedInBattles(battles, chosen, b);
    order := MetFirst(members, battles, chosen + [b]);
  }

  /** Faultless Battles in different rounds that give the wallet the most points. */
  lemma SelectMost(members: seq<Wallet>, battles: seq<Battle>, w: Wallet, but: int) returns (chosen: seq<Battle>)
    ensures forall b :: b in chosen ==> b in battles && Alone(members, b).None? && b.roundNo != but
    ensures forall i, j :: 0 <= i < j < |chosen| ==> chosen[i].roundNo != chosen[j].roundNo
    ensures Record(chosen, w).points == MostPoints(members, battles, w, but)
  {
    hide Record, Alone, RoundsWorth, Worth;
    var threes, ones := RoundsWorth(members, battles, w, but, 3), RoundsWorth(members, battles, w, but, 1);
    chosen := Select(members, battles, w, but, threes + ones);
    assert (threes + ones) * threes == threes && (threes + ones) - threes == ones - threes;
    OtherRounds(members, battles, w, but);
  }

  lemma OtherRounds(members: seq<Wallet>, battles: seq<Battle>, w: Wallet, but: int)
    ensures but !in RoundsWorth(members, battles, w, but, 3) && but !in RoundsWorth(members, battles, w, but, 1)
  {
  }

  lemma SelectedFaults(members: seq<Wallet>, chosen: seq<Battle>, b: Battle, w: Wallet)
    requires forall c :: c in chosen ==> Alone(members, c).None? && c.roundNo != b.roundNo
    requires forall i, j :: 0 <= i < j < |chosen| ==> chosen[i].roundNo != chosen[j].roundNo
    requires Named(members, b) && b.Has(w) && Record(chosen, w).points + Worth(b, w) > U32_MAX
    ensures BattlesFault(members, chosen + [b]) == Some(Overflow)
  {
    hide Record, Alone, Named, BattleFault, ScoreFault, IdentityFault, BattlesFault;
    ApartFaults(members, chosen);
    FaultAfter(members, chosen, b);
    LastFault(members, chosen, b);
  }

  lemma LastFault(members: seq<Wallet>, earlier: seq<Battle>, b: Battle)
    ensures BattlesFault(members, earlier + [b]) ==
            if BattlesFault(members, earlier).Some? then BattlesFault(members, earlier)
            else BattleFault(members, earlier, b)
  {
    hide BattleFault;
    assert (earlier + [b])[..|earlier|] == earlier;
  }

  lemma SelectedInBattles(battles: seq<Battle>, chosen: seq<Battle>, b: Battle)
    requires b in battles && forall c :: c in chosen ==> c in battles && c.roundNo != b.roundNo
    requires forall i, j :: 0 <= i < j < |chosen| ==> chosen[i].roundNo != chosen[j].roundNo
    ensures multiset(chosen + [b]) <= multiset(battles)
  {
    DistinctWithin(chosen + [b], battles);
  }

  lemma DistinctWithin<T>(some: seq<T>, all: seq<T>)
    requires Distinct(some) && forall x :: x in some ==> x in all
    ensures multiset(some) <= multiset(all)
  {
    forall x ensures multiset(some)[x] <= multiset(all)[x] {
      DistinctCounts(some, x);
      if x in some { assert x in multiset(all); }
    }
  }

  lemma KindIsMet(members: seq<Wallet>, battles: seq<Battle>, k: StandingsError) returns (order: seq<Battle>)
    requires BattleKind(members, battles, k)
    ensures multiset(order) == multiset(battles) && BattlesFault(members, order) == Some(k)
  {
    hide BattlesFault, Alone, Clash, PointsOverflow;
    if b :| b in battles && Alone(members, b) == Some(k) {
      order := OneFault(members, battles, b);
    } else if k == DuplicateRoundParticipation {
      order := ClashMet(members, battles);
    } else {
      order := OverflowArises(members, battles);
    }
  }

  // ----- the kinds do not depend on the order -----

  lemma KindReordered(members: seq<Wallet>, members': seq<Wallet>, battles: seq<Battle>, battles': seq<Battle>,
                      k: StandingsError)
    requires multiset(members) == multiset(members') && multiset(battles) == multiset(battles')
    requires BattleKind(members, battles, k)
    ensures BattleKind(members', battles', k)
  {
    hide Alone, Named, Compatible, MostPoints;
    forall b ensures Alone(members, b) == Alone(members', b) && (Named(members, b) <==> Named(members', b)) {
      AloneReordered(members, members', b);
    }
    forall b ensures b in battles <==> b in battles' { SameElements(battles, battles', b); }
    forall w, but ensures MostPoints(members, battles, w, but) == MostPoints(members', battles', w, but) {
      MostReordered(members, members', battles, battles', w, but);
    }
  }

  lemma AloneReordered(members: seq<Wallet>, members': seq<Wallet>, b: Battle)
    requires multiset(members) == multiset(members')
    ensures Alone(members, b) == Alone(members', b) && (Named(members, b) <==> Named(members', b))
  {
    SameElements(members, members', b.playerA);
    SameElements(members, members', b.playerB);
  }

  lemma MostReordered(members: seq<Wallet>, members': seq<Wallet>, battles: seq<Battle>, battles': seq<Battle>,
                      w: Wallet, but: int)
    requires forall b :: Alone(members, b) == Alone(members', b) && (b in battles <==> b in battles')
    ensures MostPoints(members, battles, w, but) == MostPoints(members', battles', w, but)
  {
    hide Alone;
    forall p ensures RoundsWorth(members, battles, w, but, p) == RoundsWorth(members', battles', w, but, p) {
    }
  }

  /** An error arises from some order of the Battles exactly when they hold a fault of its kind. */
  lemma BattleErrorsExactly(members: seq<Wallet>, battles: seq<Battle>, k: StandingsError)
    ensures BattleKind(members, battles, k)
            <==> exists order :: multiset(order) == multiset(battles) && BattlesFault(members, order) == Some(k)
  {
    hide BattleKind, BattlesFault;
    if BattleKind(members, battles, k) {
      var order := KindIsMet(members, battles, k);
    }
    if order :| multiset(order) == multiset(battles) && BattlesFault(members, order) == Some(k) {
      FaultIsKind(members, order);
      KindReordered(members, members, order, battles, k);
    }
  }
}
