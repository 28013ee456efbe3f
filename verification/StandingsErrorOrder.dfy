/** The kinds of fault byes can hold, and exactly when the error of a standings input depends on the
    order of its members, Battles and byes. */
module StandingsErrorOrder {
  import opened Wrappers
  import opened Sequences
  import opened Standings
  import opened StandingsBounds
  import opened StandingsTheorems
  import opened StandingsErrors

  // ----- one bye after others -----

  /** The fault of a bye on its own, beside the Battles. */
  function ByeItself(members: seq<Wallet>, battles: seq<Battle>, y: Bye): Option<StandingsError> {
    ByeFault(members, battles, [], y)
  }

  /** A positive round of a member without a Battle in it. */
  predicate ByeFree(members: seq<Wallet>, battles: seq<Battle>, y: Bye) {
    ByeAlone(members, y) && forall b | b in battles :: NoClash(b, y)
  }

  lemma ByeFaultAfter(members: seq<Wallet>, battles: seq<Battle>, earlier: seq<Bye>, y: Bye)
    ensures ByeFault(members, battles, earlier, y) ==
            if !ByeAlone(members, y) then ByeItself(members, battles, y)
            else if y in earlier then Some(DuplicateBye)
            else if !ByeFree(members, battles, y) then Some(ByeBattleConflict)
            else if Tally(battles, earlier, y.wallet).points + 3 > U32_MAX then Some(Overflow)
            else None
    ensures !ByeAlone(members, y) ==> ByeItself(members, battles, y) in {Some(InvalidRound), Some(UnknownPlayer)}
    ensures ByeAlone(members, y) && !ByeFree(members, battles, y) ==>
              ByeItself(members, battles, y) == Some(ByeBattleConflict)
  {
    hide Tally, Participants, ByeRounds;
    NewBye(battles, earlier, y);
    NewBye(battles, [], y);
    assert (exists z :: z in earlier && !DifferentByes(z, y)) <==> y in earlier;
  }

  lemma {:induction false} FirstByeFault(members: seq<Wallet>, battles: seq<Battle>, byes: seq<Bye>) returns (m: nat)
    requires ByesFault(members, battles, byes).Some?
    ensures m < |byes| && ByesFault(members, battles, byes[..m]).None?
    ensures ByesFault(members, battles, byes) == ByeFault(members, battles, byes[..m], byes[m])
  {
    hide ByeFault;
    var init := byes[..|byes| - 1];
    if ByesFault(members, battles, init).Some? {
      m := FirstByeFault(members, battles, init);
      assert init[..m] == byes[..m];
    } else {
      m := |byes| - 1;
    }
  }

  // ----- the kinds of fault the byes hold -----

  /** The rounds a wallet can have a bye in. */
  ghost function FreeRounds(members: seq<Wallet>, battles: seq<Battle>, byes: seq<Bye>, w: Wallet): set<int> {
    set y | y in byes && y.wallet == w && ByeFree(members, battles, y) :: y.roundNo
  }

  ghost predicate ByesOverflow(members: seq<Wallet>, battles: seq<Battle>, byes: seq<Bye>) {
    exists w :: FreeRounds(members, battles, byes, w) != {}
      && Record(battles, w).points + 3 * |FreeRounds(members, battles, byes, w)| > U32_MAX
  }

  /** A fault of one bye, one that is repeated, or more points than 32 bits hold. */
  ghost predicate ByeKind(members: seq<Wallet>, battles: seq<Battle>, byes: seq<Bye>, k: StandingsError) {
    || (exists y :: y in byes && ByeItself(members, battles, y) == Some(k))
    || (k == DuplicateBye
        && exists y :: y in byes && multiset(byes)[y] >= 2 && ByeItself(members, battles, y).None?)
    || (k == Overflow && ByesOverflow(members, battles, byes))
  }

  lemma FreeByes(members: seq<Wallet>, battles: seq<Battle>, byes: seq<Bye>, w: Wallet)
    requires BattlesFault(members, battles).None? && ByesFault(members, battles, byes).None?
    ensures forall y :: y in byes ==> ByeFree(members, battles, y) && ByeItself(members, battles, y).None?
    ensures Tally(battles, byes, w).points == Record(battles, w).points + 3 * |ByeSet(byes, w)|
  {
    hide Tally, Record, BattlesFault, ByesFault, ByeItself, NoClash;
    ByesAcceptedIff(members, battles, byes);
    ByesAreRounds(members, battles, byes, w);
    PointsOfByes(battles, byes, w);
    forall y | y in byes ensures ByeFree(members, battles, y) && ByeItself(members, battles, y).None? {
      AcceptedItself(members, battles, byes, y);
    }
  }

  lemma PointsOfByes(battles: seq<Battle>, byes: seq<Bye>, w: Wallet)
    ensures Tally(battles, byes, w).points == Record(battles, w).points + 3 * Tally(battles, byes, w).byes
  {
    hide Record;
    ByesAddPoints(Record(battles, w), byes);
  }

  lemma AcceptedItself(members: seq<Wallet>, battles: seq<Battle>, byes: seq<Bye>, y: Bye)
    requires ByesAccepted(members, battles, byes) && y in byes
    ensures ByeFree(members, battles, y) && ByeItself(members, battles, y).None?
  {
    hide Tally, ByeFault;
    ByeFaultAfter(members, battles, [], y);
    MorePoints(battles, byes, y);
  }

  lemma {:induction false} MorePoints(battles: seq<Battle>, byes: seq<Bye>, y: Bye)
    requires y in byes
    ensures Tally(battles, [], y.wallet).points + 3 <= Tally(battles, byes, y.wallet).points
  {
    hide Record;
    var init, last := byes[..|byes| - 1], byes[|byes| - 1];
    assert byes == init + [last];
    if y in init {
      MorePoints(battles, init, y);
    } else {
      ByesAddPoints(Record(battles, y.wallet), init);
    }
  }

  // ----- every fault met is of such a kind -----

  lemma {:induction false} ByeSetHolds(byes: seq<Bye>, w: Wallet, r: int)
    ensures r in ByeSet(byes, w) <==> exists y :: y in byes && y.wallet == w && y.roundNo == r
  {
    ByeSetMeaning(byes, w, r);
    ByeRoundsMeaning(byes, r, w);
  }

  lemma ByesOverflowMet(members: seq<Wallet>, battles: seq<Battle>, earlier: seq<Bye>, y: Bye, all: seq<Bye>)
    requires BattlesFault(members, battles).None? && ByesFault(members, battles, earlier).None?
    requires y in all && y !in earlier && (forall z :: z in earlier ==> z in all) && ByeFree(members, battles, y)
    requires Tally(battles, earlier, y.wallet).points + 3 > U32_MAX
    ensures ByesOverflow(members, battles, all)
  {
    hide Tally, Record, BattlesFault, ByesFault, ByeFree, ByeSet, ByeItself;
    var w, free := y.wallet, FreeRounds(members, battles, all, y.wallet);
    FreeByes(members, battles, earlier, w);
    forall r ensures r in ByeSet(earlier, w) <==> exists z :: z in earlier && z.wallet == w && z.roundNo == r {
      ByeSetHolds(earlier, w, r);
    }
    assert y.roundNo in free;
    assert forall z :: z in earlier && z.wallet == w ==> z.roundNo != y.roundNo;
    assert ByeSet(earlier, w) + {y.roundNo} <= free;
    SubsetSize(ByeSet(earlier, w) + {y.roundNo}, free);
  }

  lemma ByeFaultIsKind(members: seq<Wallet>, battles: seq<Battle>, byes: seq<Bye>)
    requires BattlesFault(members, battles).None? && ByesFault(members, battles, byes).Some?
    ensures ByeKind(members, battles, byes, ByesFault(members, battles, byes).value)
  {
    hide Tally, BattlesFault, ByesFault, ByeFree, ByeFault, ByesOverflow;
    var m := FirstByeFault(members, battles, byes);
    var earlier, y := byes[..m], byes[m];
    ByeFaultAfter(members, battles, earlier, y);
    assert y in byes && forall z :: z in earlier ==> z in byes;
    FreeByes(members, battles, earlier, y.wallet);
    if ByeAlone(members, y) && y in earlier {
      TwoOf(byes, m, y);
    } else if ByeAlone(members, y) && ByeFree(members, battles, y) {
      ByesOverflowMet(members, battles, earlier, y, byes);
    }
  }

  // ----- and every such kind is met in some order -----

  lemma ByesMetFirst(members: seq<Wallet>, battles: seq<Battle>, byes: seq<Bye>, first: seq<Bye>)
    returns (order: seq<Bye>)
    requires multiset(first) <= multiset(byes) && ByesFault(members, battles, first).Some?
    ensures multiset(order) == multiset(byes)
    ensures ByesFault(members, battles, order) == ByesFault(members, battles, first)
  {
    hide ByesFault;
    order := PutFirst(first, byes);
    ByeFaultStays(members, battles, order, |first|);
  }

  lemma OneBye(members: seq<Wallet>, battles: seq<Battle>, y: Bye)
    ensures ByesFault(members, battles, [y]) == ByeItself(members, battles, y)
  {
    hide ByeFault;
    assert [y][..0] == [];
    assert ByesFault(members, battles, []).None?;
  }

  lemma RepeatedBye(members: seq<Wallet>, battles: seq<Battle>, y: Bye)
    requires ByeItself(members, battles, y).None?
    ensures ByesFault(members, battles, [y, y]) == Some(DuplicateBye)
  {
    hide ByeFault, Tally;
    OneBye(members, battles, y);
    ByeFaultAfter(members, battles, [], y);
    ByeFaultAfter(members, battles, [y], y);
    assert [y, y][..1] == [y] && y in [y];
  }

  /** A free bye of the wallet for each of the rounds. */
  lemma {:induction false} SelectByes(members: seq<Wallet>, battles: seq<Battle>, byes: seq<Bye>, w: Wallet,
                                      rounds: set<int>)
    returns (chosen: seq<Bye>)
    requires rounds <= FreeRounds(members, battles, byes, w)
    ensures forall y :: y in chosen ==>
              y in byes && ByeFree(members, battles, y) && y.wallet == w && y.roundNo in rounds
    ensures Distinct(chosen) && Tally(battles, chosen, w).points == Record(battles, w).points + 3 * |rounds|
    decreases |rounds|
  {
    hide Record, ByeFree;
    if rounds == {} {
      chosen := [];
    } else {
      var r :| r in rounds;
      var rest := SelectByes(members, battles, byes, w, rounds - {r});
      var y :| y in byes && y.wallet == w && ByeFree(members, battles, y) && y.roundNo == r;
      chosen := rest + [y];
      assert chosen[..|rest|] == rest;
      hide FreeRounds;
      ByePoints(battles, chosen, w);
    }
  }

  lemma FreeByeFaults(members: seq<Wallet>, battles: seq<Battle>, byes: seq<Bye>)
    requires Distinct(byes) && forall y :: y in byes ==> ByeFree(members, battles, y)
    ensures ByesFault(members, battles, byes) in {None, Some(Overflow)}
  {
    hide Tally, ByesFault, ByeFault, NoClash;
    if ByesFault(members, battles, byes).Some? {
      var m := FirstByeFault(members, battles, byes);
      ByeFaultAfter(members, battles, byes[..m], byes[m]);
      assert byes[m] in byes;
      assert byes[m] !in byes[..m];
    }
  }

  lemma ByesOverflowArises(members: seq<Wallet>, battles: seq<Battle>, byes: seq<Bye>) returns (order: seq<Bye>)
    requires BattlesFault(members, battles).None? && ByesOverflow(members, battles, byes)
    ensures multiset(order) == multiset(byes) && ByesFault(members, battles, order) == Some(Overflow)
  {
    hide BattlesFault, Record, ByesFault, FreeRounds, Tally, ByeFree, Distinct;
    var w :| FreeRounds(members, battles, byes, w) != {}
      && Record(battles, w).points + 3 * |FreeRounds(members, battles, byes, w)| > U32_MAX;
    var chosen := SelectByes(members, battles, byes, w, FreeRounds(members, battles, byes, w));
    FreeByeFaults(members, battles, chosen);
    if ByesFault(members, battles, chosen).None? { TallyPointsFit(members, battles, chosen, w); }
    DistinctWithin(chosen, byes);
    order := ByesMetFirst(members, battles, byes, chosen);
  }

  lemma ByeKindIsMet(members: seq<Wallet>, battles: seq<Battle>, byes: seq<Bye>, k: StandingsError)
    returns (order: seq<Bye>)
    requires BattlesFault(members, battles).None? && ByeKind(members, battles, byes, k)
    ensures multiset(order) == multiset(byes) && ByesFault(members, battles, order) == Some(k)
  {
    hide BattlesFault, ByesFault, ByesOverflow, ByeItself;
    if y :| y in byes && ByeItself(members, battles, y) == Some(k) {
      OneBye(members, battles, y);
      assert multiset([y]) <= multiset(byes) by { assert multiset(byes)[y] >= 1; }
      order := ByesMetFirst(members, battles, byes, [y]);
    } else if k == DuplicateBye {
      var y :| y in byes && multiset(byes)[y] >= 2 && ByeItself(members, battles, y).None?;
      RepeatedBye(members, battles, y);
      assert multiset([y, y]) <= multiset(byes) by { assert multiset([y, y]) == multiset{y, y}; }
      order := ByesMetFirst(members, battles, byes, [y, y]);
    } else {
      order := ByesOverflowArises(members, battles, byes);
    }
  }

  // ----- the kinds do not depend on the order -----

  lemma ByeKindReordered(members: seq<Wallet>, members': seq<Wallet>, battles: seq<Battle>, battles': seq<Battle>,
                         byes: seq<Bye>, byes': seq<Bye>, k: StandingsError)
    requires Reordered(members, members', battles, battles', byes, byes') && ByeKind(members, battles, byes, k)
    ensures ByeKind(members', battles', byes', k)
  {
    hide ByeItself, ByesOverflow;
    forall y ensures ByeItself(members, battles, y) == ByeItself(members', battles', y) {
      ItselfReordered(members, members', battles, battles', y);
    }
    forall y ensures y in byes <==> y in byes' { SameElements(byes, byes', y); }
    if ByesOverflow(members, battles, byes) {
      ByesOverflowReordered(members, members', battles, battles', byes, byes');
    }
  }

  lemma FreeReordered(members: seq<Wallet>, members': seq<Wallet>, battles: seq<Battle>, battles': seq<Battle>, y: Bye)
    requires multiset(members) == multiset(members') && multiset(battles) == multiset(battles')
    ensures ByeFree(members, battles, y) <==> ByeFree(members', battles', y)
  {
    SameElements(members, members', y.wallet);
    forall b ensures b in battles <==> b in battles' { SameElements(battles, battles', b); }
  }

  lemma ItselfReordered(members: seq<Wallet>, members': seq<Wallet>, battles: seq<Battle>, battles': seq<Battle>,
                        y: Bye)
    requires multiset(members) == multiset(members') && multiset(battles) == multiset(battles')
    ensures ByeItself(members, battles, y) == ByeItself(members', battles', y)
  {
    SameElements(members, members', y.wallet);
    hide Tally, Participants, NoClash;
    TallyPermuted(battles, battles', [], [], y.wallet);
    NewBye(battles, [], y);
    NewBye(battles', [], y);
    forall b ensures b in battles <==> b in battles' { SameElements(battles, battles', b); }
  }

  lemma ByesOverflowReordered(members: seq<Wallet>, members': seq<Wallet>, battles: seq<Battle>,
                              battles': seq<Battle>, byes: seq<Bye>, byes': seq<Bye>)
    requires Reordered(members, members', battles, battles', byes, byes') && ByesOverflow(members, battles, byes)
    ensures ByesOverflow(members', battles', byes')
  {
    hide Record, ByeFree;
    forall w ensures Record(battles, w) == Record(battles', w) { RecordPermuted(battles, battles', w); }
    forall y ensures ByeFree(members, battles, y) <==> ByeFree(members', battles', y) {
      FreeReordered(members, members', battles, battles', y);
    }
    forall y ensures y in byes <==> y in byes' { SameElements(byes, byes', y); }
    forall w ensures FreeRounds(members, battles, byes, w) == FreeRounds(members', battles', byes', w) {
    }
  }

  /** With faultless Battles, an error arises from some order of the byes exactly when they hold a
      fault of its kind. */
  lemma ByeErrorsExactly(members: seq<Wallet>, battles: seq<Battle>, byes: seq<Bye>, k: StandingsError)
    requires BattlesFault(members, battles).None?
    ensures ByeKind(members, battles, byes, k)
            <==> exists order :: multiset(order) == multiset(byes) && ByesFault(members, battles, order) == Some(k)
  {
    hide ByeKind, ByesFault, BattlesFault;
    if ByeKind(members, battles, byes, k) {
      var order := ByeKindIsMet(members, battles, byes, k);
    }
    if order :| multiset(order) == multiset(byes) && ByesFault(members, battles, order) == Some(k) {
      ByeFaultIsKind(members, battles, order);
      ByeKindReordered(members, members, battles, battles, order, byes, k);
    }
  }

  // ----- the whole input -----

  ghost predicate TwoBattleKinds(members: seq<Wallet>, battles: seq<Battle>) {
    exists k, l :: k != l && BattleKind(members, battles, k) && BattleKind(members, battles, l)
  }

  ghost predicate TwoByeKinds(members: seq<Wallet>, battles: seq<Battle>, byes: seq<Bye>) {
    exists k, l :: k != l && ByeKind(members, battles, byes, k) && ByeKind(members, battles, byes, l)
  }

  /** The first list that holds a fault holds two kinds of fault. */
  ghost predicate TwoFaults(members: seq<Wallet>, battles: seq<Battle>, byes: seq<Bye>) {
    && members != [] && Distinct(members)
    && (TwoBattleKinds(members, battles)
        || (BattlesFault(members, battles).None? && TwoByeKinds(members, battles, byes)))
  }

  lemma BattlesFaultReordered(members: seq<Wallet>, members': seq<Wallet>, battles: seq<Battle>, battles': seq<Battle>)
    requires multiset(members) == multiset(members') && multiset(battles) == multiset(battles')
    ensures BattlesFault(members, battles).None? <==> BattlesFault(members', battles').None?
    ensures !TwoBattleKinds(members, battles) ==> BattlesFault(members, battles) == BattlesFault(members', battles')
  {
    hide BattlesFault, BattlesAccepted, BattleKind;
    BattlesAcceptedIff(members, battles);
    BattlesAcceptedIff(members', battles');
    if BattlesAccepted(members, battles) { BattlesAcceptedReordered(members, members', battles, battles'); }
    if BattlesAccepted(members', battles') { BattlesAcceptedReordered(members', members, battles', battles); }
    if BattlesFault(members, battles).Some? {
      FaultIsKind(members, battles);
      FaultIsKind(members', battles');
      KindReordered(members', members, battles', battles, BattlesFault(members', battles').value);
    }
  }

  lemma ByesFaultReordered(members: seq<Wallet>, members': seq<Wallet>, battles: seq<Battle>, battles': seq<Battle>,
                           byes: seq<Bye>, byes': seq<Bye>)
    requires Reordered(members, members', battles, battles', byes, byes') && BattlesFault(members, battles).None?
    requires !TwoByeKinds(members, battles, byes)
    ensures ByesFault(members, battles, byes) == ByesFault(members', battles', byes')
  {
    hide BattlesFault, ByesFault, ByesAccepted, ByeKind, TwoBattleKinds;
    BattlesFaultReordered(members, members', battles, battles');
    ByesAcceptedIff(members, battles, byes);
    ByesAcceptedIff(members', battles', byes');
    if ByesAccepted(members, battles, byes) {
      ByesAcceptedReordered(members, members', battles, battles', byes, byes');
    }
    if ByesAccepted(members', battles', byes') {
      ByesAcceptedReordered(members', members, battles', battles, byes', byes);
    }
    if ByesFault(members, battles, byes).Some? {
      ByeFaultIsKind(members, battles, byes);
      ByeFaultIsKind(members', battles', byes');
      ByeKindReordered(members', members, battles', battles, byes', byes, ByesFault(members', battles', byes').value);
    }
  }

  lemma OneError(members: seq<Wallet>, members': seq<Wallet>, battles: seq<Battle>, battles': seq<Battle>,
                 byes: seq<Bye>, byes': seq<Bye>)
    requires Reordered(members, members', battles, battles', byes, byes') && !TwoFaults(members, battles, byes)
    ensures Fault(members, battles, byes) == Fault(members', battles', byes')
  {
    hide BattlesFault, ByesFault, TwoBattleKinds, TwoByeKinds, SosFits, Distinct, Accepted;
    SameLength(members, members');
    if Distinct(members) { DistinctPermuted(members, members'); }
    if Distinct(members') { DistinctPermuted(members', members); }
    if members != [] && Distinct(members) {
      BattlesFaultReordered(members, members', battles, battles');
      if BattlesFault(members, battles).None? {
        ByesFaultReordered(members, members', battles, battles', byes, byes');
        AcceptedIff(members, battles, byes);
        AcceptedIff(members', battles', byes');
        if Accepted(members, battles, byes) { AcceptedReordered(members, members', battles, battles', byes, byes'); }
        if Accepted(members', battles', byes') { AcceptedReordered(members', members, battles', battles, byes', byes); }
      }
    }
  }

  /** Two orders with different errors. */
  lemma TwoErrors(members: seq<Wallet>, battles: seq<Battle>, byes: seq<Bye>)
    returns (first: (seq<Battle>, seq<Bye>), second: (seq<Battle>, seq<Bye>))
    requires TwoFaults(members, battles, byes)
    ensures multiset(first.0) == multiset(battles) && multiset(first.1) == multiset(byes)
    ensures multiset(second.0) == multiset(battles) && multiset(second.1) == multiset(byes)
    ensures Fault(members, first.0, first.1) != Fault(members, second.0, second.1)
  {
    hide BattlesFault, ByesFault, BattleKind, ByeKind, SosFits, Distinct;
    if TwoBattleKinds(members, battles) {
      var k, l :| k != l && BattleKind(members, battles, k) && BattleKind(members, battles, l);
      var one := KindIsMet(members, battles, k);
      var two := KindIsMet(members, battles, l);
      first, second := (one, byes), (two, byes);
    } else {
      var k, l :| k != l && ByeKind(members, battles, byes, k) && ByeKind(members, battles, byes, l);
      var one := ByeKindIsMet(members, battles, byes, k);
      var two := ByeKindIsMet(members, battles, byes, l);
      first, second := (battles, one), (battles, two);
    }
  }

  /** The answer for a standings input changes under some reordering exactly when the first of its
      lists to hold a fault, after the members, holds two kinds of fault. */
  lemma ErrorDependsExactly(members: seq<Wallet>, battles: seq<Battle>, byes: seq<Bye>)
    ensures TwoFaults(members, battles, byes)
            <==> exists members', battles', byes' :: Reordered(members, members', battles, battles', byes, byes')
                   && Fault(members', battles', byes') != Fault(members, battles, byes)
  {
    hide TwoFaults, Fault;
    if TwoFaults(members, battles, byes) {
      var first, second := TwoErrors(members, battles, byes);
      assert Reordered(members, members, battles, first.0, byes, first.1);
      assert Reordered(members, members, battles, second.0, byes, second.1);
    }
    forall members', battles', byes' | Reordered(members, members', battles, battles', byes, byes')
      ensures TwoFaults(members, battles, byes) || Fault(members', battles', byes') == Fault(members, battles, byes)
    {
      if !TwoFaults(members, battles, byes) { OneError(members, members', battles, battles', byes, byes'); }
    }
  }
}
