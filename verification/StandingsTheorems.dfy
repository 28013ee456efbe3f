/** Results about the standings: exactly which inputs are accepted, what the columns add up to,
    and that the table does not depend on the order of members, Battles or byes. */
module StandingsTheorems {
  import opened Wrappers
  import opened Sequences
  import opened Standings
  import opened StandingsBounds
  import opened StandingsTable
  import opened StandingsOrder

  // ----- the method -----

  lemma StatesAreSound(members: seq<Wallet>, battles: seq<Battle>, byes: seq<Bye>)
    requires Distinct(members) && BattlesFault(members, battles).None?
    ensures Sound(States(members, battles, byes))
  {
    hide Buchholz, BattlesFault, HeadsFit;
    var states := States(members, battles, byes);
    forall s | s in states ensures HeadsFit(s) {
      var i :| 0 <= i < |states| && states[i] == s;
      StateHeadsFit(members, battles, byes, members[i]);
    }
  }

  lemma StateHeadsFit(members: seq<Wallet>, battles: seq<Battle>, byes: seq<Bye>, w: Wallet)
    requires BattlesFault(members, battles).None?
    ensures HeadsFit(FullState(members, battles, byes, w))
  {
    hide Buchholz, Record, BattlesFault;
    var s := FullState(members, battles, byes, w);
    forall ws: seq<Wallet> | Distinct(ws) ensures Sum(ws, HeadOf(s)) <= U32_MAX {
      hide Sum;
      HeadWithinPoints(battles, w, ws);
      PointsFit(members, battles, w);
      TallyHead(battles, byes, w);
      SumSame(ws, HeadOf(s), HeadOf(Record(battles, w)));
    }
  }

  method HasDuplicate(members: seq<Wallet>) returns (duplicate: bool)
    ensures duplicate == !Distinct(members)
  {
    var seen: set<Wallet> := {};
    for k := 0 to |members|
      invariant seen == set i | 0 <= i < k :: members[i]
      invariant Distinct(members[..k])
    {
      if members[k] in seen {
        return true;
      }
      seen := seen + {members[k]};
    }
    assert members[..|members|] == members;
    return false;
  }

  method RankRows(states: seq<PlayerState>, order: seq<PlayerState>) returns (r: Result<seq<Standing>, StandingsError>)
    requires Sound(states) && forall s :: s in order ==> s in states
    ensures if |order| > U32_MAX then r == Err(Overflow)
            else r.Ok? && |r.value| == |order|
                 && forall k :: 0 <= k < |order| ==> r.value[k] == Line(order[k], states).(rank := k + 1)
  {
    hide Sum, HeadsFit;
    var rows: seq<Standing> := [];
    for position := 0 to |order|
      invariant |rows| == position <= U32_MAX
      invariant forall k :: 0 <= k < position ==> rows[k] == Line(order[k], states).(rank := k + 1)
    {
      var s := order[position];
      TieGroupIsTieGroup(states, s);
      var group := FinalOrderForTieGroup(states, s.points, s.sos);
      if position + 1 > U32_MAX {
        return Err(Overflow);
      }
      var head := HeadToHeadWithinGroup(s, group, states);
      GroupIsLine(states, group, s);
      rows := rows
          + [Standing(position + 1, s.wallet, s.points, s.wins, s.draws, s.losses, s.byes, s.sos, head, s.margin)];
    }
    return Ok(rows);
  }

  /** Derives the table: the first error met, or the lines of all members ranked from one and
      strictly sorted by the single order. */
  method CalculateStandings(members: seq<Wallet>, battles: seq<Battle>, byes: seq<Bye>, tieKey: TieKey)
    returns (r: Result<seq<Standing>, StandingsError>)
    ensures match Fault(members, battles, byes)
            case Some(e) => r == Err(e)
            case None => r.Ok? && IsTable(tieKey, r.value, Lines(States(members, battles, byes)))
  {
    hide Tally, Record, Distinct, Sound, Recorded, Tallied, BattlesFault, ByesFault, SosFits, States, Lines, IsTable,
      Ordered;
    if members == [] {
      return Err(EmptyMemberSet);
    }
    var duplicate := HasDuplicate(members);
    if duplicate {
      return Err(DuplicateMember);
    }
    var recorded, participants := TallyBattles(members, battles);
    if recorded.Err? {
      return recorded.PropagateTo();
    }
    var tallied := TallyByes(members, battles, byes, recorded.value, participants);
    if tallied.Err? {
      return tallied.PropagateTo();
    }
    var scheduled := AddSchedules(members, tallied.value, battles, byes);
    if scheduled.Err? {
      return scheduled.PropagateTo();
    }
    var states := scheduled.value;
    StatesAreSound(members, battles, byes);
    var order := OrderMembers(states, tieKey);
    forall s | s in order ensures s in states { SameElements(order, states, s); }
    r := RankRows(states, order);
    SameLength(order, states);
    assert |states| == |members| by { StatesLength(members, battles, byes); }
    if r.Ok? { RowsAreTable(tieKey, states, order, r.value); }
  }

  lemma StatesLength(members: seq<Wallet>, battles: seq<Battle>, byes: seq<Bye>)
    ensures |States(members, battles, byes)| == |members|
  {
  }

  lemma RowsAreTable(tieKey: TieKey, states: seq<PlayerState>, order: seq<PlayerState>, rows: seq<Standing>)
    requires multiset(order) == multiset(states) && Ordered(states, tieKey, order)
    requires |rows| == |order| && forall k :: 0 <= k < |order| ==> rows[k] == Line(order[k], states).(rank := k + 1)
    ensures IsTable(tieKey, rows, Lines(states))
  {
    hide GroupHeadToHead, Ahead;
    MapPermuted(order, states, s => Line(s, states));
    assert Unranked(rows) == Map(order, s => Line(s, states));
    forall a, b | 0 <= a < b < |rows| ensures Ahead(tieKey, Unranked(rows)[a], Unranked(rows)[b]) {
      assert AheadIn(states, tieKey, order[a], order[b]);
    }
  }

  // ----- which inputs are accepted -----

  predicate BattleAlone(members: seq<Wallet>, b: Battle) {
    && b.roundNo > 0 && b.playerA in members && b.playerB in members && b.playerA != b.playerB
    && ScoreFault(b).None?
  }

  predicate Compatible(b: Battle, c: Battle) {
    b.roundNo == c.roundNo ==> !b.Has(c.playerA) && !b.Has(c.playerB)
  }

  predicate ByeAlone(members: seq<Wallet>, y: Bye) { y.roundNo > 0 && y.wallet in members }

  predicate DifferentByes(y: Bye, z: Bye) { y.roundNo != z.roundNo || y.wallet != z.wallet }

  predicate NoClash(b: Battle, y: Bye) { b.roundNo == y.roundNo ==> !b.Has(y.wallet) }

  ghost predicate BattlesAccepted(members: seq<Wallet>, battles: seq<Battle>) {
    && (forall b :: b in battles ==> BattleAlone(members, b))
    && (forall i, j :: 0 <= i < j < |battles| ==> Compatible(battles[i], battles[j]))
    && (forall w: Wallet :: Record(battles, w).points <= U32_MAX)
  }

  ghost predicate ByesAccepted(members: seq<Wallet>, battles: seq<Battle>, byes: seq<Bye>) {
    && (forall y :: y in byes ==> ByeAlone(members, y))
    && (forall i, j :: 0 <= i < j < |byes| ==> DifferentByes(byes[i], byes[j]))
    && (forall b, y :: b in battles && y in byes ==> NoClash(b, y))
    && (forall w: Wallet :: Tally(battles, byes, w).points <= U32_MAX)
  }

  /** Every condition under which a table is produced, none of which mentions an order. */
  ghost predicate Accepted(members: seq<Wallet>, battles: seq<Battle>, byes: seq<Bye>) {
    && members != [] && Distinct(members) && |members| <= U32_MAX
    && BattlesAccepted(members, battles) && ByesAccepted(members, battles, byes)
    && SosFits(members, battles, byes)
  }

  lemma {:induction false} ParticipantsMeaning(battles: seq<Battle>, round: int, w: Wallet)
    ensures (round, w) in Participants(battles) <==> exists b :: b in battles && b.roundNo == round && b.Has(w)
  {
    if battles != [] {
      var init, last := battles[..|battles| - 1], battles[|battles| - 1];
      ParticipantsMeaning(init, round, w);
      assert battles == init + [last];
      if last.roundNo == round && last.Has(w) { assert last in battles; }
    }
  }

  lemma {:induction false} ByeRoundsMeaning(byes: seq<Bye>, round: int, w: Wallet)
    ensures (round, w) in ByeRounds(byes) <==> exists y :: y in byes && y.roundNo == round && y.wallet == w
  {
    if byes != [] {
      var init, last := byes[..|byes| - 1], byes[|byes| - 1];
      ByeRoundsMeaning(init, round, w);
      assert byes == init + [last];
      if last.roundNo == round && last.wallet == w { assert last in byes; }
    }
  }

  /** The last Battle is compatible with all earlier ones iff its players are new in its round. */
  lemma NewParticipants(battles: seq<Battle>, b: Battle)
    ensures ((b.roundNo, b.playerA) !in Participants(battles) && (b.roundNo, b.playerB) !in Participants(battles))
            <==> forall c :: c in battles ==> Compatible(c, b)
  {
    hide Participants;
    ParticipantsMeaning(battles, b.roundNo, b.playerA);
    ParticipantsMeaning(battles, b.roundNo, b.playerB);
  }

  lemma PointsGrow(battles: seq<Battle>, w: Wallet)
    requires battles != []
    ensures Record(battles[..|battles| - 1], w).points <= Record(battles, w).points
  {
  }

  lemma {:induction false} BattlesAcceptedIff(members: seq<Wallet>, battles: seq<Battle>)
    ensures BattlesFault(members, battles).None? <==> BattlesAccepted(members, battles)
  {
    if battles != [] {
      var init, last := battles[..|battles| - 1], battles[|battles| - 1];
      BattlesAcceptedIff(members, init);
      NewParticipants(init, last);
      if BattlesFault(members, battles).None? {
        FaultFreeIsAccepted(members, battles);
      } else if BattlesAccepted(members, battles) {
        assert battles == init + [last];
        AcceptedPrefix(members, init, last);
        LastCompatible(members, init, last);
        assert BattleAlone(members, last);
        LastPointsFit(members, battles);
      }
    }
  }

  lemma LastPointsFit(members: seq<Wallet>, battles: seq<Battle>)
    requires battles != [] && BattlesAccepted(members, battles)
    ensures var init, last := battles[..|battles| - 1], battles[|battles| - 1];
            && Record(init, last.playerA).points + PointsA(last.result) <= U32_MAX
            && Record(init, last.playerB).points + PointsB(last.result) <= U32_MAX
  {
    var last := battles[|battles| - 1];
    assert last in battles && BattleAlone(members, last);
    assert Record(battles, last.playerA).points <= U32_MAX && Record(battles, last.playerB).points <= U32_MAX;
  }

  lemma LastCompatible(members: seq<Wallet>, init: seq<Battle>, last: Battle)
    requires BattlesAccepted(members, init + [last])
    ensures forall c :: c in init ==> Compatible(c, last)
  {
    hide Record, Compatible;
    forall c | c in init ensures Compatible(c, last) {
      var i :| 0 <= i < |init| && init[i] == c;
      assert (init + [last])[i] == c && (init + [last])[|init|] == last;
    }
  }

  lemma AcceptedPrefix(members: seq<Wallet>, init: seq<Battle>, last: Battle)
    requires BattlesAccepted(members, init + [last])
    ensures BattlesAccepted(members, init)
  {
    hide Record, BattleAlone, Compatible;
    var battles := init + [last];
    assert battles[..|battles| - 1] == init;
    forall w: Wallet ensures Record(init, w).points <= U32_MAX { PointsGrow(battles, w); }
    forall i, j | 0 <= i < j < |init| ensures Compatible(init[i], init[j]) {
      assert battles[i] == init[i] && battles[j] == init[j];
    }
  }

  lemma FaultFreeIsAccepted(members: seq<Wallet>, battles: seq<Battle>)
    requires battles != [] && BattlesFault(members, battles).None?
    requires BattlesAccepted(members, battles[..|battles| - 1])
    ensures BattlesAccepted(members, battles)
  {
    hide Record, Participants, ScoreFault;
    var init, last := battles[..|battles| - 1], battles[|battles| - 1];
    NewParticipants(init, last);
    assert battles == init + [last];
    forall w: Wallet ensures Record(battles, w).points <= U32_MAX { PointsFit(members, battles, w); }
    forall i, j | 0 <= i < j < |battles| ensures Compatible(battles[i], battles[j]) {
      if j == |battles| - 1 {
        assert init[i] in init;
      } else {
        assert battles[i] == init[i] && battles[j] == init[j];
      }
    }
  }

  lemma {:induction false} ByesAcceptedIff(members: seq<Wallet>, battles: seq<Battle>, byes: seq<Bye>)
    requires BattlesFault(members, battles).None?
    ensures ByesFault(members, battles, byes).None? <==> ByesAccepted(members, battles, byes)
  {
    if byes == [] {
      forall w: Wallet ensures Tally(battles, byes, w).points <= U32_MAX { PointsFit(members, battles, w); }
    } else {
      var init, last := byes[..|byes| - 1], byes[|byes| - 1];
      ByesAcceptedIff(members, battles, init);
      NewBye(battles, init, last);
      if ByesFault(members, battles, byes).None? {
        ByeFreeIsAccepted(members, battles, byes);
      } else if ByesAccepted(members, battles, byes) {
        AcceptedByesPrefix(members, battles, byes);
      }
    }
  }

  lemma NewBye(battles: seq<Battle>, byes: seq<Bye>, y: Bye)
    ensures (y.roundNo, y.wallet) !in ByeRounds(byes) <==> forall z :: z in byes ==> DifferentByes(z, y)
    ensures (y.roundNo, y.wallet) !in Participants(battles) <==> forall b :: b in battles ==> NoClash(b, y)
  {
    hide ByeRounds, Participants;
    ByeRoundsMeaning(byes, y.roundNo, y.wallet);
    ParticipantsMeaning(battles, y.roundNo, y.wallet);
  }

  lemma ByePoints(battles: seq<Battle>, byes: seq<Bye>, w: Wallet)
    requires byes != []
    ensures var last := byes[|byes| - 1];
            Tally(battles, byes, w).points
            == Tally(battles, byes[..|byes| - 1], w).points + if last.wallet == w then 3 else 0
  {
  }

  lemma AcceptedByesPrefix(members: seq<Wallet>, battles: seq<Battle>, byes: seq<Bye>)
    requires byes != [] && ByesAccepted(members, battles, byes)
    ensures ByesAccepted(members, battles, byes[..|byes| - 1])
    ensures var init, last := byes[..|byes| - 1], byes[|byes| - 1];
            && ByeAlone(members, last)
            && (forall z :: z in init ==> DifferentByes(z, last)) && (forall b :: b in battles ==> NoClash(b, last))
            && Tally(battles, init, last.wallet).points + 3 <= U32_MAX
  {
    hide Tally, ByeAlone, DifferentByes, NoClash;
    var init, last := byes[..|byes| - 1], byes[|byes| - 1];
    assert last in byes;
    forall w: Wallet ensures Tally(battles, init, w).points <= Tally(battles, byes, w).points {
      ByePoints(battles, byes, w);
    }
    forall z | z in init ensures DifferentByes(z, last) {
      var i :| 0 <= i < |init| && init[i] == z;
      assert byes[i] == z;
    }
    ByePoints(battles, byes, last.wallet);
    assert Tally(battles, byes, last.wallet).points <= U32_MAX;
  }

  lemma ByeFreeIsAccepted(members: seq<Wallet>, battles: seq<Battle>, byes: seq<Bye>)
    requires byes != [] && BattlesFault(members, battles).None? && ByesFault(members, battles, byes).None?
    requires ByesAccepted(members, battles, byes[..|byes| - 1])
    ensures ByesAccepted(members, battles, byes)
  {
    hide Tally, BattlesFault, Participants, ByeRounds, NoClash, DifferentByes;
    var init, last := byes[..|byes| - 1], byes[|byes| - 1];
    NewBye(battles, init, last);
    assert byes == init + [last];
    forall w: Wallet ensures Tally(battles, byes, w).points <= U32_MAX { TallyPointsFit(members, battles, byes, w); }
    forall i, j | 0 <= i < j < |byes| ensures DifferentByes(byes[i], byes[j]) {
      if j == |byes| - 1 {
        assert init[i] in init;
      } else {
        assert byes[i] == init[i] && byes[j] == init[j];
      }
    }
  }

  /** A table is produced exactly for the accepted inputs. */
  lemma AcceptedIff(members: seq<Wallet>, battles: seq<Battle>, byes: seq<Bye>)
    ensures Fault(members, battles, byes).None? <==> Accepted(members, battles, byes)
  {
    hide BattlesAccepted, ByesAccepted, BattlesFault, ByesFault, SosFits, Distinct;
    BattlesAcceptedIff(members, battles);
    if BattlesFault(members, battles).None? { ByesAcceptedIff(members, battles, byes); }
  }

  // ----- independence of the input order -----

  lemma SidesCommute(s: PlayerState, o: Wallet, p: nat, win: bool, draw: bool, loss: bool, counts: bool, margin: int,
                     o': Wallet, p': nat, win': bool, draw': bool, loss': bool, counts': bool, margin': int)
    ensures AddSide(AddSide(s, o, p, win, draw, loss, counts, margin), o', p', win', draw', loss', counts', margin')
            == AddSide(AddSide(s, o', p', win', draw', loss', counts', margin'), o, p, win, draw, loss, counts, margin)
  {
    var x := AddSide(AddSide(s, o, p, win, draw, loss, counts, margin), o', p', win', draw', loss', counts', margin');
    var y := AddSide(AddSide(s, o', p', win', draw', loss', counts', margin'), o, p, win, draw, loss, counts, margin);
    assert x.head == y.head;
  }

  /** A player's part in a Battle, as the arguments of one side. */
  datatype Side = Side(o: Wallet, p: nat, win: bool, draw: bool, loss: bool, counts: bool, margin: int)

  function SideOf(b: Battle, w: Wallet): Side
    requires b.Has(w)
  {
    var r := b.result;
    if b.playerA == w then
      Side(b.playerB, PointsA(r), WinA(r), r == Draw, WinB(r) || r == BothForfeit, CountsAsOpponent(r), Margin(b))
    else
      Side(b.playerA, PointsB(r), WinB(r), r == Draw, WinA(r) || r == BothForfeit, CountsAsOpponent(r), -Margin(b))
  }

  function Take(s: PlayerState, x: Side): PlayerState {
    AddSide(s, x.o, x.p, x.win, x.draw, x.loss, x.counts, x.margin)
  }

  lemma AddBattleIsTake(s: PlayerState, b: Battle)
    ensures AddBattle(s, b) == if b.Has(s.wallet) then Take(s, SideOf(b, s.wallet)) else s
    ensures AddBattle(s, b).wallet == s.wallet
  {
  }

  lemma BattlesCommute(s: PlayerState, b: Battle, c: Battle)
    ensures AddBattle(AddBattle(s, b), c) == AddBattle(AddBattle(s, c), b)
  {
    hide AddBattle, AddSide, SideOf;
    AddBattleIsTake(s, b);
    AddBattleIsTake(s, c);
    AddBattleIsTake(AddBattle(s, b), c);
    AddBattleIsTake(AddBattle(s, c), b);
    if b.Has(s.wallet) && c.Has(s.wallet) {
      var x, y := SideOf(b, s.wallet), SideOf(c, s.wallet);
      SidesCommute(s, x.o, x.p, x.win, x.draw, x.loss, x.counts, x.margin, y.o, y.p, y.win, y.draw, y.loss, y.counts,
                   y.margin);
    }
  }

  lemma {:induction false} RecordPull(battles: seq<Battle>, i: nat, w: Wallet)
    requires i < |battles|
    ensures Record(battles, w) == AddBattle(Record(RemoveAt(battles, i), w), battles[i])
    decreases |battles|
  {
    var init, last := battles[..|battles| - 1], battles[|battles| - 1];
    if i == |battles| - 1 {
      assert RemoveAt(battles, i) == init;
    } else {
      hide AddBattle;
      RecordPull(init, i, w);
      assert RemoveAt(battles, i)[..|battles| - 2] == RemoveAt(init, i);
      BattlesCommute(Record(RemoveAt(init, i), w), battles[i], last);
    }
  }

  lemma {:induction false} RecordPermuted(battles: seq<Battle>, battles': seq<Battle>, w: Wallet)
    requires multiset(battles) == multiset(battles')
    ensures Record(battles, w) == Record(battles', w)
  {
    hide AddBattle;
    SameLength(battles, battles');
    if battles != [] {
      var i := MatchLast(battles, battles');
      RecordPermuted(battles[..|battles| - 1], RemoveAt(battles', i), w);
      RecordPull(battles', i, w);
    }
  }

  lemma {:induction false} ByesPull(s: PlayerState, byes: seq<Bye>, i: nat)
    requires i < |byes|
    ensures WithByes(s, byes) == AddBye(WithByes(s, RemoveAt(byes, i)), byes[i])
    decreases |byes|
  {
    var init := byes[..|byes| - 1];
    if i == |byes| - 1 {
      assert RemoveAt(byes, i) == init;
    } else {
      ByesPull(s, init, i);
      assert RemoveAt(byes, i)[..|byes| - 2] == RemoveAt(init, i);
    }
  }

  lemma {:induction false} TallyPermuted(battles: seq<Battle>, battles': seq<Battle>, byes: seq<Bye>, byes': seq<Bye>,
                                         w: Wallet)
    requires multiset(battles) == multiset(battles') && multiset(byes) == multiset(byes')
    ensures Tally(battles, byes, w) == Tally(battles', byes', w)
  {
    RecordPermuted(battles, battles', w);
    ByesPermuted(Record(battles, w), byes, byes');
  }

  lemma {:induction false} ByesPermuted(s: PlayerState, byes: seq<Bye>, byes': seq<Bye>)
    requires multiset(byes) == multiset(byes')
    ensures WithByes(s, byes) == WithByes(s, byes')
  {
    hide AddBye;
    SameLength(byes, byes');
    if byes != [] {
      var i := MatchLast(byes, byes');
      ByesPermuted(s, byes[..|byes| - 1], RemoveAt(byes', i));
      ByesPull(s, byes', i);
    }
  }

  /** The two inputs are the same up to the order of each list. */
  ghost predicate Reordered(members: seq<Wallet>, members': seq<Wallet>, battles: seq<Battle>, battles': seq<Battle>,
                            byes: seq<Bye>, byes': seq<Bye>) {
    && multiset(members) == multiset(members')
    && multiset(battles) == multiset(battles')
    && multiset(byes) == multiset(byes')
  }

  lemma BuchholzReordered(members: seq<Wallet>, members': seq<Wallet>, battles: seq<Battle>, battles': seq<Battle>,
                          byes: seq<Bye>, byes': seq<Bye>, w: Wallet)
    requires Reordered(members, members', battles, battles', byes, byes')
    ensures Buchholz(members, battles, byes, w) == Buchholz(members', battles', byes', w)
  {
    hide Sum, Tally, Record;
    RecordPermuted(battles, battles', w);
    forall m: Wallet ensures Tally(battles, byes, m) == Tally(battles', byes', m) {
      TallyPermuted(battles, battles', byes, byes', m);
    }
    SumSame(members, OpponentTerm(battles, byes, w), OpponentTerm(battles', byes', w));
    SumPermuted(members, members', OpponentTerm(battles', byes', w));
  }

  lemma StatesReordered(members: seq<Wallet>, members': seq<Wallet>, battles: seq<Battle>, battles': seq<Battle>,
                        byes: seq<Bye>, byes': seq<Bye>)
    requires Reordered(members, members', battles, battles', byes, byes')
    ensures multiset(States(members, battles, byes)) == multiset(States(members', battles', byes'))
  {
    hide Tally, Buchholz;
    forall w: Wallet ensures FullState(members, battles, byes, w) == FullState(members', battles', byes', w) {
      TallyPermuted(battles, battles', byes, byes', w);
      BuchholzReordered(members, members', battles, battles', byes, byes', w);
    }
    MapPermuted(members, members', w => FullState(members', battles', byes', w));
    assert States(members, battles, byes) == Map(members, w => FullState(members', battles', byes', w));
  }

  lemma LinesReordered(states: seq<PlayerState>, states': seq<PlayerState>)
    requires multiset(states) == multiset(states')
    ensures multiset(Lines(states)) == multiset(Lines(states'))
  {
    hide Sum;
    forall s ensures Line(s, states) == Line(s, states') {
      SumPermuted(states, states', TiedHead(s));
    }
    MapPermuted(states, states', s => Line(s, states'));
    assert Lines(states) == Map(states, s => Line(s, states'));
  }

  lemma BattlesAcceptedReordered(members: seq<Wallet>, members': seq<Wallet>, battles: seq<Battle>,
                                 battles': seq<Battle>)
    requires multiset(members) == multiset(members') && multiset(battles) == multiset(battles')
    requires BattlesAccepted(members, battles)
    ensures BattlesAccepted(members', battles')
  {
    hide Record, ScoreFault;
    forall w: Wallet ensures w in members <==> w in members' { SameElements(members, members', w); }
    forall b | b in battles' ensures BattleAlone(members', b) { SameElements(battles, battles', b); }
    forall w: Wallet ensures Record(battles', w).points <= U32_MAX { RecordPermuted(battles, battles', w); }
    forall i, j | 0 <= i < j < |battles'| ensures Compatible(battles'[i], battles'[j]) {
      PairsPermuted(battles, battles', (b, c) => Compatible(b, c), i, j);
    }
  }

  lemma ByesAcceptedReordered(members: seq<Wallet>, members': seq<Wallet>, battles: seq<Battle>, battles': seq<Battle>,
                              byes: seq<Bye>, byes': seq<Bye>)
    requires Reordered(members, members', battles, battles', byes, byes') && ByesAccepted(members, battles, byes)
    ensures ByesAccepted(members', battles', byes')
  {
    hide Tally, NoClash, DifferentByes;
    forall y | y in byes' ensures ByeAlone(members', y) {
      SameElements(byes, byes', y);
      SameElements(members, members', y.wallet);
    }
    forall b, y | b in battles' && y in byes' ensures NoClash(b, y) {
      SameElements(battles, battles', b);
      SameElements(byes, byes', y);
    }
    forall w: Wallet ensures Tally(battles', byes', w).points <= U32_MAX {
      TallyPermuted(battles, battles', byes, byes', w);
    }
    forall i, j | 0 <= i < j < |byes'| ensures DifferentByes(byes'[i], byes'[j]) {
      DifferentByesSymmetric();
      PairsPermuted(byes, byes', (y, z) => DifferentByes(y, z), i, j);
    }
  }

  lemma DifferentByesSymmetric()
    ensures forall y, z :: DifferentByes(y, z) <==> DifferentByes(z, y)
  {
  }

  lemma AcceptedReordered(members: seq<Wallet>, members': seq<Wallet>, battles: seq<Battle>, battles': seq<Battle>,
                          byes: seq<Bye>, byes': seq<Bye>)
    requires Reordered(members, members', battles, battles', byes, byes') && Accepted(members, battles, byes)
    ensures Accepted(members', battles', byes')
  {
    hide BattlesAccepted, ByesAccepted, Buchholz, Distinct;
    BattlesAcceptedReordered(members, members', battles, battles');
    ByesAcceptedReordered(members, members', battles, battles', byes, byes');
    SameLength(members, members');
    DistinctPermuted(members, members');
    forall w | w in members' ensures Buchholz(members', battles', byes', w) <= U32_MAX {
      SameElements(members, members', w);
      BuchholzReordered(members, members', battles, battles', byes, byes', w);
    }
  }

  lemma AheadIsStrict(tieKey: TieKey, x: Standing, y: Standing)
    ensures Ahead(tieKey, x, y) ==> !Ahead(tieKey, y, x)
  {
  }

  /** At most one sequence of rows is the table of given lines. */
  lemma TableUnique(tieKey: TieKey, rows: seq<Standing>, rows': seq<Standing>, lines: seq<Standing>,
                    lines': seq<Standing>)
    requires multiset(lines) == multiset(lines')
    requires IsTable(tieKey, rows, lines) && IsTable(tieKey, rows', lines')
    ensures rows == rows'
  {
    forall x, y ensures Ahead(tieKey, x, y) ==> !Ahead(tieKey, y, x) { AheadIsStrict(tieKey, x, y); }
    hide Ahead;
    StrictSortUnique(Unranked(rows), Unranked(rows'), (x, y) => Ahead(tieKey, x, y));
    forall k | 0 <= k < |rows| ensures rows[k] == rows'[k] {
      assert Unranked(rows)[k] == Unranked(rows')[k];
      assert rows[k] == Unranked(rows)[k].(rank := k + 1) && rows'[k] == Unranked(rows')[k].(rank := k + 1);
    }
  }

  /** Order independence. Permuting members, Battles and byes changes neither whether a table
      is produced nor, whatever the tie-break hash, any row of it. */
  lemma OrderIndependent(members: seq<Wallet>, members': seq<Wallet>, battles: seq<Battle>, battles': seq<Battle>,
                         byes: seq<Bye>, byes': seq<Bye>, tieKey: TieKey, rows: seq<Standing>, rows': seq<Standing>)
    requires Reordered(members, members', battles, battles', byes, byes')
    ensures Fault(members, battles, byes).None? <==> Fault(members', battles', byes').None?
    ensures (IsTable(tieKey, rows, Lines(States(members, battles, byes)))
             && IsTable(tieKey, rows', Lines(States(members', battles', byes'))))
            ==> rows == rows'
  {
    hide Fault, Accepted, IsTable, States, Lines;
    AcceptedIff(members, battles, byes);
    AcceptedIff(members', battles', byes');
    if Accepted(members, battles, byes) { AcceptedReordered(members, members', battles, battles', byes, byes'); }
    if Accepted(members', battles', byes') { AcceptedReordered(members', members, battles', battles, byes', byes); }
    var states, states' := States(members, battles, byes), States(members', battles', byes');
    StatesReordered(members, members', battles, battles', byes, byes');
    LinesReordered(states, states');
    if IsTable(tieKey, rows, Lines(states)) && IsTable(tieKey, rows', Lines(states')) {
      TableUnique(tieKey, rows, rows', Lines(states), Lines(states'));
    }
  }

  /** Which error is reported does depend on the order: each fault alone decides. */
  lemma ErrorKindDependsOnOrder()
    ensures exists battles: seq<Battle>, battles': seq<Battle> ::
              multiset(battles) == multiset(battles') && Fault([1, 2], battles, []) == Some(InvalidRound)
              && Fault([1, 2], battles', []) == Some(SamePlayer)
  {
    var b := Battle(0, 1, 2, BothForfeit, None, None);
    var c := Battle(1, 1, 1, BothForfeit, None, None);
    assert [b, c][..1] == [b] && [c, b][..1] == [c] && [b][..0] == [] && [c][..0] == [];
    var members: seq<Wallet> := [1, 2];
    assert BattlesFault(members, []).None?;
    assert BattlesFault(members, [b]) == Some(InvalidRound) && BattlesFault(members, [c]) == Some(SamePlayer);
    assert BattlesFault(members, [b, c]) == Some(InvalidRound) && BattlesFault(members, [c, b]) == Some(SamePlayer);
    assert Fault(members, [b, c], []) == Some(InvalidRound) && Fault(members, [c, b], []) == Some(SamePlayer);
    assert multiset([b, c]) == multiset([c, b]);
  }
}
