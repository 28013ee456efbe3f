/** `calculate_standings` as it runs: loops over the facts that update the members' states in
    place, then the two sorts. Every checked addition the source performs on a count or a
    margin is shown to fit; League points and strength of schedule are checked. */
module StandingsTable {
  import opened Wrappers
  import opened Sequences
  import opened Standings
  import opened StandingsBounds

  /** Member states after the given facts, in member order. */
  ghost predicate Recorded(states: seq<PlayerState>, members: seq<Wallet>, battles: seq<Battle>) {
    |states| == |members| && forall i :: 0 <= i < |members| ==> states[i] == Record(battles, members[i])
  }

  ghost predicate Tallied(states: seq<PlayerState>, members: seq<Wallet>, battles: seq<Battle>, byes: seq<Bye>) {
    |states| == |members| && forall i :: 0 <= i < |members| ==> states[i] == Tally(battles, byes, members[i])
  }

  function IndexOf(members: seq<Wallet>, w: Wallet): (i: nat)
    requires w in members
    ensures i < |members| && members[i] == w
  {
    if members[0] == w then 0 else 1 + IndexOf(members[1..], w)
  }

  /** Adds one Battle to both players' states. */
  method RecordBattle(states: seq<PlayerState>, a: nat, b: nat, battle: Battle) returns (r: seq<PlayerState>)
    requires a < |states| && b < |states| && a != b
    requires states[a].wallet == battle.playerA && states[b].wallet == battle.playerB
    requires battle.playerA != battle.playerB
    ensures r == states[a := AddBattle(states[a], battle)][b := AddBattle(states[b], battle)]
  {
    var sa, sb := states[a], states[b];
    var pointsA, pointsB := PointsA(battle.result), PointsB(battle.result);
    sa := sa.(points := sa.points + pointsA);
    sb := sb.(points := sb.points + pointsB);
    if WinA(battle.result) {
      sa := sa.(wins := sa.wins + 1);
      sb := sb.(losses := sb.losses + 1);
    } else if WinB(battle.result) {
      sb := sb.(wins := sb.wins + 1);
      sa := sa.(losses := sa.losses + 1);
    } else if battle.result == Draw {
      sa := sa.(draws := sa.draws + 1);
      sb := sb.(draws := sb.draws + 1);
    } else if battle.result == BothForfeit {
      sa := sa.(losses := sa.losses + 1);
      sb := sb.(losses := sb.losses + 1);
    }
    if CountsAsOpponent(battle.result) {
      sa := sa.(head := sa.head[battle.playerB := HeadPoints(sa, battle.playerB) + pointsA]);
      sb := sb.(head := sb.head[battle.playerA := HeadPoints(sb, battle.playerA) + pointsB]);
    }
    sa := sa.(margin := sa.margin + Margin(battle));
    sb := sb.(margin := sb.margin - Margin(battle));
    r := states[a := sa][b := sb];
  }

  /** No addition made by an accepted Battle leaves its integer type: u32 counts and
      head-to-head entries, i64 margins. */
  lemma BattleFits(members: seq<Wallet>, earlier: seq<Battle>, b: Battle, w: Wallet)
    requires BattlesFault(members, earlier).None? && BattleFault(members, earlier, b).None? && b.Has(w)
    ensures var s := AddBattle(Record(earlier, w), b);
            && s.points <= U32_MAX && s.wins <= U32_MAX && s.draws <= U32_MAX && s.losses <= U32_MAX
            && (forall o: Wallet :: o in s.head ==> s.head[o] <= U32_MAX)
            && -I64_MAX <= s.margin <= I64_MAX
  {
    var battles := earlier + [b];
    assert battles[..|earlier|] == earlier;
    CountsFit(members, battles, w);
    PointsFit(members, battles, w);
    forall o: Wallet | o in Record(battles, w).head ensures Record(battles, w).head[o] <= U32_MAX {
      HeadEntryWithinPoints(battles, w, o);
    }
  }

  lemma OthersUntouched(states: seq<PlayerState>, members: seq<Wallet>, earlier: seq<Battle>, b: Battle, i: nat, j: nat)
    requires Distinct(members) && Recorded(states, members, earlier)
    requires i < |members| && j < |members| && members[i] == b.playerA && members[j] == b.playerB && i != j
    ensures Recorded(states[i := AddBattle(states[i], b)][j := AddBattle(states[j], b)], members, earlier + [b])
  {
    assert (earlier + [b])[..|earlier|] == earlier;
  }

  method TallyBattles(members: seq<Wallet>, battles: seq<Battle>)
    returns (r: Result<seq<PlayerState>, StandingsError>, participants: set<(int, Wallet)>)
    requires Distinct(members)
    ensures match BattlesFault(members, battles)
            case Some(e) => r == Err(e)
            case None => r.Ok? && Recorded(r.value, members, battles) && participants == Participants(battles)
  {
    hide AddBattle, ScoreFault, Distinct;
    var states := Map(members, w => Fresh(w));
    participants := {};
    for k := 0 to |battles|
      invariant BattlesFault(members, battles[..k]).None?
      invariant Recorded(states, members, battles[..k])
      invariant participants == Participants(battles[..k])
    {
      var battle := battles[k];
      ghost var earlier := battles[..k];
      assert battles[..k + 1] == earlier + [battle] && (earlier + [battle])[..k] == earlier;
      if BattlesFault(members, battles[..k + 1]).Some? { FaultStays(members, battles, k + 1); }
      if battle.roundNo <= 0 { return Err(InvalidRound), participants; }
      if battle.playerA !in members { return Err(UnknownPlayer), participants; }
      var a := IndexOf(members, battle.playerA);
      if battle.playerB !in members { return Err(UnknownPlayer), participants; }
      var b := IndexOf(members, battle.playerB);
      if battle.playerA == battle.playerB { return Err(SamePlayer), participants; }
      if (battle.roundNo, battle.playerA) in participants || (battle.roundNo, battle.playerB) in participants {
        return Err(DuplicateRoundParticipation), participants;
      }
      participants := participants + {(battle.roundNo, battle.playerA), (battle.roundNo, battle.playerB)};
      if states[a].points + PointsA(battle.result) > U32_MAX || states[b].points + PointsB(battle.result) > U32_MAX {
        return Err(Overflow), participants;
      }
      var fault := ScoreFault(battle);
      if fault.Some? { return Err(fault.value), participants; }
      BattleFits(members, earlier, battle, battle.playerA);
      BattleFits(members, earlier, battle, battle.playerB);
      OthersUntouched(states, members, earlier, battle, a, b);
      states := RecordBattle(states, a, b, battle);
    }
    assert battles[..|battles|] == battles;
    return Ok(states), participants;
  }

  lemma ByeUntouched(states: seq<PlayerState>, members: seq<Wallet>, battles: seq<Battle>, earlier: seq<Bye>, y: Bye,
                     i: nat)
    requires Distinct(members) && Tallied(states, members, battles, earlier)
    requires i < |members| && members[i] == y.wallet
    ensures Tallied(states[i := AddBye(states[i], y)], members, battles, earlier + [y])
  {
    assert (earlier + [y])[..|earlier|] == earlier;
  }

  lemma NoByes(members: seq<Wallet>, battles: seq<Battle>)
    ensures ByesFault(members, battles, []).None? && ByeRounds([]) == {}
    ensures forall w :: Tally(battles, [], w) == Record(battles, w)
  {
  }

  lemma OneMoreBye(members: seq<Wallet>, battles: seq<Battle>, earlier: seq<Bye>, y: Bye)
    requires ByesFault(members, battles, earlier).None?
    ensures ByesFault(members, battles, earlier + [y]) == ByeFault(members, battles, earlier, y)
    ensures ByeRounds(earlier + [y]) == ByeRounds(earlier) + {(y.roundNo, y.wallet)}
    ensures Tally(battles, earlier, y.wallet).wallet == y.wallet
  {
    hide ByeFault;
    assert (earlier + [y])[..|earlier|] == earlier;
  }

  method TallyByes(members: seq<Wallet>, ghost battles: seq<Battle>, byes: seq<Bye>, before: seq<PlayerState>,
                   participants: set<(int, Wallet)>)
    returns (r: Result<seq<PlayerState>, StandingsError>)
    requires Distinct(members) && Recorded(before, members, battles) && participants == Participants(battles)
    ensures match ByesFault(members, battles, byes)
            case Some(e) => r == Err(e)
            case None => r.Ok? && Tallied(r.value, members, battles, byes)
  {
    hide Distinct, ByesFault, ByeRounds, Tally, Record, Participants;
    NoByes(members, battles);
    var states := before;
    var byeRounds: set<(int, Wallet)> := {};
    for k := 0 to |byes|
      invariant ByesFault(members, battles, byes[..k]).None?
      invariant Tallied(states, members, battles, byes[..k])
      invariant byeRounds == ByeRounds(byes[..k])
    {
      var bye := byes[k];
      ghost var earlier := byes[..k];
      assert byes[..k + 1] == earlier + [bye];
      OneMoreBye(members, battles, earlier, bye);
      if ByesFault(members, battles, byes[..k + 1]).Some? { ByeFaultStays(members, battles, byes, k + 1); }
      if bye.roundNo <= 0 { return Err(InvalidRound); }
      if bye.wallet !in members { return Err(UnknownPlayer); }
      var index := IndexOf(members, bye.wallet);
      if (bye.roundNo, bye.wallet) in byeRounds { return Err(DuplicateBye); }
      byeRounds := byeRounds + {(bye.roundNo, bye.wallet)};
      if (bye.roundNo, bye.wallet) in participants { return Err(ByeBattleConflict); }
      ByesFit(members, battles, earlier, bye.wallet);
      assert states[index].byes + 1 <= U32_MAX;
      if states[index].points + 3 > U32_MAX { return Err(Overflow); }
      ByeUntouched(states, members, battles, earlier, bye, index);
      states := states[index := states[index].(byes := states[index].byes + 1, points := states[index].points + 3)];
    }
    assert byes[..|byes|] == byes;
    return Ok(states);
  }

  // ----- Buchholz -----

  /** The opponents still to be added, as terms over the members. */
  function RestTerm(battles: seq<Battle>, byes: seq<Bye>, rest: set<Wallet>): Wallet -> int {
    (m: Wallet) => if m in rest then Tally(battles, byes, m).points else 0
  }

  lemma {:induction false} RecordKnowsMembers(members: seq<Wallet>, battles: seq<Battle>, w: Wallet, o: Wallet)
    requires BattlesFault(members, battles).None?
    ensures o in Record(battles, w).head ==> o in members
  {
    if battles != [] { RecordKnowsMembers(members, battles[..|battles| - 1], w, o); }
  }

  lemma {:induction false} DropTerm(ms: seq<Wallet>, battles: seq<Battle>, byes: seq<Bye>, rest: set<Wallet>, o: Wallet)
    requires Distinct(ms) && o in rest
    ensures Sum(ms, RestTerm(battles, byes, rest))
            == Sum(ms, RestTerm(battles, byes, rest - {o})) + if o in ms then Tally(battles, byes, o).points else 0
  {
    OneChange(ms, RestTerm(battles, byes, rest - {o}), RestTerm(battles, byes, rest), o,
              Tally(battles, byes, o).points);
  }

  /** The sum still to be added to one member's strength of schedule. */
  ghost function RestSum(members: seq<Wallet>, battles: seq<Battle>, byes: seq<Bye>, rest: set<Wallet>): int {
    Sum(members, RestTerm(battles, byes, rest))
  }

  lemma RestStart(members: seq<Wallet>, battles: seq<Battle>, byes: seq<Bye>, w: Wallet)
    ensures RestSum(members, battles, byes, Record(battles, w).head.Keys) == Buchholz(members, battles, byes, w)
  {
    SumSame(members, OpponentTerm(battles, byes, w), RestTerm(battles, byes, Record(battles, w).head.Keys));
  }

  lemma RestEnd(members: seq<Wallet>, battles: seq<Battle>, byes: seq<Bye>)
    ensures RestSum(members, battles, byes, {}) == 0
  {
    SumSame(members, RestTerm(battles, byes, {}), (m: Wallet) => 0);
    SumBound(members, (m: Wallet) => 0, 0, 0);
  }

  lemma RestStep(members: seq<Wallet>, battles: seq<Battle>, byes: seq<Bye>, rest: set<Wallet>, o: Wallet)
    requires Distinct(members) && o in rest && o in members
    ensures RestSum(members, battles, byes, rest)
            == RestSum(members, battles, byes, rest - {o}) + Tally(battles, byes, o).points
    ensures RestSum(members, battles, byes, rest - {o}) >= 0
  {
    DropTerm(members, battles, byes, rest, o);
    SumNonNegative(members, RestTerm(battles, byes, rest - {o}));
  }

  /** The points and opponents of every member are final. */
  ghost predicate Pointed(states: seq<PlayerState>, members: seq<Wallet>, battles: seq<Battle>, byes: seq<Bye>) {
    |states| == |members|
    && forall i :: 0 <= i < |members| ==>
         states[i].points == Tally(battles, byes, members[i]).points
           && states[i].head == Record(battles, members[i]).head
  }

  /** Adds up the points of one member's opponents, in whatever order their map yields them. */
  method SumOpponents(members: seq<Wallet>, states: seq<PlayerState>, index: nat,
                      ghost battles: seq<Battle>, ghost byes: seq<Bye>)
    returns (r: Result<nat, StandingsError>)
    requires Distinct(members) && Pointed(states, members, battles, byes) && index < |members|
    requires BattlesFault(members, battles).None?
    ensures var total := Buchholz(members, battles, byes, members[index]);
            if total <= U32_MAX then r == Ok(total) else r == Err(Overflow)
  {
    hide Tally, Record, Distinct, Buchholz, RestSum, BattlesFault;
    ghost var w := members[index];
    var rest := states[index].head.Keys;
    RestStart(members, battles, byes, w);
    var sos: nat := 0;
    while rest != {}
      invariant rest <= Record(battles, w).head.Keys
      invariant sos + RestSum(members, battles, byes, rest) == Buchholz(members, battles, byes, w)
      invariant sos <= U32_MAX
      decreases rest
    {
      var o :| o in rest;
      RecordKnowsMembers(members, battles, w, o);
      RestStep(members, battles, byes, rest, o);
      var opponent := IndexOf(members, o);
      if sos + states[opponent].points > U32_MAX {
        return Err(Overflow);
      }
      sos := sos + states[opponent].points;
      rest := rest - {o};
    }
    RestEnd(members, battles, byes);
    return Ok(sos);
  }

  lemma TallyHead(battles: seq<Battle>, byes: seq<Bye>, w: Wallet)
    ensures Tally(battles, byes, w).head == Record(battles, w).head
  {
  }

  ghost predicate Scheduled(states: seq<PlayerState>, members: seq<Wallet>, battles: seq<Battle>, byes: seq<Bye>,
                            k: nat) {
    && |states| == |members|
    && (forall i :: 0 <= i < |members| && i < k ==> states[i] == FullState(members, battles, byes, members[i]))
    && (forall i :: k <= i < |members| ==> states[i] == Tally(battles, byes, members[i]))
  }

  lemma ScheduledIsPointed(states: seq<PlayerState>, members: seq<Wallet>, battles: seq<Battle>, byes: seq<Bye>, k: nat)
    requires Scheduled(states, members, battles, byes, k)
    ensures Pointed(states, members, battles, byes)
  {
    hide Tally, Record, Buchholz;
    forall i | 0 <= i < |members| ensures states[i].head == Record(battles, members[i]).head {
      TallyHead(battles, byes, members[i]);
    }
  }

  /** Fills in every member's strength of schedule. */
  method AddSchedules(members: seq<Wallet>, tallied: seq<PlayerState>, ghost battles: seq<Battle>, ghost byes: seq<Bye>)
    returns (r: Result<seq<PlayerState>, StandingsError>)
    requires Distinct(members) && Tallied(tallied, members, battles, byes)
    requires BattlesFault(members, battles).None?
    ensures if SosFits(members, battles, byes) then r == Ok(States(members, battles, byes)) else r == Err(Overflow)
  {
    hide Tally, Record, Distinct, Buchholz, BattlesFault;
    var states := tallied;
    for index := 0 to |members|
      invariant Scheduled(states, members, battles, byes, index)
      invariant forall i :: 0 <= i < index ==> Buchholz(members, battles, byes, members[i]) <= U32_MAX
    {
      ScheduledIsPointed(states, members, battles, byes, index);
      var sos := SumOpponents(members, states, index, battles, byes);
      if sos.Err? { return Err(Overflow); }
      states := states[index := states[index].(sos := sos.value)];
    }
    assert states == States(members, battles, byes);
    return Ok(states);
  }
}
