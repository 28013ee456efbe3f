/** What every column of a member's row counts, said from the Battles and byes alone, and the order of
    the rows. */
module StandingsMeaning {
  import opened Wrappers
  import opened Sequences
  import opened Standings
  import opened StandingsBounds
  import opened StandingsTable
  import opened StandingsTheorems
  import opened StandingsAccounting

  // ----- one Battle, seen by one wallet -----

  predicate WonBy(b: Battle, w: Wallet) {
    (b.playerA == w && b.result in {PlayerA, ForfeitB}) || (b.playerB == w && b.result in {PlayerB, ForfeitA})
  }

  predicate LostBy(b: Battle, w: Wallet) {
    || (b.playerA == w && b.result in {PlayerB, ForfeitA, BothForfeit})
    || (b.playerB == w && b.result in {PlayerA, ForfeitB, BothForfeit})
  }

  predicate DrawnBy(b: Battle, w: Wallet) { (b.playerA == w || b.playerB == w) && b.result == Draw }

  /** Fifty basis points either way, in billionths. */
  function Capped(x: int): int { if x < -50_000_000 then -50_000_000 else if x > 50_000_000 then 50_000_000 else x }

  /** The wallet's score minus the other's in a played Battle, capped. */
  function MarginFor(b: Battle, w: Wallet): int {
    if b.result !in {PlayerA, PlayerB, Draw} || b.scoreA.None? || b.scoreB.None? then 0
    else if b.playerA == w then Capped(b.scoreA.value - b.scoreB.value)
    else if b.playerB == w then Capped(b.scoreB.value - b.scoreA.value)
    else 0
  }

  /** Three for a win and one for a draw against the opponent. */
  function PointsAgainst(b: Battle, w: Wallet, o: Wallet): nat {
    if !Pairs(b, w, o) then 0 else if WonBy(b, w) then 3 else if DrawnBy(b, w) then 1 else 0
  }

  function Won(w: Wallet): Battle -> int { (b: Battle) => if WonBy(b, w) then 1 else 0 }

  function Drawn(w: Wallet): Battle -> int { (b: Battle) => if DrawnBy(b, w) then 1 else 0 }

  function Lost(w: Wallet): Battle -> int { (b: Battle) => if LostBy(b, w) then 1 else 0 }

  function MarginsFor(w: Wallet): Battle -> int { (b: Battle) => MarginFor(b, w) }

  function Against(w: Wallet, o: Wallet): Battle -> int { (b: Battle) => PointsAgainst(b, w, o) }

  function ByeOf(w: Wallet): Bye -> int { (y: Bye) => if y.wallet == w then 1 else 0 }

  // ----- the columns -----

  lemma BattleMeans(s: PlayerState, b: Battle)
    requires b.playerA != b.playerB
    ensures var t, w := AddBattle(s, b), s.wallet;
            && t.wins == s.wins + Won(w)(b) && t.draws == s.draws + Drawn(w)(b) && t.losses == s.losses + Lost(w)(b)
            && t.margin == s.margin + MarginsFor(w)(b)
  {
    hide HeadPoints;
  }

  lemma BattleHead(s: PlayerState, b: Battle, o: Wallet)
    requires b.playerA != b.playerB
    ensures HeadPoints(AddBattle(s, b), o) == HeadPoints(s, o) + PointsAgainst(b, s.wallet, o)
  {
  }

  lemma {:induction false} RecordMeans(battles: seq<Battle>, w: Wallet)
    requires forall b :: b in battles ==> b.playerA != b.playerB
    ensures var s := Record(battles, w);
            && s.wins == Sum(battles, Won(w)) && s.draws == Sum(battles, Drawn(w)) && s.losses == Sum(battles, Lost(w))
            && s.margin == Sum(battles, MarginsFor(w))
  {
    hide AddBattle, Won, Drawn, Lost, MarginsFor;
    if battles != [] {
      var init, last := battles[..|battles| - 1], battles[|battles| - 1];
      assert last in battles && forall b :: b in init ==> b in battles;
      RecordMeans(init, w);
      BattleMeans(Record(init, w), last);
    }
  }

  lemma {:induction false} HeadMeans(battles: seq<Battle>, w: Wallet, o: Wallet)
    requires forall b :: b in battles ==> b.playerA != b.playerB
    ensures HeadPoints(Record(battles, w), o) == Sum(battles, Against(w, o))
  {
    hide AddBattle, PointsAgainst;
    if battles != [] {
      var init, last := battles[..|battles| - 1], battles[|battles| - 1];
      assert last in battles && forall b :: b in init ==> b in battles;
      HeadMeans(init, w, o);
      BattleHead(Record(init, w), last, o);
    }
  }

  lemma {:induction false} ByesMean(s: PlayerState, byes: seq<Bye>)
    ensures WithByes(s, byes).byes == s.byes + Sum(byes, ByeOf(s.wallet))
  {
    if byes != [] { ByesMean(s, byes[..|byes| - 1]); }
  }

  lemma TwoPlayers(members: seq<Wallet>, battles: seq<Battle>)
    requires BattlesFault(members, battles).None?
    ensures forall b :: b in battles ==> b.playerA != b.playerB
  {
    hide BattlesFault, Record, ScoreFault, Compatible;
    BattlesAcceptedIff(members, battles);
    forall b | b in battles ensures b.playerA != b.playerB { assert BattleAlone(members, b); }
  }

  /** The row of a member: games won, drawn and lost by the stored results, a forfeit a win for the
      other and a double forfeit a loss for both; byes; three points for each win and bye and one for
      each draw; and the sum of its capped score differences. */
  lemma RowMeans(members: seq<Wallet>, battles: seq<Battle>, byes: seq<Bye>, k: nat)
    requires k < |members| && BattlesFault(members, battles).None?
    ensures var w, row := members[k], Lines(States(members, battles, byes))[k];
            && row.wallet == w && row.wins == Sum(battles, Won(w)) && row.draws == Sum(battles, Drawn(w))
            && row.losses == Sum(battles, Lost(w)) && row.byes == Sum(byes, ByeOf(w))
            && row.points == 3 * row.wins + row.draws + 3 * row.byes && row.margin == Sum(battles, MarginsFor(w))
  {
    var w := members[k];
    hide Sum, Buchholz, Record, BattlesFault;
    TwoPlayers(members, battles);
    RecordMeans(battles, w);
    ByesMean(Record(battles, w), byes);
    ByesKeepResults(Record(battles, w), byes);
    PointsAreResults(battles, byes, w);
  }

  /** Strength of schedule: the final points of every distinct member met in a Battle that was not
      void. */
  lemma SosMeans(members: seq<Wallet>, battles: seq<Battle>, byes: seq<Bye>, k: nat, met: Wallet -> int)
    requires k < |members| && BattlesFault(members, battles).None?
    requires forall m: Wallet ::
               var played := exists b :: b in battles && b.result != Voided && Pairs(b, members[k], m);
               met(m) == if played then Tally(battles, byes, m).points else 0
    ensures Lines(States(members, battles, byes))[k].sos == Sum(members, met)
  {
    hide Sum, Tally, Record, BattlesFault;
    forall m: Wallet ensures met(m) == if Met(battles, members[k], m) then Tally(battles, byes, m).points else 0 {
      assert Met(battles, members[k], m) <==> exists b :: b in battles && b.result != Voided && Pairs(b, members[k], m);
    }
    BuchholzCountsEachOnce(members, battles, byes, members[k], met);
    SumNonNegative(members, met);
  }

  /** Head-to-head: the points taken from those with the same points and strength of schedule. */
  lemma HeadToHeadMeans(members: seq<Wallet>, battles: seq<Battle>, byes: seq<Bye>, k: nat, taken: Wallet -> int)
    requires k < |members| && BattlesFault(members, battles).None?
    requires var rows := Lines(States(members, battles, byes));
             forall j :: 0 <= j < |members| ==>
               var tied := rows[j].points == rows[k].points && rows[j].sos == rows[k].sos;
               taken(members[j]) == if tied then Sum(battles, Against(members[k], members[j])) else 0
    ensures Lines(States(members, battles, byes))[k].headToHead == Sum(members, taken)
  {
    var states := States(members, battles, byes);
    TwoPlayers(members, battles);
    forall j | 0 <= j < |members| ensures TiedHead(states[k])(states[j]) == taken(members[j]) {
      TiedMeans(members, battles, byes, k, j);
    }
    hide Sum, Record, BattlesFault, States, TiedHead, Against;
    SumIndexed(states, members, TiedHead(states[k]), taken);
    forall m | m in members ensures 0 <= taken(m) {
      var j :| 0 <= j < |members| && members[j] == m;
      SumNonNegative(battles, Against(members[k], m));
    }
    SumNonNegative(members, taken);
    LineHead(states, k);
  }

  lemma TiedMeans(members: seq<Wallet>, battles: seq<Battle>, byes: seq<Bye>, k: nat, j: nat)
    requires k < |members| && j < |members| && forall b :: b in battles ==> b.playerA != b.playerB
    ensures var states, rows := States(members, battles, byes), Lines(States(members, battles, byes));
            var tied := rows[j].points == rows[k].points && rows[j].sos == rows[k].sos;
            |states| == |members| && TiedHead(states[k])(states[j]) ==
              if tied then Sum(battles, Against(members[k], members[j])) else 0
  {
    hide Sum, Buchholz, Record, GroupHeadToHead, Against;
    HeadMeans(battles, members[k], members[j]);
    TallyHead(battles, byes, members[k]);
  }

  lemma LineHead(states: seq<PlayerState>, k: nat)
    requires k < |states|
    ensures var head := Sum(states, TiedHead(states[k])); head >= 0 ==> Lines(states)[k].headToHead == head
  {
    hide Sum, TiedHead;
  }

  lemma {:induction false} SumIndexed<T, U>(s: seq<T>, t: seq<U>, f: T -> int, g: U -> int)
    requires |s| == |t| && forall i :: 0 <= i < |s| ==> f(s[i]) == g(t[i])
    ensures Sum(s, f) == Sum(t, g)
  {
    if s != [] { SumIndexed(s[..|s| - 1], t[..|t| - 1], f, g); }
  }

  /** A played win never lowers the winner's margin nor raises the loser's. */
  lemma WinMargin(members: seq<Wallet>, b: Battle, w: Wallet)
    requires Fault(members, [b], []).None? && b.result in {PlayerA, PlayerB}
    ensures WonBy(b, w) ==> MarginFor(b, w) >= 0
    ensures LostBy(b, w) ==> MarginFor(b, w) <= 0
  {
    assert [b][..0] == [];
    hide Record;
    assert BattleFault(members, [], b).None?;
  }

  // ----- the order of the rows -----

  /** Of two rows the earlier has more points; or as many and a higher strength of schedule; or also the
      same and more points from those tied; or also as many and a higher margin; or also the same and a
      lower hash; or also the same and a lower wallet. */
  lemma RowsInOrder(tieKey: TieKey, rows: seq<Standing>, lines: seq<Standing>, i: nat, j: nat)
    requires IsTable(tieKey, rows, lines) && i < j < |rows|
    ensures var x, y := rows[i], rows[j];
            && x.rank == i + 1 && y.rank == j + 1
            && x.points >= y.points && (x.points == y.points ==> x.sos >= y.sos)
            && (x.points == y.points && x.sos == y.sos ==> x.headToHead >= y.headToHead)
            && (x.points == y.points && x.sos == y.sos && x.headToHead == y.headToHead ==> x.margin >= y.margin)
            && (x.points == y.points && x.sos == y.sos && x.headToHead == y.headToHead && x.margin == y.margin ==>
                  tieKey(x.wallet) < tieKey(y.wallet) || (tieKey(x.wallet) == tieKey(y.wallet) && x.wallet < y.wallet))
  {
    assert Ahead(tieKey, Unranked(rows)[i], Unranked(rows)[j]);
  }

  // ----- accepted Battles and byes -----

  /** A Battle by itself is refused with the first of these that is wrong: its round, a player who is no
      member, one player twice, a missing score, a negative one, a result not in the scores' order. */
  lemma AloneMeans(members: seq<Wallet>, b: Battle)
    ensures var played := b.result in {PlayerA, PlayerB, Draw};
            var known := b.playerA in members && b.playerB in members;
            var scored := b.scoreA.Some? && b.scoreB.Some?;
            BattleFault(members, [], b) ==
            if b.roundNo <= 0 then Some(InvalidRound)
            else if !known then Some(UnknownPlayer)
            else if b.playerA == b.playerB then Some(SamePlayer)
            else if !played then None
            else if !scored then Some(MissingScore)
            else if b.scoreA.value < 0 || b.scoreB.value < 0 then Some(InvalidScore)
            else if (b.result == PlayerA && b.scoreA.value > b.scoreB.value)
                    || (b.result == PlayerB && b.scoreA.value < b.scoreB.value)
                    || (b.result == Draw && b.scoreA.value == b.scoreB.value) then None
            else Some(ScoreResultMismatch)
  {
  }

  /** And a bye by itself: its round, its wallet, a Battle in its round, points beyond 32 bits. */
  lemma ByeAloneMeans(members: seq<Wallet>, battles: seq<Battle>, y: Bye)
    ensures ByeFault(members, battles, [], y) ==
            if y.roundNo <= 0 then Some(InvalidRound)
            else if y.wallet !in members then Some(UnknownPlayer)
            else if exists b ::
                      b in battles && b.roundNo == y.roundNo && (b.playerA == y.wallet || b.playerB == y.wallet)
            then Some(ByeBattleConflict)
            else if Record(battles, y.wallet).points + 3 > 0xffff_ffff then Some(Overflow)
            else None
  {
    hide Record, Participants;
    ParticipantsMeaning(battles, y.roundNo, y.wallet);
  }
}
