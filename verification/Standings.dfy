/** Deterministic League standings (backend/src/standings.rs): the facts, what is recorded for
    each member, every rejected input, and the order of the table. Wallets are naturals in the
    order of their 32 bytes; the final tie-break hash is an arbitrary function of the wallet. */
module Standings {
  import opened Wrappers
  import opened Sequences

  const MARGIN_CAP_Q9 := 50_000_000
  const U32_MAX := 0xffff_ffff
  const I32_MAX := 0x7fff_ffff
  const I64_MAX := 0x7fff_ffff_ffff_ffff

  type Wallet = nat
  type RoundNo = i: int | -0x8000_0000 <= i <= 0x7fff_ffff
  type ScoreQ9 = i: int | -0x8000_0000_0000_0000 <= i <= 0x7fff_ffff_ffff_ffff
  type TieKey = Wallet -> nat

  datatype GameResult = PlayerA | PlayerB | Draw | ForfeitA | ForfeitB | BothForfeit | Voided

  datatype Battle = Battle(
    roundNo: RoundNo, playerA: Wallet, playerB: Wallet, result: GameResult,
    scoreA: Option<ScoreQ9>, scoreB: Option<ScoreQ9>)
  {
    predicate Has(w: Wallet) { playerA == w || playerB == w }
  }

  datatype Bye = Bye(roundNo: RoundNo, wallet: Wallet)

  datatype StandingsError =
    | EmptyMemberSet | DuplicateMember | InvalidRound | UnknownPlayer | SamePlayer
    | DuplicateRoundParticipation | ByeBattleConflict | DuplicateBye
    | MissingScore | InvalidScore | ScoreResultMismatch | Overflow

  datatype Standing = Standing(
    rank: nat, wallet: Wallet, points: nat, wins: nat, draws: nat, losses: nat, byes: nat,
    sos: nat, headToHead: nat, margin: int)

  /** The running state of one member; `head` maps opponents to points won against them. */
  datatype PlayerState = PlayerState(
    wallet: Wallet, points: nat, wins: nat, draws: nat, losses: nat, byes: nat, sos: nat,
    head: map<Wallet, nat>, margin: int)

  // ----- one fact -----

  function PointsA(result: GameResult): nat {
    match result
    case PlayerA | ForfeitB => 3
    case Draw => 1
    case PlayerB | ForfeitA | BothForfeit | Voided => 0
  }

  function PointsB(result: GameResult): nat {
    match result
    case PlayerB | ForfeitA => 3
    case Draw => 1
    case PlayerA | ForfeitB | BothForfeit | Voided => 0
  }

  predicate WinA(result: GameResult) { result == PlayerA || result == ForfeitB }

  predicate WinB(result: GameResult) { result == PlayerB || result == ForfeitA }

  predicate IsPlayed(result: GameResult) { result == PlayerA || result == PlayerB || result == Draw }

  predicate CountsAsOpponent(result: GameResult) { result != Voided }

  function Clamp(x: int): int {
    if x > MARGIN_CAP_Q9 then MARGIN_CAP_Q9 else if x < -MARGIN_CAP_Q9 then -MARGIN_CAP_Q9 else x
  }

  function Margin(b: Battle): int {
    if IsPlayed(b.result) && b.scoreA.Some? && b.scoreB.Some? then Clamp(b.scoreA.value - b.scoreB.value) else 0
  }

  function HeadPoints(s: PlayerState, opponent: Wallet): nat {
    if opponent in s.head then s.head[opponent] else 0
  }

  function B2N(b: bool): nat { if b then 1 else 0 }

  /** One player's side of a Battle. */
  function AddSide(s: PlayerState, opponent: Wallet, points: nat, win: bool, draw: bool, loss: bool,
                   counts: bool, margin: int): PlayerState {
    s.(points := s.points + points,
       wins := s.wins + B2N(win), draws := s.draws + B2N(draw), losses := s.losses + B2N(loss),
       head := if counts then s.head[opponent := HeadPoints(s, opponent) + points] else s.head,
       margin := s.margin + margin)
  }

  function AddBattle(s: PlayerState, b: Battle): PlayerState {
    var r := b.result;
    if b.playerA == s.wallet then
      AddSide(s, b.playerB, PointsA(r), WinA(r), r == Draw, WinB(r) || r == BothForfeit, CountsAsOpponent(r), Margin(b))
    else if b.playerB == s.wallet then
      AddSide(s, b.playerA, PointsB(r), WinB(r), r == Draw, WinA(r) || r == BothForfeit, CountsAsOpponent(r),
              -Margin(b))
    else s
  }

  function AddBye(s: PlayerState, y: Bye): PlayerState {
    if y.wallet == s.wallet then s.(byes := s.byes + 1, points := s.points + 3) else s
  }

  // ----- all facts -----

  function Fresh(w: Wallet): PlayerState { PlayerState(w, 0, 0, 0, 0, 0, 0, map[], 0) }

  function Record(battles: seq<Battle>, w: Wallet): (s: PlayerState)
    ensures s.wallet == w && s.byes == 0 && s.sos == 0
  {
    if battles == [] then Fresh(w)
    else AddBattle(Record(battles[..|battles| - 1], w), battles[|battles| - 1])
  }

  function WithByes(s: PlayerState, byes: seq<Bye>): (r: PlayerState)
    ensures r.wallet == s.wallet && r.head == s.head && r.sos == s.sos && r.margin == s.margin
  {
    if byes == [] then s else AddBye(WithByes(s, byes[..|byes| - 1]), byes[|byes| - 1])
  }

  /** Everything recorded for a member before strength of schedule. */
  function Tally(battles: seq<Battle>, byes: seq<Bye>, w: Wallet): PlayerState {
    WithByes(Record(battles, w), byes)
  }

  /** Points of `m` if it is an opponent of `w`, one term of Buchholz. */
  function OpponentTerm(battles: seq<Battle>, byes: seq<Bye>, w: Wallet): Wallet -> int {
    (m: Wallet) => if m in Record(battles, w).head then Tally(battles, byes, m).points else 0
  }

  function Buchholz(members: seq<Wallet>, battles: seq<Battle>, byes: seq<Bye>, w: Wallet): int {
    Sum(members, OpponentTerm(battles, byes, w))
  }

  function FullState(members: seq<Wallet>, battles: seq<Battle>, byes: seq<Bye>, w: Wallet): PlayerState {
    var sos := Buchholz(members, battles, byes, w);
    Tally(battles, byes, w).(sos := if sos >= 0 then sos else 0)
  }

  function States(members: seq<Wallet>, battles: seq<Battle>, byes: seq<Bye>): seq<PlayerState> {
    Map(members, w => FullState(members, battles, byes, w))
  }

  // ----- rejected inputs, in the order they are met -----

  function Participants(battles: seq<Battle>): set<(int, Wallet)> {
    if battles == [] then {}
    else
      var b := battles[|battles| - 1];
      Participants(battles[..|battles| - 1]) + {(b.roundNo, b.playerA), (b.roundNo, b.playerB)}
  }

  function ByeRounds(byes: seq<Bye>): set<(int, Wallet)> {
    if byes == [] then {}
    else
      var y := byes[|byes| - 1];
      ByeRounds(byes[..|byes| - 1]) + {(y.roundNo, y.wallet)}
  }

  predicate ResultMatches(b: Battle)
    requires b.scoreA.Some? && b.scoreB.Some?
  {
    match b.result
    case PlayerA => b.scoreA.value > b.scoreB.value
    case PlayerB => b.scoreA.value < b.scoreB.value
    case Draw => b.scoreA.value == b.scoreB.value
    case ForfeitA | ForfeitB | BothForfeit | Voided => true
  }

  function ScoreFault(b: Battle): Option<StandingsError> {
    if !IsPlayed(b.result) then None
    else if b.scoreA.None? || b.scoreB.None? then Some(MissingScore)
    else if b.scoreA.value < 0 || b.scoreB.value < 0 then Some(InvalidScore)
    else if !ResultMatches(b) then Some(ScoreResultMismatch)
    else None
  }

  function IdentityFault(members: seq<Wallet>, earlier: seq<Battle>, b: Battle): Option<StandingsError> {
    if b.roundNo <= 0 then Some(InvalidRound)
    else if b.playerA !in members || b.playerB !in members then Some(UnknownPlayer)
    else if b.playerA == b.playerB then Some(SamePlayer)
    else if (b.roundNo, b.playerA) in Participants(earlier) || (b.roundNo, b.playerB) in Participants(earlier)
    then Some(DuplicateRoundParticipation)
    else None
  }

  function BattleFault(members: seq<Wallet>, earlier: seq<Battle>, b: Battle): Option<StandingsError> {
    var identity := IdentityFault(members, earlier, b);
    if identity.Some? then identity
    else if Record(earlier, b.playerA).points + PointsA(b.result) > U32_MAX
         || Record(earlier, b.playerB).points + PointsB(b.result) > U32_MAX then Some(Overflow)
    else ScoreFault(b)
  }

  function BattlesFault(members: seq<Wallet>, battles: seq<Battle>): Option<StandingsError> {
    if battles == [] then None
    else
      var earlier := battles[..|battles| - 1];
      match BattlesFault(members, earlier)
      case Some(e) => Some(e)
      case None => BattleFault(members, earlier, battles[|battles| - 1])
  }

  function ByeFault(members: seq<Wallet>, battles: seq<Battle>, earlier: seq<Bye>, y: Bye): Option<StandingsError> {
    if y.roundNo <= 0 then Some(InvalidRound)
    else if y.wallet !in members then Some(UnknownPlayer)
    else if (y.roundNo, y.wallet) in ByeRounds(earlier) then Some(DuplicateBye)
    else if (y.roundNo, y.wallet) in Participants(battles) then Some(ByeBattleConflict)
    else if Tally(battles, earlier, y.wallet).points + 3 > U32_MAX then Some(Overflow)
    else None
  }

  function ByesFault(members: seq<Wallet>, battles: seq<Battle>, byes: seq<Bye>): Option<StandingsError> {
    if byes == [] then None
    else
      var earlier := byes[..|byes| - 1];
      match ByesFault(members, battles, earlier)
      case Some(e) => Some(e)
      case None => ByeFault(members, battles, earlier, byes[|byes| - 1])
  }

  predicate SosFits(members: seq<Wallet>, battles: seq<Battle>, byes: seq<Bye>) {
    forall w | w in members :: Buchholz(members, battles, byes, w) <= U32_MAX
  }

  /** The error returned, or none when the table is produced. */
  function Fault(members: seq<Wallet>, battles: seq<Battle>, byes: seq<Bye>): Option<StandingsError> {
    if members == [] then Some(EmptyMemberSet)
    else if !Distinct(members) then Some(DuplicateMember)
    else
      match BattlesFault(members, battles)
      case Some(e) => Some(e)
      case None =>
        match ByesFault(members, battles, byes)
        case Some(e) => Some(e)
        case None =>
          if !SosFits(members, battles, byes) || |members| > U32_MAX then Some(Overflow) else None
  }

  // ----- the order of the table -----

  predicate Tied(s: PlayerState, t: PlayerState) { s.points == t.points && s.sos == t.sos }

  function TiedHead(s: PlayerState): PlayerState -> int {
    (t: PlayerState) => if Tied(s, t) then HeadPoints(s, t.wallet) else 0
  }

  /** The points `s` took from everyone tied with it on points and strength of schedule. */
  function GroupHeadToHead(s: PlayerState, states: seq<PlayerState>): int {
    Sum(states, TiedHead(s))
  }

  /** A member's line of the table, before its rank is known. */
  function Line(s: PlayerState, states: seq<PlayerState>): Standing {
    var head := GroupHeadToHead(s, states);
    Standing(0, s.wallet, s.points, s.wins, s.draws, s.losses, s.byes, s.sos, if head >= 0 then head else 0, s.margin)
  }

  function Lines(states: seq<PlayerState>): seq<Standing> {
    Map(states, s => Line(s, states))
  }

  /** The one order of the table: points, strength of schedule, head-to-head among everyone
      tied on both, margin, tie-break hash, wallet. */
  predicate Ahead(tieKey: TieKey, x: Standing, y: Standing) {
    x.points > y.points || (x.points == y.points &&
    (x.sos > y.sos || (x.sos == y.sos && AheadInGroup(tieKey, x, y))))
  }

  predicate AheadInGroup(tieKey: TieKey, x: Standing, y: Standing) {
    x.headToHead > y.headToHead || (x.headToHead == y.headToHead &&
    (x.margin > y.margin || (x.margin == y.margin &&
    (tieKey(x.wallet) < tieKey(y.wallet) || (tieKey(x.wallet) == tieKey(y.wallet) && x.wallet < y.wallet)))))
  }

  function Unranked(rows: seq<Standing>): seq<Standing> {
    Map(rows, (row: Standing) => row.(rank := 0))
  }

  /** `rows` is the table of the given lines: ranked from one, a permutation of the lines,
      strictly sorted. */
  ghost predicate IsTable(tieKey: TieKey, rows: seq<Standing>, lines: seq<Standing>) {
    && (forall k :: 0 <= k < |rows| ==> rows[k].rank == k + 1)
    && multiset(Unranked(rows)) == multiset(lines)
    && SortedBy(Unranked(rows), (x, y) => Ahead(tieKey, x, y))
  }
}
