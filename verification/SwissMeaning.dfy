/** Which pairing a League round gets: from the leader down, each meets the closest opponent that leaves
    the others a complete pairing, and the bye goes to the lowest eligible player that does. */
module SwissMeaning {
  import opened Wrappers
  import opened Sequences
  import opened RankedPairing
  import opened SwissPairing

  function Apart(a: int, b: int): nat { if a >= b then a - b else b - a }

  /** The player with the most points, then the lowest hash. */
  predicate Leads(players: seq<PairingPlayer>, tie: TieKeys, f: nat, i: nat) {
    var p, q := At(players, f), At(players, i);
    p.points > q.points || (p.points == q.points && tie.one(p.wallet) <= tie.one(q.wallet))
  }

  predicate Strangers(players: seq<PairingPlayer>, f: nat, c: nat) {
    At(players, c).wallet !in At(players, f).prior && At(players, f).wallet !in At(players, c).prior
  }

  /** Nearer to `f` in points, or as near and nearer in rating, or also as near and lower in hash. */
  predicate Nearer(players: seq<PairingPlayer>, tie: TieKeys, f: nat, d: nat, c: nat) {
    var p, q, r := At(players, f), At(players, d), At(players, c);
    var points, rating := Apart(p.points, q.points) - Apart(p.points, r.points),
      Apart(p.rating, q.rating) - Apart(p.rating, r.rating);
    points < 0
      || (points == 0 && (rating < 0 || (rating == 0 && tie.two(p.wallet, q.wallet) < tie.two(p.wallet, r.wallet))))
  }

  ghost predicate Completes(players: seq<PairingPlayer>, remaining: seq<nat>, avoid: bool) {
    exists pairs :: Matching(pairs, remaining) && (avoid ==> NoRepeat(players, pairs))
  }

  /** `c` is an opponent allowed for `f`, and no nearer allowed one leaves a complete pairing. */
  ghost predicate Nearest(players: seq<PairingPlayer>, remaining: seq<nat>, tie: TieKeys, avoid: bool, f: nat, c: nat) {
    && c in remaining && c != f && (avoid ==> Strangers(players, f, c))
    && forall d :: d in remaining && d != f && (avoid ==> Strangers(players, f, d)) && Nearer(players, tie, f, d, c) ==>
         !Completes(players, WithoutTwo(remaining, f, d), avoid)
  }

  /** The leader meets its nearest opponent, and so on among the players that remain. */
  ghost predicate NearestFirst(players: seq<PairingPlayer>, remaining: seq<nat>, tie: TieKeys, avoid: bool,
                               pairs: seq<Pair>)
    decreases |pairs|
  {
    if remaining == [] then pairs == []
    else
      exists f, c, rest: seq<Pair> ::
        && f in remaining && (forall i :: i in remaining ==> Leads(players, tie, f, i))
        && Nearest(players, remaining, tie, avoid, f, c)
        && |rest| < |pairs| && multiset(pairs) == multiset(rest) + multiset{if f < c then (f, c) else (c, f)}
        && NearestFirst(players, WithoutTwo(remaining, f, c), tie, avoid, rest)
  }

  // ----- the search -----

  lemma {:induction false} TryEachPicks(players: seq<PairingPlayer>, remaining: seq<nat>, first: nat,
                                        candidates: seq<nat>, tie: TieKeys, avoid: bool)
    returns (j: nat)
    requires first in remaining && |candidates| <= |remaining|
    requires TryEach(players, remaining, first, candidates, tie, avoid).Some?
    ensures j < |candidates| && (avoid ==> !HasMet(At(players, first), At(players, candidates[j])))
    ensures var found := Search(players, WithoutTwo(remaining, first, candidates[j]), tie, avoid);
            found.Some? && TryEach(players, remaining, first, candidates, tie, avoid)
                           == Some(SortBy(found.value + [Ordered(first, candidates[j])], PairLe()))
    ensures forall i :: 0 <= i < j ==>
              (avoid && HasMet(At(players, first), At(players, candidates[i])))
              || Search(players, WithoutTwo(remaining, first, candidates[i]), tie, avoid).None?
    decreases |candidates|
  {
    hide Search, HasMet, SortBy, Without;
    var c := candidates[0];
    if (avoid && HasMet(At(players, first), At(players, c)))
       || Search(players, WithoutTwo(remaining, first, c), tie, avoid).None? {
      j := TryEachPicks(players, remaining, first, candidates[1..], tie, avoid);
      j := j + 1;
    } else {
      j := 0;
    }
  }

  lemma LeaderIs(players: seq<PairingPlayer>, remaining: seq<nat>, tie: TieKeys)
    requires remaining != []
    ensures var f := remaining[MinIndex(remaining, LeaderFirst(players, tie))];
            forall i :: i in remaining ==> Leads(players, tie, f, i)
  {
    var le := LeaderFirst(players, tie);
    assert TotalOn(remaining, le);
    forall i | i in remaining ensures Leads(players, tie, remaining[MinIndex(remaining, le)], i) {
      MinIsLeast(remaining, le, i);
    }
  }

  lemma NearerIsCloser(players: seq<PairingPlayer>, tie: TieKeys, f: nat, avoid: bool, d: nat, c: nat)
    requires avoid ==> Strangers(players, f, c) && Strangers(players, f, d)
    requires Nearer(players, tie, f, d, c)
    ensures !CloserOpponent(players, tie, f, avoid, c, d)
  {
  }

  lemma StrangersNotMet(players: seq<PairingPlayer>, f: nat, c: nat)
    ensures Strangers(players, f, c) <==> !HasMet(At(players, f), At(players, c))
  {
  }

  lemma CandidatesSorted(players: seq<PairingPlayer>, remaining: seq<nat>, tie: TieKeys, f: nat, avoid: bool)
    ensures SortedBy(Candidates(players, remaining, tie, f, avoid), OpponentsOf(players, tie, f, avoid))
  {
    var others := Without(remaining, f);
    assert TotalOn(others, OpponentsOf(players, tie, f, avoid));
    SortSorts(others, OpponentsOf(players, tie, f, avoid));
  }

  /** A nearer opponent is tried earlier. */
  lemma TriedBefore(players: seq<PairingPlayer>, remaining: seq<nat>, tie: TieKeys, f: nat, avoid: bool, j: nat, d: nat)
    returns (i: nat)
    requires Distinct(remaining) && j < |Candidates(players, remaining, tie, f, avoid)| && d in remaining && d != f
    requires var c := Candidates(players, remaining, tie, f, avoid)[j];
             && (avoid ==> Strangers(players, f, c) && Strangers(players, f, d)) && Nearer(players, tie, f, d, c)
    ensures i < j && Candidates(players, remaining, tie, f, avoid)[i] == d
  {
    hide Candidates, Nearer, Strangers, CloserOpponent;
    var candidates := Candidates(players, remaining, tie, f, avoid);
    CandidatesMeaning(players, remaining, tie, f, avoid);
    CandidatesSorted(players, remaining, tie, f, avoid);
    i :| 0 <= i < |candidates| && candidates[i] == d;
    NearerIsCloser(players, tie, f, avoid, d, candidates[j]);
    SortedAt(candidates, OpponentsOf(players, tie, f, avoid), j, i);
    if i == j { NearerIrreflexive(players, tie, f, d); }
  }

  lemma SortedAt<T>(s: seq<T>, le: (T, T) -> bool, i: nat, j: nat)
    requires SortedBy(s, le) && i < |s| && j < |s|
    ensures i < j ==> le(s[i], s[j])
  {
  }

  lemma NearerIrreflexive(players: seq<PairingPlayer>, tie: TieKeys, f: nat, d: nat)
    ensures !Nearer(players, tie, f, d, d)
  {
  }

  lemma NoSearchNoPairing(players: seq<PairingPlayer>, remaining: seq<nat>, tie: TieKeys, avoid: bool)
    requires Distinct(remaining)
    ensures Search(players, remaining, tie, avoid).Some? <==> Completes(players, remaining, avoid)
  {
    hide Search, Matching, NoRepeat;
    SearchDecides(players, remaining, tie, avoid);
    if pairs :| Matching(pairs, remaining) && Allowed(players, pairs, avoid) {
      assert avoid ==> NoRepeat(players, pairs);
    }
    if pairs :| Matching(pairs, remaining) && (avoid ==> NoRepeat(players, pairs)) {
      assert Allowed(players, pairs, avoid);
    }
  }

  lemma PickedIsNearest(players: seq<PairingPlayer>, remaining: seq<nat>, tie: TieKeys, avoid: bool, f: nat, j: nat)
    requires Distinct(remaining) && f in remaining && j < |Candidates(players, remaining, tie, f, avoid)|
    requires var candidates := Candidates(players, remaining, tie, f, avoid);
             && (avoid ==> !HasMet(At(players, f), At(players, candidates[j])))
             && forall i :: 0 <= i < j ==>
                  (avoid && HasMet(At(players, f), At(players, candidates[i])))
                  || Search(players, WithoutTwo(remaining, f, candidates[i]), tie, avoid).None?
    ensures Nearest(players, remaining, tie, avoid, f, Candidates(players, remaining, tie, f, avoid)[j])
  {
    hide Candidates, Nearer, Strangers, HasMet, Search, Completes, WithoutTwo, Distinct;
    var candidates := Candidates(players, remaining, tie, f, avoid);
    CandidatesMeaning(players, remaining, tie, f, avoid);
    var c := candidates[j];
    assert c in candidates;
    StrangersNotMet(players, f, c);
    forall d | d in remaining && d != f && (avoid ==> Strangers(players, f, d)) && Nearer(players, tie, f, d, c)
      ensures !Completes(players, WithoutTwo(remaining, f, d), avoid)
    {
      var i := TriedBefore(players, remaining, tie, f, avoid, j, d);
      StrangersNotMet(players, f, d);
      WithoutTwoMeaning(remaining, f, d);
      NoSearchNoPairing(players, WithoutTwo(remaining, f, d), tie, avoid);
    }
  }

  lemma {:induction false} SearchNearestFirst(players: seq<PairingPlayer>, remaining: seq<nat>, tie: TieKeys,
                                              avoid: bool)
    requires Distinct(remaining) && Search(players, remaining, tie, avoid).Some?
    ensures NearestFirst(players, remaining, tie, avoid, Search(players, remaining, tie, avoid).value)
    decreases |remaining|
  {
    if remaining != [] {
      var f := remaining[MinIndex(remaining, LeaderFirst(players, tie))];
      var candidates := Candidates(players, remaining, tie, f, avoid);
      var pairs := Search(players, remaining, tie, avoid).value;
      assert TryEach(players, remaining, f, candidates, tie, avoid) == Some(pairs);
      hide Search, TryEach, Candidates, Nearest, Leads, HasMet, WithoutTwo, Distinct, NearestFirst;
      var j := TryEachPicks(players, remaining, f, candidates, tie, avoid);
      var c := candidates[j];
      PickedIsNearest(players, remaining, tie, avoid, f, j);
      LeaderIs(players, remaining, tie);
      CandidatesMeaning(players, remaining, tie, f, avoid);
      assert c in candidates;
      WithoutTwoMeaning(remaining, f, c);
      var rest := Search(players, WithoutTwo(remaining, f, c), tie, avoid).value;
      SearchNearestFirst(players, WithoutTwo(remaining, f, c), tie, avoid);
      SortPermutes(rest + [Ordered(f, c)], PairLe());
      SortLength(rest + [Ordered(f, c)], PairLe());
      LeaderThenRest(players, remaining, tie, avoid, pairs, f, c, rest);
    }
  }

  lemma LeaderThenRest(players: seq<PairingPlayer>, remaining: seq<nat>, tie: TieKeys, avoid: bool, pairs: seq<Pair>,
                       f: nat, c: nat, rest: seq<Pair>)
    requires f in remaining && forall i :: i in remaining ==> Leads(players, tie, f, i)
    requires Nearest(players, remaining, tie, avoid, f, c) && |rest| < |pairs|
    requires multiset(pairs) == multiset(rest + [Ordered(f, c)])
    requires NearestFirst(players, WithoutTwo(remaining, f, c), tie, avoid, rest)
    ensures NearestFirst(players, remaining, tie, avoid, pairs)
  {
    hide Leads, Nearest, WithoutTwo;
    assert multiset(pairs) == multiset(rest) + multiset{if f < c then (f, c) else (c, f)};
  }

  // ----- the bye -----

  /** Nobody sits out of an even round. In an odd one it is somebody of the lowest score without a bye so
      far; failing them, anybody without one; failing them, anybody. */
  ghost predicate MaySitOut(players: seq<PairingPlayer>, bye: Option<nat>) {
    if |players| % 2 == 0 then bye == None
    else
      bye.Some? && bye.value < |players| &&
      if exists p :: p in players && p.byes == 0 && Lowest(players, p)
      then players[bye.value].byes == 0 && Lowest(players, players[bye.value])
      else (exists p :: p in players && p.byes == 0) ==> players[bye.value].byes == 0
  }

  predicate Lowest(players: seq<PairingPlayer>, p: PairingPlayer) { forall q | q in players :: p.points <= q.points }

  /** Fewer points, or as many and a lower hash. */
  predicate SitsOutBefore(players: seq<PairingPlayer>, tie: TieKeys, d: Option<nat>, bye: Option<nat>) {
    d.Some? && bye.Some? &&
    var p, q := At(players, d.value), At(players, bye.value);
    p.points < q.points || (p.points == q.points && tie.one(p.wallet) < tie.one(q.wallet))
  }

  lemma AnyOf(players: seq<PairingPlayer>, keep: nat -> bool, chosen: PairingPlayer -> bool)
    requires forall i: nat :: i < |players| ==> (keep(i) <==> chosen(players[i]))
    ensures forall i: nat :: i in Filter(Indices(|players|), keep) <==> i < |players| && chosen(players[i])
    ensures Filter(Indices(|players|), keep) != [] <==> exists p :: p in players && chosen(p)
  {
    var all := Indices(|players|);
    var kept := Filter(all, keep);
    hide Filter;
    forall i: nat ensures i in all <==> i < |players| { if i < |players| { assert all[i] == i; } }
    if kept != [] { assert kept[0] in kept && players[kept[0]] in players; }
    if p :| p in players && chosen(p) {
      var i :| 0 <= i < |players| && players[i] == p;
      assert i in kept;
    }
  }

  lemma LowestIs(players: seq<PairingPlayer>, p: PairingPlayer)
    requires players != [] && p in players
    ensures Lowest(players, p) <==> p.points == LowestPoints(players)
  {
    hide LowestPoints;
  }

  lemma PoolIs(players: seq<PairingPlayer>, i: nat)
    requires players != [] && |players| % 2 == 1
    ensures i in ByePool(players) <==> MaySitOut(players, Some(i))
  {
    var low := LowestPoints(players);
    forall p | p in players ensures Lowest(players, p) <==> p.points == low { LowestIs(players, p); }
    forall k: nat | k < |players| ensures players[k] in players && At(players, k) == players[k] {
    }
    var lowest := (k: nat) => At(players, k).points == low && At(players, k).byes == 0;
    var unserved := (k: nat) => At(players, k).byes == 0;
    hide Filter, LowestPoints, Lowest, Indices;
    AnyOf(players, lowest, (p: PairingPlayer) => p.points == low && p.byes == 0);
    AnyOf(players, unserved, (p: PairingPlayer) => p.byes == 0);
    AllIndices(|players|, i);
  }

  lemma AllIndices(n: nat, i: nat)
    ensures i in Indices(n) <==> i < n
  {
    if i < n { assert Indices(n)[i] == i; }
  }

  lemma CandidatesAre(players: seq<PairingPlayer>, tie: TieKeys, bye: Option<nat>)
    requires players != []
    ensures bye in ByeCandidates(players, tie) <==> MaySitOut(players, bye)
  {
    if |players| % 2 == 1 {
      var pool, le := ByePool(players), ByeOrder(players, tie);
      SortPermutes(pool, le);
      var sorted, byes := SortBy(pool, le), ByeCandidates(players, tie);
      hide ByePool, ByeOrder, SortBy, MaySitOut;
      forall i: nat ensures Some(i) in byes <==> i in pool {
        SameElements(sorted, pool, i);
        if i in sorted {
          var k :| 0 <= k < |sorted| && sorted[k] == i;
          assert byes[k] == Some(i);
        }
      }
      assert forall k :: 0 <= k < |byes| ==> byes[k].Some?;
      if bye.Some? { PoolIs(players, bye.value); } else { NobodyIsNot(players); }
    }
  }

  lemma NobodyIsNot(players: seq<PairingPlayer>)
    requires |players| % 2 == 1
    ensures !MaySitOut(players, None)
  {
  }

  lemma ByesSorted(players: seq<PairingPlayer>, tie: TieKeys)
    requires players != []
    ensures SortedBy(SortBy(ByePool(players), ByeOrder(players, tie)), ByeOrder(players, tie))
  {
    hide ByePool, SortBy, SortedBy;
    assert TotalOn(ByePool(players), ByeOrder(players, tie));
    SortSorts(ByePool(players), ByeOrder(players, tie));
  }

  /** Whoever sits out before another is tried earlier. */
  lemma EarlierBye(players: seq<PairingPlayer>, tie: TieKeys, k: nat, d: Option<nat>) returns (i: nat)
    requires players != [] && k < |ByeCandidates(players, tie)| && MaySitOut(players, d)
    requires SitsOutBefore(players, tie, d, ByeCandidates(players, tie)[k])
    ensures i < k && ByeCandidates(players, tie)[i] == d
  {
    hide SortedBy;
    var byes := ByeCandidates(players, tie);
    CandidatesAre(players, tie, d);
    i :| 0 <= i < |byes| && byes[i] == d;
    var pool, le := ByePool(players), ByeOrder(players, tie);
    ByesSorted(players, tie);
    hide ByePool, SortBy, MaySitOut;
    SortedAt(SortBy(pool, le), le, k, i);
  }

  lemma LeftDistinct(players: seq<PairingPlayer>, tie: TieKeys, bye: Option<nat>)
    requires players != [] && bye in ByeCandidates(players, tie)
    ensures Distinct(LeftAfter(players, bye))
  {
    CandidateByes(players, tie, bye);
    LeftAfterMeaning(players, bye);
  }

  /** A round repeats no meeting if some eligible choice of who sits out allows that; then it is the first
      such choice by points and hash, and otherwise the first of all. The others are paired from the
      leader down, each with the nearest opponent that leaves a complete pairing of the rest. */
  lemma SwissMeans(players: seq<PairingPlayer>, tie: TieKeys) returns (avoid: bool)
    requires players != []
    ensures PlanSwiss(players, tie).Ok?
    ensures avoid <==> exists d :: MaySitOut(players, d) && Completes(players, LeftAfter(players, d), true)
    ensures var r := PlanSwiss(players, tie).value;
            && MaySitOut(players, r.bye)
            && (forall d :: MaySitOut(players, d) && SitsOutBefore(players, tie, d, r.bye) ==>
                  avoid && !Completes(players, LeftAfter(players, d), true))
            && NearestFirst(players, LeftAfter(players, r.bye), tie, avoid, r.pairs)
            && forall i, j :: 0 <= i < j < |r.pairs| ==> r.pairs[i].0 <= r.pairs[j].0
  {
    hide Search, LeftAfter, PlanSwiss, ByeCandidates, MaySitOut, SitsOutBefore, Completes, NearestFirst, Distinct;
    var k: nat;
    k, avoid := PlanSearched(players, tie);
    var byes := ByeCandidates(players, tie);
    forall d ensures d in byes <==> MaySitOut(players, d) { CandidatesAre(players, tie, d); }
    forall d | d in byes
      ensures Search(players, LeftAfter(players, d), tie, true).Some?
              <==> Completes(players, LeftAfter(players, d), true)
    {
      LeftDistinct(players, tie, d);
      NoSearchNoPairing(players, LeftAfter(players, d), tie, true);
    }
    SwissPairsEveryone(players, tie);
    assert byes[k] in byes;
    LeftDistinct(players, tie, byes[k]);
    SearchNearestFirst(players, LeftAfter(players, byes[k]), tie, avoid);
    forall d | MaySitOut(players, d) && SitsOutBefore(players, tie, d, byes[k])
      ensures avoid && !Completes(players, LeftAfter(players, d), true)
    {
      var i := EarlierBye(players, tie, k, d);
    }
    if !avoid {
      forall d | MaySitOut(players, d) ensures !Completes(players, LeftAfter(players, d), true) {
        var j :| 0 <= j < |byes| && byes[j] == d;
      }
    }
  }
}
