/** Ranked matchmaking (crates/protocol/src/lib.rs): players are paired greedily from the lowest
    rating up, each with the nearest remaining rating, a recent rematch costing more than any
    rating gap. */
module RankedPairing {
  import opened Wrappers
  import opened Sequences

  type Wallet = nat

  datatype RankedPlayer = RankedPlayer(wallet: Wallet, rating: int, recent: seq<Wallet>)

  predicate IsRematch(p: RankedPlayer, q: RankedPlayer) { q.wallet in p.recent || p.wallet in q.recent }

  function Gap(p: RankedPlayer, q: RankedPlayer): nat {
    if p.rating >= q.rating then p.rating - q.rating else q.rating - p.rating
  }

  predicate LowerRated(p: RankedPlayer, q: RankedPlayer) {
    p.rating < q.rating || (p.rating == q.rating && p.wallet <= q.wallet)
  }

  /** `p` is at least as good a partner for `f` as `q`. */
  predicate BetterPartner(f: RankedPlayer, p: RankedPlayer, q: RankedPlayer) {
    var rp, rq := IsRematch(f, p), IsRematch(f, q);
    (!rp && rq) || (rp == rq && (Gap(f, p) < Gap(f, q) || (Gap(f, p) == Gap(f, q) && LowerRated(p, q))))
  }

  function LowestFirst(): (RankedPlayer, RankedPlayer) -> bool {
    (p: RankedPlayer, q: RankedPlayer) => LowerRated(p, q)
  }

  function PartnersOf(f: RankedPlayer): (RankedPlayer, RankedPlayer) -> bool {
    (p: RankedPlayer, q: RankedPlayer) => BetterPartner(f, p, q)
  }

  /** Position of the first least element. */
  function MinIndex<T>(s: seq<T>, le: (T, T) -> bool): (i: nat)
    requires s != []
    ensures i < |s|
  {
    if |s| == 1 then 0
    else
      var i := MinIndex(s[..|s| - 1], le);
      if le(s[i], s[|s| - 1]) then i else |s| - 1
  }

  lemma {:induction false} MinIsLeast<T>(s: seq<T>, le: (T, T) -> bool, x: T)
    requires s != [] && TotalOn(s, le) && x in s
    ensures le(s[MinIndex(s, le)], x)
  {
    if |s| > 1 {
      var init, last := s[..|s| - 1], s[|s| - 1];
      assert TotalOn(init, le) by { assert forall y :: y in init ==> y in s; }
      var m := init[MinIndex(init, le)];
      assert m in s && last in s;
      MinIsLeast(init, le, m);
      if x in init { MinIsLeast(init, le, x); }
      assert x in init || x == last;
    }
  }

  function Oriented(p: RankedPlayer, q: RankedPlayer): (RankedPlayer, RankedPlayer) {
    if p.wallet <= q.wallet then (p, q) else (q, p)
  }

  /** The next pair, its first member, and the players left over. */
  function NextPair(rem: seq<RankedPlayer>): (r: (RankedPlayer, RankedPlayer, seq<RankedPlayer>))
    requires |rem| >= 2
    ensures |r.2| == |rem| - 2
  {
    var i := MinIndex(rem, LowestFirst());
    var rest := RemoveAt(rem, i);
    var j := MinIndex(rest, PartnersOf(rem[i]));
    (rem[i], rest[j], RemoveAt(rest, j))
  }

  function PairPlayers(rem: seq<RankedPlayer>): (r: seq<(RankedPlayer, RankedPlayer)>)
    decreases |rem|
  {
    if |rem| < 2 then []
    else
      var (f, p, rest) := NextPair(rem);
      [Oriented(f, p)] + PairPlayers(rest)
  }

  function Unpaired(rem: seq<RankedPlayer>): seq<RankedPlayer>
    decreases |rem|
  {
    if |rem| < 2 then rem else Unpaired(NextPair(rem).2)
  }

  function Flatten<T>(pairs: seq<(T, T)>): seq<T> {
    if pairs == [] then [] else [pairs[0].0, pairs[0].1] + Flatten(pairs[1..])
  }

  lemma NextPairSplits(rem: seq<RankedPlayer>)
    requires |rem| >= 2
    ensures var (f, p, rest) := NextPair(rem); multiset(rem) == multiset{f, p} + multiset(rest)
  {
    hide MinIndex, RemoveAt;
    var i := MinIndex(rem, LowestFirst());
    var rest := RemoveAt(rem, i);
    var j := MinIndex(rest, PartnersOf(rem[i]));
    RemoveAtMultiset(rem, i);
    RemoveAtMultiset(rest, j);
  }

  lemma PairStep(rem: seq<RankedPlayer>)
    requires |rem| >= 2
    ensures var (f, p, rest) := NextPair(rem);
            && PairPlayers(rem) == [Oriented(f, p)] + PairPlayers(rest)
            && PairPlayers(rem)[1..] == PairPlayers(rest)
            && Unpaired(rem) == Unpaired(rest)
            && multiset{Oriented(f, p).0, Oriented(f, p).1} == multiset{f, p}
  {
    hide NextPair;
    var (f, p, rest) := NextPair(rem);
    assert PairPlayers(rem) == [Oriented(f, p)] + PairPlayers(rest);
  }

  lemma FlattenStep<T>(pair: (T, T), pairs: seq<(T, T)>)
    ensures multiset(Flatten([pair] + pairs)) == multiset{pair.0, pair.1} + multiset(Flatten(pairs))
  {
    assert ([pair] + pairs)[1..] == pairs;
    assert multiset([pair.0, pair.1]) == multiset{pair.0, pair.1};
  }

  lemma {:induction false} FlattenAt<T>(pairs: seq<(T, T)>)
    ensures |Flatten(pairs)| == 2 * |pairs|
    ensures forall k :: 0 <= k < |pairs| ==>
              Flatten(pairs)[2 * k] == pairs[k].0 && Flatten(pairs)[2 * k + 1] == pairs[k].1
  {
    if pairs != [] {
      FlattenAt(pairs[1..]);
      forall k | 0 <= k < |pairs|
        ensures Flatten(pairs)[2 * k] == pairs[k].0 && Flatten(pairs)[2 * k + 1] == pairs[k].1
      {
        if k > 0 {
          assert pairs[k] == pairs[1..][k - 1];
          assert Flatten(pairs[1..])[2 * (k - 1)] == pairs[1..][k - 1].0;
        }
      }
    }
  }

  /** Every player is in exactly one pair, except at most one, left out just when the count
      is odd; pairs are in wallet order. */
  lemma {:induction false} PairsPartition(rem: seq<RankedPlayer>)
    ensures multiset(Flatten(PairPlayers(rem))) + multiset(Unpaired(rem)) == multiset(rem)
    ensures |PairPlayers(rem)| == |rem| / 2 && |Unpaired(rem)| == |rem| % 2
    ensures InWalletOrder(PairPlayers(rem))
    decreases |rem|
  {
    hide NextPair, PairPlayers, Unpaired, Flatten, InWalletOrder;
    if |rem| >= 2 {
      NextPairSplits(rem);
      PairStep(rem);
      var (f, p, rest) := NextPair(rem);
      FlattenStep(Oriented(f, p), PairPlayers(rest));
      PairsPartition(rest);
      OrderStep(Oriented(f, p), PairPlayers(rest));
      AddPair(multiset{f, p}, multiset(Flatten(PairPlayers(rest))), multiset(Unpaired(rest)), multiset(rest));
    } else {
      NoMorePairs(rem);
    }
  }

  lemma OrderStep(pair: (RankedPlayer, RankedPlayer), pairs: seq<(RankedPlayer, RankedPlayer)>)
    requires pair.0.wallet <= pair.1.wallet && InWalletOrder(pairs)
    ensures InWalletOrder([pair] + pairs)
  {
  }

  lemma AddPair<T>(pair: multiset<T>, flat: multiset<T>, over: multiset<T>, rest: multiset<T>)
    requires flat + over == rest
    ensures pair + flat + over == pair + rest
  {
  }

  ghost predicate InWalletOrder(pairs: seq<(RankedPlayer, RankedPlayer)>) {
    forall k :: 0 <= k < |pairs| ==> pairs[k].0.wallet <= pairs[k].1.wallet
  }

  // ----- the greedy choice -----

  lemma LowestFirstTotal(s: seq<RankedPlayer>)
    ensures TotalOn(s, LowestFirst())
  {
  }

  lemma PartnersTotal(s: seq<RankedPlayer>, f: RankedPlayer)
    ensures TotalOn(s, PartnersOf(f))
  {
  }

  /** In every pair one member is the lowest rated of all players not yet paired, and the other
      is its best partner among them: it is a recent rematch only if every remaining player is. */
  ghost predicate GreedyFrom(pairs: seq<(RankedPlayer, RankedPlayer)>, pool: multiset<RankedPlayer>)
    decreases |pairs|
  {
    pairs != [] ==>
      && (GreedyPair(pairs[0].0, pairs[0].1, pool) || GreedyPair(pairs[0].1, pairs[0].0, pool))
      && GreedyFrom(pairs[1..], pool - multiset{pairs[0].0, pairs[0].1})
  }

  ghost predicate GreedyPair(f: RankedPlayer, p: RankedPlayer, pool: multiset<RankedPlayer>) {
    && multiset{f, p} <= pool
    && (forall q :: q in pool ==> f.rating < q.rating || (f.rating == q.rating && f.wallet <= q.wallet))
    && (forall q :: q in pool - multiset{f} ==> Preferred(f, p, q))
  }

  /** No recent rematch rather than one; then the smaller rating difference, the lower rating, the lower
      wallet. */
  predicate Preferred(f: RankedPlayer, p: RankedPlayer, q: RankedPlayer) {
    var again, other := p.wallet in f.recent || f.wallet in p.recent, q.wallet in f.recent || f.wallet in q.recent;
    var near := if f.rating < p.rating then p.rating - f.rating else f.rating - p.rating;
    var far := if f.rating < q.rating then q.rating - f.rating else f.rating - q.rating;
    && (again ==> other)
    && (again == other ==>
          near < far || (near == far && (p.rating < q.rating || (p.rating == q.rating && p.wallet <= q.wallet))))
  }

  lemma BetterIsPreferred(f: RankedPlayer, p: RankedPlayer, q: RankedPlayer)
    ensures BetterPartner(f, p, q) ==> Preferred(f, p, q)
  {
  }

  lemma NextPairIsGreedy(rem: seq<RankedPlayer>)
    requires |rem| >= 2
    ensures GreedyPair(NextPair(rem).0, NextPair(rem).1, multiset(rem))
  {
    hide BetterPartner, Preferred, MinIndex;
    var i := MinIndex(rem, LowestFirst());
    var f, rest := rem[i], RemoveAt(rem, i);
    RemoveAtMultiset(rem, i);
    assert multiset(rem) - multiset{f} == multiset(rest);
    forall q | q in multiset(rem) ensures LowerRated(f, q) {
      LowestFirstTotal(rem);
      MinIsLeast(rem, LowestFirst(), q);
    }
    forall q | q in multiset(rem) - multiset{f} ensures Preferred(f, NextPair(rem).1, q) {
      PartnersTotal(rest, f);
      MinIsLeast(rest, PartnersOf(f), q);
      BetterIsPreferred(f, NextPair(rem).1, q);
    }
    NextPairSplits(rem);
  }

  lemma {:induction false} PairsAreGreedy(rem: seq<RankedPlayer>)
    ensures GreedyFrom(PairPlayers(rem), multiset(rem))
    decreases |rem|
  {
    if |rem| >= 2 {
      hide NextPair, PairPlayers, GreedyPair;
      NextPairIsGreedy(rem);
      NextPairSplits(rem);
      PairStep(rem);
      var (f, p, rest) := NextPair(rem);
      PairsAreGreedy(rest);
      assert multiset(rem) - multiset{f, p} == multiset(rest);
    }
  }

  // ----- the order of the input does not matter -----

  ghost predicate OneWalletEach(s: seq<RankedPlayer>) {
    forall p, q :: p in s && q in s && p.wallet == q.wallet ==> p == q
  }

  lemma SameLeast(s: seq<RankedPlayer>, t: seq<RankedPlayer>, le: (RankedPlayer, RankedPlayer) -> bool)
    requires s != [] && multiset(s) == multiset(t) && OneWalletEach(s) && TotalOn(s, le) && TotalOn(t, le)
    requires forall p, q :: le(p, q) && le(q, p) ==> p.wallet == q.wallet
    ensures t != [] && s[MinIndex(s, le)] == t[MinIndex(t, le)]
  {
    SameLength(s, t);
    var x, y := s[MinIndex(s, le)], t[MinIndex(t, le)];
    SameElements(s, t, x);
    SameElements(s, t, y);
    MinIsLeast(s, le, y);
    MinIsLeast(t, le, x);
  }

  lemma SameRest(s: seq<RankedPlayer>, t: seq<RankedPlayer>, i: nat, j: nat)
    requires i < |s| && j < |t| && s[i] == t[j] && multiset(s) == multiset(t)
    ensures multiset(RemoveAt(s, i)) == multiset(RemoveAt(t, j))
  {
    hide RemoveAt;
    RemoveAtMultiset(s, i);
    RemoveAtMultiset(t, j);
    assert multiset(RemoveAt(s, i)) == multiset(s) - multiset{s[i]};
    assert multiset(RemoveAt(t, j)) == multiset(t) - multiset{s[i]};
  }

  lemma RestOneWalletEach(s: seq<RankedPlayer>, i: nat)
    requires i < |s| && OneWalletEach(s)
    ensures OneWalletEach(RemoveAt(s, i))
  {
    assert forall p :: p in RemoveAt(s, i) ==> p in s;
  }

  lemma NextPairPermuted(s: seq<RankedPlayer>, t: seq<RankedPlayer>)
    requires |s| >= 2 && multiset(s) == multiset(t) && OneWalletEach(s)
    ensures |t| >= 2
    ensures NextPair(s).0 == NextPair(t).0 && NextPair(s).1 == NextPair(t).1
    ensures multiset(NextPair(s).2) == multiset(NextPair(t).2) && OneWalletEach(NextPair(s).2)
  {
    SameLength(s, t);
    LowestFirstTotal(s);
    LowestFirstTotal(t);
    SameLeast(s, t, LowestFirst());
    var i, j := MinIndex(s, LowestFirst()), MinIndex(t, LowestFirst());
    var f, s', t' := s[i], RemoveAt(s, i), RemoveAt(t, j);
    assert |s'| == |s| - 1 && |t'| == |t| - 1;
    hide MinIndex, RemoveAt, OneWalletEach, TotalOn, IsRematch;
    SameRest(s, t, i, j);
    RestOneWalletEach(s, i);
    PartnersTotal(s', f);
    PartnersTotal(t', f);
    SameLeast(s', t', PartnersOf(f));
    var k, l := MinIndex(s', PartnersOf(f)), MinIndex(t', PartnersOf(f));
    SameRest(s', t', k, l);
    RestOneWalletEach(s', k);
  }

  /** The pairing depends on the set of players alone, whatever order they are listed in. */
  lemma {:induction false} PairsPermuted(s: seq<RankedPlayer>, t: seq<RankedPlayer>)
    requires multiset(s) == multiset(t) && OneWalletEach(s)
    ensures PairPlayers(s) == PairPlayers(t) && Unpaired(s) == Unpaired(t)
    decreases |s|
  {
    SameLength(s, t);
    if |s| >= 2 {
      NextPairPermuted(s, t);
      PairsPermuted(NextPair(s).2, NextPair(t).2);
    } else if |s| == 1 {
      SameElements(s, t, s[0]);
    }
  }

  // ----- the loop -----

  function Chosen(players: seq<RankedPlayer>, indices: seq<nat>): (r: seq<RankedPlayer>)
    requires forall k :: 0 <= k < |indices| ==> indices[k] < |players|
    ensures |r| == |indices| && forall k :: 0 <= k < |r| ==> r[k] == players[indices[k]]
  {
    seq(|indices|, k requires 0 <= k < |indices| => players[indices[k]])
  }

  ghost predicate Indexes(players: seq<RankedPlayer>, indices: seq<nat>) {
    forall k :: 0 <= k < |indices| ==> indices[k] < |players|
  }

  ghost predicate PairsIndex(players: seq<RankedPlayer>, pairs: seq<(nat, nat)>) {
    forall k :: 0 <= k < |pairs| ==> pairs[k].0 < |players| && pairs[k].1 < |players|
  }

  ghost function ChosenPairs(players: seq<RankedPlayer>, pairs: seq<(nat, nat)>): seq<(RankedPlayer, RankedPlayer)>
    requires PairsIndex(players, pairs)
  {
    seq(|pairs|, k requires 0 <= k < |pairs| => (players[pairs[k].0], players[pairs[k].1]))
  }

  function OrientedIndices(players: seq<RankedPlayer>, first: nat, second: nat): (nat, nat)
    requires first < |players| && second < |players|
  {
    if players[first].wallet <= players[second].wallet then (first, second) else (second, first)
  }

  lemma PushPair(players: seq<RankedPlayer>, pairs: seq<(nat, nat)>, first: nat, second: nat)
    requires PairsIndex(players, pairs) && first < |players| && second < |players|
    ensures var pairs' := pairs + [OrientedIndices(players, first, second)];
            && PairsIndex(players, pairs')
            && ChosenPairs(players, pairs') == ChosenPairs(players, pairs) + [Oriented(players[first], players[second])]
  {
  }

  /** Removing the two chosen positions leaves what `NextPair` leaves. */
  lemma LoopStep(players: seq<RankedPlayer>, remaining: seq<nat>, i: nat, j: nat)
    requires Indexes(players, remaining) && |remaining| >= 2
    requires i < |remaining| && i == MinIndex(Chosen(players, remaining), LowestFirst())
    requires j < |remaining| - 1 && Indexes(players, RemoveAt(remaining, i))
    requires j == MinIndex(Chosen(players, RemoveAt(remaining, i)), PartnersOf(players[remaining[i]]))
    ensures Indexes(players, RemoveAt(RemoveAt(remaining, i), j))
    ensures NextPair(Chosen(players, remaining))
            == (players[remaining[i]], players[RemoveAt(remaining, i)[j]],
                Chosen(players, RemoveAt(RemoveAt(remaining, i), j)))
  {
    hide MinIndex;
    var rem, left := Chosen(players, remaining), RemoveAt(remaining, i);
    assert Chosen(players, left) == RemoveAt(rem, i);
    assert Chosen(players, RemoveAt(left, j)) == RemoveAt(RemoveAt(rem, i), j);
  }

  method PairRanked(players: seq<RankedPlayer>) returns (pairs: seq<(nat, nat)>, unmatched: Option<nat>)
    ensures PairsIndex(players, pairs) && ChosenPairs(players, pairs) == PairPlayers(players)
    ensures unmatched.None? <==> Unpaired(players) == []
    ensures unmatched.Some? ==> unmatched.value < |players| && Unpaired(players) == [players[unmatched.value]]
  {
    hide MinIndex, NextPair, PairPlayers, Oriented, ChosenPairs, RemoveAt;
    var remaining: seq<nat> := seq(|players|, (i: nat) => i);
    assert Chosen(players, remaining) == players;
    pairs := [];
    NothingChosen(players);
    while |remaining| >= 2
      invariant Indexes(players, remaining) && PairsIndex(players, pairs)
      invariant ChosenPairs(players, pairs) + PairPlayers(Chosen(players, remaining)) == PairPlayers(players)
      invariant Unpaired(Chosen(players, remaining)) == Unpaired(players)
      decreases |remaining|
    {
      var i := MinIndex(Chosen(players, remaining), LowestFirst());
      var first := remaining[i];
      assert Indexes(players, RemoveAt(remaining, i)) by { StillIndexes(players, remaining, i); }
      var left := RemoveAt(remaining, i);
      var j := MinIndex(Chosen(players, left), PartnersOf(players[first]));
      LoopStep(players, remaining, i, j);
      PairStep(Chosen(players, remaining));
      PushPair(players, pairs, first, left[j]);
      pairs := pairs + [OrientedIndices(players, first, left[j])];
      remaining := RemoveAt(left, j);
    }
    NoMorePairs(Chosen(players, remaining));
    unmatched := if remaining == [] then None else Some(remaining[0]);
  }

  lemma NothingChosen(players: seq<RankedPlayer>)
    ensures PairsIndex(players, []) && ChosenPairs(players, []) == []
  {
  }

  lemma StillIndexes(players: seq<RankedPlayer>, indices: seq<nat>, i: nat)
    requires Indexes(players, indices) && i < |indices|
    ensures Indexes(players, RemoveAt(indices, i))
  {
  }

  lemma NoMorePairs(rem: seq<RankedPlayer>)
    requires |rem| < 2
    ensures PairPlayers(rem) == [] && Unpaired(rem) == rem && Flatten(PairPlayers(rem)) == []
            && InWalletOrder(PairPlayers(rem))
  {
  }
}
