/** League pairing (crates/protocol/src/lib.rs): a backtracking search that repeats an earlier
    meeting only when no choice of bye allows a complete pairing without one. The tie-break
    hashes are arbitrary functions. */
module SwissPairing {
  import opened Wrappers
  import opened Sequences
  import opened RankedPairing

  datatype PairingPlayer = PairingPlayer(wallet: Wallet, points: nat, rating: int, byes: nat, prior: seq<Wallet>)

  datatype MathError = EmptyObservationSet | NoCompatibleQuorum

  /** Tie-break hashes of one wallet and of two, under the round's seed. */
  datatype TieKeys = TieKeys(one: Wallet -> nat, two: (Wallet, Wallet) -> nat)

  type Pair = (nat, nat)

  predicate HasMet(p: PairingPlayer, q: PairingPlayer) { q.wallet in p.prior || p.wallet in q.prior }

  function Distance(a: int, b: int): nat { if a >= b then a - b else b - a }

  function At(players: seq<PairingPlayer>, i: nat): PairingPlayer {
    if i < |players| then players[i] else PairingPlayer(0, 0, 0, 0, [])
  }

  /** The highest score first. */
  function LeaderFirst(players: seq<PairingPlayer>, tie: TieKeys): (nat, nat) -> bool {
    (i: nat, j: nat) =>
      var p, q := At(players, i), At(players, j);
      p.points > q.points || (p.points == q.points && tie.one(p.wallet) <= tie.one(q.wallet))
  }

  predicate CloserOpponent(players: seq<PairingPlayer>, tie: TieKeys, first: nat, avoid: bool, i: nat, j: nat) {
    var f, p, q := At(players, first), At(players, i), At(players, j);
    var mp, mq := avoid && HasMet(f, p), avoid && HasMet(f, q);
    (!mp && mq) || (mp == mq &&
    (Distance(f.points, p.points) < Distance(f.points, q.points)
     || (Distance(f.points, p.points) == Distance(f.points, q.points) &&
    (Distance(f.rating, p.rating) < Distance(f.rating, q.rating)
     || (Distance(f.rating, p.rating) == Distance(f.rating, q.rating) &&
    tie.two(f.wallet, p.wallet) <= tie.two(f.wallet, q.wallet))))))
  }

  function OpponentsOf(players: seq<PairingPlayer>, tie: TieKeys, first: nat, avoid: bool): (nat, nat) -> bool {
    (i: nat, j: nat) => CloserOpponent(players, tie, first, avoid, i, j)
  }

  function Without<T(==)>(s: seq<T>, x: T): (r: seq<T>)
    ensures |r| <= |s| && (x in s ==> |r| < |s|)
  {
    if s == [] then []
    else if s[0] == x then Without(s[1..], x)
    else [s[0]] + Without(s[1..], x)
  }

  function Ordered(i: nat, j: nat): Pair { if i < j then (i, j) else (j, i) }

  function PairLe(): (Pair, Pair) -> bool {
    (p: Pair, q: Pair) => p.0 < q.0 || (p.0 == q.0 && p.1 <= q.1)
  }

  function Search(players: seq<PairingPlayer>, remaining: seq<nat>, tie: TieKeys, avoid: bool): Option<seq<Pair>>
    decreases |remaining|, |remaining| + 1
  {
    if remaining == [] then Some([])
    else if |remaining| % 2 == 1 then None
    else
      var first := remaining[MinIndex(remaining, LeaderFirst(players, tie))];
      TryEach(players, remaining, first, Candidates(players, remaining, tie, first, avoid), tie, avoid)
  }

  lemma SortLength<T>(s: seq<T>, le: (T, T) -> bool)
    ensures |SortBy(s, le)| == |s|
  {
    SortPermutes(s, le);
    SameLength(SortBy(s, le), s);
  }

  function Candidates(players: seq<PairingPlayer>, remaining: seq<nat>, tie: TieKeys, first: nat, avoid: bool)
    : (r: seq<nat>)
    ensures |r| <= |remaining|
  {
    SortLength(Without(remaining, first), OpponentsOf(players, tie, first, avoid));
    SortBy(Without(remaining, first), OpponentsOf(players, tie, first, avoid))
  }

  function TryEach(players: seq<PairingPlayer>, remaining: seq<nat>, first: nat, candidates: seq<nat>, tie: TieKeys,
                   avoid: bool): Option<seq<Pair>>
    requires first in remaining && |candidates| <= |remaining|
    decreases |remaining|, |candidates|
  {
    if candidates == [] then None
    else
      var c := candidates[0];
      if avoid && HasMet(At(players, first), At(players, c)) then
        TryEach(players, remaining, first, candidates[1..], tie, avoid)
      else
        match Search(players, Without(Without(remaining, first), c), tie, avoid)
        case Some(pairs) => Some(SortBy(pairs + [Ordered(first, c)], PairLe()))
        case None => TryEach(players, remaining, first, candidates[1..], tie, avoid)
  }

  // ----- complete pairings -----

  ghost predicate Matching(pairs: seq<Pair>, remaining: seq<nat>) {
    multiset(Flatten(pairs)) == multiset(remaining)
  }

  ghost predicate NoRepeat(players: seq<PairingPlayer>, pairs: seq<Pair>) {
    forall p: Pair :: p in pairs ==>
      At(players, p.1).wallet !in At(players, p.0).prior && At(players, p.0).wallet !in At(players, p.1).prior
  }

  ghost predicate Allowed(players: seq<PairingPlayer>, pairs: seq<Pair>, avoid: bool) {
    avoid ==> NoRepeat(players, pairs)
  }

  ghost predicate WellOrdered(pairs: seq<Pair>) {
    SortedBy(pairs, PairLe()) && forall p: Pair :: p in pairs ==> p.0 <= p.1
  }

  lemma DistinctCons<T>(x: T, s: seq<T>)
    requires Distinct(s) && x !in s
    ensures Distinct([x] + s)
  {
  }

  lemma {:induction false} WithoutMeaning<T>(s: seq<T>, x: T)
    requires Distinct(s)
    ensures Distinct(Without(s, x))
    ensures forall y :: y in Without(s, x) <==> y in s && y != x
  {
    if s != [] {
      var head, tail := s[0], s[1..];
      assert Distinct(tail) && head !in tail;
      WithoutMeaning(tail, x);
      DistinctCons(head, Without(tail, x));
      assert forall y :: y in s <==> y == head || y in tail;
      assert forall y :: y in [head] + Without(tail, x) <==> y == head || y in Without(tail, x);
    }
  }

  lemma {:induction false} WithoutAbsent<T>(s: seq<T>, x: T)
    requires x !in s
    ensures Without(s, x) == s
  {
    if s != [] {
      assert s == [s[0]] + s[1..];
      WithoutAbsent(s[1..], x);
    }
  }

  lemma {:induction false} WithoutMultiset<T>(s: seq<T>, x: T)
    requires Distinct(s) && x in s
    ensures multiset(Without(s, x)) + multiset{x} == multiset(s)
  {
    var head, tail := s[0], s[1..];
    assert s == [head] + tail;
    if head == x {
      WithoutAbsent(tail, x);
    } else {
      WithoutMultiset(tail, x);
      assert multiset([head] + Without(tail, x)) == multiset{head} + multiset(Without(tail, x));
    }
  }

  /** What is left of distinct indices when two of them go. */
  function WithoutTwo(s: seq<nat>, x: nat, y: nat): seq<nat> { Without(Without(s, x), y) }

  lemma WithoutTwoMeaning(s: seq<nat>, x: nat, y: nat)
    requires Distinct(s) && x in s && y in s && x != y
    ensures Distinct(WithoutTwo(s, x, y)) && |WithoutTwo(s, x, y)| < |s|
    ensures multiset(WithoutTwo(s, x, y)) + multiset{x, y} == multiset(s)
    ensures forall z :: z in WithoutTwo(s, x, y) ==> z in s
  {
    hide Distinct, Without;
    WithoutMeaning(s, x);
    WithoutMultiset(s, x);
    WithoutMultiset(Without(s, x), y);
    WithoutMeaning(Without(s, x), y);
  }

  lemma {:induction false} FlattenConcat<T>(a: seq<(T, T)>, b: seq<(T, T)>)
    ensures multiset(Flatten(a + b)) == multiset(Flatten(a)) + multiset(Flatten(b))
  {
    if a == [] {
      assert a + b == b;
    } else {
      assert a == [a[0]] + a[1..];
      assert a + b == [a[0]] + (a[1..] + b);
      FlattenConcat(a[1..], b);
      FlattenStep(a[0], a[1..]);
      FlattenStep(a[0], a[1..] + b);
    }
  }

  lemma MultisetShuffle<T>(a: multiset<T>, b: multiset<T>, c: multiset<T>)
    ensures a + (b + c) == (a + c) + b
  {
  }

  lemma FlattenSplit<T>(before: seq<(T, T)>, pair: (T, T), after: seq<(T, T)>)
    ensures multiset(Flatten(before + ([pair] + after))) == multiset(Flatten(before + after)) + multiset{pair.0, pair.1}
  {
    hide Flatten;
    FlattenConcat(before, [pair] + after);
    FlattenStep(pair, after);
    FlattenConcat(before, after);
    MultisetShuffle(multiset(Flatten(before)), multiset{pair.0, pair.1}, multiset(Flatten(after)));
  }

  lemma SplitAt<T>(s: seq<T>, k: nat)
    requires k < |s|
    ensures s == s[..k] + ([s[k]] + s[k + 1..])
  {
  }

  lemma FlattenRemoveAt<T>(pairs: seq<(T, T)>, k: nat)
    requires k < |pairs|
    ensures multiset(Flatten(pairs)) == multiset(Flatten(RemoveAt(pairs, k))) + multiset{pairs[k].0, pairs[k].1}
  {
    hide Flatten;
    SplitAt(pairs, k);
    FlattenSplit(pairs[..k], pairs[k], pairs[k + 1..]);
  }

  lemma {:induction false} FlattenPermuted<T>(a: seq<(T, T)>, b: seq<(T, T)>)
    requires multiset(a) == multiset(b)
    ensures multiset(Flatten(a)) == multiset(Flatten(b))
  {
    SameLength(a, b);
    if a != [] {
      hide Flatten, RemoveAt;
      var k := MatchLast(a, b);
      FlattenRemoveAt(b, k);
      FlattenRemoveAt(a, |a| - 1);
      LastRemoved(a);
      FlattenPermuted(a[..|a| - 1], RemoveAt(b, k));
    }
  }

  lemma LastRemoved<T>(s: seq<T>)
    requires s != []
    ensures RemoveAt(s, |s| - 1) == s[..|s| - 1]
  {
  }

  lemma {:induction false} EndIn<T>(pairs: seq<(T, T)>, x: T) returns (k: nat)
    requires x in Flatten(pairs)
    ensures k < |pairs| && (pairs[k].0 == x || pairs[k].1 == x)
  {
    if pairs[0].0 == x || pairs[0].1 == x {
      k := 0;
    } else {
      k := EndIn(pairs[1..], x);
      k := k + 1;
    }
  }

  lemma PairLeTotal(s: seq<Pair>)
    ensures TotalOn(s, PairLe())
  {
  }

  // ----- what the search returns is a complete pairing -----

  lemma OrderedEnds(x: nat, y: nat)
    ensures multiset{Ordered(x, y).0, Ordered(x, y).1} == multiset{x, y}
  {
  }

  lemma FlattenPush(pairs: seq<Pair>, pair: Pair)
    ensures multiset(Flatten(pairs + [pair])) == multiset(Flatten(pairs)) + multiset{pair.0, pair.1}
  {
    var more := pairs + [pair];
    assert RemoveAt(more, |pairs|) == pairs;
    FlattenRemoveAt(more, |pairs|);
  }

  lemma ExtendMatching(pairs: seq<Pair>, remaining: seq<nat>, first: nat, c: nat)
    requires Distinct(remaining) && first in remaining && c in remaining && first != c
    requires Matching(pairs, WithoutTwo(remaining, first, c))
    ensures Matching(SortBy(pairs + [Ordered(first, c)], PairLe()), remaining)
  {
    hide Flatten, SortBy, Distinct, WithoutTwo, Ordered;
    WithoutTwoMeaning(remaining, first, c);
    var more := pairs + [Ordered(first, c)];
    FlattenPush(pairs, Ordered(first, c));
    OrderedEnds(first, c);
    SortPermutes(more, PairLe());
    FlattenPermuted(SortBy(more, PairLe()), more);
  }

  lemma ExtendAllowed(players: seq<PairingPlayer>, pairs: seq<Pair>, first: nat, c: nat, avoid: bool)
    requires Allowed(players, pairs, avoid) && WellOrdered(pairs)
    requires avoid ==> !HasMet(At(players, first), At(players, c))
    ensures var sorted := SortBy(pairs + [Ordered(first, c)], PairLe());
            Allowed(players, sorted, avoid) && WellOrdered(sorted)
  {
    var more := pairs + [Ordered(first, c)];
    SortPermutes(more, PairLe());
    PairLeTotal(more);
    SortSorts(more, PairLe());
    forall p | p in SortBy(more, PairLe()) ensures p in pairs || p == Ordered(first, c) {
      SameElements(SortBy(more, PairLe()), more, p);
    }
  }

  ghost predicate Good(players: seq<PairingPlayer>, r: Option<seq<Pair>>, remaining: seq<nat>, avoid: bool) {
    r.Some? ==> Matching(r.value, remaining) && Allowed(players, r.value, avoid) && WellOrdered(r.value)
  }

  lemma CandidatesMeaning(players: seq<PairingPlayer>, remaining: seq<nat>, tie: TieKeys, first: nat, avoid: bool)
    requires Distinct(remaining)
    ensures forall c :: c in Candidates(players, remaining, tie, first, avoid) <==> c in remaining && c != first
  {
    var others := Without(remaining, first);
    WithoutMeaning(remaining, first);
    SortPermutes(others, OpponentsOf(players, tie, first, avoid));
    forall c: nat ensures c in SortBy(others, OpponentsOf(players, tie, first, avoid)) <==> c in others {
      SameElements(SortBy(others, OpponentsOf(players, tie, first, avoid)), others, c);
    }
  }

  lemma {:induction false} SearchIsGood(players: seq<PairingPlayer>, remaining: seq<nat>, tie: TieKeys, avoid: bool)
    requires Distinct(remaining)
    ensures Good(players, Search(players, remaining, tie, avoid), remaining, avoid)
    decreases |remaining|, |remaining| + 1
  {
    if remaining != [] && |remaining| % 2 == 0 {
      hide Good, Distinct, TryEach;
      var first := remaining[MinIndex(remaining, LeaderFirst(players, tie))];
      CandidatesMeaning(players, remaining, tie, first, avoid);
      TryEachIsGood(players, remaining, first, Candidates(players, remaining, tie, first, avoid), tie, avoid);
    }
  }

  lemma {:induction false} TryEachIsGood(players: seq<PairingPlayer>, remaining: seq<nat>, first: nat,
                                         candidates: seq<nat>,
                                         tie: TieKeys, avoid: bool)
    requires Distinct(remaining) && first in remaining && |candidates| <= |remaining|
    requires forall c :: c in candidates ==> c in remaining && c != first
    ensures Good(players, TryEach(players, remaining, first, candidates, tie, avoid), remaining, avoid)
    decreases |remaining|, |candidates|
  {
    hide Matching, Allowed, WellOrdered, Distinct, HasMet;
    if candidates != [] {
      var c := candidates[0];
      TryEachIsGood(players, remaining, first, candidates[1..], tie, avoid);
      if !(avoid && HasMet(At(players, first), At(players, c))) {
        WithoutTwoMeaning(remaining, first, c);
        var next := WithoutTwo(remaining, first, c);
        SearchIsGood(players, next, tie, avoid);
        var found := Search(players, next, tie, avoid);
        if found.Some? {
          ExtendMatching(found.value, remaining, first, c);
          ExtendAllowed(players, found.value, first, c, avoid);
        }
      }
    }
  }

  // ----- the search finds a complete pairing if there is one -----

  lemma {:induction false} TryEachFinds(players: seq<PairingPlayer>, remaining: seq<nat>, first: nat,
                                        candidates: seq<nat>,
                                        tie: TieKeys, avoid: bool, c: nat)
    requires first in remaining && |candidates| <= |remaining| && c in candidates
    requires avoid ==> !HasMet(At(players, first), At(players, c))
    requires Search(players, WithoutTwo(remaining, first, c), tie, avoid).Some?
    ensures TryEach(players, remaining, first, candidates, tie, avoid).Some?
    decreases |candidates|
  {
    hide HasMet, Search;
    if candidates[0] != c { TryEachFinds(players, remaining, first, candidates[1..], tie, avoid, c); }
  }

  lemma PartnerDiffers(remaining: seq<nat>, rest: multiset<nat>, first: nat, c: nat)
    requires Distinct(remaining) && multiset(remaining) == rest + multiset{first, c}
    ensures c in remaining && c != first
  {
    DistinctCounts(remaining, first);
    assert c in multiset(remaining);
  }

  lemma MultisetCancel<T>(a: multiset<T>, b: multiset<T>, c: multiset<T>)
    requires a + c == b + c
    ensures a == b
  {
    assert (a + c) - c == a && (b + c) - c == b;
  }

  lemma RestMatches(pairs: seq<Pair>, remaining: seq<nat>, k: nat, first: nat, c: nat)
    requires Distinct(remaining) && first in remaining && Matching(pairs, remaining)
    requires k < |pairs| && (pairs[k] == (first, c) || pairs[k] == (c, first))
    ensures c in remaining && c != first
    ensures Matching(RemoveAt(pairs, k), WithoutTwo(remaining, first, c))
  {
    hide Flatten, RemoveAt, Distinct, WithoutTwo;
    var rest := multiset(Flatten(RemoveAt(pairs, k)));
    FlattenRemoveAt(pairs, k);
    assert multiset{pairs[k].0, pairs[k].1} == multiset{first, c};
    PartnerDiffers(remaining, rest, first, c);
    WithoutTwoMeaning(remaining, first, c);
    MultisetCancel(rest, multiset(WithoutTwo(remaining, first, c)), multiset{first, c});
  }

  lemma RestAllowed(players: seq<PairingPlayer>, pairs: seq<Pair>, k: nat, first: nat, c: nat, avoid: bool)
    requires Allowed(players, pairs, avoid)
    requires k < |pairs| && (pairs[k] == (first, c) || pairs[k] == (c, first))
    ensures Allowed(players, RemoveAt(pairs, k), avoid)
    ensures avoid ==> !HasMet(At(players, first), At(players, c))
  {
    assert pairs[k] in pairs;
    assert forall p :: p in RemoveAt(pairs, k) ==> p in pairs;
  }

  /** A complete pairing joins the leader to someone and completes without the two. */
  lemma PartnerIn(players: seq<PairingPlayer>, pairs: seq<Pair>, remaining: seq<nat>, avoid: bool, first: nat)
    returns (c: nat, rest: seq<Pair>)
    requires Distinct(remaining) && first in remaining && Matching(pairs, remaining) && Allowed(players, pairs, avoid)
    ensures c in remaining && c != first
    ensures avoid ==> !HasMet(At(players, first), At(players, c))
    ensures Matching(rest, WithoutTwo(remaining, first, c)) && Allowed(players, rest, avoid)
  {
    SameElements(Flatten(pairs), remaining, first);
    var k := EndIn(pairs, first);
    c := if pairs[k].0 == first then pairs[k].1 else pairs[k].0;
    rest := RemoveAt(pairs, k);
    hide Matching, Allowed, HasMet, Distinct, RemoveAt, WithoutTwo;
    RestMatches(pairs, remaining, k, first, c);
    RestAllowed(players, pairs, k, first, c, avoid);
  }

  lemma {:induction false} SearchFinds(players: seq<PairingPlayer>, remaining: seq<nat>, tie: TieKeys, avoid: bool,
                                       pairs: seq<Pair>)
    requires Distinct(remaining) && Matching(pairs, remaining) && Allowed(players, pairs, avoid)
    ensures Search(players, remaining, tie, avoid).Some?
    decreases |remaining|
  {
    EvenMatching(pairs, remaining);
    if remaining != [] {
      var first := remaining[MinIndex(remaining, LeaderFirst(players, tie))];
      hide Matching, Allowed, HasMet, Distinct, TryEach, Candidates, WithoutTwo;
      var c, rest := PartnerIn(players, pairs, remaining, avoid, first);
      WithoutTwoMeaning(remaining, first, c);
      SearchFinds(players, WithoutTwo(remaining, first, c), tie, avoid, rest);
      CandidatesMeaning(players, remaining, tie, first, avoid);
      TryEachFinds(players, remaining, first, Candidates(players, remaining, tie, first, avoid), tie, avoid, c);
    }
  }

  lemma EvenMatching(pairs: seq<Pair>, remaining: seq<nat>)
    requires Matching(pairs, remaining)
    ensures |remaining| % 2 == 0
  {
    FlattenAt(pairs);
    SameLength(Flatten(pairs), remaining);
  }

  /** The search fails exactly when there is no complete pairing of the kind asked for. */
  lemma SearchDecides(players: seq<PairingPlayer>, remaining: seq<nat>, tie: TieKeys, avoid: bool)
    requires Distinct(remaining)
    ensures Search(players, remaining, tie, avoid).Some?
            <==> exists pairs :: Matching(pairs, remaining) && Allowed(players, pairs, avoid)
  {
    hide Matching, Allowed, Search;
    SearchIsGood(players, remaining, tie, avoid);
    if pairs :| Matching(pairs, remaining) && Allowed(players, pairs, avoid) {
      SearchFinds(players, remaining, tie, avoid, pairs);
    }
  }

  // ----- byes -----

  datatype PairingResult = PairingResult(pairs: seq<Pair>, bye: Option<nat>)

  function Indices(n: nat): (r: seq<nat>)
    ensures |r| == n && forall k :: 0 <= k < n ==> r[k] == k
  {
    seq(n, (i: nat) => i)
  }

  function Filter<T(!new)>(s: seq<T>, keep: T -> bool): (r: seq<T>)
    ensures forall x :: x in r <==> x in s && keep(x)
  {
    if s == [] then []
    else
      var rest := Filter(s[1..], keep);
      assert s == [s[0]] + s[1..];
      if keep(s[0]) then [s[0]] + rest else rest
  }

  function LowestPoints(players: seq<PairingPlayer>): (low: nat)
    requires players != []
    ensures forall p :: p in players ==> low <= p.points
    ensures exists p :: p in players && p.points == low
  {
    var last := players[|players| - 1];
    if |players| == 1 then last.points
    else
      var low := LowestPoints(players[..|players| - 1]);
      assert players == players[..|players| - 1] + [last];
      if low <= last.points then low else last.points
  }

  /** Who may take the bye: those of the lowest score without a bye so far; failing them, anyone
      without one; failing them, anyone. */
  function ByePool(players: seq<PairingPlayer>): (r: seq<nat>)
    requires players != []
    ensures r != [] && forall i :: i in r ==> i < |players|
  {
    var all, low := Indices(|players|), LowestPoints(players);
    var lowest := Filter(all, (i: nat) => At(players, i).points == low && At(players, i).byes == 0);
    var unserved := Filter(all, (i: nat) => At(players, i).byes == 0);
    if lowest != [] then lowest else if unserved != [] then unserved else all
  }

  function ByeOrder(players: seq<PairingPlayer>, tie: TieKeys): (nat, nat) -> bool {
    (i: nat, j: nat) =>
      var p, q := At(players, i), At(players, j);
      p.points < q.points || (p.points == q.points && tie.one(p.wallet) <= tie.one(q.wallet))
  }

  function ByeCandidates(players: seq<PairingPlayer>, tie: TieKeys): (r: seq<Option<nat>>)
    requires players != []
    ensures r != []
  {
    if |players| % 2 == 0 then [None]
    else
      SortLength(ByePool(players), ByeOrder(players, tie));
      Map(SortBy(ByePool(players), ByeOrder(players, tie)), (i: nat) => Some(i))
  }

  function LeftAfter(players: seq<PairingPlayer>, bye: Option<nat>): seq<nat> {
    if bye.None? then Indices(|players|) else Without(Indices(|players|), bye.value)
  }

  /** The first choice of bye that allows a pairing without a repeated meeting. */
  function FirstFit(players: seq<PairingPlayer>, byes: seq<Option<nat>>, tie: TieKeys): Option<PairingResult> {
    if byes == [] then None
    else
      match Search(players, LeftAfter(players, byes[0]), tie, true)
      case Some(pairs) => Some(PairingResult(pairs, byes[0]))
      case None => FirstFit(players, byes[1..], tie)
  }

  function PlanSwiss(players: seq<PairingPlayer>, tie: TieKeys): Result<PairingResult, MathError> {
    if players == [] then Ok(PairingResult([], None))
    else
      var byes := ByeCandidates(players, tie);
      match FirstFit(players, byes, tie)
      case Some(result) => Ok(result)
      case None =>
        match Search(players, LeftAfter(players, byes[0]), tie, false)
        case Some(pairs) => Ok(PairingResult(pairs, byes[0]))
        case None => Err(NoCompatibleQuorum)
  }

  lemma CandidateByes(players: seq<PairingPlayer>, tie: TieKeys, bye: Option<nat>)
    requires players != [] && bye in ByeCandidates(players, tie)
    ensures bye.None? <==> |players| % 2 == 0
    ensures bye.Some? ==> bye.value in ByePool(players)
  {
    if |players| % 2 == 1 {
      var pool, le := ByePool(players), ByeOrder(players, tie);
      SortPermutes(pool, le);
      var k :| 0 <= k < |ByeCandidates(players, tie)| && ByeCandidates(players, tie)[k] == bye;
      assert SortBy(pool, le)[k] in SortBy(pool, le);
      SameElements(SortBy(pool, le), pool, SortBy(pool, le)[k]);
    }
  }

  function AsBag(bye: Option<nat>): multiset<nat> { if bye.Some? then multiset{bye.value} else multiset{} }

  lemma LeftAfterMeaning(players: seq<PairingPlayer>, bye: Option<nat>)
    requires bye.Some? ==> bye.value < |players|
    ensures Distinct(LeftAfter(players, bye))
    ensures multiset(LeftAfter(players, bye)) + AsBag(bye) == multiset(Indices(|players|))
    ensures |LeftAfter(players, bye)| == |players| - if bye.Some? then 1 else 0
  {
    var all := Indices(|players|);
    if bye.Some? {
      assert all[bye.value] == bye.value;
      WithoutMeaning(all, bye.value);
      WithoutMultiset(all, bye.value);
      assert |multiset(Without(all, bye.value)) + multiset{bye.value}| == |Without(all, bye.value)| + 1;
      assert |multiset(all)| == |players|;
    }
  }

  function PairUp(s: seq<nat>): seq<Pair> {
    if |s| < 2 then [] else [(s[0], s[1])] + PairUp(s[2..])
  }

  lemma {:induction false} PairUpMatches(s: seq<nat>)
    requires |s| % 2 == 0
    ensures Matching(PairUp(s), s)
  {
    if s != [] {
      PairUpMatches(s[2..]);
      assert s == [s[0], s[1]] + s[2..];
      FlattenStep((s[0], s[1]), PairUp(s[2..]));
    }
  }

  lemma {:induction false} FirstFitMeaning(players: seq<PairingPlayer>, byes: seq<Option<nat>>, tie: TieKeys)
    returns (k: nat)
    ensures k <= |byes| && (FirstFit(players, byes, tie).None? <==> k == |byes|)
    ensures forall j :: 0 <= j < k ==> Search(players, LeftAfter(players, byes[j]), tie, true).None?
    ensures k < |byes| ==>
      Search(players, LeftAfter(players, byes[k]), tie, true)
        == Some(FirstFit(players, byes, tie).value.pairs)
      && FirstFit(players, byes, tie).value.bye == byes[k]
  {
    hide Search, LeftAfter;
    k := 0;
    if byes != [] && Search(players, LeftAfter(players, byes[0]), tie, true).None? {
      k := FirstFitMeaning(players, byes[1..], tie);
      k := k + 1;
    }
  }

  /** The search that produced the result: the chosen bye, and whether repeats were avoided. */
  lemma PlanSearched(players: seq<PairingPlayer>, tie: TieKeys) returns (k: nat, avoid: bool)
    requires players != []
    ensures k < |ByeCandidates(players, tie)|
    ensures var bye := ByeCandidates(players, tie)[k];
            && PlanSwiss(players, tie).Ok? && PlanSwiss(players, tie).value.bye == bye
            && Search(players, LeftAfter(players, bye), tie, avoid) == Some(PlanSwiss(players, tie).value.pairs)
    ensures !avoid ==> k == 0
    ensures forall j :: 0 <= j < (if avoid then k else |ByeCandidates(players, tie)|) ==>
              Search(players, LeftAfter(players, ByeCandidates(players, tie)[j]), tie, true).None?
  {
    hide Search, LeftAfter, ByeCandidates, FirstFit;
    var byes := ByeCandidates(players, tie);
    k := FirstFitMeaning(players, byes, tie);
    avoid := k < |byes|;
    if !avoid {
      k := 0;
      RepeatsSuffice(players, tie, byes[0]);
    }
  }

  /** With repeats permitted there is always a complete pairing. */
  lemma RepeatsSuffice(players: seq<PairingPlayer>, tie: TieKeys, bye: Option<nat>)
    requires players != [] && bye in ByeCandidates(players, tie)
    ensures Search(players, LeftAfter(players, bye), tie, false).Some?
  {
    hide Search, LeftAfter, ByeCandidates, Matching, Distinct, Allowed;
    CandidateByes(players, tie, bye);
    LeftAfterMeaning(players, bye);
    var left := LeftAfter(players, bye);
    PairUpMatches(left);
    AnyAllowed(players, PairUp(left));
    SearchFinds(players, left, tie, false, PairUp(left));
  }

  lemma AnyAllowed(players: seq<PairingPlayer>, pairs: seq<Pair>)
    ensures Allowed(players, pairs, false)
  {
  }

  /** Pairing always succeeds and places every player in exactly one pair, except one bye just
      when the number of players is odd. */
  lemma SwissPairsEveryone(players: seq<PairingPlayer>, tie: TieKeys)
    ensures PlanSwiss(players, tie).Ok?
    ensures var r := PlanSwiss(players, tie).value;
            && multiset(Flatten(r.pairs)) + AsBag(r.bye) == multiset(Indices(|players|))
            && (r.bye.Some? <==> |players| % 2 == 1)
            && WellOrdered(r.pairs)
  {
    hide PlanSwiss, Flatten, WellOrdered, Indices;
    if players == [] {
      NobodyToPair(tie);
    } else {
      SomebodyToPair(players, tie);
    }
  }

  lemma NobodyToPair(tie: TieKeys)
    ensures PlanSwiss([], tie).Ok?
    ensures var r := PlanSwiss([], tie).value;
            multiset(Flatten(r.pairs)) + AsBag(r.bye) == multiset(Indices(0)) && r.bye.None? && WellOrdered(r.pairs)
  {
    assert PlanSwiss([], tie) == Ok(PairingResult([], None));
    assert Indices(0) == [];
  }

  lemma SomebodyToPair(players: seq<PairingPlayer>, tie: TieKeys)
    requires players != []
    ensures PlanSwiss(players, tie).Ok?
    ensures var r := PlanSwiss(players, tie).value;
            && multiset(Flatten(r.pairs)) + AsBag(r.bye) == multiset(Indices(|players|))
            && (r.bye.Some? <==> |players| % 2 == 1)
            && WellOrdered(r.pairs)
  {
    hide Search, LeftAfter, ByeCandidates, PlanSwiss, Distinct, Flatten, WellOrdered, Indices;
    var k, avoid := PlanSearched(players, tie);
    var bye := ByeCandidates(players, tie)[k];
    CandidateByes(players, tie, bye);
    LeftAfterMeaning(players, bye);
    SearchIsGood(players, LeftAfter(players, bye), tie, avoid);
  }

  /** A meeting is repeated only if every candidate for the bye leaves no complete pairing free
      of repeats. */
  lemma SwissAvoidsRepeats(players: seq<PairingPlayer>, tie: TieKeys, bye: Option<nat>, pairs: seq<Pair>)
    requires players != [] && bye in ByeCandidates(players, tie)
    requires Matching(pairs, LeftAfter(players, bye)) && NoRepeat(players, pairs)
    ensures PlanSwiss(players, tie).Ok? && NoRepeat(players, PlanSwiss(players, tie).value.pairs)
  {
    hide Search, LeftAfter, ByeCandidates, PlanSwiss, Distinct, Matching, NoRepeat;
    var k, avoid := PlanSearched(players, tie);
    var byes := ByeCandidates(players, tie);
    CandidateByes(players, tie, byes[k]);
    LeftAfterMeaning(players, byes[k]);
    SearchIsGood(players, LeftAfter(players, byes[k]), tie, avoid);
    if !avoid {
      CandidateByes(players, tie, bye);
      LeftAfterMeaning(players, bye);
      SearchFinds(players, LeftAfter(players, bye), tie, true, pairs);
    }
  }

  /** The bye goes to somebody of the lowest score without one if there is such a player, and
      never a second time while somebody has had none. */
  lemma ByeIsFair(players: seq<PairingPlayer>, tie: TieKeys, p: PairingPlayer)
    requires p in players && PlanSwiss(players, tie).Ok? && PlanSwiss(players, tie).value.bye.Some?
    ensures var b := PlanSwiss(players, tie).value.bye.value;
            && b < |players|
            && (p.byes == 0 ==> players[b].byes == 0)
            && (p.byes == 0 && p.points == LowestPoints(players) ==> players[b].points == p.points)
  {
    hide Search, LeftAfter, ByeCandidates, PlanSwiss;
    var k, avoid := PlanSearched(players, tie);
    CandidateByes(players, tie, ByeCandidates(players, tie)[k]);
    var i :| 0 <= i < |players| && players[i] == p;
    assert Indices(|players|)[i] in Indices(|players|);
  }

  // ----- the search and its caller -----

  method SearchPairing(players: seq<PairingPlayer>, remaining: seq<nat>, tie: TieKeys, avoid: bool)
    returns (r: Option<seq<Pair>>)
    ensures r == Search(players, remaining, tie, avoid)
    decreases |remaining|
  {
    if remaining == [] {
      return Some([]);
    }
    if |remaining| % 2 == 1 {
      return None;
    }
    var first := remaining[MinIndex(remaining, LeaderFirst(players, tie))];
    var candidates := Candidates(players, remaining, tie, first, avoid);
    hide MinIndex, HasMet, Candidates;
    for k := 0 to |candidates|
      invariant TryEach(players, remaining, first, candidates, tie, avoid)
                == TryEach(players, remaining, first, candidates[k..], tie, avoid)
    {
      var candidate := candidates[k];
      assert candidates[k..][1..] == candidates[k + 1..];
      if !(avoid && HasMet(At(players, first), At(players, candidate))) {
        var found := SearchPairing(players, Without(Without(remaining, first), candidate), tie, avoid);
        if found.Some? {
          return Some(SortBy(found.value + [Ordered(first, candidate)], PairLe()));
        }
      }
    }
    return None;
  }

  method PairSwiss(players: seq<PairingPlayer>, tie: TieKeys) returns (r: Result<PairingResult, MathError>)
    ensures r == PlanSwiss(players, tie)
  {
    if players == [] {
      return Ok(PairingResult([], None));
    }
    hide Search, LeftAfter, ByeCandidates;
    var byes := ByeCandidates(players, tie);
    for k := 0 to |byes|
      invariant FirstFit(players, byes, tie) == FirstFit(players, byes[k..], tie)
    {
      assert byes[k..][1..] == byes[k + 1..];
      var found := SearchPairing(players, LeftAfter(players, byes[k]), tie, true);
      if found.Some? {
        return Ok(PairingResult(found.value, byes[k]));
      }
    }
    var found := SearchPairing(players, LeftAfter(players, byes[0]), tie, false);
    if found.None? {
      return Err(NoCompatibleQuorum);
    }
    return Ok(PairingResult(found.value, byes[0]));
  }
}
