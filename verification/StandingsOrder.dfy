/** The two-stage sort of the table: by points and strength of schedule, then each tied group
    by head-to-head within the group, margin, hash and wallet. It realises the single order
    `Ahead` on the members' lines. The source sorts indexes into the vector of states; here
    the states themselves, which have distinct wallets, stand for their indexes. */
module StandingsOrder {
  import opened Wrappers
  import opened Sequences
  import opened Standings
  import opened StandingsBounds

  ghost predicate DistinctWallets(states: seq<PlayerState>) {
    forall i, j :: 0 <= i < j < |states| ==> states[i].wallet != states[j].wallet
  }

  ghost predicate HeadsFit(s: PlayerState) {
    forall ws: seq<Wallet> :: Distinct(ws) ==> Sum(ws, HeadOf(s)) <= U32_MAX
  }

  /** Members are distinct, and nobody's head-to-head over distinct wallets exceeds u32. */
  ghost predicate Sound(states: seq<PlayerState>) {
    DistinctWallets(states) && forall s :: s in states ==> HeadsFit(s)
  }

  // ----- head-to-head within a group -----

  function HeadTerm(s: PlayerState): PlayerState -> int { (t: PlayerState) => HeadPoints(s, t.wallet) }

  function WalletOf(): PlayerState -> Wallet { (t: PlayerState) => t.wallet }

  lemma {:induction false} GroupAsWallets(s: PlayerState, group: seq<PlayerState>)
    ensures Sum(group, HeadTerm(s)) == Sum(Map(group, WalletOf()), HeadOf(s))
  {
    if group != [] {
      var init := group[..|group| - 1];
      GroupAsWallets(s, init);
      assert Map(group, WalletOf())[..|init|] == Map(init, WalletOf());
    }
  }

  ghost predicate Members(group: seq<PlayerState>, states: seq<PlayerState>) {
    Distinct(group) && forall t :: t in group ==> t in states
  }

  lemma GroupWalletsDistinct(group: seq<PlayerState>, states: seq<PlayerState>)
    requires DistinctWallets(states) && Members(group, states)
    ensures Distinct(Map(group, WalletOf()))
  {
    forall a, b | 0 <= a < b < |group| ensures group[a].wallet != group[b].wallet {
      assert group[a] in group && group[b] in group;
      var i :| 0 <= i < |states| && states[i] == group[a];
      var j :| 0 <= j < |states| && states[j] == group[b];
      assert i < j || j < i;
    }
  }

  /** A group of distinct members has a head-to-head sum within u32. */
  lemma GroupFits(s: PlayerState, states: seq<PlayerState>, group: seq<PlayerState>)
    requires Sound(states) && Members(group, states) && s in states
    ensures Sum(group, HeadTerm(s)) <= U32_MAX
  {
    hide Sum, Distinct, DistinctWallets;
    GroupAsWallets(s, group);
    GroupWalletsDistinct(group, states);
    assert HeadsFit(s);
  }

  lemma SumEmpty<T>(f: T -> int)
    ensures Sum<T>([], f) == 0
  {
  }

  lemma MembersPrefix(group: seq<PlayerState>, states: seq<PlayerState>, k: nat)
    requires Members(group, states) && k <= |group|
    ensures Members(group[..k], states)
  {
  }

  function SaturatingAdd(a: nat, b: nat): nat { if a + b > U32_MAX then U32_MAX else a + b }

  /** Folds the group's head-to-head points with a saturating addition, which never saturates. */
  method HeadToHeadWithinGroup(s: PlayerState, group: seq<PlayerState>, states: seq<PlayerState>) returns (total: nat)
    requires Sound(states) && Members(group, states) && s in states
    ensures total == Sum(group, HeadTerm(s))
  {
    hide Sound, Sum, HeadPoints, Members;
    total := 0;
    SumEmpty(HeadTerm(s));
    for k := 0 to |group|
      invariant total == Sum(group[..k], HeadTerm(s))
    {
      assert group[..k + 1] == group[..k] + [group[k]];
      SumPush(group[..k], group[k], HeadTerm(s));
      MembersPrefix(group, states, k + 1);
      GroupFits(s, states, group[..k + 1]);
      var points := HeadPoints(s, group[k].wallet);
      total := SaturatingAdd(total, points);
    }
    assert group[..|group|] == group;
  }

  /** Everyone on the given points and strength of schedule, in member order. */
  function TieGroup(states: seq<PlayerState>, points: nat, sos: nat): seq<PlayerState> {
    if states == [] then []
    else
      var last := states[|states| - 1];
      TieGroup(states[..|states| - 1], points, sos) + if last.points == points && last.sos == sos then [last] else []
  }

  lemma {:induction false} TieGroupMeaning(states: seq<PlayerState>, points: nat, sos: nat, t: PlayerState)
    ensures t in TieGroup(states, points, sos) <==> t in states && t.points == points && t.sos == sos
  {
    if states != [] {
      assert states == states[..|states| - 1] + [states[|states| - 1]];
      TieGroupMeaning(states[..|states| - 1], points, sos, t);
    }
  }

  lemma {:induction false} TieGroupDistinct(states: seq<PlayerState>, points: nat, sos: nat)
    requires Distinct(states)
    ensures Distinct(TieGroup(states, points, sos))
  {
    if states != [] {
      TieGroupDistinct(states[..|states| - 1], points, sos);
      TieGroupMeaning(states[..|states| - 1], points, sos, states[|states| - 1]);
    }
  }

  method FinalOrderForTieGroup(states: seq<PlayerState>, points: nat, sos: nat) returns (group: seq<PlayerState>)
    ensures group == TieGroup(states, points, sos)
  {
    group := [];
    for k := 0 to |states|
      invariant group == TieGroup(states[..k], points, sos)
    {
      assert states[..k + 1][..k] == states[..k];
      if states[k].points == points && states[k].sos == sos {
        group := group + [states[k]];
      }
    }
    assert states[..|states|] == states;
  }

  lemma {:induction false} TieGroupSum(s: PlayerState, states: seq<PlayerState>)
    ensures Sum(TieGroup(states, s.points, s.sos), HeadTerm(s)) == Sum(states, TiedHead(s))
  {
    if states != [] {
      var init, last := states[..|states| - 1], states[|states| - 1];
      TieGroupSum(s, init);
      var g := TieGroup(init, s.points, s.sos);
      SumPush(g, last, HeadTerm(s));
      assert g + [] == g;
    }
  }

  lemma WalletsMakeDistinct(states: seq<PlayerState>)
    requires DistinctWallets(states)
    ensures Distinct(states)
  {
  }

  ghost predicate IsTieGroup(states: seq<PlayerState>, group: seq<PlayerState>) {
    && Members(group, states)
    && forall s, t :: s in group && t in states ==> (t in group <==> Tied(s, t))
  }

  /** Over the whole tie group, in any order, the sum is the line's head-to-head. */
  lemma GroupIsLine(states: seq<PlayerState>, group: seq<PlayerState>, s: PlayerState)
    requires DistinctWallets(states) && IsTieGroup(states, group) && s in group
    ensures Sum(group, HeadTerm(s)) == GroupHeadToHead(s, states)
  {
    hide Sum;
    var g := TieGroup(states, s.points, s.sos);
    WalletsMakeDistinct(states);
    TieGroupDistinct(states, s.points, s.sos);
    forall t ensures t in group <==> t in g { TieGroupMeaning(states, s.points, s.sos, t); }
    DistinctSameElements(group, g);
    SumPermuted(group, g, HeadTerm(s));
    TieGroupSum(s, states);
  }

  /** The tie group recomputed for the output is the same group. */
  lemma TieGroupIsTieGroup(states: seq<PlayerState>, s: PlayerState)
    requires DistinctWallets(states) && s in states
    ensures IsTieGroup(states, TieGroup(states, s.points, s.sos)) && s in TieGroup(states, s.points, s.sos)
  {
    WalletsMakeDistinct(states);
    TieGroupDistinct(states, s.points, s.sos);
    forall t ensures t in TieGroup(states, s.points, s.sos) <==> t in states && Tied(s, t) {
      TieGroupMeaning(states, s.points, s.sos, t);
    }
  }

  // ----- sorting one tied group -----

  function HeadIn(head: map<Wallet, nat>, w: Wallet): nat { if w in head then head[w] else 0 }

  /** The group comparator: `s` need not come after `t`. */
  predicate GroupLe(head: map<Wallet, nat>, tieKey: TieKey, s: PlayerState, t: PlayerState) {
    var x, y := HeadIn(head, s.wallet), HeadIn(head, t.wallet);
    x > y || (x == y &&
    (s.margin > t.margin || (s.margin == t.margin &&
    (tieKey(s.wallet) < tieKey(t.wallet) || (tieKey(s.wallet) == tieKey(t.wallet) && s.wallet <= t.wallet)))))
  }

  function GroupOrder(head: map<Wallet, nat>, tieKey: TieKey): (PlayerState, PlayerState) -> bool {
    (s: PlayerState, t: PlayerState) => GroupLe(head, tieKey, s, t)
  }

  lemma GroupOrderTotal(head: map<Wallet, nat>, tieKey: TieKey, group: seq<PlayerState>)
    ensures TotalOn(group, GroupOrder(head, tieKey))
  {
  }

  /** The table's order on two members' lines. */
  ghost predicate AheadIn(states: seq<PlayerState>, tieKey: TieKey, s: PlayerState, t: PlayerState) {
    Ahead(tieKey, Line(s, states), Line(t, states))
  }

  ghost predicate Ordered(states: seq<PlayerState>, tieKey: TieKey, order: seq<PlayerState>) {
    forall a, b :: 0 <= a < b < |order| ==> AheadIn(states, tieKey, order[a], order[b])
  }

  ghost predicate HeadsKnown(states: seq<PlayerState>, group: seq<PlayerState>, head: map<Wallet, nat>) {
    forall s :: s in group ==> HeadIn(head, s.wallet) == Line(s, states).headToHead
  }

  lemma DifferentWallets(states: seq<PlayerState>, s: PlayerState, t: PlayerState)
    requires DistinctWallets(states) && s in states && t in states && s != t
    ensures s.wallet != t.wallet
  {
    var i :| 0 <= i < |states| && states[i] == s;
    var j :| 0 <= j < |states| && states[j] == t;
    assert i < j || j < i;
  }

  /** Within a tie group the comparator is the table's order. */
  lemma GroupLeIsAhead(states: seq<PlayerState>, head: map<Wallet, nat>, tieKey: TieKey, group: seq<PlayerState>,
                       s: PlayerState, t: PlayerState)
    requires DistinctWallets(states) && IsTieGroup(states, group) && s in group && t in group && s != t
    requires HeadsKnown(states, group, head) && GroupLe(head, tieKey, s, t)
    ensures AheadIn(states, tieKey, s, t)
  {
    hide GroupHeadToHead, HeadIn;
    DifferentWallets(states, s, t);
    assert Tied(s, t);
    assert HeadIn(head, s.wallet) == Line(s, states).headToHead;
    assert HeadIn(head, t.wallet) == Line(t, states).headToHead;
  }

  method GroupHeads(states: seq<PlayerState>, group: seq<PlayerState>) returns (head: map<Wallet, nat>)
    requires Sound(states) && IsTieGroup(states, group)
    ensures HeadsKnown(states, group, head)
  {
    hide GroupHeadToHead, Sum, HeadsFit, DistinctWallets, Distinct;
    head := map[];
    for k := 0 to |group|
      invariant forall a :: 0 <= a < k ==> HeadIn(head, group[a].wallet) == Line(group[a], states).headToHead
    {
      var s := group[k];
      assert s in group;
      var points := HeadToHeadWithinGroup(s, group, states);
      GroupIsLine(states, group, s);
      forall a | 0 <= a < k ensures group[a].wallet != s.wallet {
        assert group[a] in group && group[a] != s by { DistinctAt(group, a, k); }
        DifferentWallets(states, group[a], s);
      }
      head := head[s.wallet := points];
    }
  }

  lemma DistinctAt<T>(s: seq<T>, i: nat, j: nat)
    requires Distinct(s) && i < j < |s|
    ensures s[i] != s[j]
  {
  }

  /** Sorts one tie group. */
  method SortGroup(states: seq<PlayerState>, group: seq<PlayerState>, tieKey: TieKey) returns (sorted: seq<PlayerState>)
    requires Sound(states) && IsTieGroup(states, group)
    ensures multiset(sorted) == multiset(group) && Ordered(states, tieKey, sorted)
  {
    var head := GroupHeads(states, group);
    sorted := SortBy(group, GroupOrder(head, tieKey));
    SortPermutes(group, GroupOrder(head, tieKey));
    GroupOrderTotal(head, tieKey, group);
    SortSorts(group, GroupOrder(head, tieKey));
    SortedGroupOrdered(states, head, tieKey, group, sorted);
  }

  lemma SortedGroupOrdered(states: seq<PlayerState>, head: map<Wallet, nat>, tieKey: TieKey,
                           group: seq<PlayerState>, sorted: seq<PlayerState>)
    requires DistinctWallets(states) && IsTieGroup(states, group) && HeadsKnown(states, group, head)
    requires multiset(sorted) == multiset(group) && SortedBy(sorted, GroupOrder(head, tieKey))
    ensures Ordered(states, tieKey, sorted)
  {
    hide DistinctWallets, HeadsKnown, GroupLe, AheadIn;
    DistinctPermuted(group, sorted);
    forall a, b | 0 <= a < b < |sorted| ensures AheadIn(states, tieKey, sorted[a], sorted[b]) {
      SameElements(sorted, group, sorted[a]);
      SameElements(sorted, group, sorted[b]);
      assert GroupOrder(head, tieKey)(sorted[a], sorted[b]);
      GroupLeIsAhead(states, head, tieKey, group, sorted[a], sorted[b]);
    }
  }

  // ----- both stages -----

  predicate PointsSosLe(s: PlayerState, t: PlayerState) {
    s.points > t.points || (s.points == t.points && s.sos >= t.sos)
  }

  function PointsSosOrder(): (PlayerState, PlayerState) -> bool {
    (s: PlayerState, t: PlayerState) => PointsSosLe(s, t)
  }

  /** A permutation of the members sorted by points and strength of schedule. */
  ghost predicate FirstStage(states: seq<PlayerState>, order: seq<PlayerState>) {
    && multiset(order) == multiset(states) && Distinct(order)
    && forall a, b :: 0 <= a < b < |order| ==> PointsSosLe(order[a], order[b])
  }

  method SortByPointsSos(states: seq<PlayerState>) returns (order: seq<PlayerState>)
    requires Distinct(states)
    ensures FirstStage(states, order)
  {
    order := SortBy(states, PointsSosOrder());
    SortPermutes(states, PointsSosOrder());
    SortSorts(states, PointsSosOrder());
    hide SortBy, PointsSosLe, Distinct;
    DistinctPermuted(states, order);
    forall a, b | 0 <= a < b < |order| ensures PointsSosLe(order[a], order[b]) {
      assert PointsSosOrder()(order[a], order[b]);
    }
  }

  /** First position after `position` whose member is not tied with the one there. */
  method GroupEnd(order: seq<PlayerState>, position: nat) returns (end: nat)
    requires position < |order|
    ensures position < end <= |order|
    ensures forall p :: position <= p < end ==> Tied(order[position], order[p])
    ensures end < |order| ==> !Tied(order[position], order[end])
  {
    end := position + 1;
    while end < |order| && Tied(order[position], order[end])
      invariant position < end <= |order|
      invariant forall p :: position <= p < end ==> Tied(order[position], order[p])
    {
      end := end + 1;
    }
  }

  /** No member before `position` is tied with one from there on. */
  ghost predicate Boundary(order: seq<PlayerState>, position: nat) {
    forall a, b :: 0 <= a < position <= b < |order| ==> !Tied(order[a], order[b])
  }

  lemma NextBoundary(states: seq<PlayerState>, order: seq<PlayerState>, position: nat, end: nat)
    requires FirstStage(states, order) && position < end <= |order| && Boundary(order, position)
    requires forall p :: position <= p < end ==> Tied(order[position], order[p])
    requires end < |order| ==> !Tied(order[position], order[end])
    ensures Boundary(order, end)
  {
    forall a, b | 0 <= a < end <= b < |order| ensures !Tied(order[a], order[b]) {
      if a >= position {
        assert PointsSosLe(order[position], order[end]);
        assert Tied(order[position], order[a]);
        if b > end { assert PointsSosLe(order[end], order[b]); }
      }
    }
  }

  /** The slice between two boundaries is a whole tie group. */
  lemma SliceIsTieGroup(states: seq<PlayerState>, order: seq<PlayerState>, position: nat, end: nat)
    requires FirstStage(states, order) && position < end <= |order|
    requires Boundary(order, position) && Boundary(order, end)
    requires forall p :: position <= p < end ==> Tied(order[position], order[p])
    ensures IsTieGroup(states, order[position..end])
  {
    var group := order[position..end];
    forall t | t in group ensures t in states { SameElements(order, states, t); }
    forall s, t | s in group && t in states ensures t in group <==> Tied(s, t) {
      SameElements(order, states, t);
      var p :| position <= p < end && order[p] == s;
      var q :| 0 <= q < |order| && order[q] == t;
      if position <= q < end {
        assert t == group[q - position];
        assert Tied(order[position], order[p]) && Tied(order[position], order[q]);
      } else {
        if q < position { assert !Tied(order[q], order[p]); } else { assert !Tied(order[p], order[q]); }
        forall k | 0 <= k < |group| ensures group[k] != t {
          if q < position { DistinctAt(order, q, position + k); } else { DistinctAt(order, position + k, q); }
        }
      }
    }
  }

  /** Earlier groups are ahead of later ones. */
  lemma GroupsAhead(states: seq<PlayerState>, tieKey: TieKey, order: seq<PlayerState>, position: nat,
                    s: PlayerState, t: PlayerState)
    requires FirstStage(states, order) && position <= |order| && Boundary(order, position)
    requires s in order[..position] && t in order[position..]
    ensures AheadIn(states, tieKey, s, t)
  {
    hide GroupHeadToHead;
    var a :| 0 <= a < position && order[a] == s;
    var b :| position <= b < |order| && order[b] == t;
    assert PointsSosLe(order[a], order[b]) && !Tied(order[a], order[b]);
  }

  ghost predicate PrefixDone(states: seq<PlayerState>, tieKey: TieKey, order: seq<PlayerState>, position: nat,
                             done: seq<PlayerState>) {
    && position <= |order| && Boundary(order, position)
    && multiset(done) == multiset(order[..position])
    && Ordered(states, tieKey, done)
  }

  lemma ExtendPrefix(states: seq<PlayerState>, tieKey: TieKey, order: seq<PlayerState>, position: nat, end: nat,
                     done: seq<PlayerState>, sorted: seq<PlayerState>)
    requires FirstStage(states, order) && PrefixDone(states, tieKey, order, position, done)
    requires position < end <= |order| && Boundary(order, end)
    requires multiset(sorted) == multiset(order[position..end]) && Ordered(states, tieKey, sorted)
    ensures PrefixDone(states, tieKey, order, end, done + sorted)
  {
    hide AheadIn, FirstStage, Boundary;
    assert order[..end] == order[..position] + order[position..end];
    var all := done + sorted;
    forall a, b | 0 <= a < b < |all| ensures AheadIn(states, tieKey, all[a], all[b]) {
      if a < |done| <= b {
        SameElements(done, order[..position], all[a]);
        SameElements(sorted, order[position..end], all[b]);
        assert all[a] in done && all[b] in sorted;
        assert all[b] in order[position..];
        GroupsAhead(states, tieKey, order, position, all[a], all[b]);
      } else if b < |done| {
        assert all[a] == done[a] && all[b] == done[b];
      } else {
        assert all[a] == sorted[a - |done|] && all[b] == sorted[b - |done|];
      }
    }
  }

  /** The whole ordering: a permutation of the members, strictly sorted by the one order. */
  method OrderMembers(states: seq<PlayerState>, tieKey: TieKey) returns (order: seq<PlayerState>)
    requires Sound(states)
    ensures multiset(order) == multiset(states) && Ordered(states, tieKey, order)
  {
    WalletsMakeDistinct(states);
    hide AheadIn, Sound, IsTieGroup, Tied, Distinct;
    var first := SortByPointsSos(states);
    order := [];
    var position := 0;
    while position < |first|
      invariant PrefixDone(states, tieKey, first, position, order)
      decreases |first| - position
    {
      hide Boundary, Ordered, FirstStage;
      var end := GroupEnd(first, position);
      NextBoundary(states, first, position, end);
      SliceIsTieGroup(states, first, position, end);
      var sorted := SortGroup(states, first[position..end], tieKey);
      ExtendPrefix(states, tieKey, first, position, end, order, sorted);
      order := order + sorted;
      position := end;
    }
    assert first[..|first|] == first;
  }
}
