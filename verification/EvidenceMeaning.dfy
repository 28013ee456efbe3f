/** What an accepted Battle account leaves in the tables, which accounts are accepted, and what a lineup
    scores, each said from the account alone. */
module EvidenceMeaning {
  import opened Wrappers
  import opened Sequences
  import opened Arithmetic
  import opened LineupScore
  import opened Evidence

  // ----- the score of a lineup -----

  /** The integer part of a quotient, towards zero. */
  predicate IsQuotient(n: int, d: int, q: int) {
    (n >= 0 ==> d * q <= n < d * q + d) && (n <= 0 ==> d * q - d < n <= d * q)
  }

  /** A valid lineup scores a seventh of its six returns and the captain's once more, its fraction
      dropped. */
  lemma ScoreMeans(gains: seq<ReturnQ9>, ids: seq<AssetId>, captain: AssetId, c: nat)
    requires |gains| == 6 && |ids| == 6 && Distinct(ids) && c < 6 && ids[c] == captain
    ensures Score(gains, ids, captain).Ok?
    ensures var g: seq<int> := gains;
            IsQuotient(g[0] + g[1] + g[2] + g[3] + g[4] + g[5] + g[c], 7, Score(gains, ids, captain).value)
  {
    ScoredExactly(gains, ids, captain);
    TotalMeans(gains, ids, captain, c);
    hide Total, LineupFault;
    TruncatedIsQuotient(Total(gains, ids, captain));
  }

  lemma TruncatedIsQuotient(n: int)
    ensures IsQuotient(n, 7, Truncated(n, 7))
  {
  }

  lemma TotalMeans(gains: seq<ReturnQ9>, ids: seq<AssetId>, captain: AssetId, c: nat)
    requires |gains| == 6 && |ids| == 6 && Distinct(ids) && c < 6 && ids[c] == captain
    ensures var g: seq<int> := gains; Total(gains, ids, captain) == g[0] + g[1] + g[2] + g[3] + g[4] + g[5] + g[c]
  {
    var pairs := Zip(gains, ids);
    var g: seq<int> := gains;
    assert forall k :: 0 <= k < 6 ==> Weighted(captain)(pairs[k]) == g[k] + if k == c then g[k] else 0;
    hide Weighted;
    SixTerms(pairs, Weighted(captain));
  }

  lemma SixTerms<T>(s: seq<T>, f: T -> int)
    requires |s| == 6
    ensures Sum(s, f) == f(s[0]) + f(s[1]) + f(s[2]) + f(s[3]) + f(s[4]) + f(s[5])
  {
    SumPush(s[..5], s[5], f);
    SumPush(s[..4], s[4], f);
    SumPush(s[..3], s[3], f);
    SumPush(s[..2], s[2], f);
    SumPush(s[..1], s[1], f);
    SumPush(s[..0], s[0], f);
    assert s == s[..5] + [s[5]] && s[..5] == s[..4] + [s[4]] && s[..4] == s[..3] + [s[3]];
    assert s[..3] == s[..2] + [s[2]] && s[..2] == s[..1] + [s[1]] && s[..1] == s[..0] + [s[0]];
  }

  // ----- which accounts are accepted -----

  /** The facts are of version one, have a slot, and give both scores. */
  ghost predicate Proves(f: Facts, scoreA: Option<ReturnQ9>, scoreB: Option<ReturnQ9>) {
    && scoreA.Some? && scoreB.Some? && f.version == 1 && f.slot >= 0 && Shaped(f)
    && Score(f.returnsA, f.lineupA, f.captainA) == Ok(scoreA.value)
    && Score(f.returnsB, f.lineupB, f.captainB) == Ok(scoreB.value)
  }

  /** A Battle of one player, or with a negative score, is refused. A finished rated League Battle needs a
      known result, and a played one both scores in its order and proving facts. Facts come only with a
      finished played Battle, and prove its scores. Anything else is accepted, unless other facts of
      the Battle are stored. */
  lemma AcceptedExactly(s: Store, b: IndexedBattle)
    requires b.facts.Some? ==> Shaped(b.facts.value)
    ensures var finished, played := b.stage in {Finalized, Settled, Voided},
            b.result in {Some(PlayerA), Some(PlayerB), Some(Draw)};
            var league := b.mode == League && b.rated && finished;
            Upserted(s, b).result.Ok? <==>
              && b.playerA != b.playerB
              && (b.scoreA.Some? ==> b.scoreA.value >= 0) && (b.scoreB.Some? ==> b.scoreB.value >= 0)
              && (league ==> b.result !in {None, Some(UnknownResult)})
              && (league && played ==>
                    && b.scoreA.Some? && b.scoreB.Some? && b.facts.Some?
                    && (b.result == Some(PlayerA) ==> b.scoreA.value > b.scoreB.value)
                    && (b.result == Some(PlayerB) ==> b.scoreA.value < b.scoreB.value)
                    && (b.result == Some(Draw) ==> b.scoreA.value == b.scoreB.value))
              && (b.facts.Some? ==>
                    && finished && played && Proves(b.facts.value, b.scoreA, b.scoreB)
                    && (b.key in s.facts ==> s.facts[b.key].facts == b.facts.value))
  {
    hide FactsFault, Score;
    if b.facts.Some? && b.scoreA.Some? && b.scoreB.Some? {
      FactsAcceptedExactly(b.facts.value, b.scoreA.value, b.scoreB.value);
    }
  }

  // ----- what is stored -----

  predicate Shows(row: Row, b: IndexedBattle) {
    && row.mode == b.mode && row.rated == b.rated && row.playerA == b.playerA && row.playerB == b.playerB
    && row.stage == b.stage && row.result == b.result && row.scoreA == b.scoreA && row.scoreB == b.scoreB
    && row.indexedAt == b.indexedAt
  }

  /** After an accepted account that is new, or no older than the stored one, the row shows it; a
      commitment it does not tell of is kept from before. Older accounts change no row. Facts that come
      with it are stored under its key, dated by the latest account of them; and nothing else
      changes. */
  lemma UpsertStores(s: Store, b: IndexedBattle)
    requires (b.facts.Some? ==> Shaped(b.facts.value)) && Upserted(s, b).result.Ok?
    ensures var t, known := Upserted(s, b).store, b.key in s.battles;
            && t.battles.Keys == s.battles.Keys + {b.key}
            && (forall key :: key in s.battles && key != b.key ==> t.battles[key] == s.battles[key])
            && (known && b.indexedAt < s.battles[b.key].indexedAt ==> t.battles[b.key] == s.battles[b.key])
            && (!known || b.indexedAt >= s.battles[b.key].indexedAt ==>
                  && Shows(t.battles[b.key], b)
                  && (b.committedA.Some? ==> t.battles[b.key].committedA == b.committedA)
                  && (b.committedB.Some? ==> t.battles[b.key].committedB == b.committedB)
                  && (b.committedA.None? ==>
                        t.battles[b.key].committedA == if known then s.battles[b.key].committedA else None)
                  && (b.committedB.None? ==>
                        t.battles[b.key].committedB == if known then s.battles[b.key].committedB else None))
    ensures var t := Upserted(s, b).store;
            && (b.facts.None? ==> t.facts == s.facts)
            && (b.facts.Some? ==>
                  && t.facts.Keys == s.facts.Keys + {b.key} && t.facts[b.key].facts == b.facts.value
                  && t.facts[b.key].indexedAt >= b.indexedAt
                  && (b.key in s.facts ==> t.facts[b.key].indexedAt >= s.facts[b.key].indexedAt)
                  && (t.facts[b.key].indexedAt == b.indexedAt
                      || (b.key in s.facts && t.facts[b.key].indexedAt == s.facts[b.key].indexedAt))
                  && (forall key :: key in s.facts && key != b.key ==> t.facts[key] == s.facts[key]))
  {
    hide BattleFault;
  }

  /** And a refused account changes nothing. */
  lemma RefusalKeeps(s: Store, b: IndexedBattle)
    requires (b.facts.Some? ==> Shaped(b.facts.value)) && Upserted(s, b).result.Err?
    ensures Upserted(s, b).store == s
  {
    hide BattleFault;
  }
}
