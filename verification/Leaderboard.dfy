/** The active season's leaderboard, page by page (backend/src/leaderboard.rs). */
module Leaderboard {
  import opened Wrappers
  import opened Sequences
  import Base58
  import D = DecimalQ9

  const MAX_PAGE_SIZE := 100
  const PLACEMENT_BATTLES := 5
  const I32_MAX := 0x7fff_ffff

  /** A rating row; wallets are numbered in the database's text order. */
  datatype Player = Player(wallet: nat, rating: int, games: nat)

  datatype Entry = Entry(rank: int, wallet: nat, rating: int)

  datatype Cursor = Cursor(rating: int, wallet: nat)

  datatype Page = Page(entries: seq<Entry>, next: Option<Cursor>)

  datatype LeaderboardError = InvalidLimit | InvalidCursor

  // ----- the whole list -----

  function Placed(table: seq<Player>): seq<Player> {
    if table == [] then []
    else
      var last := table[|table| - 1];
      Placed(table[..|table| - 1]) + if last.games >= PLACEMENT_BATTLES then [last] else []
  }

  predicate Ahead(a: Player, b: Player) { a.rating > b.rating || (a.rating == b.rating && a.wallet < b.wallet) }

  predicate NotBehind(a: Player, b: Player) { !Ahead(b, a) }

  function Above(rating: int): Player -> int { (p: Player) => if p.rating > rating then 1 else 0 }

  /** One more than the number of placed players with a higher rating. */
  function Rank(placed: seq<Player>, rating: int): int { 1 + Sum(placed, Above(rating)) }

  function EntryOf(placed: seq<Player>, p: Player): Entry {
    Entry(Rank(placed, p.rating), p.wallet, p.rating)
  }

  function Sorted(table: seq<Player>): seq<Player> { SortBy(Placed(table), NotBehind) }

  function Full(table: seq<Player>): (full: seq<Entry>)
    ensures |full| == |Sorted(table)|
  {
    Map(Sorted(table), (p: Player) => EntryOf(Placed(table), p))
  }

  // ----- one page -----

  predicate Past(cursor: Option<Cursor>, e: Entry) {
    match cursor
    case None => true
    case Some(c) => e.rating < c.rating || (e.rating == c.rating && e.wallet > c.wallet)
  }

  /** The entries past the cursor. */
  function Rest(full: seq<Entry>, cursor: Option<Cursor>): seq<Entry> {
    if full == [] then []
    else (if Past(cursor, full[0]) then [full[0]] else []) + Rest(full[1..], cursor)
  }

  function CursorOf(e: Entry): Cursor { Cursor(e.rating, e.wallet) }

  function PageOf(full: seq<Entry>, cursor: Option<Cursor>, limit: nat): Page
    requires limit >= 1
  {
    var rest := Rest(full, cursor);
    if |rest| <= limit then Page(rest, None) else Page(rest[..limit], Some(CursorOf(rest[limit - 1])))
  }

  method GlobalLeaderboard(table: seq<Player>, cursor: Option<Cursor>, limit: int)
    returns (r: Result<Page, LeaderboardError>)
    ensures r.Err? <==> limit < 1 || limit > 100
    ensures r.Ok? ==> r.value == PageOf(Full(table), cursor, limit)
  {
    if !(1 <= limit <= MAX_PAGE_SIZE) {
      return Err(InvalidLimit);
    }
    var rest := Rest(Full(table), cursor);
    var entries := if |rest| > limit + 1 then rest[..limit + 1] else rest;
    var more := |entries| > limit;
    var next := None;
    if more {
      entries := entries[..|entries| - 1];
      next := Some(CursorOf(entries[|entries| - 1]));
    }
    return Ok(Page(entries, next));
  }

  // ----- all pages -----

  ghost predicate InOrder(full: seq<Entry>) {
    forall i, j :: 0 <= i < j < |full| ==> Past(Some(CursorOf(full[i])), full[j])
  }

  lemma {:induction false} AllPast(full: seq<Entry>, cursor: Option<Cursor>)
    requires forall k :: 0 <= k < |full| ==> Past(cursor, full[k])
    ensures Rest(full, cursor) == full
  {
    if full != [] { AllPast(full[1..], cursor); }
  }

  lemma {:induction false} RestAt(full: seq<Entry>, m: nat)
    requires InOrder(full) && m < |full|
    ensures Rest(full, Some(CursorOf(full[m]))) == full[m + 1..]
  {
    if m == 0 {
      AllPast(full[1..], Some(CursorOf(full[0])));
    } else {
      RestAt(full[1..], m - 1);
    }
  }

  lemma NextPage(full: seq<Entry>, cursor: Option<Cursor>, limit: nat)
    requires InOrder(full) && 1 <= limit < |Rest(full, cursor)|
    ensures Rest(full, PageOf(full, cursor, limit).next) == Rest(full, cursor)[limit..]
  {
    hide Rest;
    var j := FirstPast(full, cursor);
    assert full[j..][limit - 1] == full[j + limit - 1];
    RestAt(full, j + limit - 1);
  }

  /** The pages from a cursor on, each found with the cursor of the one before. */
  function AllPages(full: seq<Entry>, cursor: Option<Cursor>, limit: nat): seq<Page>
    requires InOrder(full) && limit >= 1
    decreases |Rest(full, cursor)|
  {
    var page := PageOf(full, cursor, limit);
    if page.next.None? then [page]
    else
      NextPage(full, cursor, limit);
      [page] + AllPages(full, page.next, limit)
  }

  function Joined(pages: seq<Page>): seq<Entry> {
    if pages == [] then [] else pages[0].entries + Joined(pages[1..])
  }

  lemma {:induction false} PagesJoin(full: seq<Entry>, cursor: Option<Cursor>, limit: nat)
    requires InOrder(full) && limit >= 1
    ensures Joined(AllPages(full, cursor, limit)) == Rest(full, cursor)
    decreases |Rest(full, cursor)|
  {
    hide Rest;
    var page := PageOf(full, cursor, limit);
    if page.next.Some? {
      NextPage(full, cursor, limit);
      PagesJoin(full, page.next, limit);
      assert ([page] + AllPages(full, page.next, limit))[1..] == AllPages(full, page.next, limit);
    }
  }

  // ----- the list is ranked -----

  ghost predicate OneRowEach(table: seq<Player>) {
    forall i, j :: 0 <= i < j < |table| ==> table[i].wallet != table[j].wallet
  }

  lemma {:induction false} PlacedAre(table: seq<Player>)
    ensures forall p :: p in Placed(table) <==> p in table && p.games >= PLACEMENT_BATTLES
    ensures OneRowEach(table) ==> OneRowEach(Placed(table))
  {
    if table != [] {
      var init, last := table[..|table| - 1], table[|table| - 1];
      PlacedAre(init);
      assert table == init + [last];
    }
  }

  /** The rows sorted: higher ratings first, equal ratings by wallet, no two alike. */
  lemma SortedRows(table: seq<Player>)
    requires OneRowEach(table)
    ensures multiset(Sorted(table)) == multiset(Placed(table))
    ensures forall i, j :: 0 <= i < j < |Sorted(table)| ==> Ahead(Sorted(table)[i], Sorted(table)[j])
  {
    hide Placed, SortBy;
    var placed, sorted := Placed(table), Sorted(table);
    PlacedAre(table);
    assert TotalOn(placed, NotBehind);
    SortSorts(placed, NotBehind);
    SortPermutes(placed, NotBehind);
    var apart := (p: Player, q: Player) => p.wallet != q.wallet;
    forall i, j | 0 <= i < j < |sorted| ensures Ahead(sorted[i], sorted[j]) {
      PairsPermuted(placed, sorted, apart, i, j);
      assert NotBehind(sorted[i], sorted[j]);
    }
  }

  lemma FullInOrder(table: seq<Player>)
    requires OneRowEach(table)
    ensures InOrder(Full(table))
  {
    hide Sorted, Placed, Rank;
    SortedRows(table);
    var full, sorted := Full(table), Sorted(table);
    forall i, j | 0 <= i < j < |full| ensures Past(Some(CursorOf(full[i])), full[j]) {
      assert Ahead(sorted[i], sorted[j]);
    }
  }

  /** Higher ratings first, and equal ratings in the order of their wallets. */
  lemma FullOrder(table: seq<Player>, i: nat, j: nat)
    requires OneRowEach(table) && i < j < |Full(table)|
    ensures var x, y := Full(table)[i], Full(table)[j];
            x.rating > y.rating || (x.rating == y.rating && x.wallet < y.wallet)
  {
    hide Full;
    FullInOrder(table);
    assert Past(Some(CursorOf(Full(table)[i])), Full(table)[j]);
  }

  /** A page holds, from the cursor on, as many of the following entries as the limit allows; a cursor comes
      with it exactly when entries are left, and is the last one's. */
  lemma PageMeans(full: seq<Entry>, cursor: Option<Cursor>, limit: nat) returns (j: nat)
    requires InOrder(full) && limit >= 1
    ensures j <= |full|
    ensures forall k :: 0 <= k < j ==>
              cursor.Some? && (full[k].rating > cursor.value.rating
                               || (full[k].rating == cursor.value.rating && full[k].wallet <= cursor.value.wallet))
    ensures j < |full| && cursor.Some? ==>
              full[j].rating < cursor.value.rating
              || (full[j].rating == cursor.value.rating && full[j].wallet > cursor.value.wallet)
    ensures var p := PageOf(full, cursor, limit);
            && p.entries == full[j..if j + limit < |full| then j + limit else |full|]
            && (p.next.Some? <==> j + limit < |full|)
            && (p.next.Some? ==>
                  && p.next.value.rating == full[j + limit - 1].rating
                  && p.next.value.wallet == full[j + limit - 1].wallet)
  {
    j := FirstPast(full, cursor);
  }

  lemma {:induction false} FirstPast(full: seq<Entry>, cursor: Option<Cursor>) returns (j: nat)
    requires InOrder(full)
    ensures j <= |full| && Rest(full, cursor) == full[j..]
    ensures forall k :: 0 <= k < j ==> !Past(cursor, full[k])
    ensures j < |full| ==> Past(cursor, full[j])
  {
    if full == [] {
      j := 0;
    } else if Past(cursor, full[0]) {
      AllPast(full, cursor);
      j := 0;
    } else {
      j := FirstPast(full[1..], cursor);
      j := j + 1;
    }
  }

  /** Following the cursors, the pages joined are the whole list, whatever the page size. */
  lemma PagesAreTheList(table: seq<Player>, limit: nat)
    requires OneRowEach(table) && 1 <= limit
    ensures InOrder(Full(table)) && Joined(AllPages(Full(table), None, limit)) == Full(table)
  {
    FullInOrder(table);
    PagesJoin(Full(table), None, limit);
    AllPast(Full(table), None);
  }

  lemma {:induction false} CountAbove(s: seq<Player>, rating: int, k: nat)
    requires k <= |s| && (forall i :: 0 <= i < k ==> s[i].rating > rating)
             && forall i :: k <= i < |s| ==> s[i].rating <= rating
    ensures Sum(s, Above(rating)) == k
  {
    if s != [] { CountAbove(s[..|s| - 1], rating, if k == |s| then k - 1 else k); }
  }

  /** Equal ratings share a rank; otherwise the rank is the place in the list. */
  lemma RanksAre(table: seq<Player>, k: nat)
    requires OneRowEach(table) && k < |Full(table)|
    ensures var full := Full(table);
            full[k].rank == if k > 0 && full[k - 1].rating == full[k].rating then full[k - 1].rank else k + 1
  {
    hide Sorted, Placed;
    SortedRows(table);
    var sorted, placed := Sorted(table), Placed(table);
    var p := sorted[k];
    assert Full(table)[k] == EntryOf(placed, p);
    if k > 0 && sorted[k - 1].rating == p.rating {
      assert Full(table)[k - 1] == EntryOf(placed, sorted[k - 1]);
    } else {
      forall i | 0 <= i < k ensures sorted[i].rating > p.rating {
        assert Ahead(sorted[i], p);
        if i < k - 1 { assert Ahead(sorted[i], sorted[k - 1]) && Ahead(sorted[k - 1], p); }
      }
      forall i | k <= i < |sorted| ensures sorted[i].rating <= p.rating {
        if i > k { assert Ahead(p, sorted[i]); }
      }
      CountAbove(sorted, p.rating, k);
      SumPermuted(sorted, placed, Above(p.rating));
    }
  }

  /** The list holds the placed players, each once. */
  lemma FullHolds(table: seq<Player>, p: Player)
    requires OneRowEach(table)
    ensures p in Sorted(table) <==> p in table && p.games >= 5
  {
    hide Sorted, Placed;
    SortedRows(table);
    PlacedAre(table);
    SameElements(Sorted(table), Placed(table), p);
  }

  // ----- cursor text -----

  function EncodeCursor(rating: int, wallet: string): string { D.SignedText(rating) + ":" + wallet }

  /** Index of the first colon, or the length. */
  function FirstColon(s: string): (i: nat)
    ensures i <= |s| && (forall k :: 0 <= k < i ==> s[k] != ':') && (i < |s| ==> s[i] == ':')
  {
    if s == "" || s[0] == ':' then 0 else 1 + FirstColon(s[1..])
  }

  function ParseI32(s: string): Option<int> {
    var sign := D.SignOf(s);
    var digits := s[|sign|..];
    if digits == "" || !D.AllDigits(digits) then None
    else
      var value := D.Signed(sign, D.Number(digits));
      if -I32_MAX - 1 <= value <= I32_MAX then Some(value) else None
  }

  /** A wallet is the base58 text of 32 bytes. */
  predicate IsWallet(s: string) { Base58.Decoded(s).Some? && |Base58.Decoded(s).value| == 32 }

  function DecodeCursor(s: string): Result<(int, string), LeaderboardError> {
    var colon := FirstColon(s);
    if colon == |s| then Err(InvalidCursor)
    else
      var rating, wallet := ParseI32(s[..colon]), s[colon + 1..];
      if rating.None? || !IsWallet(wallet) then Err(InvalidCursor) else Ok((rating.value, wallet))
  }

  lemma RatingText(rating: int)
    requires -I32_MAX - 1 <= rating <= I32_MAX
    ensures ParseI32(D.SignedText(rating)) == Some(rating)
            && forall k :: 0 <= k < |D.SignedText(rating)| ==> D.SignedText(rating)[k] != ':'
  {
    hide D.Text, D.Number;
    D.SignedTextIs(rating);
    D.TextNumber(D.Size(rating));
    var text := D.Text(D.Size(rating));
    D.SignRead(D.MinusFor(rating), text);
  }

  /** Decoding a cursor gives the rating and the wallet it was made from. */
  lemma CursorRoundTrip(rating: int, bytes: seq<Base58.Byte>)
    requires -I32_MAX - 1 <= rating <= I32_MAX && |bytes| == 32
    ensures DecodeCursor(EncodeCursor(rating, Base58.Encoded(bytes))) == Ok((rating, Base58.Encoded(bytes)))
  {
    hide D.SignedText, ParseI32, Base58.Decoded, Base58.Encoded, FirstColon;
    RatingText(rating);
    Base58.DecodeEncode(bytes);
    var r, wallet := D.SignedText(rating), Base58.Encoded(bytes);
    var s := r + ":" + wallet;
    assert s[..|r|] == r && s[|r|] == ':' && s[|r| + 1..] == wallet;
    ColonIs(s, |r|);
  }

  lemma ColonIs(s: string, i: nat)
    requires i < |s| && (forall k :: 0 <= k < i ==> s[k] != ':') && s[i] == ':'
    ensures FirstColon(s) == i
  {
    hide FirstColon;
  }

  /** A cursor as written: a signed 32-bit decimal, a colon and the base58 text of 32 bytes. */
  predicate SpellsCursor(s: string, sign: string, digits: string, bytes: seq<Base58.Byte>, rating: int,
                         wallet: string) {
    && (sign == "" || sign == "+" || sign == "-") && digits != "" && D.AllDigits(digits)
    && s == sign + digits + ":" + wallet && |bytes| == 32 && wallet == Base58.Encoded(bytes)
    && (sign == "-" ==> -rating == D.Number(digits)) && (sign != "-" ==> rating == D.Number(digits))
    && -0x8000_0000 <= rating <= 0x7fff_ffff
  }

  /** Exactly these texts are cursors; every other is refused. */
  lemma CursorExactly(s: string, rating: int, wallet: string)
    ensures DecodeCursor(s) == Ok((rating, wallet))
            <==> exists sign, digits, bytes :: SpellsCursor(s, sign, digits, bytes, rating, wallet)
  {
    hide D.Number, Base58.Encoded, Base58.Decoded;
    if DecodeCursor(s) == Ok((rating, wallet)) {
      var text, sign := s[..FirstColon(s)], D.SignOf(s[..FirstColon(s)]);
      Base58.EncodeDecode(wallet);
      assert text == sign + text[|sign|..];
      assert s == text + ":" + wallet;
      assert SpellsCursor(s, sign, text[|sign|..], Base58.Decoded(wallet).value, rating, wallet);
    }
    forall sign, digits, bytes | SpellsCursor(s, sign, digits, bytes, rating, wallet)
      ensures DecodeCursor(s) == Ok((rating, wallet))
    {
      SpelledIsRead(s, sign, digits, bytes, rating, wallet);
    }
  }

  lemma SpelledIsRead(s: string, sign: string, digits: string, bytes: seq<Base58.Byte>, rating: int, wallet: string)
    requires SpellsCursor(s, sign, digits, bytes, rating, wallet)
    ensures DecodeCursor(s) == Ok((rating, wallet))
  {
    hide FirstColon, D.Number, Base58.Encoded, Base58.Decoded;
    D.SignRead(sign, digits);
    Base58.DecodeEncode(bytes);
    var text := sign + digits;
    assert s[..|text|] == text && s[|text|] == ':' && s[|text| + 1..] == wallet;
    ColonIs(s, |text|);
  }
}
