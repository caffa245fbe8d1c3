/** list: one page of a caller's sagas, newest first, and whole walks along next_cursor. */
module Paging {
  import opened Options
  import opened Keys
  import opened Rows
  import opened Database
  import opened Runs
  import opened Histories

  // The position of a row in (created_at, provisioning_id) order; a cursor carries one.
  datatype Position = Position(createdAt: Time, id: Uuid)

  datatype Filters = Filters(actor: string, status: Option<Status>, cursor: Option<Position>)

  datatype Item = Item(provisioningId: Uuid, row: SagaRow)

  datatype Page = Page(items: seq<Item>, nextCursor: Option<Position>)

  datatype ListReply = Listed(page: Page) | InvalidList

  predicate Less(a: Position, b: Position) {
    a.createdAt < b.createdAt || (a.createdAt == b.createdAt && a.id < b.id)
  }

  function At(p: Uuid, row: SagaRow): Position {
    Position(row.createdAt, p)
  }

  function ItemAt(item: Item): Position {
    At(item.provisioningId, item.row)
  }

  // The WHERE clause.
  predicate Matches(p: Uuid, row: SagaRow, f: Filters) {
    && row.requestedBy == f.actor
    && (f.status.Some? ==> row.status == f.status.value)
    && (f.cursor.Some? ==> Less(At(p, row), f.cursor.value))
  }

  predicate MatchesIn(sagas: map<Uuid, Saga>, p: Uuid, f: Filters) {
    p in sagas && Matches(p, sagas[p].row, f)
  }

  predicate Contains(items: seq<Item>, p: Uuid) {
    exists i :: 0 <= i < |items| && items[i].provisioningId == p
  }

  // Newest first; of rows created at the same time, the greater id first.
  predicate Descending(items: seq<Item>) {
    forall i, j | 0 <= i < j < |items| ::
      || items[j].row.createdAt < items[i].row.createdAt
      || (items[j].row.createdAt == items[i].row.createdAt && items[j].provisioningId < items[i].provisioningId)
  }

  // The caller's own saga, in the status asked for, if any.
  predicate Wanted(sagas: map<Uuid, Saga>, p: Uuid, actor: string, status: Option<Status>) {
    && p in sagas && sagas[p].row.requestedBy == actor
    && (status.Some? ==> sagas[p].row.status == status.value)
  }

  // What a page shows its caller: stored rows of its own in the status asked for, newest first, all
  // created before the cursor's row; and when no next page is offered, every such row.
  predicate Shown(sagas: map<Uuid, Saga>, f: Filters, page: Page) {
    && Descending(page.items)
    && (forall i | 0 <= i < |page.items| ::
          var item := page.items[i];
          && Wanted(sagas, item.provisioningId, f.actor, f.status) && item.row == sagas[item.provisioningId].row
          && (f.cursor.Some? ==> PastCursor(item.row.createdAt, item.provisioningId, f.cursor.value)))
    && (page.nextCursor.None? ==>
          forall p | Wanted(sagas, p, f.actor, f.status)
                     && (f.cursor.Some? ==> PastCursor(sagas[p].row.createdAt, p, f.cursor.value)) ::
            Contains(page.items, p))
  }

  predicate PastCursor(createdAt: Time, id: Uuid, cursor: Position) {
    createdAt < cursor.createdAt || (createdAt == cursor.createdAt && id < cursor.id)
  }

  lemma PageShows(sagas: map<Uuid, Saga>, f: Filters, limit: nat, page: Page)
    requires PageOf(sagas, f, limit, page)
    ensures Shown(sagas, f, page)
  {
    forall i | 0 <= i < |page.items|
      ensures MatchesIn(sagas, page.items[i].provisioningId, f)
    {
    }
    forall p | Wanted(sagas, p, f.actor, f.status)
                && (f.cursor.Some? ==> PastCursor(sagas[p].row.createdAt, p, f.cursor.value))
      ensures MatchesIn(sagas, p, f)
    {
    }
  }

  predicate RowsOf(sagas: map<Uuid, Saga>, f: Filters, items: seq<Item>) {
    forall i | 0 <= i < |items| ::
      MatchesIn(sagas, items[i].provisioningId, f) && items[i].row == sagas[items[i].provisioningId].row
  }

  // Every matching row is among the items or comes after the last of them.
  predicate Covered(sagas: map<Uuid, Saga>, f: Filters, items: seq<Item>) {
    |items| > 0 ==>
      forall p | MatchesIn(sagas, p, f) :: Contains(items, p) || Less(At(p, sagas[p].row), ItemAt(items[|items| - 1]))
  }

  predicate AllListed(sagas: map<Uuid, Saga>, f: Filters, items: seq<Item>) {
    forall p | MatchesIn(sagas, p, f) :: Contains(items, p)
  }

  // The first rows of the query, newest first.
  predicate FirstRows(sagas: map<Uuid, Saga>, f: Filters, limit: nat, items: seq<Item>) {
    && |items| <= limit && Descending(items) && RowsOf(sagas, f, items) && Covered(sagas, f, items)
    && (|items| < limit ==> AllListed(sagas, f, items))
  }

  // A page: the first rows, and a cursor at its last row exactly when it left a matching row out.
  predicate PageOf(sagas: map<Uuid, Saga>, f: Filters, limit: nat, page: Page) {
    && FirstRows(sagas, f, limit, page.items)
    && (page.nextCursor.None? <==> AllListed(sagas, f, page.items))
    && (page.nextCursor.Some? ==> |page.items| == limit > 0 && page.nextCursor.value == ItemAt(page.items[limit - 1]))
  }

  // The matching row that comes first.
  method Newest(sagas: map<Uuid, Saga>, f: Filters) returns (r: Option<Uuid>)
    ensures r.None? ==> forall p :: !MatchesIn(sagas, p, f)
    ensures r.Some? ==> MatchesIn(sagas, r.value, f)
                        && forall p | MatchesIn(sagas, p, f) ::
                             p == r.value || Less(At(p, sagas[p].row), At(r.value, sagas[r.value].row))
  {
    r := None;
    var rest := sagas.Keys;
    while rest != {}
      invariant rest <= sagas.Keys
      invariant r.Some? ==> MatchesIn(sagas, r.value, f)
      invariant forall p | MatchesIn(sagas, p, f) && p !in rest ::
                  r.Some? && (p == r.value || Less(At(p, sagas[p].row), At(r.value, sagas[r.value].row)))
      decreases rest
    {
      var p :| p in rest;
      rest := rest - {p};
      if MatchesIn(sagas, p, f) && (r.None? || Less(At(r.value, sagas[r.value].row), At(p, sagas[p].row))) {
        r := Some(p);
      }
    }
  }

  // One more row of the ordered query.
  lemma RowsExtend(sagas: map<Uuid, Saga>, f: Filters, items: seq<Item>, next: Filters, p: Uuid)
    requires Descending(items) && RowsOf(sagas, f, items) && Covered(sagas, f, items)
    requires next == if |items| == 0 then f else f.(cursor := Some(ItemAt(items[|items| - 1])))
    requires MatchesIn(sagas, p, next)
    requires forall q | MatchesIn(sagas, q, next) :: q == p || Less(At(q, sagas[q].row), At(p, sagas[p].row))
    ensures var longer := items + [Item(p, sagas[p].row)];
            Descending(longer) && RowsOf(sagas, f, longer) && Covered(sagas, f, longer)
  {
    var longer := items + [Item(p, sagas[p].row)];
    forall q | MatchesIn(sagas, q, f)
      ensures Contains(longer, q) || Less(At(q, sagas[q].row), At(p, sagas[p].row))
    {
      if Contains(items, q) {
        var i :| 0 <= i < |items| && items[i].provisioningId == q;
        assert longer[i].provisioningId == q;
      } else {
        assert MatchesIn(sagas, q, next);
        assert longer[|items|].provisioningId == p;
      }
    }
  }

  // ORDER BY created_at DESC, provisioning_id DESC LIMIT.
  method ListRows(sagas: map<Uuid, Saga>, f: Filters, limit: nat) returns (items: seq<Item>)
    ensures FirstRows(sagas, f, limit, items)
  {
    items := [];
    while |items| < limit
      invariant |items| <= limit && Descending(items) && RowsOf(sagas, f, items) && Covered(sagas, f, items)
    {
      var next := if |items| == 0 then f else f.(cursor := Some(ItemAt(items[|items| - 1])));
      var p := Newest(sagas, next);
      if p.None? {
        assert forall q | MatchesIn(sagas, q, f) && !Contains(items, q) :: MatchesIn(sagas, q, next);
        return;
      }
      RowsExtend(sagas, f, items, next, p.value);
      items := items + [Item(p.value, sagas[p.value].row)];
    }
  }

  // The public list: fetch one row more than asked for, and cut it off again.
  method List(sagas: map<Uuid, Saga>, f: Filters, limit: int) returns (r: ListReply)
    ensures r.Listed? <==> 1 <= limit <= 100
    ensures r.Listed? ==> PageOf(sagas, f, limit, r.page) && Shown(sagas, f, r.page)
  {
    if !(1 <= limit <= 100) {
      return InvalidList;
    }
    var items := ListRows(sagas, f, limit + 1);
    if |items| > limit {
      CutIsPage(sagas, f, limit, items);
      r := Listed(Page(items[..limit], Some(ItemAt(items[limit - 1]))));
    } else {
      r := Listed(Page(items, None));
    }
    PageShows(sagas, f, limit, r.page);
  }

  lemma CutRows(sagas: map<Uuid, Saga>, f: Filters, items: seq<Item>, n: nat)
    requires n <= |items| && Descending(items) && RowsOf(sagas, f, items)
    ensures Descending(items[..n]) && RowsOf(sagas, f, items[..n])
  {
  }

  // The rows left out come after the cut.
  lemma CutCovers(sagas: map<Uuid, Saga>, f: Filters, limit: nat, items: seq<Item>, p: Uuid)
    requires limit > 0 && |items| == limit + 1 && Descending(items) && RowsOf(sagas, f, items)
    requires Covered(sagas, f, items) && MatchesIn(sagas, p, f)
    ensures Contains(items[..limit], p) || Less(At(p, sagas[p].row), ItemAt(items[limit - 1]))
  {
    if Contains(items, p) {
      var i :| 0 <= i < |items| && items[i].provisioningId == p;
      if i < limit { assert items[..limit][i].provisioningId == p; }
    }
  }

  lemma CutLeaves(sagas: map<Uuid, Saga>, f: Filters, limit: nat, items: seq<Item>)
    requires |items| == limit + 1 && Descending(items) && RowsOf(sagas, f, items)
    ensures !AllListed(sagas, f, items[..limit])
  {
    assert MatchesIn(sagas, items[limit].provisioningId, f);
    assert !Contains(items[..limit], items[limit].provisioningId);
  }

  // Cutting the extra row leaves a page whose cursor comes before it.
  lemma CutIsPage(sagas: map<Uuid, Saga>, f: Filters, limit: nat, items: seq<Item>)
    requires limit > 0 && |items| == limit + 1 && FirstRows(sagas, f, limit + 1, items)
    ensures PageOf(sagas, f, limit, Page(items[..limit], Some(ItemAt(items[limit - 1]))))
  {
    var cut := items[..limit];
    CutRows(sagas, f, items, limit);
    CutLeaves(sagas, f, limit, items);
    forall p | MatchesIn(sagas, p, f)
      ensures Contains(cut, p) || Less(At(p, sagas[p].row), ItemAt(cut[limit - 1]))
    {
      CutCovers(sagas, f, limit, items, p);
    }
  }

  /* ---------- Walks ---------- */

  // What stays the same from page to page of a walk.
  datatype Walker = Walker(actor: string, status: Option<Status>, limit: nat) {
    function At(cursor: Option<Position>): Filters {
      Filters(actor, status, cursor)
    }
  }

  function CursorAt(pages: seq<Page>, i: nat): Option<Position>
    requires i <= |pages|
  {
    if i == 0 then None else pages[i - 1].nextCursor
  }

  predicate PageAt(tables: seq<map<Uuid, Saga>>, pages: seq<Page>, w: Walker, i: nat)
    requires i < |tables| == |pages|
  {
    PageOf(tables[i], w.At(CursorAt(pages, i)), w.limit, pages[i])
  }

  // Pages fetched one after the other, each with its predecessor's cursor; table i is what page i
  // was read from.
  predicate Walk(tables: seq<map<Uuid, Saga>>, pages: seq<Page>, w: Walker) {
    && |tables| == |pages|
    && (forall i | 0 <= i < |pages| :: PageAt(tables, pages, w, i))
    && (forall i | 0 < i < |pages| :: CursorAt(pages, i).Some?)
  }

  predicate Completed(pages: seq<Page>) {
    |pages| > 0 && pages[|pages| - 1].nextCursor.None?
  }

  // Everything the first n pages returned, and everything the walk returned.
  function ListedBy(pages: seq<Page>, n: nat): seq<Item>
    requires n <= |pages|
  {
    if n == 0 then [] else ListedBy(pages, n - 1) + pages[n - 1].items
  }

  function Listing(pages: seq<Page>): seq<Item> {
    ListedBy(pages, |pages|)
  }

  // No item so far comes after the cursor.
  predicate DownTo(items: seq<Item>, cursor: Option<Position>) {
    cursor.Some? ==> forall j | 0 <= j < |items| :: !Less(ItemAt(items[j]), cursor.value)
  }

  // Strictly descending items, none of them after the cursor.
  predicate GoesDown(items: seq<Item>, cursor: Option<Position>) {
    Descending(items) && DownTo(items, cursor)
  }

  // A page starts below its cursor and goes down to the next one.
  predicate Continues(page: Page, cursor: Option<Position>) {
    && Descending(page.items)
    && (cursor.Some? ==> forall j | 0 <= j < |page.items| :: Less(ItemAt(page.items[j]), cursor.value))
    && (page.nextCursor.Some? ==> |page.items| > 0 && page.nextCursor.value == ItemAt(page.items[|page.items| - 1]))
  }

  predicate ContinuesAt(pages: seq<Page>, i: nat)
    requires i < |pages|
  {
    Continues(pages[i], CursorAt(pages, i))
  }

  predicate Chained(pages: seq<Page>) {
    && (forall i | 0 <= i < |pages| :: ContinuesAt(pages, i))
    && (forall i | 0 < i < |pages| :: CursorAt(pages, i).Some?)
  }

  lemma PageContinues(sagas: map<Uuid, Saga>, f: Filters, limit: nat, page: Page)
    requires PageOf(sagas, f, limit, page)
    ensures Continues(page, f.cursor)
  {
    forall j | 0 <= j < |page.items|
      ensures f.cursor.Some? ==> Less(ItemAt(page.items[j]), f.cursor.value)
    {
      assert MatchesIn(sagas, page.items[j].provisioningId, f);
    }
  }

  lemma PageBelow(before: seq<Item>, page: Page, cursor: Option<Position>)
    requires Continues(page, cursor) && GoesDown(before, cursor)
    requires cursor.None? ==> before == []
    ensures GoesDown(before + page.items, page.nextCursor)
  {
  }

  lemma WalkPage(tables: seq<map<Uuid, Saga>>, pages: seq<Page>, w: Walker, n: nat)
    requires Walk(tables, pages, w) && n < |pages|
    ensures PageOf(tables[n], w.At(CursorAt(pages, n)), w.limit, pages[n])
    ensures CursorAt(pages, n).None? <==> n == 0
  {
    assert PageAt(tables, pages, w, n);
  }

  lemma WalkIsChained(tables: seq<map<Uuid, Saga>>, pages: seq<Page>, w: Walker)
    requires Walk(tables, pages, w)
    ensures Chained(pages)
  {
    forall i | 0 <= i < |pages|
      ensures ContinuesAt(pages, i)
    {
      WalkPage(tables, pages, w, i);
      PageContinues(tables[i], w.At(CursorAt(pages, i)), w.limit, pages[i]);
    }
  }

  lemma {:induction false} ChainGoesDown(pages: seq<Page>, n: nat)
    requires Chained(pages) && n <= |pages|
    ensures GoesDown(ListedBy(pages, n), CursorAt(pages, n))
  {
    if n > 0 {
      ChainGoesDown(pages, n - 1);
      assert ContinuesAt(pages, n - 1);
      PageBelow(ListedBy(pages, n - 1), pages[n - 1], CursorAt(pages, n - 1));
    }
  }

  // A walk returns its items in strictly descending order, whatever happens to the tables between
  // its pages.
  lemma WalkDescends(tables: seq<map<Uuid, Saga>>, pages: seq<Page>, w: Walker)
    requires Walk(tables, pages, w)
    ensures Descending(Listing(pages))
  {
    WalkIsChained(tables, pages, w);
    ChainGoesDown(pages, |pages|);
  }

  // Row p stays where it is and keeps matching in all the tables.
  predicate Stays(tables: seq<map<Uuid, Saga>>, p: Uuid, w: Walker, createdAt: Time) {
    forall i | 0 <= i < |tables| :: MatchesIn(tables[i], p, w.At(None)) && tables[i][p].row.createdAt == createdAt
  }

  // A walk so far returned such a row or has it still ahead.
  lemma {:induction false} WalkReaches(tables: seq<map<Uuid, Saga>>, pages: seq<Page>, w: Walker, p: Uuid,
                              createdAt: Time, n: nat)
    requires Walk(tables, pages, w) && Stays(tables, p, w, createdAt) && 0 < n <= |pages|
    ensures Contains(ListedBy(pages, n), p)
            || (CursorAt(pages, n).Some? && Less(Position(createdAt, p), CursorAt(pages, n).value))
  {
    var before, items := ListedBy(pages, n - 1), pages[n - 1].items;
    if n > 1 { WalkReaches(tables, pages, w, p, createdAt, n - 1); }
    WalkPage(tables, pages, w, n - 1);
    if Contains(before, p) {
      ContainsEither(before, items, p);
    } else {
      assert MatchesIn(tables[n - 1], p, w.At(None));
      assert MatchesIn(tables[n - 1], p, w.At(CursorAt(pages, n - 1)));
      if Contains(items, p) { ContainsEither(before, items, p); }
    }
  }

  lemma ContainsEither(first: seq<Item>, second: seq<Item>, p: Uuid)
    requires Contains(first, p) || Contains(second, p)
    ensures Contains(first + second, p)
  {
    if Contains(first, p) {
      var i :| 0 <= i < |first| && first[i].provisioningId == p;
      assert (first + second)[i].provisioningId == p;
    } else {
      var i :| 0 <= i < |second| && second[i].provisioningId == p;
      assert (first + second)[|first| + i].provisioningId == p;
    }
  }

  // No row changes its position while it exists.
  predicate Fixed(tables: seq<map<Uuid, Saga>>) {
    forall i, j, p | 0 <= i < |tables| && 0 <= j < |tables| && p in tables[i] && p in tables[j] ::
      tables[i][p].row.createdAt == tables[j][p].row.createdAt
  }

  predicate ReadFrom(tables: seq<map<Uuid, Saga>>, item: Item, w: Walker) {
    exists i :: 0 <= i < |tables| && MatchesIn(tables[i], item.provisioningId, w.At(None))
                && item.row == tables[i][item.provisioningId].row
  }

  lemma PageIsRead(tables: seq<map<Uuid, Saga>>, i: nat, w: Walker, cursor: Option<Position>, page: Page, j: nat)
    requires i < |tables| && PageOf(tables[i], w.At(cursor), w.limit, page) && j < |page.items|
    ensures ReadFrom(tables, page.items[j], w)
  {
    assert MatchesIn(tables[i], page.items[j].provisioningId, w.At(cursor));
    assert MatchesIn(tables[i], page.items[j].provisioningId, w.At(None));
  }

  lemma {:induction false} ListedAll(pages: seq<Page>, n: nat, good: Item -> bool, j: nat)
    requires n <= |pages| && j < |ListedBy(pages, n)|
    requires forall i, k | 0 <= i < |pages| && 0 <= k < |pages[i].items| :: good(pages[i].items[k])
    ensures good(ListedBy(pages, n)[j])
  {
    if j < |ListedBy(pages, n - 1)| { ListedAll(pages, n - 1, good, j); }
  }

  // Every item is a matching row of some table the walk read.
  lemma ListingIsRead(tables: seq<map<Uuid, Saga>>, pages: seq<Page>, w: Walker, j: nat)
    requires Walk(tables, pages, w) && j < |Listing(pages)|
    ensures ReadFrom(tables, Listing(pages)[j], w)
  {
    forall i, k | 0 <= i < |pages| && 0 <= k < |pages[i].items|
      ensures ReadFrom(tables, pages[i].items[k], w)
    {
      WalkPage(tables, pages, w, i);
      PageIsRead(tables, i, w, CursorAt(pages, i), pages[i], k);
    }
    ListedAll(pages, |pages|, item => ReadFrom(tables, item, w), j);
  }

  predicate Once(items: seq<Item>, p: Uuid) {
    Contains(items, p) && AtMostOnce(items, p)
  }

  predicate AtMostOnce(items: seq<Item>, p: Uuid) {
    forall i, j | 0 <= i < |items| && 0 <= j < |items| && items[i].provisioningId == items[j].provisioningId == p ::
        i == j
  }

  lemma WalkNeverRepeats(tables: seq<map<Uuid, Saga>>, pages: seq<Page>, w: Walker, p: Uuid)
    requires Walk(tables, pages, w) && Fixed(tables)
    ensures AtMostOnce(Listing(pages), p)
  {
    var all := Listing(pages);
    WalkDescends(tables, pages, w);
    forall i, j | 0 <= i < j < |all|
      ensures all[i].provisioningId != all[j].provisioningId
    {
      ListingIsRead(tables, pages, w, i);
      ListingIsRead(tables, pages, w, j);
    }
  }

  /* ---------- Walks over a fixed table ---------- */

  // On a fixed table a completed walk returns every matching row exactly once and nothing else, in
  // strictly descending order.
  lemma WalkIsPartition(sagas: map<Uuid, Saga>, tables: seq<map<Uuid, Saga>>, pages: seq<Page>, w: Walker, p: Uuid)
    requires forall i | 0 <= i < |tables| :: tables[i] == sagas
    requires Walk(tables, pages, w) && Completed(pages)
    ensures Descending(Listing(pages))
    ensures Wanted(sagas, p, w.actor, w.status) ==> Once(Listing(pages), p)
    ensures !Wanted(sagas, p, w.actor, w.status) ==> !Contains(Listing(pages), p)
  {
    assert Wanted(sagas, p, w.actor, w.status) <==> MatchesIn(sagas, p, w.At(None));
    WalkDescends(tables, pages, w);
    WalkNeverRepeats(tables, pages, w, p);
    if MatchesIn(sagas, p, w.At(None)) {
      WalkReaches(tables, pages, w, p, sagas[p].row.createdAt, |pages|);
    } else if Contains(Listing(pages), p) {
      var j :| 0 <= j < |Listing(pages)| && Listing(pages)[j].provisioningId == p;
      ListingIsRead(tables, pages, w, j);
    }
  }

  lemma {:induction false} PagesAreFull(tables: seq<map<Uuid, Saga>>, pages: seq<Page>, w: Walker, n: nat)
    requires Walk(tables, pages, w) && n < |pages|
    ensures n <= |ListedBy(pages, n)| <= |ListedBy(pages, n + 1)|
  {
    if n > 0 {
      PagesAreFull(tables, pages, w, n - 1);
      WalkPage(tables, pages, w, n - 1);
      assert CursorAt(pages, n).Some?;
    }
  }

  lemma {:induction false} DistinctItems(items: seq<Item>, ids: set<Uuid>)
    requires forall p :: AtMostOnce(items, p)
    requires forall j | 0 <= j < |items| :: items[j].provisioningId in ids
    ensures |items| <= |ids|
  {
    if |items| > 0 {
      var n := |items| - 1;
      var last := items[n].provisioningId;
      assert forall p :: AtMostOnce(items, p);
      forall j | 0 <= j < n
        ensures items[..n][j].provisioningId in ids - {last}
      {
        assert AtMostOnce(items, last);
      }
      forall p
        ensures AtMostOnce(items[..n], p)
      {
        assert AtMostOnce(items, p);
      }
      DistinctItems(items[..n], ids - {last});
    }
  }

  lemma ListingHasRows(sagas: map<Uuid, Saga>, tables: seq<map<Uuid, Saga>>, pages: seq<Page>, w: Walker, j: nat)
    requires forall i | 0 <= i < |tables| :: tables[i] == sagas
    requires Walk(tables, pages, w) && j < |Listing(pages)|
    ensures Listing(pages)[j].provisioningId in sagas.Keys
  {
    ListingIsRead(tables, pages, w, j);
  }

  // Following next_cursor on a fixed table comes to an end: no walk has more than one page more
  // than there are rows.
  lemma WalkEnds(sagas: map<Uuid, Saga>, tables: seq<map<Uuid, Saga>>, pages: seq<Page>, w: Walker)
    requires forall i | 0 <= i < |tables| :: tables[i] == sagas
    requires Walk(tables, pages, w)
    ensures |pages| <= |sagas| + 1
  {
    if |pages| > 0 {
      WalkIsShort(sagas, tables, pages, w);
      PagesAreFull(tables, pages, w, |pages| - 1);
    }
  }

  lemma WalkIsShort(sagas: map<Uuid, Saga>, tables: seq<map<Uuid, Saga>>, pages: seq<Page>, w: Walker)
    requires forall i | 0 <= i < |tables| :: tables[i] == sagas
    requires Walk(tables, pages, w)
    ensures |Listing(pages)| <= |sagas|
  {
    forall p ensures AtMostOnce(Listing(pages), p) {
      WalkNeverRepeats(tables, pages, w, p);
    }
    forall j | 0 <= j < |Listing(pages)|
      ensures Listing(pages)[j].provisioningId in sagas.Keys
    {
      ListingHasRows(sagas, tables, pages, w, j);
    }
    DistinctItems(Listing(pages), sagas.Keys);
  }

  /* ---------- Walks while the tables change ---------- */

  // States of one run, with any steps in between.
  predicate Passing(dbs: seq<Db>, between: seq<seq<Step>>) {
    |dbs| <= |between| + 1 && forall i | 0 < i < |dbs| :: PassingAt(dbs, between, i)
  }

  predicate PassingAt(dbs: seq<Db>, between: seq<seq<Step>>, i: nat)
    requires 0 < i < |dbs| <= |between| + 1
  {
    dbs[i] == Run(dbs[i - 1], between[i - 1])
  }

  function Tables(dbs: seq<Db>): seq<map<Uuid, Saga>> {
    seq(|dbs|, i requires 0 <= i < |dbs| => dbs[i].sagas)
  }

  // Row p of the earlier tables is still there, at its position.
  predicate SamePlace(d: Db, e: Db, p: Uuid) {
    && p in d.sagas && p in e.sagas
    && e.sagas[p].row.createdAt == d.sagas[p].row.createdAt && e.sagas[p].row.requestedBy == d.sagas[p].row.requestedBy
  }

  predicate Preserving(dbs: seq<Db>) {
    forall i | 0 < i < |dbs| :: PlacesKept(dbs[i - 1], dbs[i])
  }

  predicate PlacesKept(d: Db, e: Db) {
    forall p | p in d.sagas :: SamePlace(d, e, p)
  }

  lemma RowStays(db: Db, steps: seq<Step>, p: Uuid)
    requires SagasInv(db) && p in db.sagas
    ensures SamePlace(db, Run(db, steps), p)
  {
    RunLater(db, steps, p);
  }

  lemma RunKeepsPlaces(db: Db, steps: seq<Step>)
    requires SagasInv(db)
    ensures PlacesKept(db, Run(db, steps))
  {
    forall p | p in db.sagas
      ensures SamePlace(db, Run(db, steps), p)
    {
      RowStays(db, steps, p);
    }
  }

  lemma PassingPreserves(dbs: seq<Db>, between: seq<seq<Step>>)
    requires Passing(dbs, between) && |dbs| > 0 && SagasInv(dbs[0])
    ensures Preserving(dbs)
  {
    forall i | 0 < i < |dbs|
      ensures PlacesKept(dbs[i - 1], dbs[i])
    {
      InvThroughout(dbs, between, i - 1);
      assert PassingAt(dbs, between, i);
      RunKeepsPlaces(dbs[i - 1], between[i - 1]);
    }
  }

  lemma {:induction false} RowsStay(dbs: seq<Db>, i: nat, j: nat, p: Uuid)
    requires Preserving(dbs) && i <= j < |dbs| && p in dbs[i].sagas
    ensures SamePlace(dbs[i], dbs[j], p)
  {
    if i < j {
      RowsStay(dbs, i, j - 1, p);
      assert PlacesKept(dbs[j - 1], dbs[j]);
    }
  }

  lemma {:induction false} InvThroughout(dbs: seq<Db>, between: seq<seq<Step>>, i: nat)
    requires Passing(dbs, between) && i < |dbs| && SagasInv(dbs[0])
    ensures SagasInv(dbs[i])
  {
    if i > 0 {
      InvThroughout(dbs, between, i - 1);
      assert PassingAt(dbs, between, i);
      RunStaysInv(dbs[i - 1], between[i - 1]);
    }
  }

  lemma PlacesAreFixed(dbs: seq<Db>)
    requires Preserving(dbs)
    ensures Fixed(Tables(dbs))
  {
    forall i, j, p | 0 <= i <= j < |dbs| && p in dbs[i].sagas
      ensures SamePlace(dbs[i], dbs[j], p)
    {
      RowsStay(dbs, i, j, p);
    }
  }

  // A completed walk returns every saga that matches at each of its page reads exactly once, and no
  // saga twice, whatever inserts and steps are committed between its pages.
  lemma WalkKeepsMatching(dbs: seq<Db>, between: seq<seq<Step>>, pages: seq<Page>, w: Walker, p: Uuid)
    requires Passing(dbs, between) && |dbs| > 0 && SagasInv(dbs[0])
    requires Walk(Tables(dbs), pages, w) && Completed(pages)
    ensures Descending(Listing(pages)) && AtMostOnce(Listing(pages), p)
    ensures (forall i | 0 <= i < |dbs| :: Wanted(dbs[i].sagas, p, w.actor, w.status)) ==> Once(Listing(pages), p)
  {
    PassingPreserves(dbs, between);
    PlacesAreFixed(dbs);
    WalkDescends(Tables(dbs), pages, w);
    WalkNeverRepeats(Tables(dbs), pages, w, p);
    if forall i | 0 <= i < |dbs| :: Wanted(dbs[i].sagas, p, w.actor, w.status) {
      assert forall i | 0 <= i < |dbs| :: MatchesIn(dbs[i].sagas, p, w.At(None));
      assert MatchesIn(dbs[0].sagas, p, w.At(None));
      MatchingStays(dbs, p, w);
      WalkReaches(Tables(dbs), pages, w, p, dbs[0].sagas[p].row.createdAt, |pages|);
    }
  }

  lemma MatchingStays(dbs: seq<Db>, p: Uuid, w: Walker)
    requires Preserving(dbs) && |dbs| > 0
    requires forall i | 0 <= i < |dbs| :: MatchesIn(dbs[i].sagas, p, w.At(None))
    ensures p in dbs[0].sagas && Stays(Tables(dbs), p, w, dbs[0].sagas[p].row.createdAt)
  {
    assert MatchesIn(dbs[0].sagas, p, w.At(None));
    forall i | 0 <= i < |dbs|
      ensures SamePlace(dbs[0], dbs[i], p)
    {
      RowsStay(dbs, 0, i, p);
    }
  }

  // So with no status filter it returns every saga its caller had when it began exactly once.
  lemma WalkSurvivesChanges(dbs: seq<Db>, between: seq<seq<Step>>, pages: seq<Page>, actor: string, limit: nat, p: Uuid)
    requires Passing(dbs, between) && |dbs| > 0 && SagasInv(dbs[0])
    requires Walk(Tables(dbs), pages, Walker(actor, None, limit)) && Completed(pages)
    requires Wanted(dbs[0].sagas, p, actor, None)
    ensures Once(Listing(pages), p)
  {
    PassingPreserves(dbs, between);
    forall i | 0 <= i < |dbs|
      ensures Wanted(dbs[i].sagas, p, actor, None)
    {
      RowsStay(dbs, 0, i, p);
    }
    WalkKeepsMatching(dbs, between, pages, Walker(actor, None, limit), p);
  }
}
