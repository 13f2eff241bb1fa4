/** The operations timeline: pages of events in order of time and id, each resuming after a cursor. */
module Timeline {
  import opened Tables

  /** An event with its timestamp and its id; ids are compared as text, of which only the order matters. */
  datatype Item = Item(at: int, id: int, body: string)

  datatype Cursor = Cursor(at: int, id: int)

  function Place(item: Item): Cursor {
    Cursor(item.at, item.id)
  }

  predicate Before(a: Cursor, b: Cursor) {
    a.at < b.at || (a.at == b.at && a.id < b.id)
  }

  /** At most this many of the newest events of each source are read. */
  const SOURCE_LIMIT: nat := 500

  // ---- Sorting --------------------------------------------------------------------------------

  ghost predicate Sorted(items: seq<Item>) {
    forall i, j :: 0 <= i < j < |items| ==> Before(Place(items[i]), Place(items[j]))
  }

  function Insert(items: seq<Item>, x: Item): seq<Item> {
    if items == [] then [x]
    else if Before(Place(x), Place(items[0])) then [x] + items
    else [items[0]] + Insert(items[1..], x)
  }

  function Sort(items: seq<Item>): seq<Item> {
    if items == [] then [] else Insert(Sort(items[..|items| - 1]), items[|items| - 1])
  }

  /** Every event has a place of its own. */
  ghost predicate Apart(items: seq<Item>) {
    forall i, j :: 0 <= i < j < |items| ==> Place(items[i]) != Place(items[j])
  }

  lemma {:induction false} InsertHolds(items: seq<Item>, x: Item)
    ensures multiset(Insert(items, x)) == multiset(items) + multiset{x}
  {
    if items != [] {
      assert items == [items[0]] + items[1..];
      if !Before(Place(x), Place(items[0])) {
        InsertHolds(items[1..], x);
      }
    }
  }

  lemma ConsSorted(x: Item, rest: seq<Item>)
    requires Sorted(rest) && (rest != [] ==> Before(Place(x), Place(rest[0])))
    ensures Sorted([x] + rest)
  {
    var all := [x] + rest;
    forall i, j | 0 <= i < j < |all| ensures Before(Place(all[i]), Place(all[j])) {
      if i > 0 {
        assert all[i] == rest[i - 1] && all[j] == rest[j - 1];
      } else if j > 1 {
        assert Before(Place(rest[0]), Place(rest[j - 1]));
      }
    }
  }

  lemma {:induction false} InsertSorts(items: seq<Item>, x: Item)
    requires Sorted(items) && forall i :: 0 <= i < |items| ==> Place(items[i]) != Place(x)
    ensures Sorted(Insert(items, x))
  {
    if items != [] {
      if Before(Place(x), Place(items[0])) {
        ConsSorted(x, items);
      } else {
        var tail := items[1..];
        assert forall i :: 0 <= i < |tail| ==> tail[i] == items[i + 1];
        InsertSorts(tail, x);
        assert Before(Place(items[0]), Place(Insert(tail, x)[0])) by {
          assert Before(Place(items[0]), Place(x));
          assert tail != [] ==> Before(Place(items[0]), Place(items[1]));
        }
        ConsSorted(items[0], Insert(tail, x));
      }
    }
  }

  lemma {:induction false} SortHolds(items: seq<Item>)
    ensures multiset(Sort(items)) == multiset(items)
  {
    if items != [] {
      var init, x := items[..|items| - 1], items[|items| - 1];
      SortHolds(init);
      InsertHolds(Sort(init), x);
      assert items == init + [x];
    }
  }

  lemma {:induction false} SortSorts(items: seq<Item>)
    requires Apart(items)
    ensures Sorted(Sort(items))
  {
    if items != [] {
      var init, x := items[..|items| - 1], items[|items| - 1];
      SortSorts(init);
      SortHolds(init);
      forall i | 0 <= i < |Sort(init)| ensures Place(Sort(init)[i]) != Place(x) {
        assert Sort(init)[i] in multiset(Sort(init));
        assert Sort(init)[i] in init;
      }
      InsertSorts(Sort(init), x);
    }
  }

  // ---- Pages ----------------------------------------------------------------------------------

  function After(items: seq<Item>, cursor: Option<Cursor>): seq<Item> {
    match cursor
    case None => items
    case Some(c) =>
      if items == [] then []
      else
        After(items[..|items| - 1], cursor)
        + (if Before(c, Place(items[|items| - 1])) then [items[|items| - 1]] else [])
  }

  datatype Page = Page(items: seq<Item>, next: Option<Cursor>)

  function Take(items: seq<Item>, limit: nat): seq<Item> {
    if |items| <= limit then items else items[..limit]
  }

  /** The newest events of a source, as its query returns them. */
  function Newest(items: seq<Item>): seq<Item> {
    var sorted := Sort(items);
    if |sorted| <= SOURCE_LIMIT then sorted else sorted[|sorted| - SOURCE_LIMIT..]
  }

  /** The cursor that points at the last of `items`. */
  function CursorOf(items: seq<Item>): Option<Cursor> {
    if items == [] then None else Some(Place(items[|items| - 1]))
  }

  /** The first `limit` events after the cursor, of events already in order. */
  function PageFrom(sorted: seq<Item>, cursor: Option<Cursor>, limit: nat): Page {
    var selected := Take(After(sorted, cursor), limit);
    Page(selected, if selected == [] then cursor else CursorOf(selected))
  }

  function PageOf(events: seq<Item>, cursor: Option<Cursor>, limit: nat): Page {
    PageFrom(Sort(events), cursor, limit)
  }

  method Later(events: seq<Item>, c: Cursor) returns (later: seq<Item>)
    ensures later == After(events, Some(c))
  {
    later := [];
    for i := 0 to |events|
      invariant later == After(events[..i], Some(c))
    {
      assert events[..i + 1][..i] == events[..i];
      if Before(c, Place(events[i])) {
        later := later + [events[i]];
      }
    }
    assert events[..|events|] == events;
  }

  /** `timeline_view` over run events and audit events. */
  method TimelineView(runEvents: seq<Item>, audits: seq<Item>, cursor: Option<Cursor>, limit: nat) returns (page: Page)
    ensures page == PageOf(Newest(runEvents) + Newest(audits), cursor, limit)
  {
    var events := Newest(runEvents);
    events := events + Newest(audits);
    events := Sort(events);
    if cursor.Some? {
      events := Later(events, cursor.value);
    }
    var selected := Take(events, limit);
    page := Page(selected, if selected == [] then cursor else CursorOf(selected));
  }

  // ---- Following the cursor -------------------------------------------------------------------

  lemma {:induction false} NothingAfter(items: seq<Item>, c: Cursor)
    requires forall i :: 0 <= i < |items| ==> !Before(c, Place(items[i]))
    ensures After(items, Some(c)) == []
  {
    if items != [] {
      NothingAfter(items[..|items| - 1], c);
    }
  }

  /** What comes after the last event of a prefix is the rest of the list. */
  lemma {:induction false} AfterPrefix(read: seq<Item>, rest: seq<Item>)
    requires Sorted(read + rest)
    ensures After(read + rest, CursorOf(read)) == rest
  {
    var all := read + rest;
    if read != [] {
      var c := Place(read[|read| - 1]);
      assert all[|read| - 1] == read[|read| - 1];
      if rest == [] {
        assert all == read;
        NothingAfter(all, c);
      } else {
        var init := rest[..|rest| - 1];
        assert all[..|all| - 1] == read + init;
        assert forall i :: 0 <= i < |read + init| ==> (read + init)[i] == all[i];
        AfterPrefix(read, init);
        assert Before(c, Place(all[|all| - 1]));
        assert init + [rest[|rest| - 1]] == rest;
      }
    } else {
      assert all == rest;
    }
  }

  lemma CursorMoves(read: seq<Item>, selected: seq<Item>)
    ensures CursorOf(read + selected) == if selected == [] then CursorOf(read) else CursorOf(selected)
  {
    if selected == [] {
      assert read + selected == read;
    }
  }

  /** The next page carries on exactly where the reader stopped. */
  lemma {:induction false} PageCarriesOn(read: seq<Item>, rest: seq<Item>, limit: nat)
    requires Sorted(read + rest)
    ensures PageFrom(read + rest, CursorOf(read), limit) == Page(Take(rest, limit), CursorOf(read + Take(rest, limit)))
  {
    AfterPrefix(read, rest);
    CursorMoves(read, Take(rest, limit));
  }

  /** Following `next_cursor` for `pages` pages. */
  function Follow(events: seq<Item>, limit: nat, pages: nat): Page {
    if pages == 0 then Page([], None)
    else
      var before := Follow(events, limit, pages - 1);
      var page := PageOf(events, before.next, limit);
      Page(before.items + page.items, page.next)
  }

  lemma TakeMore(sorted: seq<Item>, n: nat, limit: nat)
    ensures var read := Take(sorted, n);
            read + Take(sorted[|read|..], limit) == Take(sorted, n + limit) && read + sorted[|read|..] == sorted
  {
  }

  lemma {:induction false} FollowReads(events: seq<Item>, limit: nat, pages: nat, n: nat)
    requires Sorted(Sort(events)) && n == pages * limit
    ensures Follow(events, limit, pages) == Page(Take(Sort(events), n), CursorOf(Take(Sort(events), n)))
  {
    if pages == 0 {
      assert n == 0 && Take(Sort(events), 0) == [];
    } else {
      OnePageLess(pages, limit);
      FollowReads(events, limit, pages - 1, n - limit);
      FollowOnce(events, limit, n - limit, Follow(events, limit, pages - 1));
    }
  }

  lemma OnePageLess(pages: nat, limit: nat)
    requires pages > 0
    ensures pages * limit - limit == (pages - 1) * limit >= 0
  {
  }

  lemma FollowOnce(events: seq<Item>, limit: nat, n: nat, before: Page)
    requires Sorted(Sort(events)) && before == Page(Take(Sort(events), n), CursorOf(Take(Sort(events), n)))
    ensures var page := PageOf(events, before.next, limit);
            Page(before.items + page.items, page.next) ==
            Page(Take(Sort(events), n + limit), CursorOf(Take(Sort(events), n + limit)))
  {
    TakeMore(Sort(events), n, limit);
    PageCarriesOn(before.items, Sort(events)[|before.items|..], limit);
  }

  /**
    Whatever the page size, following the cursor long enough yields every event exactly once, in order
    of time and id, and from then on empty pages.
   */
  lemma PagingEnumerates(events: seq<Item>, limit: nat, pages: nat)
    requires Apart(events) && limit >= 1 && pages >= |events|
    ensures Sorted(Follow(events, limit, pages).items)
    ensures multiset(Follow(events, limit, pages).items) == multiset(events)
    ensures PageOf(events, Follow(events, limit, pages).next, limit).items == []
  {
    SortSorts(events);
    SortHolds(events);
    FollowReads(events, limit, pages, pages * limit);
    var sorted := Sort(events);
    assert |sorted| == |multiset(sorted)| == |multiset(events)| == |events|;
    EnoughPages(|sorted|, limit, pages);
    assert sorted + [] == sorted;
    PageCarriesOn(sorted, [], limit);
  }

  lemma EnoughPages(n: nat, limit: nat, pages: nat)
    requires limit >= 1 && pages >= n
    ensures pages * limit >= n
  {
    assert pages * limit >= pages * 1;
  }

  // ---- A feed that grows ----------------------------------------------------------------------

  /** What the reader has after one page from each state. */
  function Read(states: seq<seq<Item>>, limit: nat): Page {
    if states == [] then Page([], None)
    else
      var before := Read(states[..|states| - 1], limit);
      var page := PageOf(states[|states| - 1], before.next, limit);
      Page(before.items + page.items, page.next)
  }

  lemma ReadOnce(now: seq<Item>, read: seq<Item>, limit: nat, page: Page)
    requires Sorted(Sort(now)) && read <= Sort(now) && page == PageOf(now, CursorOf(read), limit)
    ensures page.next == CursorOf(read + page.items) && read + page.items <= Sort(now)
  {
    var rest := Sort(now)[|read|..];
    assert Sort(now) == read + rest;
    PageCarriesOn(read, rest, limit);
  }

  /**
    What may happen to the table between two pages: nothing disappears, and what appears lies beyond the
    cursor that the reader holds at that moment.
   */
  ghost predicate Grows(a: seq<Item>, b: seq<Item>, cursor: Option<Cursor>) {
    && (forall x :: x in a ==> x in b)
    && forall x :: x in b && x !in a && cursor.Some? ==> Before(cursor.value, Place(x))
  }

  ghost predicate GrowsAhead(states: seq<seq<Item>>, limit: nat) {
    && (forall i :: 0 <= i < |states| ==> Apart(states[i]))
    && forall i :: 0 < i < |states| ==> Grows(states[i - 1], states[i], Read(states[..i], limit).next)
  }

  lemma GrewAhead(states: seq<seq<Item>>, limit: nat)
    requires GrowsAhead(states, limit) && states != []
    ensures GrowsAhead(states[..|states| - 1], limit)
  {
    var init := states[..|states| - 1];
    forall i | 0 < i < |init| ensures Grows(init[i - 1], init[i], Read(init[..i], limit).next) {
      assert init[..i] == states[..i];
    }
  }

  lemma SortedOrder(items: seq<Item>, i: nat, j: nat)
    requires Sorted(items) && i < |items| && j < |items|
    ensures Before(Place(items[i]), Place(items[j])) <==> i < j
    ensures items[i] == items[j] <==> i == j
  {
  }

  /** Sorted lists of the same events are the same list. */
  lemma {:induction false} SortedUnique(a: seq<Item>, b: seq<Item>)
    requires Sorted(a) && Sorted(b) && forall x :: x in a <==> x in b
    ensures a == b
  {
    if a != [] || b != [] {
      assert (a != [] ==> a[0] in b) && (b != [] ==> b[0] in a);
      var x, y := a[|a| - 1], b[|b| - 1];
      assert x in b && y in a;
      LastIsLatest(a, y);
      LastIsLatest(b, x);
      assert x == y;
      var m, n := a[..|a| - 1], b[..|b| - 1];
      forall z ensures z in m <==> z in n {
        InitHolds(a, z);
        InitHolds(b, z);
      }
      SortedUnique(m, n);
    }
  }

  lemma LastIsLatest(items: seq<Item>, x: Item)
    requires Sorted(items) && x in items
    ensures x == items[|items| - 1] || Before(Place(x), Place(items[|items| - 1]))
  {
    var i :| 0 <= i < |items| && items[i] == x;
  }

  lemma InitHolds(items: seq<Item>, z: Item)
    requires Sorted(items) && items != []
    ensures z in items[..|items| - 1] <==> z in items && z != items[|items| - 1]
  {
    var last := |items| - 1;
    if z in items && z != items[last] {
      var i :| 0 <= i < |items| && items[i] == z;
      assert items[..last][i] == z;
    }
    if z in items[..last] {
      var i :| 0 <= i < last && items[i] == z;
      SortedOrder(items, i, last);
    }
  }

  /** What was read stays a prefix of the sorted table while it grows ahead. */
  lemma PrefixStays(a: seq<Item>, b: seq<Item>, read: seq<Item>)
    requires Sorted(a) && Sorted(b) && read <= a && Grows(a, b, CursorOf(read))
    ensures read <= b
  {
    if read != [] {
      var last := read[|read| - 1];
      assert last in a;
      var n :| 0 <= n < |b| && b[n] == last;
      assert b[..n + 1][n] == last;
      forall x ensures x in read <==> x in b[..n + 1] {
        if x in read {
          ReadIsEarly(a, b, read, n, x);
        }
        if x in b[..n + 1] {
          EarlyIsRead(a, b, read, n, x);
        }
      }
      SortedUnique(read, b[..n + 1]);
    }
  }

  lemma ReadIsEarly(a: seq<Item>, b: seq<Item>, read: seq<Item>, n: nat, x: Item)
    requires Sorted(a) && Sorted(b) && read <= a && Grows(a, b, CursorOf(read))
    requires x in read && n < |b| && b[n] == read[|read| - 1]
    ensures x in b[..n + 1]
  {
    var i :| 0 <= i < |read| && read[i] == x;
    assert a[i] == x && a[|read| - 1] == b[n];
    SortedOrder(a, |read| - 1, i);
    assert x in a;
    var j :| 0 <= j < |b| && b[j] == x;
    SortedOrder(b, n, j);
    assert b[..n + 1][j] == x;
  }

  lemma EarlyIsRead(a: seq<Item>, b: seq<Item>, read: seq<Item>, n: nat, x: Item)
    requires Sorted(a) && Sorted(b) && read <= a && read != [] && Grows(a, b, CursorOf(read))
    requires n < |b| && b[n] == read[|read| - 1] && x in b[..n + 1]
    ensures x in read
  {
    var j :| 0 <= j <= n && b[j] == x;
    SortedOrder(b, n, j);
    assert !Before(Place(b[n]), Place(x));
    assert x in b && x in a;
    var i :| 0 <= i < |a| && a[i] == x;
    SortedOrder(a, |read| - 1, i);
    assert read[i] == x;
  }

  lemma SortHasSame(items: seq<Item>, x: Item)
    ensures x in Sort(items) <==> x in items
  {
    SortHolds(items);
    assert x in multiset(Sort(items)) <==> x in multiset(items);
  }

  lemma SortGrows(a: seq<Item>, b: seq<Item>, cursor: Option<Cursor>)
    requires Grows(a, b, cursor)
    ensures Grows(Sort(a), Sort(b), cursor)
  {
    forall x ensures (x in Sort(a) <==> x in a) && (x in Sort(b) <==> x in b) {
      SortHasSame(a, x);
      SortHasSame(b, x);
    }
  }

  /**
    A reader of a table that only grows beyond the reader's cursor holds, after every page, exactly the
    events up to that cursor: none lost, none twice, in order.
   */
  lemma {:induction false} GrowingFeedLosesNothing(states: seq<seq<Item>>, limit: nat, got: Page)
    requires GrowsAhead(states, limit) && got == Read(states, limit)
    ensures got.next == CursorOf(got.items)
    ensures states != [] ==> got.items <= Sort(states[|states| - 1])
  {
    if states != [] {
      var n := |states| - 1;
      var init, before := states[..n], Read(states[..n], limit);
      GrewAhead(states, limit);
      GrowingFeedLosesNothing(init, limit, before);
      SortSorts(states[n]);
      if n > 0 {
        SortSorts(states[n - 1]);
        SortGrows(states[n - 1], states[n], before.next);
        PrefixStays(Sort(states[n - 1]), Sort(states[n]), before.items);
      }
      ReadOnce(states[n], before.items, limit, PageOf(states[n], before.next, limit));
    }
  }

  // ---- What the source queries leave out --------------------------------------------------------

  function NewerThan(x: Item): Item -> bool {
    (y: Item) => Before(Place(x), Place(y))
  }

  lemma {:induction false} InsertCounts(items: seq<Item>, x: Item, p: Item -> bool)
    ensures Count(Insert(items, x), p) == Count(items, p) + (if p(x) then 1 else 0)
  {
    if items == [] {
      assert Insert(items, x) == [] + [x];
      CountAppend([], x, p);
    } else {
      CountCons(items[0], items[1..], p);
      assert [items[0]] + items[1..] == items;
      if Before(Place(x), Place(items[0])) {
        CountCons(x, items, p);
      } else {
        InsertCounts(items[1..], x, p);
        CountCons(items[0], Insert(items[1..], x), p);
      }
    }
  }

  lemma {:induction false} CountCons(x: Item, rest: seq<Item>, p: Item -> bool)
    ensures Count([x] + rest, p) == (if p(x) then 1 else 0) + Count(rest, p)
  {
    if rest == [] {
      assert [x] + rest == [] + [x];
      CountAppend([], x, p);
    } else {
      var init, last := rest[..|rest| - 1], rest[|rest| - 1];
      CountCons(x, init, p);
      assert [x] + rest == ([x] + init) + [last] && rest == init + [last];
      CountAppend([x] + init, last, p);
      CountAppend(init, last, p);
    }
  }

  lemma {:induction false} SortCounts(items: seq<Item>, p: Item -> bool)
    ensures Count(Sort(items), p) == Count(items, p)
  {
    if items != [] {
      var init, x := items[..|items| - 1], items[|items| - 1];
      SortCounts(init, p);
      InsertCounts(Sort(init), x, p);
    }
  }

  /** In a sorted list the events newer than the `i`-th are those behind it. */
  lemma {:induction false} NewerCount(sorted: seq<Item>, i: nat, n: nat)
    requires Sorted(sorted) && i < |sorted| && n <= |sorted|
    ensures Count(sorted[..n], NewerThan(sorted[i])) == if n <= i then 0 else n - 1 - i
  {
    if n > 0 {
      NewerCount(sorted, i, n - 1);
      CountNext(sorted, n - 1, NewerThan(sorted[i]));
      SortedOrder(sorted, i, n - 1);
    }
  }

  lemma NewestOfSorted(sorted: seq<Item>, i: nat, limit: nat)
    requires Sorted(sorted) && i < |sorted| && limit < |sorted|
    ensures sorted[i] in sorted[|sorted| - limit..] <==> |sorted| - limit <= i
  {
    var tail := sorted[|sorted| - limit..];
    if |sorted| - limit <= i {
      assert tail[i - (|sorted| - limit)] == sorted[i];
    }
    if sorted[i] in tail {
      var k :| 0 <= k < |tail| && tail[k] == sorted[i];
      SortedOrder(sorted, k + (|sorted| - limit), i);
    }
  }

  /** A source's query returns an event exactly when fewer than five hundred of its events are newer. */
  lemma NewestExactly(items: seq<Item>, x: Item)
    requires Apart(items)
    ensures x in Newest(items) <==> x in items && Count(items, NewerThan(x)) < SOURCE_LIMIT
  {
    var sorted := Sort(items);
    SortSorts(items);
    SortHasSame(items, x);
    SortCounts(items, NewerThan(x));
    if x in items {
      var i :| 0 <= i < |sorted| && sorted[i] == x;
      NewerCount(sorted, i, |sorted|);
      assert sorted[..|sorted|] == sorted;
      if |sorted| > SOURCE_LIMIT {
        NewestOfSorted(sorted, i, SOURCE_LIMIT);
      }
    }
  }

  lemma NewestSorted(items: seq<Item>)
    requires Apart(items)
    ensures Sorted(Newest(items))
  {
    SortSorts(items);
  }

  lemma SourcesApart(a: seq<Item>, b: seq<Item>, x: Item, y: Item)
    requires Apart(a + b) && x in a && y in b
    ensures Apart(a) && Apart(b) && Place(x) != Place(y)
  {
    var i :| 0 <= i < |a| && a[i] == x;
    var j :| 0 <= j < |b| && b[j] == y;
    assert (a + b)[i] == x && (a + b)[|a| + j] == y;
    PartsApart(a, b);
  }

  lemma PartsApart(a: seq<Item>, b: seq<Item>)
    requires Apart(a + b)
    ensures Apart(a) && Apart(b)
  {
    var all := a + b;
    forall i, j | 0 <= i < j < |a| ensures Place(a[i]) != Place(a[j]) {
      assert all[i] == a[i] && all[j] == a[j];
    }
    forall i, j | 0 <= i < j < |b| ensures Place(b[i]) != Place(b[j]) {
      assert all[|a| + i] == b[i] && all[|a| + j] == b[j];
    }
  }

  lemma NewestApart(runEvents: seq<Item>, audits: seq<Item>)
    requires Apart(runEvents + audits)
    ensures Apart(Newest(runEvents) + Newest(audits))
  {
    PartsApart(runEvents, audits);
    NewestSorted(runEvents);
    NewestSorted(audits);
    var a, b := Newest(runEvents), Newest(audits);
    forall i, j | 0 <= i < |a| && 0 <= j < |b| ensures Place(a[i]) != Place(b[j]) {
      NewestExactly(runEvents, a[i]);
      NewestExactly(audits, b[j]);
      SourcesApart(runEvents, audits, a[i], b[j]);
    }
  }

  ghost predicate Shown(source: seq<Item>, x: Item) {
    x in source && Count(source, NewerThan(x)) < SOURCE_LIMIT
  }

  lemma {:induction false} FollowShows(events: seq<Item>, limit: nat, pages: nat, n: nat, x: Item)
    requires Apart(events) && n == pages * limit && x in Follow(events, limit, pages).items
    ensures x in events
  {
    SortSorts(events);
    FollowReads(events, limit, pages, n);
    SortHasSame(events, x);
  }

  /** An event with five hundred newer ones in its source is on no page, however far the cursor is followed. */
  lemma {:induction false} OldEventsAreUnreachable(
    runEvents: seq<Item>, audits: seq<Item>, events: seq<Item>, limit: nat, pages: nat, x: Item)
    requires Apart(runEvents + audits) && events == Newest(runEvents) + Newest(audits)
    requires !Shown(runEvents, x) && !Shown(audits, x)
    ensures x !in Follow(events, limit, pages).items
  {
    NewestApart(runEvents, audits);
    PartsApart(runEvents, audits);
    NewestExactly(runEvents, x);
    NewestExactly(audits, x);
    if x in Follow(events, limit, pages).items {
      FollowShows(events, limit, pages, pages * limit, x);
    }
  }

  /** And once the cursor has been followed far enough, exactly the other events have been on a page. */
  lemma {:induction false} PagesShowExactly(
    runEvents: seq<Item>, audits: seq<Item>, events: seq<Item>, limit: nat, pages: nat, x: Item)
    requires Apart(runEvents + audits) && events == Newest(runEvents) + Newest(audits)
    requires limit >= 1 && pages >= |events|
    ensures x in Follow(events, limit, pages).items <==> Shown(runEvents, x) || Shown(audits, x)
  {
    NewestApart(runEvents, audits);
    PartsApart(runEvents, audits);
    NewestExactly(runEvents, x);
    NewestExactly(audits, x);
    PagingEnumerates(events, limit, pages);
    assert x in multiset(Follow(events, limit, pages).items) <==> x in multiset(events);
  }
}
