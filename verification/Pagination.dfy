/** The task list of the dashboard: from the query parameters to the rows of a page. */
module Pagination {
  import opened Wrappers
  import opened Backoff
  import opened Sets

  const DEFAULT_LIMIT := 20

  const MAX_LIMIT := 100

  datatype Page = Page(limit: nat, offset: int, currentPage: int, totalPages: int)

  /** Go's division by a positive number truncates towards zero. */
  function TruncatedDiv(a: int, b: int): int
    requires b > 0
  {
    if a >= 0 then a / b else -((-a) / b)
  }

  predicate IsInt64(x: int)
  {
    -0x8000_0000_0000_0000 <= x < 0x8000_0000_0000_0000
  }

  /** The page size: 20 unless a positive number is given, and at most 100. */
  function Limit(limit: Option<int>): (r: nat)
    ensures 1 <= r <= MAX_LIMIT
  {
    if limit.None? || limit.value <= 0 then DEFAULT_LIMIT
    else if limit.value > MAX_LIMIT then MAX_LIMIT
    else limit.value
  }

  /** The page that a request asks for: the first one unless a number above 1 is given. */
  function Requested(page: Option<int>): (r: int)
    ensures r >= 1 && (r > 1 ==> page == Some(r)) && (page.Some? && page.value >= 1 ==> page.value == r)
  {
    if page.Some? && page.value > 1 then page.value else 1
  }

  /** The rows of a query with LIMIT and OFFSET. PostgreSQL refuses a negative offset. */
  function Select<T>(rows: seq<T>, limit: nat, offset: nat): seq<T>
  {
    if offset >= |rows| then [] else if offset + limit >= |rows| then rows[offset..] else rows[offset..offset + limit]
  }

  /** The parameters are the results of Atoi, or nothing if it fails. */
  method HandleTasks(limitParam: Option<int>, pageParam: Option<int>, total: nat) returns (page: Page)
    requires pageParam.Some? ==> IsInt64(pageParam.value)
    ensures page.limit == Limit(limitParam)
    ensures page.limit == if limitParam == None || limitParam.value <= 0 then 20
                          else if limitParam.value > 100 then 100 else limitParam.value
    ensures var asked := if pageParam.Some? && pageParam.value > 1 then pageParam.value else 1;
            && asked == Requested(pageParam)
            && (page.currentPage == asked <==> IsInt64((asked - 1) * page.limit))
            && (page.currentPage == asked ==> page.offset == (page.currentPage - 1) * page.limit)
    ensures forall n: nat :: n >= page.totalPages <==> n * page.limit >= total
  {
    var limit, offset := DEFAULT_LIMIT, 0;
    if limitParam.Some? && limitParam.value > 0 {
      limit := limitParam.value;
      if limit > MAX_LIMIT { limit := MAX_LIMIT; }
    }
    if pageParam.Some? && pageParam.value > 1 {
      offset := Wrap64((pageParam.value - 1) * limit);
    }
    var currentPage := TruncatedDiv(offset, limit) + 1;
    var totalPages := (total + limit - 1) / limit;
    PageIsShown(Requested(pageParam), limit);
    forall n: nat
      ensures n >= totalPages <==> n * limit >= total
    {
      TotalPages(total, limit, n);
    }
    page := Page(limit, offset, currentPage, totalPages);
  }

  /** The number on the page is the number that was asked for, unless the offset overflows. */
  lemma PageIsShown(page: int, limit: nat)
    requires 1 <= page < 0x8000_0000_0000_0000 && 1 <= limit <= MAX_LIMIT
    ensures var offset := (page - 1) * limit;
            && (IsInt64(offset) ==> Wrap64(offset) == offset)
            && (TruncatedDiv(Wrap64(offset), limit) + 1 == page <==> IsInt64(offset))
  {
    var offset := (page - 1) * limit;
    var wrapped := Wrap64(offset);
    if IsInt64(offset) {
      Quotient(page - 1, limit);
    } else {
      var q := TruncatedDiv(wrapped, limit);
      if q == page - 1 {
        assert q >= 0;
        assert wrapped >= 0 || q == 0;
        assert wrapped < offset;
        if wrapped >= 0 {
          SmallerQuotient(wrapped, page - 1, limit);
        }
      }
    }
  }

  lemma {:induction false} MulOrder(a: int, b: int, m: nat)
    requires m > 0
    ensures a <= b <==> a * m <= b * m
    decreases m
  {
    if m > 1 {
      MulOrder(a, b, m - 1);
    }
  }

  lemma DivBounds(a: int, m: nat)
    requires m > 0
    ensures (a / m) * m <= a < (a / m + 1) * m
  {
    assert a == (a / m) * m + a % m;
  }

  lemma Quotient(q: nat, limit: nat)
    requires limit > 0
    ensures (q * limit) / limit == q
  {
    var n := q * limit;
    var r := n / limit;
    DivBounds(n, limit);
    MulOrder(r, q, limit);
    MulOrder(r + 1, q, limit);
  }

  lemma SmallerQuotient(a: nat, q: nat, limit: nat)
    requires limit > 0 && a < q * limit
    ensures a / limit < q
  {
    DivBounds(a, limit);
    MulOrder(q, a / limit, limit);
  }

  lemma TotalPages(total: nat, limit: nat, n: nat)
    requires limit > 0
    ensures n >= (total + limit - 1) / limit <==> n * limit >= total
  {
    var pages := (total + limit - 1) / limit;
    DivBounds(total + limit - 1, limit);
    MulOrder(pages, n, limit);
    MulOrder(n + 1, pages, limit);
  }

  /** The ID column, as a number. */
  type RowID = nat

  /** The IDs of the rows that match, and the value of each in the column that the list is sorted by. */
  datatype Listing = Listing(rows: set<RowID>, key: map<RowID, int>)
  {
    /** Every row has a value. */
    predicate Valid()
    {
      rows <= key.Keys
    }

    /**
     What ORDER BY promises: the rows by their value in one column, and rows with equal values in whatever order.
     A descending list is an ascending one with the values negated.
     */
    predicate Orders(order: seq<RowID>)
      requires Valid()
    {
      && Distinct(order) && Elements(order) == rows
      && (forall i, j :: 0 <= i < j < |order| ==> Key(order, i) <= Key(order, j))
    }

    function Key(order: seq<RowID>, i: nat): int
      requires Valid() && i < |order|
    {
      if order[i] in key then key[order[i]] else 0
    }
  }

  /** The number of rows on the first pages, if they are full. */
  function Boundary(pages: nat, limit: nat): nat
  {
    if pages == 0 then 0 else Boundary(pages - 1, limit) + limit
  }

  /** It is the offset that a request for the page after them has. */
  lemma {:induction false} BoundaryIsOffset(pages: nat, limit: nat)
    ensures Boundary(pages, limit) == pages * limit
  {
    if pages > 0 {
      BoundaryIsOffset(pages - 1, limit);
      assert pages * limit == (pages - 1) * limit + limit;
    }
  }

  lemma {:induction false} BoundaryMonotone(a: nat, b: nat, limit: nat)
    requires a <= b
    ensures Boundary(a, limit) <= Boundary(b, limit)
    decreases b
  {
    if a < b { BoundaryMonotone(a, b - 1, limit); }
  }

  /** The first n pages as they are shown, each one cut out of the order in which its own query found the rows. */
  function Shown(orders: seq<seq<RowID>>, limit: nat, n: nat): seq<RowID>
    requires n <= |orders|
  {
    if n == 0 then [] else Shown(orders, limit, n - 1) + Select(orders[n - 1], limit, Boundary(n - 1, limit))
  }

  predicate AllOrder(l: Listing, orders: seq<seq<RowID>>)
    requires l.Valid()
  {
    forall order :: order in orders ==> l.Orders(order)
  }

  lemma OrderOf(l: Listing, orders: seq<seq<RowID>>, page: nat)
    requires l.Valid() && AllOrder(l, orders) && page < |orders|
    ensures l.Orders(orders[page]) && |orders[page]| == |l.rows|
  {
    assert orders[page] in orders;
    ElementsSize(orders[page]);
  }

  /** Whoever turns all the pages sees every row, and none twice. */
  predicate ShowsEachOnce(shown: seq<RowID>, rows: set<RowID>)
  {
    Distinct(shown) && Elements(shown) == rows
  }

  /** The last row of a page and the first row of the next page have different values. */
  ghost predicate NoTieAcross(l: Listing, order: seq<RowID>, limit: nat)
    requires l.Valid()
  {
    forall pages: nat :: 0 < Boundary(pages, limit) < |order| ==>
      l.Key(order, Boundary(pages, limit) - 1) != l.Key(order, Boundary(pages, limit))
  }

  function UpTo(l: Listing, bound: int): set<RowID>
    requires l.Valid()
  {
    set x | x in l.rows && l.key[x] <= bound
  }

  lemma UpToContains(l: Listing, order: seq<RowID>, i: nat)
    requires l.Valid() && l.Orders(order) && i < |order|
    ensures Elements(order[..i + 1]) <= UpTo(l, l.Key(order, i))
    ensures forall bound :: bound < l.Key(order, i) ==> UpTo(l, bound) <= Elements(order[..i])
  {
    forall x | x in order[..i + 1]
      ensures x in UpTo(l, l.Key(order, i))
    {
      var j :| 0 <= j <= i && order[j] == x;
      assert x in Elements(order) && l.Key(order, j) <= l.Key(order, i);
    }
    forall bound, x | bound < l.Key(order, i) && x in UpTo(l, bound)
      ensures x in order[..i]
    {
      assert x in Elements(order);
      var j :| 0 <= j < |order| && order[j] == x;
      assert l.Key(order, j) <= bound;
      assert j < i;
      assert order[..i][j] == x;
    }
  }

  lemma KeyNotLess(l: Listing, order: seq<RowID>, order': seq<RowID>, i: nat)
    requires l.Valid() && l.Orders(order) && l.Orders(order') && i < |order| && i < |order'|
    ensures l.Key(order', i) <= l.Key(order, i)
  {
    if l.Key(order, i) < l.Key(order', i) {
      UpToContains(l, order, i);
      UpToContains(l, order', i);
      SubsetSize(Elements(order[..i + 1]), Elements(order'[..i]));
      ElementsSize(order[..i + 1]);
      ElementsSize(order'[..i]);
      assert false;
    }
  }

  /** All orders have the same values at the same positions. */
  lemma SameKeys(l: Listing, order: seq<RowID>, order': seq<RowID>)
    requires l.Valid() && l.Orders(order) && l.Orders(order')
    ensures |order| == |order'| == |l.rows|
    ensures forall i :: 0 <= i < |order| ==> l.Key(order, i) == l.Key(order', i)
  {
    ElementsSize(order);
    ElementsSize(order');
    forall i | 0 <= i < |order|
      ensures l.Key(order, i) == l.Key(order', i)
    {
      KeyNotLess(l, order, order', i);
      KeyNotLess(l, order', order, i);
    }
  }

  lemma PrefixIsBelow(l: Listing, order: seq<RowID>, b: nat)
    requires l.Valid() && l.Orders(order) && 0 < b < |order| && l.Key(order, b - 1) != l.Key(order, b)
    ensures Elements(order[..b]) == UpTo(l, l.Key(order, b) - 1)
  {
    UpToContains(l, order, b);
    UpToContains(l, order, b - 1);
    assert l.Key(order, b - 1) <= l.Key(order, b);
    forall x | x in order[..b]
      ensures x in UpTo(l, l.Key(order, b) - 1)
    {
      assert x in UpTo(l, l.Key(order, b - 1));
    }
  }

  /** Without a tie at `b`, every order has the same rows before `b`. */
  lemma SamePrefix(l: Listing, order: seq<RowID>, order': seq<RowID>, b: nat)
    requires l.Valid() && l.Orders(order) && l.Orders(order')
    requires 0 < b < |order| ==> l.Key(order, b - 1) != l.Key(order, b)
    ensures Elements(Prefix(order, b)) == Elements(Prefix(order', b))
  {
    SameKeys(l, order, order');
    if 0 < b < |order| {
      PrefixIsBelow(l, order, b);
      PrefixIsBelow(l, order', b);
    }
  }

  function Prefix<T>(rows: seq<T>, n: nat): seq<T>
  {
    if n >= |rows| then rows else rows[..n]
  }

  lemma PrefixGrows<T>(rows: seq<T>, limit: nat, offset: nat)
    ensures Prefix(rows, offset) + Select(rows, limit, offset) == Prefix(rows, offset + limit)
  {
  }

  /** The row that is shown at position `j` comes from the order of its page, at that position. */
  lemma {:induction false} ShownAt(l: Listing, orders: seq<seq<RowID>>, limit: nat, n: nat, page: nat, j: nat)
    requires l.Valid() && AllOrder(l, orders) && page < n <= |orders|
    requires Boundary(page, limit) <= j < Boundary(page, limit) + limit && j < |l.rows|
    ensures j < |Shown(orders, limit, n)| && j < |orders[page]| && Shown(orders, limit, n)[j] == orders[page][j]
  {
    hide AllOrder, Listing.Orders, Listing.Valid, Select;
    OrderOf(l, orders, page);
    ShownSize(l, orders, limit, n - 1);
    if page < n - 1 {
      BoundaryMonotone(page + 1, n - 1, limit);
      ShownAt(l, orders, limit, n - 1, page, j);
    } else {
      SelectAt(orders[page], limit, Boundary(page, limit), j);
    }
  }

  lemma SelectAt(order: seq<RowID>, limit: nat, offset: nat, j: nat)
    requires offset <= j < offset + limit && j < |order|
    ensures j - offset < |Select(order, limit, offset)| && Select(order, limit, offset)[j - offset] == order[j]
  {
  }

  lemma SelectSize(order: seq<RowID>, limit: nat, offset: nat)
    ensures |Select(order, limit, offset)|
            == if offset >= |order| then 0 else if offset + limit >= |order| then |order| - offset else limit
  {
  }

  lemma {:induction false} ShownSize(l: Listing, orders: seq<seq<RowID>>, limit: nat, n: nat)
    requires l.Valid() && AllOrder(l, orders) && n <= |orders|
    ensures var full := Boundary(n, limit);
            |Shown(orders, limit, n)| == if full < |l.rows| then full else |l.rows|
  {
    hide AllOrder, Listing.Orders, Listing.Valid, Select;
    if n > 0 {
      OrderOf(l, orders, n - 1);
      ShownSize(l, orders, limit, n - 1);
      SelectSize(orders[n - 1], limit, Boundary(n - 1, limit));
    }
  }

  /** One more page, from an order of its own. */
  lemma CoverPage(l: Listing, order: seq<RowID>, own: seq<RowID>, shown: seq<RowID>, limit: nat, offset: nat)
    requires l.Valid() && l.Orders(order) && l.Orders(own)
    requires 0 < offset < |order| ==> l.Key(order, offset - 1) != l.Key(order, offset)
    requires 0 < offset + limit < |order| ==> l.Key(order, offset + limit - 1) != l.Key(order, offset + limit)
    requires ShowsEachOnce(shown, Elements(Prefix(order, offset)))
    ensures ShowsEachOnce(shown + Select(own, limit, offset), Elements(Prefix(order, offset + limit)))
  {
    OrderIsDistinct(l, own);
    hide Select, Prefix, ShowsEachOnce, Distinct, Elements, Listing.Orders;
    SamePrefix(l, order, own, offset);
    SamePrefix(l, order, own, offset + limit);
    NextPage(shown, own, limit, offset);
  }

  lemma {:induction false} CoveredUpTo(l: Listing, order: seq<RowID>, orders: seq<seq<RowID>>, limit: nat, n: nat)
    requires l.Valid() && l.Orders(order) && AllOrder(l, orders) && NoTieAcross(l, order, limit) && n <= |orders|
    ensures ShowsEachOnce(Shown(orders, limit, n), Elements(Prefix(order, Boundary(n, limit))))
  {
    if n == 0 {
      assert Prefix(order, 0) == [];
    } else {
      hide AllOrder, Select, Prefix, ShowsEachOnce, Distinct, Elements, NoTieAcross, Listing.Orders, Listing.Key;
      OrderOf(l, orders, n - 1);
      CoveredUpTo(l, order, orders, limit, n - 1);
      NoTieAt(l, order, limit, n - 1);
      NoTieAt(l, order, limit, n);
      CoverPage(l, order, orders[n - 1], Shown(orders, limit, n - 1), limit, Boundary(n - 1, limit));
    }
  }

  lemma NoTieAt(l: Listing, order: seq<RowID>, limit: nat, pages: nat)
    requires l.Valid() && NoTieAcross(l, order, limit)
    ensures var b := Boundary(pages, limit); 0 < b < |order| ==> l.Key(order, b - 1) != l.Key(order, b)
  {
  }

  lemma OrderIsDistinct(l: Listing, order: seq<RowID>)
    requires l.Valid() && l.Orders(order)
    ensures Distinct(order)
  {
  }

  /** A page of an order adds what comes next in it. */
  lemma NextPage(shown: seq<RowID>, order: seq<RowID>, limit: nat, offset: nat)
    requires Distinct(order) && ShowsEachOnce(shown, Elements(Prefix(order, offset)))
    ensures ShowsEachOnce(shown + Select(order, limit, offset), Elements(Prefix(order, offset + limit)))
  {
    var page := Select(order, limit, offset);
    var before := Prefix(order, offset);
    PrefixGrows(order, limit, offset);
    assert Distinct(before + page);
    forall i, j | 0 <= i < j < |shown + page|
      ensures (shown + page)[i] != (shown + page)[j]
    {
      if i < |shown| <= j {
        assert shown[i] in Elements(before);
        var k :| 0 <= k < |before| && before[k] == shown[i];
        assert (before + page)[k] != (before + page)[|before| + (j - |shown|)];
      } else if i >= |shown| {
        assert (before + page)[|before| + (i - |shown|)] != (before + page)[|before| + (j - |shown|)];
      }
    }
    assert Elements(shown + page) == Elements(shown) + Elements(page);
    assert Elements(before + page) == Elements(before) + Elements(page);
  }

  /** Two neighbours with equal values may as well be listed the other way round. */
  lemma SwapOrders(l: Listing, order: seq<RowID>, b: nat)
    requires l.Valid() && l.Orders(order) && 0 < b < |order| && l.Key(order, b - 1) == l.Key(order, b)
    ensures l.Orders(order[b - 1 := order[b]][b := order[b - 1]])
  {
    var swapped := order[b - 1 := order[b]][b := order[b - 1]];
    forall x
      ensures x in order <==> x in swapped
    {
      if x in order {
        var i :| 0 <= i < |order| && order[i] == x;
        assert swapped[if i == b then b - 1 else if i == b - 1 then b else i] == x;
      }
      if x in swapped {
        var i :| 0 <= i < |order| && swapped[i] == x;
        assert order[if i == b then b - 1 else if i == b - 1 then b else i] == x;
      }
    }
    forall i, j | 0 <= i < j < |order|
      ensures swapped[i] != swapped[j] && l.Key(swapped, i) <= l.Key(swapped, j)
    {
      var (i', j') := (Mirror(i, b), Mirror(j, b));
      assert swapped[i] == order[i'] && swapped[j] == order[j'];
      assert l.Key(swapped, i) == l.Key(order, i) && l.Key(swapped, j) == l.Key(order, j);
    }
  }

  function Mirror(i: nat, b: nat): nat
    requires b > 0
  {
    if i == b then b - 1 else if i == b - 1 then b else i
  }

  /** With a tie across a page boundary, some choice of orders shows a row twice. */
  lemma TieRepeatsRow(l: Listing, order: seq<RowID>, limit: nat, pages: nat, page: nat)
    returns (orders: seq<seq<RowID>>)
    requires l.Valid() && l.Orders(order) && limit > 0 && 0 < page < pages && Boundary(page, limit) < |order|
    requires l.Key(order, Boundary(page, limit) - 1) == l.Key(order, Boundary(page, limit))
    ensures |orders| == pages && AllOrder(l, orders) && !ShowsEachOnce(Shown(orders, limit, pages), l.rows)
  {
    var b := Boundary(page, limit);
    var swapped := order[b - 1 := order[b]][b := order[b - 1]];
    SwapOrders(l, order, b);
    orders := seq(pages, i => if i == page then swapped else order);
    assert forall o :: o in orders ==> o == order || o == swapped;
    ElementsSize(order);
    ShownAt(l, orders, limit, pages, page - 1, b - 1);
    ShownAt(l, orders, limit, pages, page, b);
    assert Shown(orders, limit, pages)[b - 1] == Shown(orders, limit, pages)[b];
  }

  /**
   The theorem on pages: whoever turns all of them sees every row once, whatever order each query finds equal values
   in, if and only if no two rows with equal values lie on both sides of a page boundary.
   */
  lemma PagesCoverIff(l: Listing, order: seq<RowID>, limit: nat, pages: nat)
    requires l.Valid() && l.Orders(order) && limit > 0 && pages * limit >= |l.rows|
    ensures (forall orders | |orders| == pages && AllOrder(l, orders) ::
               ShowsEachOnce(Shown(orders, limit, pages), l.rows))
            <==> NoTieAcross(l, order, limit)
  {
    ElementsSize(order);
    BoundaryIsOffset(pages, limit);
    if NoTieAcross(l, order, limit) {
      forall orders | |orders| == pages && AllOrder(l, orders)
        ensures ShowsEachOnce(Shown(orders, limit, pages), l.rows)
      {
        CoveredUpTo(l, order, orders, limit, pages);
      }
    } else {
      var page: nat :| 0 < Boundary(page, limit) < |order|
        && l.Key(order, Boundary(page, limit) - 1) == l.Key(order, Boundary(page, limit));
      if page >= pages { BoundaryMonotone(pages, page, limit); }
      var orders := TieRepeatsRow(l, order, limit, pages, page);
      assert |orders| == pages && AllOrder(l, orders);
    }
  }

  /** The values that are shown are in order all the same. */
  lemma ShownInOrder(l: Listing, order: seq<RowID>, orders: seq<seq<RowID>>, limit: nat, page: nat, j: nat)
    requires l.Valid() && l.Orders(order) && AllOrder(l, orders)
    requires page < |orders| && Boundary(page, limit) <= j < Boundary(page, limit) + limit && j < |l.rows|
    ensures j < |Shown(orders, limit, |orders|)| && |order| == |l.rows|
    ensures l.Key(Shown(orders, limit, |orders|), j) == l.Key(order, j)
  {
    ShownAt(l, orders, limit, |orders|, page, j);
    OrderOf(l, orders, page);
    SameKeys(l, order, orders[page]);
  }

  /** Two rows with the same value on pages of one: one of them may be shown twice, and the other not at all. */
  lemma TiedRows()
    ensures var (l, orders) := (Listing({1, 2}, map[1 := 0, 2 := 0]), [[1, 2], [2, 1]]);
            l.Valid() && AllOrder(l, orders) && Shown(orders, 1, 2) == [1, 1]
  {
    var (l, orders) := (Listing({1, 2}, map[1 := 0, 2 := 0]), [[1, 2], [2, 1]]);
    assert AllOrder(l, orders) by {
      assert Elements([1, 2]) == {1, 2} && Elements([2, 1]) == {1, 2};
    }
    hide AllOrder;
    assert Shown(orders, 1, 2) == [1, 1] by {
      assert Shown(orders, 1, 1) == Shown(orders, 1, 0) + Select([1, 2], 1, 0);
    }
  }
}
