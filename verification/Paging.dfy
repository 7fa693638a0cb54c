/**
 Reading a whole collection page by page from a server that silently clamps the page size and may or may not say how
 many rows there are.
 */
module Paging {
  import opened Prelude
  import Products

  const PAGE_LIMIT := 100
  const MAX_PAGES := 100

  datatype Page<Row> = Page(rows: seq<Row>, totalEntries: Option<int>)

  /** A stable server: it holds these rows, never returns more than `clamp` of them, and may report the total. */
  datatype Server<Row> = Server(all: seq<Row>, clamp: int, reportsTotal: bool) {
    function Read(limit: int, offset: nat): (page: Page<Row>)
      requires clamp >= 1 && limit >= 1 && offset <= |all|
      ensures |page.rows| == Min(Min(limit, clamp), |all| - offset)
      ensures all[..offset] + page.rows == all[..offset + |page.rows|]
    {
      var size := Min(Min(limit, clamp), |all| - offset);
      Page(all[offset..offset + size], if reportsTotal then Some(|all|) else None)
    }
  }

  /** The most rows one page can hold. */
  function PageSize<Row>(server: Server<Row>): int { Min(PAGE_LIMIT, server.clamp) }

  /** The rows the caller can expect: all of them, or as many as it wants. */
  function Goal<Row>(server: Server<Row>, want: Option<int>): nat {
    if want.None? then |server.all| else Min(|server.all|, Max(0, want.value))
  }

  /** The walk is cut short when the pages allowed run out before it has seen that it is done. */
  predicate CutShort<Row>(server: Server<Row>, want: Option<int>) {
    && (want.None? || want.value > Min(|server.all|, MAX_PAGES * PageSize(server)))
    && (if server.reportsTotal then |server.all| > MAX_PAGES * PageSize(server)
        else |server.all| > (MAX_PAGES - 1) * PageSize(server))
  }

  /** How far the walk has come: the rows read are those that full pages would have given, up to the goal. */
  predicate Walked<Row>(server: Server<Row>, want: Option<int>, pages: nat, full: int, count: nat) {
    && full == pages * PageSize(server)
    && count == Min(full, Goal(server, want))
    && (pages > 0 ==> full - PageSize(server) < |server.all| && (server.reportsTotal ==> count < |server.all|))
  }

  /** Nothing is missing, and the walk is marked all the same: 100 full pages, and no total to tell that they were all. */
  lemma ACompleteWalkCanBeMarked()
    ensures var server := Server(seq(MAX_PAGES * PAGE_LIMIT, i => 0), PAGE_LIMIT, false);
            CutShort(server, None) && Min(|server.all|, MAX_PAGES * PageSize(server)) == Goal(server, None)
  {
  }

  /** One more page, after which the walk stops or has come one page further. */
  lemma PageRead<Row>(server: Server<Row>, want: Option<int>, pages: nat, full: int, count: nat, limit: int, got: nat)
    requires server.clamp >= 1 && Walked(server, want, pages, full, count) && (want.None? || count < want.value)
    requires limit == (if want.None? then PAGE_LIMIT else Min(PAGE_LIMIT, want.value - count))
    requires got == Min(Min(limit, server.clamp), |server.all| - count)
    ensures got == 0 ==> count == Goal(server, want)
    ensures got > 0 && server.reportsTotal && count + got >= |server.all| ==> count + got == Goal(server, want)
    ensures got > 0 && !(server.reportsTotal && count + got >= |server.all|) ==>
              Walked(server, want, pages + 1, full + PageSize(server), count + got)
  {
    assert (pages + 1) * PageSize(server) == full + PageSize(server);
  }

  /** A walk that ends with a page it was allowed to read is not cut short. */
  lemma PageEnds<Row>(server: Server<Row>, want: Option<int>, pages: nat, full: int, count: nat, limit: int, got: nat)
    requires server.clamp >= 1 && Walked(server, want, pages, full, count) && (want.None? || count < want.value)
    requires limit == (if want.None? then PAGE_LIMIT else Min(PAGE_LIMIT, want.value - count))
    requires got == Min(Min(limit, server.clamp), |server.all| - count) && pages < MAX_PAGES
    ensures got == 0 || (server.reportsTotal && count + got >= |server.all|) ==> !CutShort(server, want)
  {
    Products.NatTimesKeepsOrder(pages, MAX_PAGES - 1, PageSize(server));
    assert full <= (MAX_PAGES - 1) * PageSize(server);
  }

  lemma WantMet<Row>(server: Server<Row>, want: Option<int>, pages: nat, full: int, count: nat)
    requires server.clamp >= 1 && Walked(server, want, pages, full, count) && pages <= MAX_PAGES
    requires want.Some? && count >= want.value
    ensures count == Goal(server, want) && !CutShort(server, want)
  {
    Products.NatTimesKeepsOrder(pages, MAX_PAGES, PageSize(server));
  }

  method Paged<Row>(server: Server<Row>, want: Option<int>) returns (rows: seq<Row>, truncated: Option<nat>)
    requires server.clamp >= 1
    ensures rows <= server.all
    ensures truncated.None? ==> |rows| == Goal(server, want)
    ensures truncated.None? && want.None? ==> rows == server.all
    ensures truncated.None? && want.Some? && 0 <= want.value <= |server.all| ==> rows == server.all[..want.value]
    ensures truncated.Some? <==> CutShort(server, want)
    ensures truncated.Some? ==> truncated == Some(|rows|) && |rows| == Min(|server.all|, MAX_PAGES * PageSize(server))
  {
    rows := [];
    var offset, pages := 0, 0;
    ghost var full := 0;
    while want.None? || |rows| < want.value
      invariant 0 <= pages <= MAX_PAGES && offset == |rows| <= |server.all| && rows == server.all[..offset]
      invariant Walked(server, want, pages, full, |rows|)
      decreases MAX_PAGES - pages
    {
      if pages >= MAX_PAGES { return rows, Some(|rows|); }
      var limit := if want.None? then PAGE_LIMIT else Min(PAGE_LIMIT, want.value - |rows|);
      var page := server.Read(limit, offset);
      PageRead(server, want, pages, full, |rows|, limit, |page.rows|);
      PageEnds(server, want, pages, full, |rows|, limit, |page.rows|);
      rows := rows + page.rows;
      offset := offset + |page.rows|;
      pages := pages + 1;
      full := full + PageSize(server);
      if page.rows == [] { return rows, None; }
      if page.totalEntries.Some? && offset >= page.totalEntries.value { return rows, None; }
    }
    WantMet(server, want, pages, full, |rows|);
    truncated := None;
  }
}
