/** Paged queries: the process-wide page configuration, the query that
    carries page number, page size and the count-total flag, and the derived
    page count and "has more" of a page of results. */
module Pagination {
  import opened Pipeline

  const LongMin: int := -0x8000_0000_0000_0000
  const LongMax: int := 0x7FFF_FFFF_FFFF_FFFF

  /** C#'s `long`. */
  type Long = x: int | LongMin <= x <= LongMax

  function Min(a: Long, b: Long): (m: Long)
    ensures m <= a && m <= b && (m == a || m == b)
  {
    if a <= b then a else b
  }

  /** DataPageConfiguration: a default and a maximum page size, both settable,
      with no check that the default does not exceed the maximum. */
  class DataPageConfiguration {
    var pageSize: Long
    var maxPageSize: Long

    constructor (pageSize: Long := LongMax, maxPageSize: Long := LongMax)
      ensures this.pageSize == pageSize && this.maxPageSize == maxPageSize
    {
      this.pageSize := pageSize;
      this.maxPageSize := maxPageSize;
    }
  }

  /** The settable static DataPageConfiguration.Default: one object that every
      query reads its fallback and its maximum from. */
  class ConfigurationDefault {
    var current: DataPageConfiguration

    /** The static initializer `= new()`. */
    constructor ()
      ensures fresh(current)
      ensures current.pageSize == LongMax && current.maxPageSize == LongMax
    {
      current := new DataPageConfiguration();
    }

    method Set(configuration: DataPageConfiguration)
      modifies this
      ensures current == configuration
    {
      current := configuration;
    }
  }

  /** What a page of results reads from its query when it derives its values. */
  datatype QueryView = QueryView(pageNumber: Long, pageSize: Long, countTotal: bool)

  /** DataPageQuery: a stored page size that may be absent, in which case the
      page size is whatever the default configuration says when it is read. */
  class DataPageQuery {
    var pageNumber: Long
    var storedPageSize: Option<Long>
    var countTotal: bool

    /** The constructor stores the page size as given: no clamp, no lower bound. */
    constructor (pageNumber: Long := 1, pageSize: Option<Long> := None, countTotal: bool := false)
      ensures this.pageNumber == pageNumber && storedPageSize == pageSize && this.countTotal == countTotal
    {
      this.pageNumber := pageNumber;
      storedPageSize := pageSize;
      this.countTotal := countTotal;
    }

    /** The PageSize getter: the stored size, or else the default's at the time of reading. */
    function PageSize(defaults: ConfigurationDefault): (size: Long)
      reads this, defaults, defaults.current
      ensures storedPageSize.Some? ==> size == storedPageSize.value
      ensures storedPageSize.None? ==> size == defaults.current.pageSize
    {
      match storedPageSize
      case Some(size) => size
      case None => defaults.current.pageSize
    }

    /** The PageSize setter: stores the value clamped to the current maximum; no lower bound. */
    method SetPageSize(value: Long, defaults: ConfigurationDefault)
      modifies this`storedPageSize
      ensures storedPageSize == Some(Min(value, defaults.current.maxPageSize))
      ensures PageSize(defaults) <= defaults.current.maxPageSize
      ensures value <= defaults.current.maxPageSize ==> PageSize(defaults) == value
    {
      storedPageSize := Some(Min(value, defaults.current.maxPageSize));
    }

    method SetPageNumber(value: Long)
      modifies this`pageNumber
      ensures pageNumber == value
    {
      pageNumber := value;
    }

    method SetCountTotal(value: bool)
      modifies this`countTotal
      ensures countTotal == value
    {
      countTotal := value;
    }
  }

  /** A query with no stored size follows every later change of the default,
      while one with a stored size keeps it even past a smaller maximum. */
  method ReplaceDefault(query: DataPageQuery, defaults: ConfigurationDefault, configuration: DataPageConfiguration)
    modifies defaults
    ensures query.storedPageSize.None? ==> query.PageSize(defaults) == configuration.pageSize
    ensures query.storedPageSize.Some? ==> query.PageSize(defaults) == old(query.PageSize(defaults))
  {
    defaults.Set(configuration);
  }

  /** A size given to the constructor bypasses the clamp the setter applies:
      under a maximum of 10, a query built with 50 reports 50, and assigning
      50 through the setter afterwards brings it down to 10. */
  method ConstructorSkipsClamp() returns (constructed: Long, afterSet: Long, maximum: Long)
    ensures maximum == 10 && constructed == 50 && afterSet == 10
  {
    var defaults := new ConfigurationDefault();
    var configuration := new DataPageConfiguration(LongMax, 10);
    defaults.Set(configuration);
    var query := new DataPageQuery(1, Some(50), false);
    constructed := query.PageSize(defaults);
    maximum := defaults.current.maxPageSize;
    query.SetPageSize(50, defaults);
    afterSet := query.PageSize(defaults);
  }

  /** DataPageQueryResult: the query it answers, the items of the page and the
      total number of items when it was counted. */
  datatype DataPageQueryResult<T> = DataPageQueryResult(query: QueryView, items: seq<T>, totalItemCount: Option<Long> := None)

  function ItemCount<T>(r: DataPageQueryResult<T>): (n: nat)
    ensures n == |r.items|
  {
    |r.items|
  }

  /** ceiling(n / d) for positive operands: the least q with n <= d * q. */
  function CeilDiv(n: int, d: int): (q: int)
    requires n > 0 && d > 0
    ensures 1 <= q <= n
    ensures d * (q - 1) < n <= d * q
  {
    var k := (n - 1) / d;
    QuotientBounds(n - 1, d);
    k + 1
  }

  /** The Euclidean quotient k of m by d is the q - 1 of CeilDiv for n = m + 1. */
  lemma QuotientBounds(m: int, d: int)
    requires m >= 0 && d > 0
    ensures 0 <= m / d <= m
    ensures d * (m / d) <= m < d * (m / d + 1)
  {
    var k, rem := m / d, m % d;
    assert m == d * k + rem && 0 <= rem < d;
    MulMonotone(1, d, k);
    assert d * (k + 1) == d * k + d;
  }

  /** TotalPageCount: ceiling(total / page size), only when counting is on and
      both numbers are positive; absent otherwise, so a page size of 0 is
      never divided by and a total of 0 gives no page count at all. */
  function TotalPageCount<T>(r: DataPageQueryResult<T>): (pages: Option<Long>)
    ensures pages.Some? <==>
              r.query.countTotal && r.query.pageSize > 0 && r.totalItemCount.Some? && r.totalItemCount.value > 0
    ensures pages.Some? ==> 1 <= pages.value <= r.totalItemCount.value
    ensures pages.Some? ==>
              r.query.pageSize * (pages.value - 1) < r.totalItemCount.value <= r.query.pageSize * pages.value
  {
    if r.query.countTotal && r.query.pageSize > 0 && r.totalItemCount.Some? && r.totalItemCount.value > 0
    then Some(CeilDiv(r.totalItemCount.value, r.query.pageSize))
    else None
  }

  /** HasMore: against the page count when there is one, otherwise whether a
      full page came back. The source's three-way guard reduces to "a page
      count exists", since a page count implies counting and a total. */
  function HasMore<T>(r: DataPageQueryResult<T>): (more: bool)
    ensures TotalPageCount(r).Some? ==> (more <==> r.query.pageNumber < TotalPageCount(r).value)
    ensures TotalPageCount(r).None? ==> (more <==> r.query.pageSize == |r.items|)
  {
    if r.query.countTotal && r.totalItemCount.Some? && TotalPageCount(r).Some?
    then r.query.pageNumber < TotalPageCount(r).value
    else r.query.pageSize == ItemCount(r)
  }

  /** Multiplying by a non-negative factor keeps the order. */
  lemma MulMonotone(a: int, b: int, c: int)
    requires a <= b && c >= 0
    ensures a * c <= b * c
  {
    assert b * c - a * c == (b - a) * c;
  }

  /** With a page count, there is more exactly when some item lies past the
      end of the current page: pageNumber * pageSize < total. */
  lemma HasMoreMeansItemsBeyondPage<T>(r: DataPageQueryResult<T>)
    requires TotalPageCount(r).Some?
    ensures HasMore(r) <==> r.query.pageNumber * r.query.pageSize < r.totalItemCount.value
  {
    var pages, size, total, n := TotalPageCount(r).value, r.query.pageSize as int, r.totalItemCount.value as int, r.query.pageNumber as int;
    assert size * (pages - 1) < total <= size * pages;
    assert size * (pages - 1) == (pages - 1) * size && size * pages == pages * size;
    if n < pages {
      MulMonotone(n, pages - 1, size);
    } else {
      MulMonotone(pages, n, size);
    }
  }

  /** Page size 10, 25 items counted: 3 pages, more after pages 1 and 2, none after page 3. */
  lemma WorkedExample<T>(items: seq<T>)
    ensures TotalPageCount(DataPageQueryResult(QueryView(1, 10, true), items, Some(25))) == Some(3)
    ensures HasMore(DataPageQueryResult(QueryView(1, 10, true), items, Some(25)))
    ensures HasMore(DataPageQueryResult(QueryView(2, 10, true), items, Some(25)))
    ensures !HasMore(DataPageQueryResult(QueryView(3, 10, true), items, Some(25)))
  {
    assert CeilDiv(25, 10) == 3;
  }

  /** A page size of 0 or a total of 0 gives no page count; HasMore then
      compares the page size with the number of items. */
  lemma NoPageCountEdgeCases<T>(q: QueryView, items: seq<T>, total: Option<Long>)
    requires q.pageSize <= 0 || total == Some(0) || total.None? || !q.countTotal
    ensures TotalPageCount(DataPageQueryResult(q, items, total)).None?
    ensures HasMore(DataPageQueryResult(q, items, total)) <==> q.pageSize == |items|
  {
  }

  /** Without a page count, a query left on the default page size of
      long.MaxValue never reports more, since no page holds that many items. */
  lemma DefaultPageSizeNeverHasMore<T>(r: DataPageQueryResult<T>)
    requires TotalPageCount(r).None? && r.query.pageSize == LongMax && |r.items| < LongMax
    ensures !HasMore(r)
  {
  }
}
