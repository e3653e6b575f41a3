/**
 * Page arithmetic for the product listings: reading `page` and `limit` from the
 * query string, the row offset of a page, and the summary returned with a page
 * (number of pages, next and previous page).
 */
module Pagination {
  import opened Wrappers
  import opened GoStrconv

  datatype PaginationInput = PaginationInput(page: int, limit: int)

  /** `Data` is whatever rows the page holds; the next and previous pages are nil pointers when absent. */
  datatype PaginationResult<T> = PaginationResult(
    data: T,
    totalData: int,
    totalPage: int,
    currentPage: int,
    nextPage: Option<int>,
    prevPage: Option<int>)

  const DefaultPage: int := 1
  const DefaultLimit: int := 10

  /** The query value parses as an int and is positive. */
  predicate PositiveInt(query: string)
  {
    Atoi(query).Int? && Atoi(query).value > 0
  }

  /** One query parameter over its default: a missing, malformed or non-positive value keeps the default. */
  function Override(query: string, default: int): int
  {
    if query != "" then
      match Atoi(query)
      case Int(p) => if p > 0 then p else default
      case _ => default
    else default
  }

  /** The page and limit a listing request asks for, from its `page` and `limit` query values ("" when absent). */
  function GetPaginationFromQuery(pageQuery: string, limitQuery: string): (r: PaginationInput)
    ensures r.page >= 1 && r.limit >= 1
    ensures PositiveInt(pageQuery) ==> r.page == Atoi(pageQuery).value
    ensures !PositiveInt(pageQuery) ==> r.page == DefaultPage
    ensures PositiveInt(limitQuery) ==> r.limit == Atoi(limitQuery).value
    ensures !PositiveInt(limitQuery) ==> r.limit == DefaultLimit
  {
    PaginationInput(Override(pageQuery, DefaultPage), Override(limitQuery, DefaultLimit))
  }

  /** A page and limit written into the query as `%d` come back unchanged. */
  lemma QueryRoundTrip(page: int, limit: int)
    requires 1 <= page <= MaxInt64 && 1 <= limit <= MaxInt64
    ensures GetPaginationFromQuery(FormatInt(page), FormatInt(limit)) == PaginationInput(page, limit)
  {
    AtoiFormatInt(page);
    AtoiFormatInt(limit);
  }

  /** The number of rows skipped before `page`. */
  function Offset(page: int, limit: int): (offset: int)
    ensures page >= 1 && limit >= 0 ==> offset >= 0
  {
    (page - 1) * limit
  }

  lemma MulLeq(a: int, b: int, c: int)
    requires a <= b && c >= 0
    ensures a * c <= b * c
  {
    assert b * c - a * c == (b - a) * c;
  }

  /** Every row index lies on exactly one page: page i / limit + 1. */
  lemma RowOnOnePage(i: int, limit: int, page: int)
    requires 0 <= i && 1 <= limit && 1 <= page
    ensures Offset(page, limit) <= i < Offset(page, limit) + limit <==> page == i / limit + 1
  {
    var p := i / limit + 1;
    assert Offset(p, limit) == (i / limit) * limit;
    assert Offset(p, limit) <= i < Offset(p, limit) + limit;
    if page < p {
      MulLeq(page, p - 1, limit);
      assert Offset(page, limit) + limit == page * limit;
    } else if page > p {
      MulLeq(p, page - 1, limit);
      assert Offset(p, limit) + limit == p * limit;
    }
  }

  /** Go's `/` on integers, which truncates toward zero. */
  function GoQuo(a: int, b: int): (q: int)
    requires b != 0
    ensures a >= 0 && b > 0 ==> q == a / b
  {
    var m := (if a < 0 then -a else a) / (if b < 0 then -b else b);
    if (a < 0) == (b < 0) then m else -m
  }

  /** Go's `%` on integers: the remainder takes the sign of the dividend. */
  function GoRem(a: int, b: int): (r: int)
    requires b != 0
    ensures a >= 0 && b > 0 ==> r == a % b
  {
    a - b * GoQuo(a, b)
  }

  /** The summary returned with one page of `totalData` rows; Go panics when `limit` is 0. */
  function GeneratePaginationResult<T>(data: T, totalData: int, page: int, limit: int): (r: PaginationResult<T>)
    requires limit != 0
    ensures r.data == data && r.totalData == totalData && r.currentPage == page
    ensures limit > 0 && totalData >= 0 ==>
      && r.totalPage * limit >= totalData
      && (totalData > 0 ==> (r.totalPage - 1) * limit < totalData)
      && (totalData == 0 ==> r.totalPage == 0)
    ensures r.nextPage.Some? <==> page < r.totalPage
    ensures r.nextPage.Some? ==> r.nextPage.value == page + 1
    ensures r.prevPage.Some? <==> page > 1
    ensures r.prevPage.Some? ==> r.prevPage.value == page - 1
  {
    var totalPage := GoQuo(totalData, limit) + (if GoRem(totalData, limit) != 0 then 1 else 0);
    PaginationResult(
      data, totalData, totalPage, page,
      if page < totalPage then Some(page + 1) else None,
      if page > 1 then Some(page - 1) else None)
  }

  /** The last page is not empty and holds the last row. */
  lemma LastPageHoldsLastRow<T>(data: T, totalData: int, page: int, limit: int)
    requires limit >= 1 && totalData >= 1
    ensures var r := GeneratePaginationResult(data, totalData, page, limit);
      Offset(r.totalPage, limit) < totalData <= Offset(r.totalPage, limit) + limit
  {
  }

  /** A next page is offered exactly when the rows do not end on the current page. */
  lemma NextPageIffRowsRemain<T>(data: T, totalData: int, page: int, limit: int)
    requires limit >= 1 && totalData >= 0 && page >= 1
    ensures GeneratePaginationResult(data, totalData, page, limit).nextPage.Some? <==> Offset(page + 1, limit) < totalData
  {
    var t := GeneratePaginationResult(data, totalData, page, limit).totalPage;
    assert Offset(page + 1, limit) == page * limit;
    if page < t {
      MulLeq(page, t - 1, limit);
    } else {
      MulLeq(t, page, limit);
    }
  }
}
