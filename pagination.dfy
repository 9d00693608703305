/** Page-number pagination of list responses. */
module Pagination {

  const U32_LIMIT: int := 0x1_0000_0000

  predicate IsU32(n: int) { 0 <= n < U32_LIMIT }

  /** `default_page`: pages are numbered from 1. */
  function DefaultPage(): (r: nat)
    ensures r >= 1
  {
    1
  }

  /** `default_limit`: ten items per page unless asked otherwise. */
  function DefaultLimit(): (r: nat)
    ensures 0 < r < U32_LIMIT
  {
    10
  }

  datatype NumberPaginationResponse = NumberPaginationResponse(
    currentPage: nat,
    totalPages: nat,
    totalItems: nat,
    pageSize: nat)

  /**
   * `total_items + page_size - 1` on `u32` as a release build computes it,
   * wrapping past `u32::MAX`, and then divided by `page_size` (a division by
   * zero panics, hence the precondition).
   */
  function TotalPagesAsWritten(pageSize: nat, totalItems: nat): (r: nat)
    requires IsU32(pageSize) && IsU32(totalItems) && pageSize > 0
    ensures IsU32(r)
  {
    ((totalItems + pageSize - 1) % U32_LIMIT) / pageSize
  }

  /** The overflow: the last `u32` count with two items per page gives no page at all. */
  lemma TotalPagesAsWrittenOverflows()
    ensures TotalPagesAsWritten(2, U32_LIMIT - 1) == 0
  {
  }

  /** The number of pages needed for `totalItems` items, `pageSize` to a page, without overflow. */
  function TotalPages(pageSize: nat, totalItems: nat): (r: nat)
    requires pageSize > 0
    ensures r * pageSize >= totalItems
    ensures totalItems > 0 ==> (r - 1) * pageSize < totalItems
    ensures totalItems == 0 ==> r == 0
    ensures r <= totalItems
  {
    CeilingBounds(pageSize, totalItems);
    totalItems / pageSize + (if totalItems % pageSize == 0 then 0 else 1)
  }

  lemma CeilingBounds(pageSize: nat, totalItems: nat)
    requires pageSize > 0
    ensures var r := totalItems / pageSize + (if totalItems % pageSize == 0 then 0 else 1);
      && r * pageSize >= totalItems
      && (totalItems > 0 ==> (r - 1) * pageSize < totalItems)
      && r <= totalItems
  {
    var q, m := totalItems / pageSize, totalItems % pageSize;
    DivMod(totalItems, pageSize);
    MulAtLeast(q, pageSize);
    MulSucc(q, pageSize);
  }

  /** Where the `u32` sum does not overflow, the source's expression is the ceiling division. */
  lemma TotalPagesAgree(pageSize: nat, totalItems: nat)
    requires IsU32(pageSize) && IsU32(totalItems) && pageSize > 0
    requires totalItems + pageSize - 1 < U32_LIMIT
    ensures TotalPagesAsWritten(pageSize, totalItems) == TotalPages(pageSize, totalItems)
  {
    var q, m := totalItems / pageSize, totalItems % pageSize;
    DivMod(totalItems, pageSize);
    var n := totalItems + pageSize - 1;
    assert n % U32_LIMIT == n;
    MulSucc(q, pageSize);
    if m == 0 {
      DivUnique(n, pageSize, q, pageSize - 1);
    } else {
      DivUnique(n, pageSize, q + 1, m - 1);
    }
  }

  lemma DivMod(n: nat, d: nat)
    requires d > 0
    ensures n == (n / d) * d + n % d && 0 <= n % d < d
  {
  }

  lemma MulSucc(q: int, d: int)
    ensures (q + 1) * d == q * d + d
  {
  }

  lemma MulMono(a: int, b: int, d: nat)
    requires a <= b
    ensures a * d <= b * d
  {
  }

  lemma MulAtLeast(q: nat, d: nat)
    requires d > 0
    ensures q <= q * d
  {
  }

  /** The quotient is determined by any decomposition with a remainder below the divisor. */
  lemma DivUnique(n: nat, d: nat, q: nat, m: nat)
    requires d > 0 && m < d && n == q * d + m
    ensures n / d == q
  {
    var q' := n / d;
    DivMod(n, d);
    if q' < q {
      MulMono(q' + 1, q, d);
      MulSucc(q', d);
    } else if q' > q {
      MulMono(q + 1, q', d);
      MulSucc(q, d);
    }
  }

  /** `NumberPaginationResponse::new`, with the page count computed without overflow. */
  function New(currentPage: nat, pageSize: nat, totalItems: nat): (r: NumberPaginationResponse)
    requires IsU32(currentPage) && IsU32(pageSize) && IsU32(totalItems) && pageSize > 0
    ensures r.currentPage == currentPage && r.pageSize == pageSize && r.totalItems == totalItems
    ensures IsU32(r.totalPages)
    ensures r.totalPages * pageSize >= totalItems
    ensures totalItems > 0 ==> (r.totalPages - 1) * pageSize < totalItems
  {
    NumberPaginationResponse(currentPage, TotalPages(pageSize, totalItems), totalItems, pageSize)
  }

  /** The default request is the first page, and its page count is the number of started blocks of ten. */
  lemma DefaultLimitPages(totalItems: nat)
    requires IsU32(totalItems)
    ensures New(DefaultPage(), DefaultLimit(), totalItems).currentPage == 1
    ensures New(DefaultPage(), DefaultLimit(), totalItems).totalPages == (totalItems + 9) / 10
  {
  }
}
