/** Query defaults and page arithmetic of the two list endpoints (all
    questions, and the games of one user). The query object arrives as a
    string map in which a missing field and an empty string are both
    falsy, so both fall back to the default. */
module Pagination {
  import opened Wrappers
  import opened Sequences

  const DefaultPageSize: nat := 10
  const DefaultPageNumber: nat := 1
  const DefaultSortDirection: string := "desc"
  const DefaultQuestionsSortBy: string := "createdAt"
  const DefaultGamesSortBy: string := "pairCreatedDate"
  const DefaultBodySearchTerm: string := ""
  const DefaultPublishedStatus: string := "All"

  /** The raw query parameters. A numeric field is `None` when it is missing
      or empty, and `Some(n)` when it holds the digits of `n` (so `Some(0)`
      is the truthy string "0"). */
  datatype QueryParams = QueryParams(
    bodySearchTerm: Option<string>,
    publishedStatus: Option<string>,
    pageSize: Option<nat>,
    pageNumber: Option<nat>,
    sortBy: Option<string>,
    sortDirection: Option<string>)

  /** JavaScript truthiness of an optional string field. */
  predicate Truthy(s: Option<string>) {
    s.Some? && s.value != ""
  }

  function StringOr(s: Option<string>, default: string): string {
    if Truthy(s) then s.value else default
  }

  /** The page size a query asks for, 10 when it names none. */
  function PageSizeOf(query: QueryParams): (n: nat)
    ensures query.pageSize != Some(0) ==> n >= 1
  {
    if query.pageSize.Some? then query.pageSize.value else DefaultPageSize
  }

  /** The page a query asks for, the first when it names none. */
  function PageOf(query: QueryParams): (n: nat)
    ensures query.pageNumber != Some(0) ==> n >= 1
  {
    if query.pageNumber.Some? then query.pageNumber.value else DefaultPageNumber
  }

  /** The page metadata of the questions list. */
  datatype QuestionsQuery = QuestionsQuery(
    totalCount: nat,
    pageSize: nat,
    pagesCount: nat,
    page: nat,
    sortBy: string,
    sortDirection: string,
    bodySearchTerm: string,
    publishedStatus: string)

  /** The page metadata of the my-games list. */
  datatype GamesQuery = GamesQuery(
    totalCount: nat,
    pageSize: nat,
    pagesCount: nat,
    page: nat,
    sortBy: string,
    sortDirection: string)

  /** `n` pages of `pageSize` items hold `totalCount` items with none empty:
      the ceiling of `totalCount / pageSize`. */
  ghost predicate IsPageCount(n: nat, totalCount: nat, pageSize: nat) {
    if totalCount == 0 then n == 0
    else (n - 1) * pageSize < totalCount <= n * pageSize
  }

  lemma CeilingDivision(totalCount: nat, pageSize: nat)
    requires pageSize > 0
    ensures IsPageCount((totalCount + pageSize - 1) / pageSize, totalCount, pageSize)
  {
    var q := (totalCount + pageSize - 1) / pageSize;
    var m := (totalCount + pageSize - 1) % pageSize;
    assert totalCount + pageSize - 1 == q * pageSize + m;
    assert (q - 1) * pageSize == q * pageSize - pageSize;
    if totalCount == 0 {
      assert q == 0;
    }
  }

  /** `Math.ceil(totalCount / pageSize)`. */
  function PagesCount(totalCount: nat, pageSize: nat): (r: nat)
    requires pageSize > 0
    ensures IsPageCount(r, totalCount, pageSize)
  {
    CeilingDivision(totalCount, pageSize);
    (totalCount + pageSize - 1) / pageSize
  }

  lemma MulMonotone(a: nat, b: nat, c: nat)
    requires a <= b
    ensures a * c <= b * c
  {
  }

  /** The page count is the only number meeting the ceiling bounds. */
  lemma PagesCountUnique(totalCount: nat, pageSize: nat, n: nat)
    requires pageSize > 0
    requires IsPageCount(n, totalCount, pageSize)
    ensures n == PagesCount(totalCount, pageSize)
  {
    var r := PagesCount(totalCount, pageSize);
    if totalCount > 0 && n != r {
      if n < r {
        MulMonotone(n, r - 1, pageSize);
      } else {
        MulMonotone(r, n - 1, pageSize);
      }
    }
  }

  /** The number of items skipped before page `page`. */
  function Offset(page: nat, pageSize: nat): int {
    (page - 1) * pageSize
  }

  function Min(a: int, b: int): int {
    if a <= b then a else b
  }

  /** Skip `Offset(page, pageSize)` items of the ordered result, then take at
      most `pageSize`. */
  function Page<T>(items: seq<T>, page: nat, pageSize: nat): (r: seq<T>)
    requires page >= 1
    ensures |r| <= pageSize
    ensures Offset(page, pageSize) < |items| ==> |r| == Min(pageSize, |items| - Offset(page, pageSize))
    ensures Offset(page, pageSize) >= |items| ==> r == []
    ensures forall k :: 0 <= k < |r| ==> 0 <= Offset(page, pageSize) + k < |items| && r[k] == items[Offset(page, pageSize) + k]
  {
    var from := Min(Offset(page, pageSize), |items|);
    var to := Min(from + pageSize, |items|);
    items[from..to]
  }

  /** Mapping a page is paging the mapped items. */
  lemma PageOfMap<T, U>(f: T -> U, items: seq<T>, page: nat, pageSize: nat)
    requires page >= 1
    ensures MapSeq(f, Page(items, page, pageSize)) == Page(MapSeq(f, items), page, pageSize)
  {
    var l := MapSeq(f, Page(items, page, pageSize));
    var r := Page(MapSeq(f, items), page, pageSize);
    assert |l| == |r|;
    forall k | 0 <= k < |l|
      ensures l[k] == r[k]
    {
      assert Page(items, page, pageSize)[k] == items[Offset(page, pageSize) + k];
    }
  }

  /** Item `k` of a mapped page is `f` of the item `k` places after the
      page's offset. */
  lemma MappedPageItems<T, U>(f: T -> U, items: seq<T>, page: nat, pageSize: nat)
    requires page >= 1
    ensures var r := MapSeq(f, Page(items, page, pageSize));
            forall k :: 0 <= k < |r| ==> 0 <= Offset(page, pageSize) + k < |items| && r[k] == f(items[Offset(page, pageSize) + k])
  {
  }

  /** The concatenation of pages `1..count`. */
  function Pages<T>(items: seq<T>, pageSize: nat, count: nat): seq<T> {
    if count == 0 then [] else Pages(items, pageSize, count - 1) + Page(items, count, pageSize)
  }

  lemma OffsetOfNextPage(page: nat, pageSize: nat)
    requires page >= 1
    ensures Offset(page, pageSize) == (page - 1) * pageSize >= 0
    ensures page * pageSize == Offset(page, pageSize) + pageSize
  {
  }

  lemma PageIsSlice<T>(items: seq<T>, page: nat, pageSize: nat)
    requires page >= 1
    ensures var from := Min(Offset(page, pageSize), |items|);
            Page(items, page, pageSize) == items[from..Min(from + pageSize, |items|)]
  {
  }

  lemma {:induction false} PagesArePrefix<T>(items: seq<T>, pageSize: nat, count: nat)
    ensures Pages(items, pageSize, count) == items[..Min(count * pageSize, |items|)]
  {
    if count > 0 {
      PagesArePrefix(items, pageSize, count - 1);
      OffsetOfNextPage(count, pageSize);
      var before := Offset(count, pageSize);
      var a := Min(before, |items|);
      var b := Min(before + pageSize, |items|);
      PageIsSlice(items, count, pageSize);
      assert Min(a + pageSize, |items|) == b;
      assert items[..b] == items[..a] + items[a..b];
    }
  }

  /** Every page up to the page count holds at least one item. */
  lemma PagesUpToCountNonEmpty<T>(items: seq<T>, pageSize: nat, p: nat)
    requires pageSize > 0
    requires 1 <= p <= PagesCount(|items|, pageSize)
    ensures Page(items, p, pageSize) != []
  {
    MulMonotone(p - 1, PagesCount(|items|, pageSize) - 1, pageSize);
  }

  /** Every page after the page count is empty. */
  lemma PagesBeyondCountEmpty<T>(items: seq<T>, pageSize: nat, p: nat)
    requires pageSize > 0
    requires p > PagesCount(|items|, pageSize)
    ensures Page(items, p, pageSize) == []
  {
    MulMonotone(PagesCount(|items|, pageSize), p - 1, pageSize);
  }

  /** Reading pages `1..pagesCount` in order yields every item exactly once,
      in order. */
  lemma PagesCoverItems<T>(items: seq<T>, pageSize: nat)
    requires pageSize > 0
    ensures Pages(items, pageSize, PagesCount(|items|, pageSize)) == items
  {
    PagesArePrefix(items, pageSize, PagesCount(|items|, pageSize));
    assert items[..|items|] == items;
  }

  /** The questions list metadata: defaults for every missing field and the
      page count of the matching questions. A page size of "0" is excluded,
      since it makes the page count non-finite. */
  function GenerateQuery(query: QueryParams, totalCount: nat): (r: QuestionsQuery)
    requires query.pageSize != Some(0)
    ensures r.totalCount == totalCount
    ensures r.pageSize == (if query.pageSize.Some? then query.pageSize.value else DefaultPageSize)
    ensures r.pageSize > 0 && IsPageCount(r.pagesCount, totalCount, r.pageSize)
    ensures r.page == (if query.pageNumber.Some? then query.pageNumber.value else DefaultPageNumber)
    ensures Truthy(query.sortBy) ==> r.sortBy == query.sortBy.value
    ensures !Truthy(query.sortBy) ==> r.sortBy == DefaultQuestionsSortBy
    ensures Truthy(query.sortDirection) ==> r.sortDirection == query.sortDirection.value
    ensures !Truthy(query.sortDirection) ==> r.sortDirection == DefaultSortDirection
    ensures Truthy(query.bodySearchTerm) ==> r.bodySearchTerm == query.bodySearchTerm.value
    ensures !Truthy(query.bodySearchTerm) ==> r.bodySearchTerm == DefaultBodySearchTerm
    ensures Truthy(query.publishedStatus) ==> r.publishedStatus == query.publishedStatus.value
    ensures !Truthy(query.publishedStatus) ==> r.publishedStatus == DefaultPublishedStatus
  {
    var pageSize := PageSizeOf(query);
    QuestionsQuery(
      totalCount,
      pageSize,
      PagesCount(totalCount, pageSize),
      PageOf(query),
      StringOr(query.sortBy, DefaultQuestionsSortBy),
      StringOr(query.sortDirection, DefaultSortDirection),
      StringOr(query.bodySearchTerm, DefaultBodySearchTerm),
      StringOr(query.publishedStatus, DefaultPublishedStatus))
  }

  /** The my-games list metadata: the same page arithmetic, with games sorted
      by creation date unless the query names another column. */
  function GenerateQueryForMyGames(query: QueryParams, totalCount: nat): (r: GamesQuery)
    requires query.pageSize != Some(0)
    ensures r.totalCount == totalCount
    ensures r.pageSize == (if query.pageSize.Some? then query.pageSize.value else DefaultPageSize)
    ensures r.pageSize > 0 && IsPageCount(r.pagesCount, totalCount, r.pageSize)
    ensures r.page == (if query.pageNumber.Some? then query.pageNumber.value else DefaultPageNumber)
    ensures Truthy(query.sortBy) ==> r.sortBy == query.sortBy.value
    ensures !Truthy(query.sortBy) ==> r.sortBy == DefaultGamesSortBy
    ensures Truthy(query.sortDirection) ==> r.sortDirection == query.sortDirection.value
    ensures !Truthy(query.sortDirection) ==> r.sortDirection == DefaultSortDirection
  {
    var pageSize := PageSizeOf(query);
    GamesQuery(
      totalCount,
      pageSize,
      PagesCount(totalCount, pageSize),
      PageOf(query),
      StringOr(query.sortBy, DefaultGamesSortBy),
      StringOr(query.sortDirection, DefaultSortDirection))
  }
}
