/** Page assembly of the admin queries (watchmen/routers/admin.py):
    `__build_data_pages` wraps a result list in a `DataPage` together with
    the pagination request.

    Beside it is the skip/limit read of the storage layer
    (watchmen/common/mongo/mongo_template.py), which skips
    `pageSize * (pageNumber - 1)` matches and reads at most `pageSize`. With
    it, what `itemCount` would hold for a result that is one such list can be
    stated. The one router caller whose storage function is in view,
    `query_topic_list_by_name`, passes the storage layer's finished
    `DataPage` instead; the storage functions behind the other callers are
    not part of this model. */
module AdminRouter {
  import opened Common

  /** `Pagination`: the page asked for. */
  datatype Pagination = Pagination(pageSize: int, pageNumber: int)

  /** `DataPage`: a response page; a field never assigned stays `None`. */
  datatype DataPage<T> = DataPage(
    data: Option<seq<T>>,
    itemCount: Option<int>,
    pageSize: Option<int>,
    pageNumber: Option<int>)

  /** A `DataPage` as created, with no field assigned. */
  function EmptyPage<T>(): DataPage<T>
  {
    DataPage(None, None, None, None)
  }

  /** `__build_data_pages`: an empty result gives the page as created; a
      non-empty one carries the result itself, its length as item count, and
      the request's size and number. All four fields are assigned together. */
  function BuildDataPages<T>(pagination: Pagination, result: seq<T>): (page: DataPage<T>)
    ensures |result| == 0 <==> page == EmptyPage()
    ensures page.data.Some? <==> page.itemCount.Some?
    ensures page.data.Some? <==> page.pageSize.Some?
    ensures page.data.Some? <==> page.pageNumber.Some?
    ensures page.data.Some? ==> page.data.value == result
    ensures page.itemCount.Some? ==> page.itemCount.value == |result| > 0
    ensures page.pageSize.Some? ==> page.pageSize == Some(pagination.pageSize) && page.pageNumber == Some(pagination.pageNumber)
  {
    if |result| > 0 then DataPage(Some(result), Some(|result|), Some(pagination.pageSize), Some(pagination.pageNumber))
    else EmptyPage()
  }

  /** How many matches the storage layer skips before the page. */
  function Skips(pagination: Pagination): int
  {
    pagination.pageSize * (pagination.pageNumber - 1)
  }

  /** The matches on the requested page: the ones after the skipped ones, a
      full page of them or, on the last page, all that are left. */
  function PageOf<T>(matches: seq<T>, pagination: Pagination): (page: seq<T>)
    requires pagination.pageSize > 0 && pagination.pageNumber >= 1
    ensures 0 <= Skips(pagination)
    ensures |page| <= pagination.pageSize
    ensures Skips(pagination) >= |matches| ==> page == []
    ensures Skips(pagination) < |matches| ==>
      && 0 < |page| && Skips(pagination) + |page| <= |matches|
      && page == matches[Skips(pagination)..Skips(pagination) + |page|]
      && (|page| == pagination.pageSize || Skips(pagination) + |page| == |matches|)
  {
    var from := Skips(pagination);
    if from >= |matches| then []
    else matches[from..if from + pagination.pageSize <= |matches| then from + pagination.pageSize else |matches|]
  }

  /** The skip count grows by one page size from one page to the next, and
      the first page skips nothing. */
  lemma SkipsAdvanceByPage(pagination: Pagination)
    requires pagination.pageNumber >= 1
    ensures Skips(Pagination(pagination.pageSize, 1)) == 0
    ensures Skips(Pagination(pagination.pageSize, pagination.pageNumber + 1)) == Skips(pagination) + pagination.pageSize
  {
  }

  /** For a result that is one skip/limit page of the matches, `itemCount`
      counts the page, not the matches: it never exceeds the page size, and it
      is below the number of matches whenever there are more matches than fit
      on one page. */
  lemma ItemCountIsPageLength<T>(matches: seq<T>, pagination: Pagination)
    requires pagination.pageSize > 0 && pagination.pageNumber >= 1
    ensures var page := BuildDataPages(pagination, PageOf(matches, pagination));
      && (page.itemCount.Some? ==> 0 < page.itemCount.value <= pagination.pageSize)
      && (|matches| > pagination.pageSize ==> page.itemCount.None? || page.itemCount.value < |matches|)
      && (page.itemCount.None? <==> Skips(pagination) >= |matches|)
  {
  }
}
