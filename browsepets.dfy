// src/pages/BrowsePets.jsx: the browse page. It keeps the chosen filters, the sort order and the page it has
// shown; a change of filters or sort fetches page 1 again, "load more" asks for the next page of nine, and
// the page reads `list`, `loading`, `hasMore` and `error` from the pets store.

module BrowsePets {
  import opened Js
  import opened PetData
  import opened Pets

  const PageSize: int := 9
  const DefaultSort: string := "newest"

  /** The parameters handed to `fetchList`: the filters spread first, then sort, page, limit and `replace`. */
  datatype Query = Query(filters: map<string, string>, sort: string, page: int, limit: int, replace: bool)

  /** What the page takes from `usePetsStore()`; None is a key the store does not have (`undefined`). */
  datatype StoreView = StoreView(list: seq<Pet>, loading: bool, hasMore: Option<bool>, error: Option<string>)

  /** The destructuring as written: the pets store defines neither `hasMore` nor `error`, so both are
      `undefined`, whatever the list's metadata says. */
  function ViewAsWritten(list: seq<Pet>, loading: bool, meta: ListMeta): (r: StoreView)
    ensures r.hasMore.None? && r.error.None?
  {
    StoreView(list, loading, None, None)
  }

  /** The evidently intended view: `hasMore` is the list's `hasNext`. */
  function View(list: seq<Pet>, loading: bool, meta: ListMeta): (r: StoreView)
    ensures r.hasMore == Some(meta.hasNext) && r.error.None?
  {
    StoreView(list, loading, Some(meta.hasNext), None)
  }

  /** `hasActiveFilters`. */
  function HasActiveFilters(filters: map<string, string>, sort: string): (r: bool)
    ensures !r <==> filters == map[] && sort == DefaultSort
  {
    |filters| > 0 || sort != DefaultSort
  }

  /** `isEmpty`. */
  function IsEmpty(v: StoreView): (r: bool)
    ensures r ==> v.list == []
    ensures v.loading || Truthy(v.error) ==> !r
  {
    !v.loading && !Truthy(v.error) && |v.list| == 0
  }

  /** With the store as written, "nothing found" shows exactly when the list is empty and not loading. */
  lemma IsEmptyAsWritten(list: seq<Pet>, loading: bool, meta: ListMeta)
    ensures IsEmpty(ViewAsWritten(list, loading, meta)) <==> !loading && list == []
  {
  }

  /** The request the refetch effect sends: page 1, replacing the list. */
  function FirstPage(filters: map<string, string>, sort: string): (r: Query)
    ensures r.page == 1 && r.limit == PageSize && r.replace
    ensures r.filters == filters && r.sort == sort
  {
    Query(filters, sort, 1, PageSize, true)
  }

  /** `loadMore`'s request: none while loading or when `hasMore` is falsy, otherwise the next page, to be
      appended. */
  function LoadMoreRequest(v: StoreView, filters: map<string, string>, sort: string, page: int): (r: Option<Query>)
    ensures r.Some? <==> !v.loading && v.hasMore == Some(true)
    ensures r.Some? ==> r.value.page == page + 1 && r.value.limit == PageSize && !r.value.replace
                        && r.value.filters == filters && r.value.sort == sort
  {
    if v.loading || v.hasMore != Some(true) then None
    else Some(Query(filters, sort, page + 1, PageSize, false))
  }

  /** As written, "load more" never asks for anything: not even a list whose metadata says there is a next
      page. */
  lemma LoadMoreNeverRequestsAsWritten(list: seq<Pet>, meta: ListMeta, filters: map<string, string>, sort: string, page: int)
    requires meta.hasNext
    ensures LoadMoreRequest(ViewAsWritten(list, false, meta), filters, sort, page).None?
  {
  }

  /** With `hasMore` read from the metadata, "load more" asks for the next page exactly when the list is not
      loading and the server reported a next page. */
  lemma LoadMoreFollowsHasNext(list: seq<Pet>, loading: bool, meta: ListMeta, filters: map<string, string>, sort: string, page: int)
    ensures LoadMoreRequest(View(list, loading, meta), filters, sort, page).Some? <==> !loading && meta.hasNext
    ensures !loading && meta.hasNext ==>
              LoadMoreRequest(View(list, loading, meta), filters, sort, page) == Some(Query(filters, sort, page + 1, PageSize, false))
  {
  }

  class BrowsePetsPage {
    var filters: map<string, string>
    var sort: string
    var page: int
    var showFilters: bool
    /** The filters and sort the refetch effect last ran for (its dependency key); None before the first render. */
    var fetchedFor: Option<(map<string, string>, string)>

    constructor ()
      ensures filters == map[] && sort == DefaultSort && page == 1 && !showFilters && fetchedFor == None
      ensures !HasActiveFilters(filters, sort)
    {
      filters := map[];
      sort := DefaultSort;
      page := 1;
      showFilters := false;
      fetchedFor := None;
    }

    /** After a render, the effect runs when the filters' contents or the sort differ from the last run (the
        first render included), and then asks for page 1. */
    method Effect() returns (req: Option<Query>)
      modifies this
      ensures req.Some? <==> old(fetchedFor) != Some((filters, sort))
      ensures req.Some? ==> req.value == FirstPage(filters, sort)
      ensures fetchedFor == Some((filters, sort))
      ensures filters == old(filters) && sort == old(sort) && page == old(page) && showFilters == old(showFilters)
    {
      req := None;
      if fetchedFor != Some((filters, sort)) {
        fetchedFor := Some((filters, sort));
        req := Some(FirstPage(filters, sort));
      }
    }

    /** The effect's fetch settled: only a success resets the page to 1. */
    method RefetchSettled(ok: bool)
      modifies this
      ensures page == (if ok then 1 else old(page))
      ensures filters == old(filters) && sort == old(sort) && showFilters == old(showFilters) && fetchedFor == old(fetchedFor)
    {
      if ok {
        page := 1;
      }
    }

    /** The filter panel and the sort select write their values. */
    method SetFilters(f: map<string, string>)
      modifies this
      ensures filters == f
      ensures sort == old(sort) && page == old(page) && showFilters == old(showFilters) && fetchedFor == old(fetchedFor)
    {
      filters := f;
    }

    method SetSort(s: string)
      modifies this
      ensures sort == s
      ensures filters == old(filters) && page == old(page) && showFilters == old(showFilters) && fetchedFor == old(fetchedFor)
    {
      sort := s;
    }

    /** `onApplyFilters`: a copy of the same filters, and the panel closes. */
    method ApplyFilters()
      modifies this
      ensures filters == old(filters) && !showFilters
      ensures sort == old(sort) && page == old(page) && fetchedFor == old(fetchedFor)
    {
      filters := map k | k in filters :: filters[k];
      showFilters := false;
    }

    /** `clearFilters`: no filters, the default sort; nothing is active any more. */
    method ClearFilters()
      modifies this
      ensures filters == map[] && sort == DefaultSort
      ensures !HasActiveFilters(filters, sort)
      ensures page == old(page) && showFilters == old(showFilters) && fetchedFor == old(fetchedFor)
    {
      filters := map[];
      sort := DefaultSort;
    }

    /** `loadMore` up to the request. */
    method LoadMore(v: StoreView) returns (req: Option<Query>)
      ensures req == LoadMoreRequest(v, filters, sort, page)
    {
      req := None;
      if v.loading || v.hasMore != Some(true) {
        return;
      }
      var next := page + 1;
      req := Some(Query(filters, sort, next, PageSize, false));
    }

    /** `loadMore`'s fetch settled: the page moves to the one requested only on success. */
    method LoadMoreSettled(req: Query, ok: bool)
      modifies this
      ensures page == (if ok then req.page else old(page))
      ensures filters == old(filters) && sort == old(sort) && showFilters == old(showFilters) && fetchedFor == old(fetchedFor)
    {
      if ok {
        page := req.page;
      }
    }
  }

  /** Applying the filters changes neither the filters' contents nor the sort, so the effect that follows
      sends nothing: "apply" does not by itself refetch. */
  method ApplyThenRender(p: BrowsePetsPage) returns (req: Option<Query>)
    requires p.fetchedFor == Some((p.filters, p.sort))
    modifies p
    ensures req.None?
    ensures p.filters == old(p.filters) && p.sort == old(p.sort) && p.page == old(p.page)
  {
    p.ApplyFilters();
    req := p.Effect();
  }

  /** Clearing active filters and rendering fetches page 1 of the unfiltered, newest-first list; once that
      succeeds, the page is 1 again. */
  method ClearThenRefetch(p: BrowsePetsPage, ok: bool) returns (req: Option<Query>)
    requires p.fetchedFor == Some((p.filters, p.sort))
    requires HasActiveFilters(p.filters, p.sort)
    modifies p
    ensures req == Some(Query(map[], DefaultSort, 1, PageSize, true))
    ensures ok ==> p.page == 1
  {
    p.ClearFilters();
    req := p.Effect();
    p.RefetchSettled(ok);
  }
}
