/**
 * `SearchResults` of `mercapi/models/search/search_results.py`: one page of results
 * and the request that fetched it, from which the neighbouring pages are requested.
 */
module SearchResultsPage {
  import opened Wrappers
  import opened PyData
  import SearchRequest

  /** `Meta` of `mercapi/models/search/meta.py`. */
  datatype Meta = Meta(nextPageToken: string, prevPageToken: string, numFound: int)

  class SearchResults {
    var meta: Meta
    var items: seq<Value>
    /** `_request`: not set by the constructor (`init=False`); `null` until the client assigns it. */
    var request: SearchRequest.SearchRequestData?

    /** The generated `__init__`, which takes `meta` and `items` only. */
    constructor (meta: Meta, items: seq<Value>)
      ensures this.meta == meta && this.items == items && request == null
    {
      this.meta := meta;
      this.items := items;
      request := null;
    }

    /** The generated `__eq__`: `_request` is left out of the comparison (`compare=False`). */
    predicate Equals(other: SearchResults)
      reads this, other
    {
      meta == other.meta && items == other.items
    }

    /**
     * The request `next_page` sends: `IncorrectRequestError` on the last page (an empty
     * token), checked before the request is touched; otherwise a fresh copy of
     * `_request` whose only change is the page token. `_request` itself is left as it
     * was. Reading `_request` before it was assigned raises `AttributeError`.
     */
    method NextPage() returns (r: Result<SearchRequest.SearchRequestData, Raised>)
      ensures meta.nextPageToken == "" <==> r == Err(IncorrectRequestError)
      ensures meta.nextPageToken != "" && request == null ==> r == Err(Exception(AttributeError))
      ensures r.Ok? <==> meta.nextPageToken != "" && request != null
      ensures r.Ok? ==> fresh(r.value) && r.value.pageToken == meta.nextPageToken
      ensures r.Ok? ==> r.value.searchConditions == request.searchConditions
      ensures request != null ==> request.pageToken == old(request.pageToken)
    {
      r := PageRequest(meta.nextPageToken);
    }

    /** The request `prev_page` sends, on the same terms with the previous-page token. */
    method PrevPage() returns (r: Result<SearchRequest.SearchRequestData, Raised>)
      ensures meta.prevPageToken == "" <==> r == Err(IncorrectRequestError)
      ensures meta.prevPageToken != "" && request == null ==> r == Err(Exception(AttributeError))
      ensures r.Ok? <==> meta.prevPageToken != "" && request != null
      ensures r.Ok? ==> fresh(r.value) && r.value.pageToken == meta.prevPageToken
      ensures r.Ok? ==> r.value.searchConditions == request.searchConditions
      ensures request != null ==> request.pageToken == old(request.pageToken)
    {
      r := PageRequest(meta.prevPageToken);
    }

    /** The guard and the copy shared by the two: `copy(self._request)` with `page_token` replaced. */
    method PageRequest(token: string) returns (r: Result<SearchRequest.SearchRequestData, Raised>)
      ensures token == "" <==> r == Err(IncorrectRequestError)
      ensures token != "" && request == null ==> r == Err(Exception(AttributeError))
      ensures r.Ok? <==> token != "" && request != null
      ensures r.Ok? ==> fresh(r.value) && r.value.pageToken == token
      ensures r.Ok? ==> r.value.searchConditions == request.searchConditions
      ensures request != null ==> request.pageToken == old(request.pageToken)
    {
      if token == "" {
        return Err(IncorrectRequestError);
      }
      if request == null {
        return Err(Exception(AttributeError));
      }
      var newRequest := request.Copy();
      newRequest.pageToken := token;
      r := Ok(newRequest);
    }
  }

  /** Results that differ only in `_request` compare equal, and the comparison is an equivalence. */
  lemma EqualityIgnoresRequest(a: SearchResults, b: SearchResults, c: SearchResults)
    ensures a.meta == b.meta && a.items == b.items ==> a.Equals(b)
    ensures a.Equals(a)
    ensures a.Equals(b) ==> b.Equals(a)
    ensures a.Equals(b) && b.Equals(c) ==> a.Equals(c)
  {
  }
}
