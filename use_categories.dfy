/** The hook that loads the plain category list and keeps the old list on failure. */
module UseCategories {
  import opened Wrappers
  import opened Json
  import opened UseApi
  import UseAllCategories

  const Endpoint := "/categories/getAllCategories"

  /**
   * The list the effect writes, if any: the nested `categories` array, else
   * the data itself when it is an array, else no write at all.
   */
  function Select(result: ApiResult): (c: Option<seq<Json>>)
    ensures UseAllCategories.HasNestedArray(result) ==> c == Some(result.data.value.fields["categories"].items)
    ensures !UseAllCategories.HasNestedArray(result) && UseAllCategories.IsArrayResult(result) ==>
              c == Some(result.data.value.items)
    ensures c.None? <==> !UseAllCategories.HasNestedArray(result) && !UseAllCategories.IsArrayResult(result)
  {
    if UseAllCategories.HasNestedArray(result) then Some(result.data.value.fields["categories"].items)
    else if UseAllCategories.IsArrayResult(result) then Some(result.data.value.items)
    else None
  }

  /**
   * The two category hooks pick the same list; where this one writes
   * nothing, the other writes the empty list.
   */
  lemma AgreesWithAllCategories(result: ApiResult)
    ensures Select(result).Some? ==> Select(result).value == UseAllCategories.Select(result)
    ensures Select(result).None? ==> UseAllCategories.Select(result) == []
  {
  }

  /** A failed request leaves the list as it was. */
  lemma FailureWritesNothing(x: Exchange)
    requires !(x.Responded? && x.ok)
    ensures Select(ResultOf(x)).None?
  {
  }

  class Categories {
    const api: Api
    var categories: seq<Json>

    constructor ()
      ensures categories == [] && fresh(api)
      ensures !api.loading && api.error.None? && api.loadingWrites == [] && api.errorWrites == []
    {
      api := new Api();
      categories := [];
    }

    /** The mount effect: one GET of the endpoint, then at most one write of the list. */
    method Load(baseUrl: string, token: Option<string>, exchange: Exchange) returns (call: FetchCall)
      modifies this, api
      ensures call == Call(baseUrl, Endpoint, "GET", None, NoOptions, token)
      ensures categories == Select(ResultOf(exchange)).GetOr(old(categories))
      ensures !api.loading && api.error == ResultOf(exchange).error
      ensures api.loadingWrites == old(api.loadingWrites) + [true, false]
      ensures api.errorWrites == old(api.errorWrites) + [None] +
                (if ResultOf(exchange).error.Some? then [ResultOf(exchange).error] else [])
    {
      var result;
      call, result := api.Request(baseUrl, Endpoint, "GET", None, NoOptions, token, exchange);
      if UseAllCategories.HasNestedArray(result) {
        categories := result.data.value.fields["categories"].items;
      } else if UseAllCategories.IsArrayResult(result) {
        categories := result.data.value.items;
      }
    }
  }
}
