/** The hook that loads the formatted category list and always replaces it. */
module UseAllCategories {
  import opened Wrappers
  import opened Json
  import opened UseApi

  const Endpoint := "/categories/allFormatted"

  /** `result.data && Array.isArray(result.data.categories)`. */
  predicate HasNestedArray(result: ApiResult)
    ensures HasNestedArray(result) <==>
              && result.data.Some? && result.data.value.JObj?
              && "categories" in result.data.value.fields
              && result.data.value.fields["categories"].JArr?
  {
    result.data.Some? && Truthy(result.data.value) && IsArray(Lookup(result.data.value, "categories"))
  }

  /** `Array.isArray(result.data)`; never true of a result carrying an error. */
  predicate IsArrayResult(result: ApiResult)
    ensures IsArrayResult(result) ==> result.data.Some? && Truthy(result.data.value)
  {
    IsArray(result.data)
  }

  /**
   * The list the effect stores: the nested `categories` array if there is
   * one, else the data itself if it is an array, else empty.
   */
  function Select(result: ApiResult): (c: seq<Json>)
    ensures HasNestedArray(result) ==> c == result.data.value.fields["categories"].items
    ensures !HasNestedArray(result) && IsArrayResult(result) ==> c == result.data.value.items
    ensures !HasNestedArray(result) && !IsArrayResult(result) ==> c == []
  {
    if HasNestedArray(result) then result.data.value.fields["categories"].items
    else if IsArrayResult(result) then result.data.value.items
    else []
  }

  /**
   * A parsed array has no `categories` property, so at most one of the two
   * shapes applies and the order of the checks decides nothing.
   */
  lemma ShapesExclusive(result: ApiResult)
    ensures !(HasNestedArray(result) && IsArrayResult(result))
  {
  }

  /** A failed request empties the list. */
  lemma FailureClears(x: Exchange)
    requires !(x.Responded? && x.ok)
    ensures Select(ResultOf(x)) == []
  {
  }

  /** An object response with a `categories` array yields exactly that array. */
  lemma NestedArraySelected(fields: map<string, Json>, items: seq<Json>)
    requires "categories" in fields && fields["categories"] == JArr(items)
    ensures Select(ResultOf(Responded(true, JObj(fields)))) == items
  {
  }

  class AllCategories {
    const api: Api
    var categories: seq<Json>

    constructor ()
      ensures categories == [] && fresh(api)
      ensures !api.loading && api.error.None? && api.loadingWrites == [] && api.errorWrites == []
    {
      api := new Api();
      categories := [];
    }

    /** The mount effect: one GET of the endpoint, then one write of the list. */
    method Load(baseUrl: string, token: Option<string>, exchange: Exchange) returns (call: FetchCall)
      modifies this, api
      ensures call == Call(baseUrl, Endpoint, "GET", None, NoOptions, token)
      ensures call.url == baseUrl + Endpoint && call.body.None?
      ensures categories == Select(ResultOf(exchange))
      ensures !api.loading && api.error == ResultOf(exchange).error
      ensures api.loadingWrites == old(api.loadingWrites) + [true, false]
      ensures api.errorWrites == old(api.errorWrites) + [None] +
                (if ResultOf(exchange).error.Some? then [ResultOf(exchange).error] else [])
    {
      var result;
      call, result := api.Request(baseUrl, Endpoint, "GET", None, NoOptions, token, exchange);
      if HasNestedArray(result) {
        categories := result.data.value.fields["categories"].items;
      } else if IsArrayResult(result) {
        categories := result.data.value.items;
      } else {
        categories := [];
      }
    }
  }
}
