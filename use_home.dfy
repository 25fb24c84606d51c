/** The hook that loads the home feed: a `main` list and a `categories` list. */
module UseHome {
  import opened Wrappers
  import opened Json
  import opened UseApi

  const Endpoint := "/user/home"

  /**
   * The two values the effect writes, if any: only a truthy `data` writes,
   * and each missing or falsy field falls back to the empty array.
   */
  function Select(result: ApiResult): (u: Option<(Json, Json)>)
    ensures u.Some? <==> result.data.Some? && Truthy(result.data.value)
    ensures u.Some? ==> u.value.0 == OrElse(Lookup(result.data.value, "main"), JArr([]))
    ensures u.Some? ==> u.value.1 == OrElse(Lookup(result.data.value, "categories"), JArr([]))
    ensures u.Some? ==> Truthy(u.value.0) && Truthy(u.value.1)
  {
    if result.data.Some? && Truthy(result.data.value) then
      Some((OrElse(Lookup(result.data.value, "main"), JArr([])),
            OrElse(Lookup(result.data.value, "categories"), JArr([]))))
    else None
  }

  /** A successful object response with both arrays present yields them as they are. */
  lemma BothFieldsTaken(fields: map<string, Json>, main: seq<Json>, categories: seq<Json>)
    requires "main" in fields && fields["main"] == JArr(main)
    requires "categories" in fields && fields["categories"] == JArr(categories)
    ensures Select(ResultOf(Responded(true, JObj(fields)))) == Some((JArr(main), JArr(categories)))
  {
  }

  /** A successful response without the fields empties both lists. */
  lemma MissingFieldsEmpty(fields: map<string, Json>)
    requires "main" !in fields && "categories" !in fields
    ensures Select(ResultOf(Responded(true, JObj(fields)))) == Some((JArr([]), JArr([])))
  {
  }

  /** A failed request writes nothing. */
  lemma FailureWritesNothing(x: Exchange)
    requires !(x.Responded? && x.ok)
    ensures Select(ResultOf(x)).None?
  {
  }

  class Home {
    const api: Api
    var main: Json
    var categories: Json

    constructor ()
      ensures main == JArr([]) && categories == JArr([]) && fresh(api)
      ensures !api.loading && api.error.None? && api.loadingWrites == [] && api.errorWrites == []
    {
      api := new Api();
      main, categories := JArr([]), JArr([]);
    }

    /** The mount effect: one GET of the endpoint, then both lists written or neither. */
    method Load(baseUrl: string, token: Option<string>, exchange: Exchange) returns (call: FetchCall)
      modifies this, api
      ensures call == Call(baseUrl, Endpoint, "GET", None, NoOptions, token)
      ensures Select(ResultOf(exchange)).Some? ==> (main, categories) == Select(ResultOf(exchange)).value
      ensures Select(ResultOf(exchange)).None? ==> main == old(main) && categories == old(categories)
      ensures !api.loading && api.error == ResultOf(exchange).error
      ensures api.loadingWrites == old(api.loadingWrites) + [true, false]
      ensures api.errorWrites == old(api.errorWrites) + [None] +
                (if ResultOf(exchange).error.Some? then [ResultOf(exchange).error] else [])
    {
      var result;
      call, result := api.Request(baseUrl, Endpoint, "GET", None, NoOptions, token, exchange);
      if result.data.Some? && Truthy(result.data.value) {
        main := OrElse(Lookup(result.data.value, "main"), JArr([]));
        categories := OrElse(Lookup(result.data.value, "categories"), JArr([]));
      }
    }
  }
}
