/** The catalogue's search box: it starts from the URL's `search` parameter and
    on submit writes the typed text back to the URL, or removes the parameter
    when the box is empty. */
module ProductSearch {
  import opened Common
  import opened UrlParams

  /** The parameters pushed on submit: a copy of the current ones with
      `search` set to the typed text as it is, or deleted when the text is
      empty. */
  function Searched(params: Params, query: string): Params
  {
    if query != "" then params["search" := query] else params - {"search"}
  }

  /** The text the box starts with: `searchParams.get("search") || ""`. */
  function InitialQuery(params: Params): (q: string)
    ensures "search" !in params ==> q == ""
    ensures "search" in params ==> q == params["search"]
  {
    OrEmpty(Get(params, "search"))
  }

  class Search {
    var params: Params
    var searchQuery: string

    constructor (url: Params)
      ensures params == url
      ensures searchQuery == InitialQuery(url)
    {
      params := url;
      searchQuery := InitialQuery(url);
    }

    /** The input's `onChange`. */
    method SetSearchQuery(text: string)
      modifies this`searchQuery
      ensures searchQuery == text
    {
      searchQuery := text;
    }

    /** `handleSearch`: copy, then `set` or `delete`, then push. */
    method HandleSearch()
      modifies this`params
      ensures params == Searched(old(params), searchQuery)
    {
      var newParams := params;
      if searchQuery != "" {
        newParams := newParams["search" := searchQuery];
      } else {
        newParams := newParams - {"search"};
      }
      params := newParams;
    }
  }

  /** A non-empty query is stored exactly as typed, untrimmed; an empty one
      removes the parameter. */
  lemma QueryStoredOrRemoved(params: Params, query: string)
    ensures query != "" ==> Get(Searched(params, query), "search") == Some(query)
    ensures query == "" ==> Get(Searched(params, query), "search") == None
  {
  }

  /** Every other parameter is carried over unchanged. */
  lemma OtherParamsKept(params: Params, query: string)
    ensures Searched(params, query) - {"search"} == params - {"search"}
  {
    var r := Searched(params, query);
    assert forall k :: k in r - {"search"} <==> k in params - {"search"};
  }

  /** A search box built on the pushed URL starts with the text that was
      submitted. */
  lemma QueryRoundTrip(params: Params, query: string)
    ensures InitialQuery(Searched(params, query)) == query
  {
  }
}
