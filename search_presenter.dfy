/**
 * The search screen's presenter: it builds the request for a submitted query,
 * counts result pages, computes where a further page is appended, and maps a
 * failed request to what the screen shows.
 *
 * The requests themselves run asynchronously in the application; here each
 * answer arrives as an explicit call (OnQuerySubmittedSuccess, OnFetchMoreError, ...).
 */
module Search {
  import opened Wrappers
  import Decimal

  /** Results the server returns per page; also the stride of the append offset. */
  const ResultsPerPage: int := 30
  const QueryPrefix: string := "photos/search?query="
  const PageInfix: string := "&per_page=30&page="

  /** A presenter entity of one found picture; the presenter only passes it on. */
  type Picture = string

  /**
   * Why a search request failed. UnresolvedHost is any failure other than
   * NoResultFound whose message is exactly the platform's "unable to resolve
   * host api.unsplash.com, no address associated with hostname" text.
   */
  datatype SearchError = NoResultFound | UnresolvedHost | OtherFailure

  /** Calls the presenter makes on the search view. */
  datatype SearchViewCall =
    | HideAll
    | ShowLoader
    | HideLoader
    | ShowSearchResults(results: seq<Picture>)
    | ShowNoResultView(keyword: Option<string>)
    | ShowNoInternetView
    | ShowGenericErrorView
    | ShowBottomLoader
    | HideBottomLoader
    | AppendSearchResults(offset: int, results: seq<Picture>)
    | ShowNoInternetToast
    | ShowGenericErrorToast

  /** The presenter's bookkeeping: the next page to ask for and the last query. */
  datatype SearchState = SearchState(queryPage: int, keyword: Option<string>)

  const InitialState: SearchState := SearchState(1, None)

  /** A Kotlin string template prints a null keyword as "null". */
  function KeywordText(keyword: Option<string>): string {
    match keyword
    case Some(w) => w
    case None => "null"
  }

  /** The request path for the given state's keyword and page. */
  function QueryString(s: SearchState): (r: string)
    ensures var k := KeywordText(s.keyword);
      var d := Decimal.IntToString(s.queryPage);
      && |r| == |QueryPrefix| + |k| + |PageInfix| + |d|
      && r[..|QueryPrefix|] == QueryPrefix
      && r[|QueryPrefix|..|QueryPrefix| + |k|] == k
      && r[|QueryPrefix| + |k|..|r| - |d|] == PageInfix
      && r[|r| - |d|..] == d
  {
    var k := KeywordText(s.keyword);
    var d := Decimal.IntToString(s.queryPage);
    var r := QueryPrefix + k + PageInfix + d;
    assert r[..|QueryPrefix|] == QueryPrefix;
    assert r[|QueryPrefix|..|QueryPrefix| + |k|] == k;
    assert r[|QueryPrefix| + |k|..|r| - |d|] == PageInfix;
    assert r[|r| - |d|..] == d;
    r
  }

  /** What a request path says: the keyword text and the page number. */
  datatype Request = Request(keyword: string, page: int)

  predicate IsNumberChar(c: char) {
    Decimal.IsDigit(c) || c == '-'
  }

  /** Length of the longest suffix of `s` made of digits and minus signs. */
  function TrailingNumberLength(s: string): (n: nat)
    ensures n <= |s|
  {
    if |s| == 0 || !IsNumberChar(s[|s| - 1]) then 0 else 1 + TrailingNumberLength(s[..|s| - 1])
  }

  /** Reads a request path back into its keyword and page, if it has the request's shape. */
  function ParseRequest(s: string): Option<Request> {
    var n := TrailingNumberLength(s);
    var head := s[..|s| - n];
    if n > 0 && |head| >= |QueryPrefix| + |PageInfix|
       && head[..|QueryPrefix|] == QueryPrefix
       && head[|head| - |PageInfix|..] == PageInfix
    then Some(Request(head[|QueryPrefix|..|head| - |PageInfix|], Decimal.ParseInt(s[|s| - n..])))
    else None
  }

  lemma {:induction false} TrailingNumberOfSuffix(a: string, b: string)
    requires |a| > 0 && !IsNumberChar(a[|a| - 1])
    requires forall k :: 0 <= k < |b| ==> IsNumberChar(b[k])
    ensures TrailingNumberLength(a + b) == |b|
    decreases |b|
  {
    if |b| > 0 {
      assert (a + b)[..|a + b| - 1] == a + b[..|b| - 1];
      TrailingNumberOfSuffix(a, b[..|b| - 1]);
    } else {
      assert a + b == a;
    }
  }

  /**
   * The request path determines the keyword text and the page it was built
   * from: no two pages of one query share a request.
   */
  lemma QueryStringRoundTrip(s: SearchState)
    ensures ParseRequest(QueryString(s)) == Some(Request(KeywordText(s.keyword), s.queryPage))
  {
    var k := KeywordText(s.keyword);
    var d := Decimal.IntToString(s.queryPage);
    var head := QueryPrefix + k + PageInfix;
    assert QueryString(s) == head + d;
    assert head[|head| - 1] == '=';
    TrailingNumberOfSuffix(head, d);
    var q := head + d;
    assert q[..|q| - |d|] == head;
    assert q[|q| - |d|..] == d;
    assert head[..|QueryPrefix|] == QueryPrefix;
    assert head[|head| - |PageInfix|..] == PageInfix;
    assert head[|QueryPrefix|..|head| - |PageInfix|] == k;
    Decimal.IntToStringRoundTrip(s.queryPage);
  }

  lemma QueryStringDeterminesPage(s: SearchState, t: SearchState)
    requires QueryString(s) == QueryString(t)
    ensures s.queryPage == t.queryPage
    ensures KeywordText(s.keyword) == KeywordText(t.keyword)
  {
    QueryStringRoundTrip(s);
    QueryStringRoundTrip(t);
  }

  /** Submitting a query resets the page to 1 and remembers the keyword. */
  function Submitted(s: SearchState, query: Option<string>): (r: SearchState)
    ensures r.queryPage == 1 && r.keyword == query
  {
    SearchState(1, query)
  }

  /** A successful answer, to a submit or to a fetch-more, advances the page. */
  function Succeeded(s: SearchState): (r: SearchState)
    ensures r.queryPage == s.queryPage + 1 && r.keyword == s.keyword
  {
    s.(queryPage := s.queryPage + 1)
  }

  /** Where a further page is appended: the results already on screen. */
  function AppendOffset(s: SearchState): (r: int)
    ensures r % ResultsPerPage == 0 && r / ResultsPerPage == s.queryPage - 1
    ensures s.queryPage >= 1 ==> r >= 0
  {
    (s.queryPage - 1) * ResultsPerPage
  }

  /** Each successful answer moves the append offset on by exactly one page of results. */
  lemma AppendOffsetAdvances(s: SearchState)
    ensures AppendOffset(Succeeded(s)) == AppendOffset(s) + ResultsPerPage
  {
  }

  /** The view call for a failed submit. */
  function SubmitErrorView(keyword: Option<string>, e: SearchError): (c: SearchViewCall)
    ensures c == ShowNoResultView(keyword) <==> e == NoResultFound
    ensures c == ShowNoInternetView <==> e == UnresolvedHost
    ensures c == ShowGenericErrorView <==> e == OtherFailure
  {
    match e
    case NoResultFound => ShowNoResultView(keyword)
    case UnresolvedHost => ShowNoInternetView
    case OtherFailure => ShowGenericErrorView
  }

  /** The view call for a failed fetch-more: toasts instead of full-screen views. */
  function FetchMoreErrorView(keyword: Option<string>, e: SearchError): (c: SearchViewCall)
    ensures c == ShowNoResultView(keyword) <==> e == NoResultFound
    ensures c == ShowNoInternetToast <==> e == UnresolvedHost
    ensures c == ShowGenericErrorToast <==> e == OtherFailure
  {
    match e
    case NoResultFound => ShowNoResultView(keyword)
    case UnresolvedHost => ShowNoInternetToast
    case OtherFailure => ShowGenericErrorToast
  }

  /** An answer to an outstanding request. */
  datatype Response = Success | Failure(error: SearchError)

  /** Bookkeeping after a series of answers, none of them to a new submit. */
  function AfterResponses(s: SearchState, rs: seq<Response>): SearchState
    decreases |rs|
  {
    if rs == [] then s
    else AfterResponses(if rs[0].Success? then Succeeded(s) else s, rs[1..])
  }

  function Successes(rs: seq<Response>): nat
    decreases |rs|
  {
    if rs == [] then 0 else (if rs[0].Success? then 1 else 0) + Successes(rs[1..])
  }

  lemma {:induction false} AfterResponsesCounts(s: SearchState, rs: seq<Response>)
    ensures AfterResponses(s, rs).queryPage == s.queryPage + Successes(rs)
    ensures AfterResponses(s, rs).keyword == s.keyword
    decreases |rs|
  {
    if rs != [] {
      AfterResponsesCounts(if rs[0].Success? then Succeeded(s) else s, rs[1..]);
    }
  }

  /**
   * After a submit and k successful answers (failures in between change
   * nothing), the next fetch asks for page k+1 of the same query and its
   * results are appended after the first 30*k.
   */
  lemma PagesAfterSubmit(s: SearchState, query: Option<string>, rs: seq<Response>)
    ensures var t := AfterResponses(Submitted(s, query), rs);
      && t == SearchState(Successes(rs) + 1, query)
      && QueryString(t) == QueryPrefix + KeywordText(query) + PageInfix + Decimal.IntToString(Successes(rs) + 1)
      && AppendOffset(t) == ResultsPerPage * Successes(rs)
  {
    AfterResponsesCounts(Submitted(s, query), rs);
  }

  /** The presenter object; its fields are the state the source keeps. */
  class SearchPresenter {
    var queryPage: int
    var keyword: Option<string>

    function State(): SearchState
      reads this
    {
      SearchState(queryPage, keyword)
    }

    constructor ()
      ensures State() == InitialState
    {
      queryPage := 1;
      keyword := None;
    }

    /** A new query: returns the request to send and the calls on the view. */
    method NotifyQuerySubmitted(query: Option<string>) returns (request: string, calls: seq<SearchViewCall>)
      modifies this
      ensures State() == Submitted(old(State()), query)
      ensures request == QueryString(State())
      ensures calls == [HideAll, ShowLoader]
    {
      queryPage := 1;
      calls := [HideAll, ShowLoader];
      keyword := query;
      request := QueryString(State());
    }

    method OnQuerySubmittedSuccess(results: seq<Picture>) returns (calls: seq<SearchViewCall>)
      modifies this
      ensures State() == Succeeded(old(State()))
      ensures calls == [HideLoader, ShowSearchResults(results)]
    {
      calls := [HideLoader, ShowSearchResults(results)];
      queryPage := queryPage + 1;
    }

    /** A failed submit leaves the page where it was. */
    method OnQuerySubmittedError(e: SearchError) returns (calls: seq<SearchViewCall>)
      ensures calls == [SubmitErrorView(keyword, e)]
    {
      calls := [SubmitErrorView(keyword, e)];
    }

    /** A further page of the stored query; the page is not reset. */
    method FetchMoreImages() returns (request: string, calls: seq<SearchViewCall>)
      ensures request == QueryString(SearchState(queryPage, keyword))
      ensures calls == [ShowBottomLoader]
    {
      calls := [ShowBottomLoader];
      request := QueryString(State());
    }

    /** The offset is computed from the page before it is advanced. */
    method OnFetchMoreSuccess(results: seq<Picture>) returns (calls: seq<SearchViewCall>)
      modifies this
      ensures State() == Succeeded(old(State()))
      ensures calls == [HideBottomLoader, AppendSearchResults(AppendOffset(old(State())), results)]
    {
      calls := [HideBottomLoader, AppendSearchResults((queryPage - 1) * ResultsPerPage, results)];
      queryPage := queryPage + 1;
    }

    method OnFetchMoreError(e: SearchError) returns (calls: seq<SearchViewCall>)
      ensures calls == [FetchMoreErrorView(keyword, e)]
    {
      calls := [FetchMoreErrorView(keyword, e)];
    }
  }
}
