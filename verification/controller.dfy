/** The page's event handlers, with the network replaced by its answers:
    `loaded` is what the catalog request returned, and `search` maps a query to
    what the search endpoint returns. */
module Controller {
  import opened Wrappers
  import opened Text
  import opened Query
  import opened Render

  /** A non-success HTTP status; it carries no further classification */
  datatype FetchError = FetchError

  /** What a submission did: the query it sent, if any, and the resulting list container */
  datatype Submission = Submission(request: Option<seq<Param>>, view: View)

  /** The container after a fetch: rendered on success, left as it was on failure */
  function RenderResponse(response: Result<seq<Item>, FetchError>, view: View): (r: View)
    ensures response.Failure? ==> r == view
    ensures response.Success? ==> r == RenderItems(response.value, view)
  {
    match response
    case Success(items) => RenderItems(items, view)
    case Failure(_) => view
  }

  /** Page load: render the whole catalog */
  function OnLoad(loaded: Result<seq<Item>, FetchError>, view: View): (r: View)
    ensures loaded.Failure? ==> r == view
    ensures loaded.Success? ==> r == RenderItems(loaded.value, view)
  {
    RenderResponse(loaded, view)
  }

  /** Filter form: search by the three filter fields, never by keyword */
  function OnFilterSubmit(status: string, category: string, location: string,
                          search: seq<Param> -> Result<seq<Item>, FetchError>, view: View): (s: Submission)
    ensures s.request.Some?
    ensures Get(s.request.value, KeywordKey).None?
    ensures CriteriaOf(s.request.value) == Criteria(status, category, location, "")
    ensures s.request.value == SearchParams(Criteria(status, category, location, ""))
    ensures search(s.request.value).Failure? ==> s.view == view
    ensures search(s.request.value).Success? ==> s.view == RenderItems(search(s.request.value).value, view)
  {
    var c := Criteria(status, category, location, "");
    var q := SearchParams(c);
    SearchParamsGet(c, KeywordKey);
    QueryRoundTrip(c);
    Submission(Some(q), RenderResponse(search(q), view))
  }

  /** Navbar search: a blank keyword sends nothing and changes nothing; otherwise
      only the trimmed keyword is sent, the empty filters being omitted */
  function OnNavbarSubmit(input: string, search: seq<Param> -> Result<seq<Item>, FetchError>,
                          view: View): (s: Submission)
    ensures s.request.None? <==> AllWhitespace(input)
    ensures s.request.None? ==> s.view == view
    ensures s.request.Some? ==> s.request.value == [(KeywordKey, Trim(input))]
    ensures s.request.Some? && search(s.request.value).Failure? ==> s.view == view
    ensures s.request.Some? && search(s.request.value).Success? ==>
      s.view == RenderItems(search(s.request.value).value, view)
  {
    var keyword := Trim(input);
    if keyword == "" then Submission(None, view)
    else
      var q := SearchParams(Criteria("", "", "", keyword));
      assert q == [(KeywordKey, keyword)];
      Submission(Some(q), RenderResponse(search(q), view))
  }
}
