/**
 * The interventions screen (`InterventionList`): one page fetched with a
 * bare HTTP client (so neither interceptor applies), delete with
 * confirmation, manual refresh and a retry counter.
 */
module InterventionList {
  import opened Common
  import opened Http
  import opened Session
  import opened Api
  import opened Pagination
  import UsersList

  const LoadError := "Impossible de charger les interventions. Veuillez réessayer plus tard."
  const DeleteError := "Impossible de supprimer l'intervention"
  const DeletedMessage := "Intervention supprimée avec succès"
  const ListUrlPrefix := "http://localhost:8000/api/interventions?page="

  /** The absolute URL of one page; it does not go through the client's base URL. */
  function PageUrl(page: int): (url: string)
    ensures |url| == |ListUrlPrefix| + |IntText(page)|
    ensures url[..|ListUrlPrefix|] == ListUrlPrefix
    ensures url[|ListUrlPrefix|..] == IntText(page)
  {
    ListUrlPrefix + IntText(page)
  }

  /** The server reads back the requested page from the end of the URL. */
  lemma PageUrlCarriesPage(page: int)
    ensures ParseInt(PageUrl(page)[|ListUrlPrefix|..]) == Some(page)
  {
    ParseIntText(page);
  }

  /**
   * The headers of the direct request: always an Authorization header,
   * `Bearer ` followed by the stored token, or by the text "null" when no
   * token is stored.
   */
  function DirectHeaders(s: Storage): (h: map<string, string>)
    ensures h.Keys == {AuthorizationHeader}
    ensures s.token.None? ==> h[AuthorizationHeader] == "Bearer null"
    ensures s.token.Some? ==> h[AuthorizationHeader] == "Bearer " + s.token.value
  {
    map[AuthorizationHeader := "Bearer " + (if s.token.Some? then s.token.value else "null")]
  }

  /** Signed in, the direct request carries the same credential the shared client would add. */
  lemma DirectHeadersMatchClientWhenSignedIn(s: Storage)
    requires IsAuthenticated(s)
    ensures DirectHeaders(s) == Decorated(s, map[])
  {
  }

  /** Signed out, the shared client adds nothing while the direct request still sends a header. */
  lemma DirectHeadersDifferWhenSignedOut(s: Storage)
    requires !IsAuthenticated(s)
    ensures Decorated(s, map[]) == map[] && AuthorizationHeader in DirectHeaders(s)
  {
  }

  /**
   * The displayed state after a fetch of interventions. A successful fetch
   * replaces the rows and takes the page count from the server, but the
   * current page is never taken from the response; a failure keeps what was shown.
   */
  function AfterFetch(v: Listing<Record>, outcome: PageOutcome<Record>): (w: Listing<Record>)
    ensures outcome.Ok? ==> w.rows == RowsOf(outcome)
    ensures outcome.Failed? ==> w.rows == v.rows
    ensures outcome.Failed? ==> w == v.(error := LoadError)
    ensures w.currentPage == v.currentPage
    ensures Classify(outcome).Loaded? ==> w.totalPages == Classify(outcome).meta.lastPage
    ensures !Classify(outcome).Loaded? ==> w.totalPages == v.totalPages
    ensures w.error == "" <==> Classify(outcome).Loaded? || Classify(outcome).NoData?
    ensures w.error != "" ==> w.error == LoadError
  {
    match Classify(outcome)
    case Loaded(items, meta) => v.(rows := items, totalPages := meta.lastPage, error := "")
    case LoadedWithoutMeta(items) => v.(rows := items, error := LoadError)
    case NoData => v.(rows := [], error := "")
    case LoadFailed(_) => v.(error := LoadError)
  }

  /**
   * The two paginated screens part ways on the current page: given the same
   * page of data whose meta names another page, the users screen moves to
   * that page and the interventions screen stays where it was.
   */
  lemma OnlyUsersFollowServerPage(
    users: Listing<UserProfile>, userRows: seq<UserProfile>,
    interventions: Listing<Record>, rows: seq<Record>, meta: PageMeta)
    requires meta.currentPage != interventions.currentPage
    ensures UsersList.AfterFetch(users, Ok(Some(PageBody(Some(userRows), Some(meta))))).currentPage == meta.currentPage
    ensures AfterFetch(interventions, Ok(Some(PageBody(Some(rows), Some(meta))))).currentPage != meta.currentPage
  {
  }

  /**
   * The pagination guard as written, `totalPages[0] > 1`: a number has no
   * element 0, so the left side is `undefined` and the comparison is false
   * for every page count.
   */
  function PaginationShownAsWritten(totalPages: int): bool
  {
    // `totalPages[0]` on a number is `undefined`, which is never greater than 1
    var first: Option<int> := None;
    first.Some? && first.value > 1
  }

  /**
   * The guard as written hides the pagination for every page count, so with
   * more than one page the pages after the first cannot be reached; the
   * intended guard would show it exactly then.
   */
  lemma PaginationHiddenForEveryCount(totalPages: int)
    ensures !PaginationShownAsWritten(totalPages)
    ensures totalPages > 1 ==> PaginationShown(totalPages) != PaginationShownAsWritten(totalPages)
  {
  }

  /** The evidently intended guard, the one the users screen has. */
  function PaginationShown(totalPages: int): (shown: bool)
    ensures shown <==> totalPages > 1
    ensures shown ==> |PageNumbers(totalPages)| > 1
  {
    totalPages > 1
  }

  /** The badge style of an intervention's status; any other status, or none, is grey. */
  function StatusStyle(statut: Option<string>): (style: string)
    ensures statut == Some("terminée") ==> style == "bg-success"
    ensures statut == Some("en_cours") ==> style == "bg-warning"
    ensures statut == Some("programmée") ==> style == "bg-info"
    ensures statut !in {Some("terminée"), Some("en_cours"), Some("programmée")} ==> style == "bg-secondary"
  {
    if statut == Some("terminée") then "bg-success"
    else if statut == Some("en_cours") then "bg-warning"
    else if statut == Some("programmée") then "bg-info"
    else "bg-secondary"
  }

  /** The badge text: the status itself, or `Non défini` when it is missing or empty. */
  function StatusText(statut: Option<string>): (text: string)
    ensures text != ""
    ensures Truthy(statut) ==> text == statut.value
    ensures !Truthy(statut) ==> text == "Non défini"
  {
    if Truthy(statut) then statut.value else "Non défini"
  }

  class InterventionList {
    var interventions: seq<Record>
    var currentPage: int
    var totalPages: int
    var loading: bool
    var error: string
    var successMessage: string
    /** `useState()` with no initial value: `None` until an effect sets it. */
    var retryCount: Option<int>

    /** The state on first render, before the effects run. */
    constructor ()
      ensures interventions == [] && currentPage == 1 && totalPages == 0
      ensures loading && error == "" && successMessage == "" && retryCount.None?
      ensures !ShowsRetryCount()
    {
      interventions := [];
      currentPage := 1;
      totalPages := 0;
      loading := true;
      error := "";
      successMessage := "";
      retryCount := None;
    }

    function Shown(): Listing<Record>
      reads this
    {
      Listing(interventions, currentPage, totalPages, error)
    }

    /** The pagination block, under the guard as written. */
    predicate ShowPagination()
      reads this
    {
      PaginationShownAsWritten(totalPages)
    }

    /** The loading text mentions an attempt number only when the counter is positive. */
    predicate ShowsRetryCount()
      reads this
    {
      retryCount.Some? && retryCount.value > 0
    }

    /** `fetchInterventions(page)`: a direct GET with the stored token, bypassing the shared client. */
    method FetchInterventions(page: int, outcome: PageOutcome<Record>, browser: Browser)
      modifies this, browser
      ensures browser.requests == old(browser.requests) + [Request(Get, PageUrl(page), DirectHeaders(old(browser.storage)), map[])]
      ensures browser.storage == old(browser.storage) && browser.location == old(browser.location)
      ensures browser.events == old(browser.events)
      ensures Shown() == AfterFetch(old(Shown()), outcome)
      ensures !loading && successMessage == old(successMessage) && retryCount == old(retryCount)
      ensures !ShowPagination()
    {
      loading := true;
      var r := browser.SendDirect(Get, PageUrl(page), DirectHeaders(browser.storage), outcome);
      var load := Classify(r);
      if load.Loaded? {
        interventions := load.items;
        totalPages := load.meta.lastPage;
        error := "";
      } else if load.LoadedWithoutMeta? {
        interventions := load.items;
        error := LoadError;
      } else if load.NoData? {
        interventions := [];
        error := "";
      } else {
        error := LoadError;
      }
      loading := false;
    }

    /** The two effects that run on mount: the retry counter is reset, then the current page is fetched. */
    method Mount(outcome: PageOutcome<Record>, browser: Browser)
      modifies this, browser
      ensures retryCount == Some(0) && !ShowsRetryCount()
      ensures Shown() == AfterFetch(old(Shown()), outcome)
      ensures browser.requests == old(browser.requests) + [Request(Get, PageUrl(old(currentPage)), DirectHeaders(old(browser.storage)), map[])]
      ensures browser.storage == old(browser.storage) && browser.location == old(browser.location)
      ensures browser.events == old(browser.events)
      ensures !loading && successMessage == old(successMessage)
    {
      retryCount := Some(0);
      FetchInterventions(currentPage, outcome, browser);
    }

    /**
     * `handleDelete(id)`: only after confirmation. Success shows the message
     * and refetches the same page; failure shows the error.
     */
    method HandleDelete(id: int, confirmed: bool, deletion: Outcome<()>, refetch: PageOutcome<Record>, browser: Browser)
      modifies this, browser
      ensures !confirmed ==>
                && Shown() == old(Shown()) && loading == old(loading) && successMessage == old(successMessage)
                && browser.requests == old(browser.requests) && browser.storage == old(browser.storage)
                && browser.location == old(browser.location)
      ensures confirmed && deletion.Failed? ==>
                && Shown() == old(Shown()).(error := DeleteError)
                && loading == old(loading) && successMessage == old(successMessage)
                && browser.requests == old(browser.requests) + [ClientRequest(old(browser.storage), Delete, ItemPath(Interventions, id), map[])]
                && browser.storage == StorageAfterError(old(browser.storage), deletion.error)
                && browser.location == LocationAfterError(old(browser.location), deletion.error)
      ensures confirmed && deletion.Ok? ==>
                && Shown() == AfterFetch(old(Shown()), refetch)
                && !loading && successMessage == DeletedMessage
                && browser.requests == old(browser.requests) + [
                     ClientRequest(old(browser.storage), Delete, ItemPath(Interventions, id), map[]),
                     Request(Get, PageUrl(old(currentPage)), DirectHeaders(old(browser.storage)), map[])]
                && browser.storage == old(browser.storage) && browser.location == old(browser.location)
      ensures retryCount == old(retryCount) && browser.events == old(browser.events)
    {
      if confirmed {
        var r := browser.Send(Delete, ItemPath(Interventions, id), map[], deletion);
        if r.Ok? {
          successMessage := DeletedMessage;
          FetchInterventions(currentPage, refetch, browser);
        } else {
          error := DeleteError;
        }
      }
    }

    /** `handlePageChange(page)`: a new page resets the retry counter and fetches that page. */
    method HandlePageChange(page: int, outcome: PageOutcome<Record>, browser: Browser)
      modifies this, browser
      ensures page == old(currentPage) ==>
                && Shown() == old(Shown()) && loading == old(loading) && retryCount == old(retryCount)
                && browser.requests == old(browser.requests)
      ensures page != old(currentPage) ==>
                && Shown() == AfterFetch(old(Shown()).(currentPage := page), outcome)
                && !loading && retryCount == Some(0)
                && browser.requests == old(browser.requests) + [Request(Get, PageUrl(page), DirectHeaders(old(browser.storage)), map[])]
      ensures browser.storage == old(browser.storage) && browser.location == old(browser.location)
      ensures successMessage == old(successMessage) && browser.events == old(browser.events)
    {
      if page != currentPage {
        currentPage := page;
        retryCount := Some(0);
        FetchInterventions(page, outcome, browser);
      }
    }

    /** `handleRefresh()`: the retry counter is reset and the current page fetched again. */
    method HandleRefresh(outcome: PageOutcome<Record>, browser: Browser)
      modifies this, browser
      ensures retryCount == Some(0) && !loading && !ShowsRetryCount()
      ensures Shown() == AfterFetch(old(Shown()), outcome)
      ensures browser.requests == old(browser.requests) + [Request(Get, PageUrl(old(currentPage)), DirectHeaders(old(browser.storage)), map[])]
      ensures browser.storage == old(browser.storage) && browser.location == old(browser.location)
      ensures successMessage == old(successMessage) && browser.events == old(browser.events)
    {
      retryCount := Some(0);
      FetchInterventions(currentPage, outcome, browser);
    }
  }
}
