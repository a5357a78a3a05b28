/**
 * The users screen (`UsersList`): one page of users fetched through the
 * shared client, delete with confirmation and a guard against deleting
 * one's own account, and pagination driven by the server's meta.
 */
module UsersList {
  import opened Common
  import opened Http
  import opened Session
  import opened Api
  import opened Pagination

  const LoadError := "Impossible de charger les utilisateurs. Veuillez réessayer plus tard."
  const SelfDeleteError := "Vous ne pouvez pas supprimer votre propre compte."
  const DeleteError := "Impossible de supprimer l'utilisateur"
  const DeletedMessage := "Utilisateur supprimé avec succès"

  /**
   * The displayed state after a fetch of users. A successful fetch replaces
   * the rows (it never adds to them) and takes both the page count and the
   * current page from the server; a failure keeps what was shown.
   */
  function AfterFetch(v: Listing<UserProfile>, outcome: PageOutcome<UserProfile>): (w: Listing<UserProfile>)
    ensures outcome.Ok? ==> w.rows == RowsOf(outcome)
    ensures outcome.Failed? ==> w.rows == v.rows
    ensures Classify(outcome).Loaded? ==>
              w.currentPage == Classify(outcome).meta.currentPage && w.totalPages == Classify(outcome).meta.lastPage
    ensures !Classify(outcome).Loaded? ==> w.currentPage == v.currentPage && w.totalPages == v.totalPages
    ensures w.error == "" <==> Classify(outcome).Loaded? || Classify(outcome).NoData?
    ensures w.error != "" ==> w.error == LoadError
  {
    match Classify(outcome)
    case Loaded(items, meta) => Listing(items, meta.currentPage, meta.lastPage, "")
    case LoadedWithoutMeta(items) => v.(rows := items, error := LoadError)
    case NoData => v.(rows := [], error := "")
    case LoadFailed(_) => v.(error := LoadError)
  }

  /** The role badge: a style and a text; unknown roles are shown as they are. */
  datatype Badge = Badge(style: string, text: string)

  const KnownRoles: set<string> := {"admin", "manager", "user"}

  function RoleBadge(role: string): (b: Badge)
    ensures b.style == "bg-secondary" <==> role !in KnownRoles
    ensures role !in KnownRoles ==> b.text == role
    ensures role in KnownRoles ==> b.text != role
    ensures forall other :: other in KnownRoles && other != role && role in KnownRoles ==> RoleBadgeLabel(other) != b.text
    ensures role == "admin" ==> b == Badge("bg-danger", "Administrateur")
    ensures role == "manager" ==> b == Badge("bg-warning text-dark", "Gestionnaire")
    ensures role == "user" ==> b == Badge("bg-info", "Utilisateur")
  {
    Badge(RoleBadgeStyle(role), RoleBadgeLabel(role))
  }

  function RoleBadgeStyle(role: string): string
  {
    match role
    case "admin" => "bg-danger"
    case "manager" => "bg-warning text-dark"
    case "user" => "bg-info"
    case _ => "bg-secondary"
  }

  function RoleBadgeLabel(role: string): string
  {
    match role
    case "admin" => "Administrateur"
    case "manager" => "Gestionnaire"
    case "user" => "Utilisateur"
    case _ => role
  }

  class UsersList {
    var users: seq<UserProfile>
    var currentPage: int
    var totalPages: int
    var loading: bool
    var error: string
    var successMessage: string
    /** `Auth.getUser()` as read when the screen rendered. */
    const currentUser: Option<UserProfile>

    /** The state on mount, before the first fetch. */
    constructor (currentUser: Option<UserProfile>)
      ensures users == [] && currentPage == 1 && totalPages == 0
      ensures loading && error == "" && successMessage == ""
      ensures this.currentUser == currentUser
    {
      users := [];
      currentPage := 1;
      totalPages := 0;
      loading := true;
      error := "";
      successMessage := "";
      this.currentUser := currentUser;
    }

    function Shown(): Listing<UserProfile>
      reads this
    {
      Listing(users, currentPage, totalPages, error)
    }

    /** The row of `id` belongs to the signed-in user: its delete button is disabled. */
    predicate IsSelf(id: int)
    {
      currentUser.Some? && currentUser.value.id == id
    }

    predicate ShowPagination()
      reads this
    {
      totalPages > 1
    }

    /** `fetchUsers(page)`: a GET of the users list page through the shared client. */
    method FetchUsers(page: int, outcome: PageOutcome<UserProfile>, browser: Browser)
      modifies this, browser
      ensures browser.requests == old(browser.requests) + [ClientRequest(old(browser.storage), Get, ListPath(Users, page), map[])]
      ensures browser.storage == StorageAfter(old(browser.storage), outcome)
      ensures browser.location == LocationAfter(old(browser.location), outcome)
      ensures browser.events == old(browser.events)
      ensures Shown() == AfterFetch(old(Shown()), outcome)
      ensures !loading && successMessage == old(successMessage)
      ensures Classify(outcome).Loaded? ==> (ShowPagination() <==> Classify(outcome).meta.lastPage > 1)
      ensures !Classify(outcome).Loaded? ==> ShowPagination() == old(ShowPagination())
      ensures Classify(outcome).Loaded? && 1 <= Classify(outcome).meta.currentPage <= Classify(outcome).meta.lastPage ==>
                forall p :: p in EnabledTargets(currentPage, totalPages) ==> 1 <= p <= totalPages
    {
      loading := true;
      var r := browser.Send(Get, ListPath(Users, page), map[], outcome);
      var load := Classify(r);
      if load.Loaded? {
        users := load.items;
        totalPages := load.meta.lastPage;
        currentPage := load.meta.currentPage;
        error := "";
      } else if load.LoadedWithoutMeta? {
        users := load.items;
        error := LoadError;
      } else if load.NoData? {
        users := [];
        error := "";
      } else {
        error := LoadError;
      }
      loading := false;
    }

    /**
     * `handleDelete(id)`. Deleting one's own account is refused before any
     * confirmation or request; a declined confirmation changes nothing; a
     * successful delete shows the success message and refetches the current
     * page instead of removing the row; a failed delete shows an error and
     * keeps the list.
     */
    method HandleDelete(id: int, confirmed: bool, deletion: Outcome<()>, refetch: PageOutcome<UserProfile>, browser: Browser)
      modifies this, browser
      ensures IsSelf(id) ==>
                && Shown() == old(Shown()).(error := SelfDeleteError)
                && loading == old(loading) && successMessage == old(successMessage)
                && browser.requests == old(browser.requests) && browser.storage == old(browser.storage)
                && browser.location == old(browser.location)
      ensures !IsSelf(id) && !confirmed ==>
                && Shown() == old(Shown()) && loading == old(loading) && successMessage == old(successMessage)
                && browser.requests == old(browser.requests) && browser.storage == old(browser.storage)
                && browser.location == old(browser.location)
      ensures !IsSelf(id) && confirmed && deletion.Failed? ==>
                && Shown() == old(Shown()).(error := DeleteError)
                && loading == old(loading) && successMessage == old(successMessage)
                && browser.requests == old(browser.requests) + [ClientRequest(old(browser.storage), Delete, ItemPath(Users, id), map[])]
                && browser.storage == StorageAfterError(old(browser.storage), deletion.error)
                && browser.location == LocationAfterError(old(browser.location), deletion.error)
      ensures !IsSelf(id) && confirmed && deletion.Ok? ==>
                && Shown() == AfterFetch(old(Shown()), refetch)
                && !loading && successMessage == DeletedMessage
                && browser.requests == old(browser.requests) + [
                     ClientRequest(old(browser.storage), Delete, ItemPath(Users, id), map[]),
                     ClientRequest(old(browser.storage), Get, ListPath(Users, old(currentPage)), map[])]
                && browser.storage == StorageAfter(old(browser.storage), refetch)
                && browser.location == LocationAfter(old(browser.location), refetch)
      ensures browser.events == old(browser.events)
    {
      if currentUser.Some? && currentUser.value.id == id {
        error := SelfDeleteError;
        return;
      }
      if confirmed {
        var r := browser.Send(Delete, ItemPath(Users, id), map[], deletion);
        if r.Ok? {
          successMessage := DeletedMessage;
          FetchUsers(currentPage, refetch, browser);
        } else {
          error := DeleteError;
        }
      }
    }

    /** `handlePageChange(page)`: a new page number triggers a fetch of that page. */
    method HandlePageChange(page: int, outcome: PageOutcome<UserProfile>, browser: Browser)
      modifies this, browser
      ensures page == old(currentPage) ==>
                && Shown() == old(Shown()) && loading == old(loading)
                && browser.requests == old(browser.requests) && browser.storage == old(browser.storage)
                && browser.location == old(browser.location)
      ensures page != old(currentPage) ==>
                && Shown() == AfterFetch(old(Shown()).(currentPage := page), outcome)
                && !loading
                && browser.requests == old(browser.requests) + [ClientRequest(old(browser.storage), Get, ListPath(Users, page), map[])]
                && browser.storage == StorageAfter(old(browser.storage), outcome)
                && browser.location == LocationAfter(old(browser.location), outcome)
      ensures successMessage == old(successMessage) && browser.events == old(browser.events)
    {
      if page != currentPage {
        currentPage := page;
        FetchUsers(page, outcome, browser);
      }
    }
  }
}
