/**
 * The dashboard page: the search/status filter over the fetched list, and the
 * page's state (the list, the loading and error flags, the EMI dialog) with
 * the transitions that load it. Each network call is one atomic step whose
 * outcome is a parameter; every request issued is appended to `sent`.
 */
module Dashboard {
  import opened Loans
  import opened Seqs
  import opened Text
  import DashboardFilters

  // ---------------------------------------------------------------------
  // The filter (filteredApplications)
  // ---------------------------------------------------------------------

  /**
   * `field?.toLowerCase().includes(query.toLowerCase())`: an absent field
   * short-circuits to undefined, which is falsy.
   */
  predicate FieldContains(field: JsField, query: string)
  {
    field.Present? && Includes(ToLower(field.value), ToLower(query))
  }

  /** matchesSearch: the query occurs, ignoring case, in the name or in the purpose. */
  predicate MatchesSearch(app: Application, query: string)
  {
    FieldContains(app.name, query) || FieldContains(app.purpose, query)
  }

  /** matchesStatus: "ALL" lets every status through, any other value only itself. */
  predicate MatchesStatus(app: Application, statusFilter: string)
  {
    statusFilter == "ALL" || app.status == statusFilter
  }

  predicate Keep(app: Application, query: string, statusFilter: string)
  {
    MatchesSearch(app, query) && MatchesStatus(app, statusFilter)
  }

  /**
   * `applications.filter(...)`: keeps, in their original order, exactly the
   * applications that match both the search and the status filter, each as
   * many times as it occurs.
   */
  function FilterApplications(apps: seq<Application>, query: string, statusFilter: string): (r: seq<Application>)
    ensures IsSubsequence(r, apps)
    ensures forall a :: a in r <==> a in apps && Keep(a, query, statusFilter)
    ensures forall a :: multiset(r)[a] == (if Keep(a, query, statusFilter) then multiset(apps)[a] else 0)
    ensures forall a :: a in r ==> a.name.Present? || a.purpose.Present?
  {
    if apps == [] then []
    else if Keep(apps[0], query, statusFilter) then
      assert apps == [apps[0]] + apps[1..];
      [apps[0]] + FilterApplications(apps[1..], query, statusFilter)
    else
      assert apps == [apps[0]] + apps[1..];
      FilterApplications(apps[1..], query, statusFilter)
  }

  /** Filtering an already filtered list with the same query and status changes nothing. */
  lemma {:induction false} FilterIdempotent(apps: seq<Application>, query: string, statusFilter: string)
    ensures FilterApplications(FilterApplications(apps, query, statusFilter), query, statusFilter)
            == FilterApplications(apps, query, statusFilter)
  {
    if apps != [] {
      FilterIdempotent(apps[1..], query, statusFilter);
      var rest := FilterApplications(apps[1..], query, statusFilter);
      if Keep(apps[0], query, statusFilter) {
        assert ([apps[0]] + rest)[1..] == rest;
      }
    }
  }

  /** The search ignores the case of the query: upper- or lower-casing it changes nothing. */
  lemma SearchIgnoresQueryCase(app: Application, query: string)
    ensures MatchesSearch(app, ToUpper(query)) == MatchesSearch(app, query)
    ensures MatchesSearch(app, ToLower(query)) == MatchesSearch(app, query)
  {
    ToLowerAfterToUpper(query);
    ToLowerIdempotent(query);
  }

  /** Upper-cases a present field; a missing or null one stays as it is. */
  function UpperField(field: JsField): (r: JsField)
    ensures r.Present? <==> field.Present?
    ensures r.Present? ==> r.value == ToUpper(field.value)
  {
    if field.Present? then Present(ToUpper(field.value)) else field
  }

  /** The search ignores the case of the record: upper-casing the name and purpose changes nothing. */
  lemma SearchIgnoresRecordCase(app: Application, query: string)
    ensures MatchesSearch(app.(name := UpperField(app.name), purpose := UpperField(app.purpose)), query)
            == MatchesSearch(app, query)
  {
    if app.name.Present? {
      ToLowerAfterToUpper(app.name.value);
    }
    if app.purpose.Present? {
      ToLowerAfterToUpper(app.purpose.value);
    }
  }

  /** When every application matches, the filter returns the list unchanged. */
  lemma {:induction false} FilterKeepsAllMatching(apps: seq<Application>, query: string, statusFilter: string)
    requires forall i :: 0 <= i < |apps| ==> Keep(apps[i], query, statusFilter)
    ensures FilterApplications(apps, query, statusFilter) == apps
  {
    if apps != [] {
      FilterKeepsAllMatching(apps[1..], query, statusFilter);
      assert apps == [apps[0]] + apps[1..];
    }
  }

  /**
   * The empty query keeps exactly the applications that have a name or a
   * purpose; one with neither is rejected by every query.
   */
  lemma EmptyQueryNeedsText(app: Application)
    ensures MatchesSearch(app, "") <==> app.name.Present? || app.purpose.Present?
  {
    if app.name.Present? {
      assert OccursAt(ToLower(app.name.value), ToLower(""), 0);
    }
    if app.purpose.Present? {
      assert OccursAt(ToLower(app.purpose.value), ToLower(""), 0);
    }
  }

  // ---------------------------------------------------------------------
  // The page state
  // ---------------------------------------------------------------------

  const SessionErrorText: string := "User not logged in or invalid session"
  const LoadErrorText: string := "Failed to load applications"

  /** `/all` for an administrator, `/user/{id}` for anyone else. */
  function EndpointFor(user: Principal): (e: Endpoint)
    requires SessionValid(user)
    ensures e == AllApplications <==> IsAdmin(user.role)
    ensures e.UserApplications? ==> e.userId == user.id.value
  {
    if IsAdmin(user.role) then AllApplications else UserApplications(user.id.value)
  }

  /** The body of the list response: an array of applications, or anything else. */
  datatype ListPayload = ApplicationArray(apps: seq<Application>) | NotAnArray

  /** `Array.isArray(response.data) ? response.data : []`. */
  function ListOrEmpty(payload: ListPayload): seq<Application>
  {
    match payload
    case ApplicationArray(apps) => apps
    case NotAnArray => []
  }

  /** What the page shows: an error replaces everything, then the spinner, then the dashboard. */
  datatype Screen = ErrorScreen(message: string) | LoadingScreen | MainScreen

  /**
   * The state of the Dashboard component. `sent` is the log of requests
   * issued, which stands for the calls to the loan service.
   */
  class DashboardState {
    const user: Principal
    const controls: DashboardFilters.FilterControls
    var applications: seq<Application>
    var loading: bool
    var error: Option<string>
    var selectedLoanEMIs: seq<Emi>
    var emiDialogOpen: bool
    var emiLoading: bool
    var selectedApplicationId: Option<AppId>
    var sent: seq<Request>

    /**
     * A recorded error is never blank, the EMI dialog is only open for a
     * chosen application, and without a session no list was ever requested.
     */
    ghost predicate Valid()
      reads this
    {
      && (error.Some? ==> error.value != "")
      && (emiDialogOpen ==> selectedApplicationId.Some?)
      && (!SessionValid(user) ==> forall i :: 0 <= i < |sent| ==> !sent[i].ListApplications?)
    }

    /** The initial `useState` values, with the session principal passed in. */
    constructor (user: Principal)
      ensures Valid()
      ensures this.user == user && fresh(controls)
      ensures controls.searchQuery == "" && controls.statusFilter == "ALL" && controls.anchor == None
      ensures applications == [] && loading && error == None
      ensures selectedLoanEMIs == [] && !emiDialogOpen && !emiLoading && selectedApplicationId == None
      ensures sent == []
    {
      this.user := user;
      controls := new DashboardFilters.FilterControls();
      applications := [];
      loading := true;
      error := None;
      selectedLoanEMIs := [];
      emiDialogOpen := false;
      emiLoading := false;
      selectedApplicationId := None;
      sent := [];
    }

    /** The list `ApplicationsList` receives. */
    function FilteredApplications(): (r: seq<Application>)
      reads this, controls
      ensures IsSubsequence(r, applications)
    {
      FilterApplications(applications, controls.searchQuery, controls.statusFilter)
    }

    /** The render branches: `if (error)` first, then `if (loading)`. */
    function CurrentScreen(): (s: Screen)
      reads this
      ensures Truthy(error) ==> s == ErrorScreen(error.value)
      ensures !Truthy(error) ==> (s == LoadingScreen <==> loading)
      ensures !Truthy(error) && !loading ==> s == MainScreen
    {
      if Truthy(error) then ErrorScreen(error.value)
      else if loading then LoadingScreen
      else MainScreen
    }

    /**
     * The effect run on mount: without a valid session it records the
     * session error, stops loading and sends nothing; otherwise it fetches
     * the applications.
     */
    method Mount(reply: Reply<ListPayload>)
      requires Valid()
      modifies this`applications, this`loading, this`error, this`sent
      ensures Valid() && !loading
      ensures !SessionValid(user) ==>
                error == Some(SessionErrorText) && sent == old(sent) && applications == old(applications)
      ensures SessionValid(user) ==> sent == old(sent) + [ListApplications(EndpointFor(user))]
      ensures SessionValid(user) && reply.Success? ==>
                applications == ListOrEmpty(reply.data) && error == old(error)
      ensures SessionValid(user) && reply.Failure? ==>
                error == Some(ErrorText(reply.message, LoadErrorText)) && applications == old(applications)
    {
      if !SessionValid(user) {
        error := Some(SessionErrorText);
        loading := false;
        return;
      }
      FetchApplications(reply);
    }

    /**
     * fetchApplications: asks the role's endpoint; on success replaces the
     * list wholesale, on failure records the server's message or the default.
     * Loading ends either way.
     */
    method FetchApplications(reply: Reply<ListPayload>)
      requires Valid() && SessionValid(user)
      modifies this`applications, this`loading, this`error, this`sent
      ensures Valid() && !loading
      ensures sent == old(sent) + [ListApplications(EndpointFor(user))]
      ensures reply.Success? ==> applications == ListOrEmpty(reply.data) && error == old(error)
      ensures reply.Failure? ==>
                error == Some(ErrorText(reply.message, LoadErrorText)) && applications == old(applications)
    {
      loading := true;
      sent := sent + [ListApplications(EndpointFor(user))];
      match reply
      case Success(data) =>
        applications := ListOrEmpty(data);
        loading := false;
      case Failure(message) =>
        error := Some(ErrorText(message, LoadErrorText));
        loading := false;
    }

    /**
     * fetchEMIs: remembers the application, asks for its instalments, and
     * opens the dialog only when they arrive; a failure empties the list
     * and leaves the dialog as it was.
     */
    method FetchEMIs(applicationId: AppId, reply: Reply<Option<seq<Emi>>>)
      requires Valid()
      modifies this`emiLoading, this`selectedApplicationId, this`selectedLoanEMIs, this`emiDialogOpen, this`sent
      ensures Valid() && !emiLoading
      ensures selectedApplicationId == Some(applicationId)
      ensures sent == old(sent) + [ListEmis(applicationId)]
      ensures reply.Success? ==>
                emiDialogOpen && selectedLoanEMIs == (if reply.data.Some? then reply.data.value else [])
      ensures reply.Failure? ==> selectedLoanEMIs == [] && emiDialogOpen == old(emiDialogOpen)
    {
      emiLoading := true;
      selectedApplicationId := Some(applicationId);
      sent := sent + [ListEmis(applicationId)];
      match reply {
        case Success(data) =>
          selectedLoanEMIs := if data.Some? then data.value else [];
          emiDialogOpen := true;
        case Failure(_) =>
          selectedLoanEMIs := [];
      }
      emiLoading := false;
    }

    /**
     * handlePayEmi: pays one instalment; on success fetches the instalments
     * of the same application again, on failure changes nothing else.
     */
    method HandlePayEmi(repaymentId: EmiId, applicationId: AppId, payReply: Reply<()>,
                        emiReply: Reply<Option<seq<Emi>>>)
      requires Valid()
      modifies this`emiLoading, this`selectedApplicationId, this`selectedLoanEMIs, this`emiDialogOpen, this`sent
      ensures Valid()
      ensures payReply.Failure? ==>
                sent == old(sent) + [PayEmi(repaymentId)] &&
                selectedApplicationId == old(selectedApplicationId) && selectedLoanEMIs == old(selectedLoanEMIs) &&
                emiDialogOpen == old(emiDialogOpen) && emiLoading == old(emiLoading)
      ensures payReply.Success? ==>
                sent == old(sent) + [PayEmi(repaymentId), ListEmis(applicationId)] &&
                selectedApplicationId == Some(applicationId) && !emiLoading
      ensures payReply.Success? && emiReply.Success? ==>
                emiDialogOpen && selectedLoanEMIs == (if emiReply.data.Some? then emiReply.data.value else [])
      ensures payReply.Success? && emiReply.Failure? ==>
                selectedLoanEMIs == [] && emiDialogOpen == old(emiDialogOpen)
    {
      sent := sent + [PayEmi(repaymentId)];
      if payReply.Success? {
        FetchEMIs(applicationId, emiReply);
      }
    }

    /** The dialog's `onClose`. */
    method CloseEmiDialog()
      requires Valid()
      modifies this`emiDialogOpen
      ensures Valid() && !emiDialogOpen
    {
      emiDialogOpen := false;
    }
  }
}
