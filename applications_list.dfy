/**
 * The list of application cards: which body the list shows, the count
 * banner, each card's accent colour and buttons, and the two administrator
 * handlers (status update and disbursement). A handler's HTTP call is the
 * `Request` it returns; its settled outcome is a `Reply` handed in.
 */
module ApplicationsList {
  import opened Loans
  import opened Seqs
  import opened Text
  import Charts

  // ---------------------------------------------------------------------
  // Card colour and buttons
  // ---------------------------------------------------------------------

  /**
   * The colour of a card's left border and of its status chip: success for
   * APPROVED, error for REJECTED, primary for DISBURSED, warning otherwise.
   */
  function StatusAccent(status: string): (c: PaletteColor)
    ensures c == SuccessMain <==> status == "APPROVED"
    ensures c == ErrorMain <==> status == "REJECTED"
    ensures c == PrimaryMain <==> status == "DISBURSED"
  {
    if status == "APPROVED" then SuccessMain
    else if status == "REJECTED" then ErrorMain
    else if status == "DISBURSED" then PrimaryMain
    else WarningMain
  }

  /** A card is coloured the way the status chart colours its slice. */
  lemma AccentMatchesChart(i: nat)
    requires i < |Charts.ChartStatuses|
    ensures StatusAccent(Charts.ChartStatuses[i]) == Charts.ChartColors[i]
  {
  }

  /** The buttons a card can show. */
  datatype Action = ViewDocuments | Approve | Reject | DisburseLoan | ViewPayEmis

  /**
   * The buttons of one card, top to bottom. An administrator always sees
   * View Documents, Approve and Reject on a PENDING card and Disburse Loan on
   * an APPROVED one; anyone else sees View/Pay EMIs on a DISBURSED card.
   */
  function CardActions(role: Option<string>, status: string): (r: seq<Action>)
    ensures ViewDocuments in r <==> IsAdmin(role)
    ensures Approve in r <==> IsAdmin(role) && status == "PENDING"
    ensures Reject in r <==> IsAdmin(role) && status == "PENDING"
    ensures DisburseLoan in r <==> IsAdmin(role) && status == "APPROVED"
    ensures ViewPayEmis in r <==> !IsAdmin(role) && status == "DISBURSED"
    ensures Distinct(r)
  {
    (if IsAdmin(role) then
       [ViewDocuments] +
       (if status == "PENDING" then [Approve, Reject] else []) +
       (if status == "APPROVED" then [DisburseLoan] else [])
     else [])
    + (if !IsAdmin(role) && status == "DISBURSED" then [ViewPayEmis] else [])
  }

  /** No card offers both administrator buttons and the EMI button, and none has more than three. */
  lemma ActionsSplitByRole(role: Option<string>, status: string)
    ensures !(ViewPayEmis in CardActions(role, status) && ViewDocuments in CardActions(role, status))
    ensures |CardActions(role, status)| <= 3
    ensures !IsAdmin(role) && status != "DISBURSED" ==> CardActions(role, status) == []
  {
  }

  /** What a click on a card button asks for. */
  datatype Click =
    | NoEffect
    | StatusUpdateClick(applicationId: AppId, status: string)
    | DisburseClick(applicationId: AppId)
    | ViewEmisClick(applicationId: AppId)

  /** The button's `onClick`; View Documents has an empty handler. */
  function OnClick(app: Application, action: Action): (c: Click)
    ensures c.NoEffect? <==> action == ViewDocuments
    ensures c.StatusUpdateClick? <==> action == Approve || action == Reject
    ensures c.DisburseClick? <==> action == DisburseLoan
    ensures c.ViewEmisClick? <==> action == ViewPayEmis
    ensures !c.NoEffect? ==> c.applicationId == app.applicationId
    ensures c.StatusUpdateClick? ==> c.status == (if action == Approve then "APPROVED" else "REJECTED")
  {
    match action
    case ViewDocuments => NoEffect
    case Approve => StatusUpdateClick(app.applicationId, "APPROVED")
    case Reject => StatusUpdateClick(app.applicationId, "REJECTED")
    case DisburseLoan => DisburseClick(app.applicationId)
    case ViewPayEmis => ViewEmisClick(app.applicationId)
  }

  // ---------------------------------------------------------------------
  // The list body and the banner
  // ---------------------------------------------------------------------

  /** One rendered card: its key, its accent and its buttons. */
  datatype Card = Card(applicationId: AppId, accent: PaletteColor, actions: seq<Action>)

  function CardFor(app: Application, role: Option<string>): Card
  {
    Card(app.applicationId, StatusAccent(app.status), CardActions(role, app.status))
  }

  /** The cards, one per application, in list order. */
  function Cards(apps: seq<Application>, role: Option<string>): (r: seq<Card>)
    ensures |r| == |apps|
    ensures forall i :: 0 <= i < |apps| ==> r[i] == CardFor(apps[i], role)
  {
    seq(|apps|, i requires 0 <= i < |apps| => CardFor(apps[i], role))
  }

  const SkeletonCount: nat := 3

  /** What the list shows below its header. */
  datatype ListBody =
    | Skeletons(count: nat)
    | ErrorNotice(message: string)
    | NoApplications
    | CardGrid(cards: seq<Card>)

  /**
   * The intended list body: loading first (three skeleton placeholders),
   * then a truthy error, then the empty notice, then the cards.
   */
  function Body(loading: bool, error: Option<string>, apps: seq<Application>, role: Option<string>): (b: ListBody)
    ensures b.Skeletons? <==> loading
    ensures b.ErrorNotice? <==> !loading && Truthy(error)
    ensures b.ErrorNotice? ==> b.message == error.value
    ensures b.NoApplications? <==> !loading && !Truthy(error) && apps == []
    ensures b.CardGrid? ==> b.cards == Cards(apps, role) && |b.cards| == |apps| > 0
    ensures b.Skeletons? ==> b.count == SkeletonCount
  {
    if loading then Skeletons(SkeletonCount)
    else if Truthy(error) then ErrorNotice(error.value)
    else if |apps| == 0 then NoApplications
    else CardGrid(Cards(apps, role))
  }

  /** The outcome of rendering the list: a body, or the exception that aborts the render. */
  datatype Render = Rendered(body: ListBody) | ReferenceError(identifier: string)

  /**
   * The list body as the code is written: the loading branch draws
   * `Skeleton`, an identifier the component never imports, so rendering it
   * throws; every other branch renders as intended.
   */
  function BodyAsWritten(loading: bool, error: Option<string>, apps: seq<Application>, role: Option<string>): (r: Render)
    ensures r.ReferenceError? <==> loading
    ensures r.ReferenceError? ==> r.identifier == "Skeleton"
    ensures r.Rendered? ==> r.body == Body(loading, error, apps, role) && !r.body.Skeletons?
  {
    if loading then ReferenceError("Skeleton") else Rendered(Body(loading, error, apps, role))
  }

  /**
   * The discrepancy: with `loading` set the written list throws, where the
   * intended one shows three skeletons.
   */
  lemma LoadingListThrows(error: Option<string>, apps: seq<Application>, role: Option<string>)
    ensures BodyAsWritten(true, error, apps, role) == ReferenceError("Skeleton")
    ensures Body(true, error, apps, role) == Skeletons(SkeletonCount)
  {
  }

  /** The "N application(s) found" line: the count and its plural suffix. */
  datatype Banner = Banner(count: nat, suffix: string)

  function CountBanner(loading: bool, error: Option<string>, apps: seq<Application>): (r: Option<Banner>)
    ensures r.Some? <==> !loading && !Truthy(error) && |apps| > 0
    ensures r.Some? ==> r.value.count == |apps| && (r.value.suffix == "s" <==> |apps| > 1)
    ensures r.Some? ==> r.value.suffix == "" || r.value.suffix == "s"
  {
    if !loading && !Truthy(error) && |apps| > 0 then
      Some(Banner(|apps|, if |apps| > 1 then "s" else ""))
    else None
  }

  /** The banner appears exactly when cards are shown, and counts those cards. */
  lemma BannerCountsCards(loading: bool, error: Option<string>, apps: seq<Application>, role: Option<string>)
    ensures CountBanner(loading, error, apps).Some? <==> Body(loading, error, apps, role).CardGrid?
    ensures CountBanner(loading, error, apps).Some? ==>
              CountBanner(loading, error, apps).value.count == |Body(loading, error, apps, role).cards|
  {
  }

  /**
   * The dashboard passes neither `loading` nor `error`, so its list never
   * reaches the throwing branch and shows the cards of every filtered
   * application, or the empty notice.
   */
  lemma DashboardListShowsCards(apps: seq<Application>, role: Option<string>)
    ensures BodyAsWritten(false, None, apps, role) == Rendered(Body(false, None, apps, role))
    ensures apps == [] ==> Body(false, None, apps, role) == NoApplications
    ensures apps != [] ==> Body(false, None, apps, role) == CardGrid(Cards(apps, role))
  {
  }

  // ---------------------------------------------------------------------
  // Administrator handlers
  // ---------------------------------------------------------------------

  /** `applications.find((app) => app.applicationId === id)`. */
  function FindApplication(apps: seq<Application>, id: AppId): (r: Option<Application>)
    ensures r.None? <==> forall i :: 0 <= i < |apps| ==> apps[i].applicationId != id
    ensures r.Some? ==> exists i :: 0 <= i < |apps| && apps[i] == r.value && r.value.applicationId == id &&
                                    forall j :: 0 <= j < i ==> apps[j].applicationId != id
  {
    if apps == [] then None
    else if apps[0].applicationId == id then Some(apps[0])
    else
      var r := FindApplication(apps[1..], id);
      if r.Some? then
        var i :| 0 <= i < |apps| - 1 && apps[1..][i] == r.value && r.value.applicationId == id &&
                 forall j :: 0 <= j < i ==> apps[1..][j].applicationId != id;
        assert apps[i + 1] == r.value;
        assert forall j :: 0 < j <= i ==> apps[j] == apps[1..][j - 1];
        r
      else
        r
  }

  /** How a handler ends: a success toast and a page reload, or an error toast. */
  datatype Outcome = Reloaded(toast: string) | Failed(toast: string)

  const StatusUpdateFailed: string := "Status update failed"
  const DisbursementFailed: string := "Disbursement failed"
  const LoanDisbursed: string := "Loan disbursed!"

  /**
   * handleStatusUpdate: sends the status upper-cased; on success toasts
   * "Application <status lower-cased>!" and reloads, otherwise toasts the
   * server's message or the default.
   */
  method HandleStatusUpdate(applicationId: AppId, status: string, reply: Reply<()>)
    returns (request: Request, outcome: Outcome)
    ensures request.UpdateStatus? && request.applicationId == applicationId
    ensures ToLower(request.status) == ToLower(status)
    ensures forall i :: 0 <= i < |request.status| ==> !('a' <= request.status[i] <= 'z')
    ensures reply.Success? ==> outcome == Reloaded("Application " + ToLower(status) + "!")
    ensures reply.Failure? ==> outcome == Failed(ErrorText(reply.message, StatusUpdateFailed))
  {
    var upper := ToUpper(status);
    ToLowerAfterToUpper(status);
    ToUpperHasNoLowerCase(status);
    request := UpdateStatus(applicationId, upper);
    match reply {
      case Success(_) =>
        outcome := Reloaded("Application " + ToLower(status) + "!");
      case Failure(message) =>
        outcome := Failed(ErrorText(message, StatusUpdateFailed));
    }
  }

  /**
   * handleDisburse: looks the application up in the list it was given and
   * sends its loan amount. An id missing from the list makes the lookup
   * throw before any request, which ends in the default error toast.
   */
  method HandleDisburse(applicationId: AppId, apps: seq<Application>, reply: Reply<()>)
    returns (request: Option<Request>, outcome: Outcome)
    ensures FindApplication(apps, applicationId).None? ==>
              request == None && outcome == Failed(DisbursementFailed)
    ensures request.Some? ==>
              exists i :: 0 <= i < |apps| && apps[i].applicationId == applicationId &&
                          request.value == Disburse(applicationId, apps[i].loanAmount)
    ensures FindApplication(apps, applicationId).Some? ==>
              request == Some(Disburse(applicationId, FindApplication(apps, applicationId).value.loanAmount)) &&
              outcome == (if reply.Success? then Reloaded(LoanDisbursed)
                          else Failed(ErrorText(reply.message, DisbursementFailed)))
  {
    var found := FindApplication(apps, applicationId);
    if found.None? {
      request := None;
      outcome := Failed(DisbursementFailed);
      return;
    }
    request := Some(Disburse(applicationId, found.value.loanAmount));
    match reply {
      case Success(_) =>
        outcome := Reloaded(LoanDisbursed);
      case Failure(message) =>
        outcome := Failed(ErrorText(message, DisbursementFailed));
    }
  }

  /** A card's own id is always found in the list it was drawn from. */
  lemma CardIdIsFound(apps: seq<Application>, app: Application)
    requires app in apps
    ensures FindApplication(apps, app.applicationId).Some?
  {
  }
}
