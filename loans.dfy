/**
 * The records the dashboard receives from the loan service, the principal it
 * reads from the session, and the requests it can send. HTTP itself is not
 * modelled: a request is a value, and its outcome is a `Reply` handed in by
 * the caller.
 */
module Loans {

  datatype Option<+T> = None | Some(value: T)

  type AppId = int
  type EmiId = int

  /**
   * A string-valued JSON field as JavaScript sees it: missing (`undefined`),
   * `null`, or a string. The two empty cases behave alike under `?.` but
   * print differently when used as a property name.
   */
  datatype JsField = Missing | Null | Present(value: string)

  /**
   * One loan application as the views use it. `name` and `purpose` may be
   * missing or null; `status` is any string the server sends (PENDING, APPROVED,
   * REJECTED, DISBURSED, CLOSED, ...). `monthKey` is the `YYYY-MM` key the
   * charts derive from `createdAt || applicationDate` ("NaN-NaN" for a date
   * that does not parse).
   */
  datatype Application = Application(
    applicationId: AppId,
    name: JsField,
    purpose: JsField,
    loanAmount: int,
    status: string,
    monthKey: string)

  /** One instalment of a disbursed loan. */
  datatype Emi = Emi(id: EmiId, emiNumber: int, dueDate: string, amount: int, status: string)

  /** The `{id, role}` object kept in the browser session; either part may be missing. */
  datatype Principal = Principal(id: Option<int>, role: Option<string>)

  /** JavaScript truthiness of an optional string: present and not empty. */
  predicate Truthy(s: Option<string>)
  {
    s.Some? && s.value != ""
  }

  /** `user.id && user.role` is truthy: an id other than 0 and a non-empty role. */
  predicate SessionValid(user: Principal)
  {
    user.id.Some? && user.id.value != 0 && Truthy(user.role)
  }

  predicate IsAdmin(role: Option<string>)
  {
    role == Some("ADMIN")
  }

  /**
   * The settled outcome of an HTTP call: the response data, or a failure
   * carrying `error.response?.data?.message` when the server sent one.
   */
  datatype Reply<+T> = Success(data: T) | Failure(message: Option<string>)

  /** `error.response?.data?.message || fallback`. */
  function ErrorText(message: Option<string>, fallback: string): (r: string)
    ensures Truthy(message) ==> r == message.value
    ensures !Truthy(message) ==> r == fallback
    ensures fallback != "" ==> r != ""
  {
    if Truthy(message) then message.value else fallback
  }

  /** The two list endpoints under `/api/loans`. */
  datatype Endpoint = AllApplications | UserApplications(userId: int)

  /** The HTTP requests the dashboard issues, one constructor per endpoint. */
  datatype Request =
    | ListApplications(endpoint: Endpoint)
    | ListEmis(applicationId: AppId)
    | PayEmi(repaymentId: EmiId)
    | UpdateStatus(applicationId: AppId, status: string)
    | Disburse(applicationId: AppId, amount: int)

  /** The `theme.palette.*.main` colours the views choose between. */
  datatype PaletteColor = WarningMain | SuccessMain | ErrorMain | PrimaryMain
}
