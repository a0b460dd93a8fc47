/**
 * The EMI repayment dialog: while loading a spinner, otherwise one row per
 * instalment (with a Pay Now button on every unpaid one) or the empty notice.
 */
module EmiDialog {
  import opened Loans
  import Dashboard

  /** `onPayEmi(emi.id, applicationId)`: the application id is whatever the dashboard selected. */
  datatype PayCall = PayCall(repaymentId: EmiId, applicationId: Option<AppId>)

  /** The Status cell: a check mark and "Paid", or the text "Pending". */
  datatype StatusCell = PaidMark | PendingText

  /** One table row: number, due date, amount, status, and the optional Pay Now button. */
  datatype EmiRow = EmiRow(emiNumber: int, dueDate: string, amount: int, status: StatusCell, payNow: Option<PayCall>)

  const PaidStatus: string := "PAID"
  const NoRecordsText: string := "No EMI records found."

  /**
   * One instalment's row: marked paid exactly when its status is PAID, and
   * carrying a Pay Now button exactly when it is not.
   */
  function RowFor(emi: Emi, applicationId: Option<AppId>): (row: EmiRow)
    ensures row.status == PaidMark <==> emi.status == PaidStatus
    ensures row.payNow.Some? <==> emi.status != PaidStatus
    ensures row.payNow.Some? ==> row.payNow.value == PayCall(emi.id, applicationId)
    ensures row.emiNumber == emi.emiNumber && row.dueDate == emi.dueDate && row.amount == emi.amount
  {
    EmiRow(emi.emiNumber, emi.dueDate, emi.amount,
           if emi.status == PaidStatus then PaidMark else PendingText,
           if emi.status != PaidStatus then Some(PayCall(emi.id, applicationId)) else None)
  }

  /** `selectedLoanEMIs.map(...)`: the rows, in the order the server sent the instalments. */
  function Rows(emis: seq<Emi>, applicationId: Option<AppId>): (rows: seq<EmiRow>)
    ensures |rows| == |emis|
    ensures forall i :: 0 <= i < |emis| ==> rows[i] == RowFor(emis[i], applicationId)
  {
    if emis == [] then [] else [RowFor(emis[0], applicationId)] + Rows(emis[1..], applicationId)
  }

  /** What the dialog's content area shows. */
  datatype DialogBody = Spinner | Schedule(rows: seq<EmiRow>) | NoRecords(text: string)

  /** The dialog: nothing when closed; otherwise spinner, then schedule, then the empty notice. */
  function DialogView(open: bool, loading: bool, emis: seq<Emi>, applicationId: Option<AppId>): (r: Option<DialogBody>)
    ensures r.None? <==> !open
    ensures r.Some? && r.value.Spinner? <==> open && loading
    ensures r.Some? && r.value.NoRecords? <==> open && !loading && emis == []
    ensures r.Some? && r.value.NoRecords? ==> r.value.text == NoRecordsText
    ensures r.Some? && r.value.Schedule? ==> r.value.rows == Rows(emis, applicationId) && |r.value.rows| == |emis| > 0
  {
    if !open then None
    else if loading then Some(Spinner)
    else if |emis| > 0 then Some(Schedule(Rows(emis, applicationId)))
    else Some(NoRecords(NoRecordsText))
  }

  function UnpaidCount(emis: seq<Emi>): nat
  {
    if emis == [] then 0 else (if emis[0].status != PaidStatus then 1 else 0) + UnpaidCount(emis[1..])
  }

  function PayButtonCount(rows: seq<EmiRow>): nat
  {
    if rows == [] then 0 else (if rows[0].payNow.Some? then 1 else 0) + PayButtonCount(rows[1..])
  }

  /** There are exactly as many Pay Now buttons as unpaid instalments. */
  lemma {:induction false} PayButtonsMatchUnpaid(emis: seq<Emi>, applicationId: Option<AppId>)
    ensures PayButtonCount(Rows(emis, applicationId)) == UnpaidCount(emis)
  {
    if emis != [] {
      var rows := Rows(emis, applicationId);
      assert rows[1..] == Rows(emis[1..], applicationId);
      PayButtonsMatchUnpaid(emis[1..], applicationId);
    }
  }

  /** A fully paid schedule shows no Pay Now button at all. */
  lemma {:induction false} PaidScheduleHasNoButtons(emis: seq<Emi>, applicationId: Option<AppId>)
    requires forall i :: 0 <= i < |emis| ==> emis[i].status == PaidStatus
    ensures PayButtonCount(Rows(emis, applicationId)) == 0
  {
    if emis != [] {
      var rows := Rows(emis, applicationId);
      assert rows[1..] == Rows(emis[1..], applicationId);
      PaidScheduleHasNoButtons(emis[1..], applicationId);
    }
  }

  /**
   * In the dashboard the open dialog always knows its application: every
   * Pay Now button it shows pays an instalment of the selected application.
   */
  lemma PayTargetsSelectedApplication(d: Dashboard.DashboardState)
    requires d.Valid() && d.emiDialogOpen
    ensures forall row :: row in Rows(d.selectedLoanEMIs, d.selectedApplicationId) && row.payNow.Some? ==>
              row.payNow.value.applicationId == d.selectedApplicationId && d.selectedApplicationId.Some?
  {
  }
}
