/**
 * The approvals list: five filter tabs over at most one sample record,
 * the record of the running simulation, listed as pending or as approved
 * history according to its status.
 */
module Approvals {
  import opened Js
  import opened AppState

  datatype Tab = AllTab | MyTab | WorkgroupTab | ReassignedTab | HistoryTab

  /** A row of the list; bill and prepayment rows carry the number of their purchase order. */
  datatype ApprovalRecord = ApprovalRecord(kind: ApprovalKind, recordNumber: string, purchaseOrderNumber: Option<string>)

  /** The one sample record of each kind. */
  function Sample(k: ApprovalKind): (r: ApprovalRecord)
    ensures r.kind == k
    ensures r.purchaseOrderNumber.Some? <==> k != Po
  {
    match k
    case Po => ApprovalRecord(Po, "PO00000000008829", None)
    case Bill => ApprovalRecord(Bill, "AP0000000020285", Some("PO0000000008830"))
    case Prepayment => ApprovalRecord(Prepayment, "AP0000000020286", Some("PO00000000008831"))
  }

  /** The record waiting for approval: the sample of the active kind while its status is pending. */
  function PendingApprovals(approvalType: ApprovalKind, po: Status, bill: Status, prepayment: Status): (r: seq<ApprovalRecord>)
    ensures |r| <= 1
    ensures |r| == 1 <==> StatusFor(approvalType, po, bill, prepayment) == Pending
    ensures |r| == 1 ==> r[0] == Sample(approvalType)
  {
    if approvalType == Bill then (if bill == Pending then [Sample(Bill)] else [])
    else if approvalType == Prepayment then (if prepayment == Pending then [Sample(Prepayment)] else [])
    else if po == Pending then [Sample(Po)]
    else []
  }

  /** The approved record: the sample of the active kind once its status is approved. */
  function ApprovedHistory(approvalType: ApprovalKind, po: Status, bill: Status, prepayment: Status): (r: seq<ApprovalRecord>)
    ensures |r| <= 1
    ensures |r| == 1 <==> StatusFor(approvalType, po, bill, prepayment) == Approved
    ensures |r| == 1 ==> r[0] == Sample(approvalType)
  {
    if approvalType == Po && po == Approved then [Sample(Po)]
    else if approvalType == Bill && bill == Approved then [Sample(Bill)]
    else if approvalType == Prepayment && prepayment == Approved then [Sample(Prepayment)]
    else []
  }

  /** The active record is listed exactly once: as pending or in the history, never both. */
  lemma PendingOrHistory(approvalType: ApprovalKind, po: Status, bill: Status, prepayment: Status)
    ensures |PendingApprovals(approvalType, po, bill, prepayment)| + |ApprovedHistory(approvalType, po, bill, prepayment)| == 1
  {
  }

  /** The rows a tab lists: "all" and "my" the pending record, the history tab the approved one, the others nothing. */
  function RowsFor(tab: Tab, approvalType: ApprovalKind, po: Status, bill: Status, prepayment: Status): (r: seq<ApprovalRecord>)
    ensures |r| <= 1
    ensures forall i :: 0 <= i < |r| ==> r[i] == Sample(approvalType)
    ensures |r| == 1 <==>
              || ((tab == AllTab || tab == MyTab) && StatusFor(approvalType, po, bill, prepayment) == Pending)
              || (tab == HistoryTab && StatusFor(approvalType, po, bill, prepayment) == Approved)
  {
    match tab
    case AllTab => PendingApprovals(approvalType, po, bill, prepayment)
    case MyTab => PendingApprovals(approvalType, po, bill, prepayment)
    case WorkgroupTab => []
    case ReassignedTab => []
    case HistoryTab => ApprovedHistory(approvalType, po, bill, prepayment)
  }

  /** The rows of a tab over the shell's state. */
  function RowsOf(tab: Tab, s: AppRecord): seq<ApprovalRecord> {
    RowsFor(tab, s.approvalType, s.poStatus, s.billStatus, s.prepaymentStatus)
  }

  /** While approvals are visible, the dashboard badge counts the rows of "my approvals". */
  lemma BadgeCountsMyApprovals(s: AppRecord)
    requires s.isApprovalsVisible
    ensures PendingCount(s) == |RowsOf(MyTab, s)|
  {
  }

  /** Switching a simulation on puts its sample in "my approvals" and empties the history. */
  lemma EnableListsPending(s: AppRecord, k: ApprovalKind)
    ensures var t := Apply(s, EnableApprovals(k));
            RowsOf(MyTab, t) == [Sample(k)] && RowsOf(HistoryTab, t) == []
  {
    var t := Apply(s, EnableApprovals(k));
    assert StatusOf(t, k) == Pending && t.approvalType == k;
    assert |RowsOf(HistoryTab, t)| == 0;
  }

  /** Approving the active record moves it from "my approvals" to the history. */
  lemma ApproveMovesToHistory(s: AppRecord)
    ensures var t := Apply(s, Approve(s.approvalType));
            RowsOf(MyTab, t) == [] && RowsOf(HistoryTab, t) == [Sample(s.approvalType)]
  {
    var t := Apply(s, Approve(s.approvalType));
    assert StatusOf(t, s.approvalType) == Approved && t.approvalType == s.approvalType;
    assert |RowsOf(MyTab, t)| == 0;
  }

  /** What clicking a row of `tab` passes to `onDetails`. */
  function RowContext(tab: Tab, row: ApprovalRecord): DetailsContext {
    DetailsContext(Some(tab == HistoryTab), Some(row.kind))
  }

  /**
   * A row opens the details screen of its own kind, read-only exactly when
   * it was clicked in the history tab.
   */
  lemma RowOpensItsDetails(s: AppRecord, tab: Tab, i: nat)
    requires i < |RowsOf(tab, s)|
    ensures var t := Apply(s, OpenDetails(Some(RowContext(tab, RowsOf(tab, s)[i]))));
            && t.view == DetailsViewFor(Some(s.approvalType))
            && (t.isHistoryView <==> tab == HistoryTab)
            && (tab == HistoryTab ==> StatusOf(t, s.approvalType) == Approved)
            && (tab != HistoryTab ==> StatusOf(t, s.approvalType) == Pending)
  {
  }

  /** The approvals screen; its props are fixed for the life of one rendering. */
  class ApprovalsList {
    const approvalType: ApprovalKind
    const poStatus: Status
    const billStatus: Status
    /** May be left out by the caller, which then reads as pending. */
    const prepaymentStatus: Option<Status>
    var activeTab: Tab

    constructor (approvalType: ApprovalKind, poStatus: Status, billStatus: Status, prepaymentStatus: Option<Status>)
      ensures this.approvalType == approvalType && this.poStatus == poStatus && this.billStatus == billStatus
      ensures this.prepaymentStatus == prepaymentStatus
      ensures activeTab == MyTab
    {
      this.approvalType := approvalType;
      this.poStatus := poStatus;
      this.billStatus := billStatus;
      this.prepaymentStatus := prepaymentStatus;
      activeTab := MyTab;
    }

    /** The rows of the selected tab. */
    function ActiveRows(): seq<ApprovalRecord>
      reads this
    {
      RowsFor(activeTab, approvalType, poStatus, billStatus, prepaymentStatus.GetOr(Pending))
    }

    method SelectTab(tab: Tab)
      modifies this
      ensures activeTab == tab
    {
      activeTab := tab;
    }

    /** The props are the shell's own state, as the shell passes them when it renders this screen. */
    predicate RenderedFrom(s: AppRecord)
      reads this
    {
      approvalType == s.approvalType && poStatus == s.poStatus && billStatus == s.billStatus
      && prepaymentStatus.GetOr(Pending) == s.prepaymentStatus
    }

    /**
     * A click on row `i` opens that record's details: the screen of the
     * active kind, read-only exactly when the history tab is selected.
     */
    method ClickRow(app: App, i: nat)
      requires RenderedFrom(app.Snapshot())
      requires i < |ActiveRows()|
      modifies app
      ensures app.Snapshot() == Apply(old(app.Snapshot()), OpenDetails(Some(RowContext(activeTab, ActiveRows()[i]))))
      ensures app.Snapshot().view == DetailsViewFor(Some(approvalType))
      ensures app.Snapshot().isHistoryView <==> activeTab == HistoryTab
    {
      ghost var s := app.Snapshot();
      assert ActiveRows() == RowsOf(activeTab, s);
      RowOpensItsDetails(s, activeTab, i);
      var row := ActiveRows()[i];
      if row.kind == Po {
        app.OnDetails(Some(DetailsContext(Some(activeTab == HistoryTab), Some(Po))));
      }
      if row.kind == Bill {
        app.OnDetails(Some(DetailsContext(Some(activeTab == HistoryTab), Some(Bill))));
      }
      if row.kind == Prepayment {
        app.OnDetails(Some(DetailsContext(Some(activeTab == HistoryTab), Some(Prepayment))));
      }
    }

    /** The purchase-order link of a bill or prepayment row opens the PO, without opening the row. */
    method ClickPurchaseOrderNumber(app: App, i: nat)
      requires RenderedFrom(app.Snapshot())
      requires i < |ActiveRows()| && ActiveRows()[i].kind != Po
      modifies app
      ensures app.Snapshot() == Apply(old(app.Snapshot()), NavigateToPO)
      ensures app.Snapshot().view == DetailsView && app.Snapshot().poStatus == Approved
      ensures !app.Snapshot().isHistoryView
    {
      app.OnNavigateToPO();
    }

    method Back(app: App)
      modifies app
      ensures app.Snapshot() == Apply(old(app.Snapshot()), Navigate(DashboardView))
    {
      app.SetView(DashboardView);
    }
  }
}
