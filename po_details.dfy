/**
 * The purchase-order screen: read-only once the PO is approved or opened
 * from history, with an actions menu whose entries depend on that, an
 * approve dialog, a printable view, and attachments with their preview.
 */
module PoDetailsScreen {
  import opened Js
  import opened Files
  import opened AppState

  /** The screen is read-only once the PO is approved or when it is opened from history. */
  predicate IsApprovedView(poStatus: Status, isHistoryView: bool) {
    poStatus == Approved || isHistoryView
  }

  datatype MenuAction = Hold | ApproveAction | Reject | ViewPrintablePo | AddToFavorites

  /**
   * The entries of the actions menu: a read-only screen offers only the
   * printable view and favourites; otherwise hold, approve and reject
   * come first.
   */
  function ActionsFor(approvedView: bool): (r: seq<MenuAction>)
    ensures |r| == (if approvedView then 2 else 5)
    ensures r[|r| - 2..] == [ViewPrintablePo, AddToFavorites]
    ensures !approvedView ==> r[..3] == [Hold, ApproveAction, Reject]
    ensures ApproveAction in r <==> !approvedView
    ensures Hold in r <==> !approvedView
    ensures Reject in r <==> !approvedView
    ensures forall i, j :: 0 <= i < j < |r| ==> r[i] != r[j]
  {
    if approvedView then [ViewPrintablePo, AddToFavorites]
    else [Hold, ApproveAction, Reject, ViewPrintablePo, AddToFavorites]
  }

  /** A PO reached through the link of a bill or prepayment is always shown read-only. */
  lemma LinkedPoIsReadOnly(s: AppRecord)
    ensures var t := Apply(s, NavigateToPO);
            t.view == DetailsView && IsApprovedView(t.poStatus, t.isHistoryView)
            && !(ApproveAction in ActionsFor(IsApprovedView(t.poStatus, t.isHistoryView)))
  {
  }

  /** Approving the PO makes every later visit of its screen read-only. */
  lemma ApprovedPoStaysReadOnly(s: AppRecord, e: Event)
    requires s.poStatus == Approved
    requires e != EnableApprovals(Po)
    ensures IsApprovedView(Apply(s, e).poStatus, Apply(s, e).isHistoryView)
  {
    StatusChangesOnlyBy(s, e, Po);
  }

  datatype PoScreen = PoScreen(
    showAttachments: bool,
    previewFile: Option<PreviewFile>,
    showItemDetails: bool,
    showSignatories: bool,
    showActionsMenu: bool,
    showPrintablePo: bool,
    showApproveModal: bool)

  class PoDetailsView {
    /** Props. */
    const poStatus: Status
    const isHistoryView: bool

    var showAttachments: bool
    var previewFile: Option<PreviewFile>
    var showItemDetails: bool
    var showSignatories: bool
    var showActionsMenu: bool
    var showPrintablePo: bool
    var showApproveModal: bool

    function Snapshot(): PoScreen
      reads this
    {
      PoScreen(showAttachments, previewFile, showItemDetails, showSignatories,
               showActionsMenu, showPrintablePo, showApproveModal)
    }

    predicate ApprovedView() {
      IsApprovedView(poStatus, isHistoryView)
    }

    constructor (poStatus: Status, isHistoryView: bool)
      ensures this.poStatus == poStatus && this.isHistoryView == isHistoryView
      ensures Snapshot() == PoScreen(false, None, false, false, false, false, false)
    {
      this.poStatus := poStatus;
      this.isHistoryView := isHistoryView;
      showAttachments := false;
      previewFile := None;
      showItemDetails := false;
      showSignatories := false;
      showActionsMenu := false;
      showPrintablePo := false;
      showApproveModal := false;
    }

    method ToggleActionsMenu()
      modifies this
      ensures Snapshot() == old(Snapshot()).(showActionsMenu := !old(showActionsMenu))
    {
      showActionsMenu := !showActionsMenu;
    }

    /** The overlay behind the menu. */
    method CloseActionsMenu()
      modifies this
      ensures Snapshot() == old(Snapshot()).(showActionsMenu := false)
    {
      showActionsMenu := false;
    }

    /**
     * A menu entry closes the menu; "Approve" opens the approve dialog,
     * but only on an editable screen, and "View Printable PO" opens the
     * printable view. The other entries change nothing else.
     */
    method PickAction(a: MenuAction)
      modifies this
      ensures Snapshot() == old(Snapshot()).(
                showActionsMenu := false,
                showApproveModal := if a == ApproveAction && !ApprovedView() then true else old(showApproveModal),
                showPrintablePo := if a == ViewPrintablePo then true else old(showPrintablePo))
    {
      showActionsMenu := false;
      if a == ApproveAction && !ApprovedView() {
        showApproveModal := true;
      }
      if a == ViewPrintablePo {
        showPrintablePo := true;
      }
    }

    /** The dialog's backdrop and its "Cancel". */
    method CloseApproveModal()
      modifies this
      ensures Snapshot() == old(Snapshot()).(showApproveModal := false)
    {
      showApproveModal := false;
    }

    method ClosePrintablePo()
      modifies this
      ensures Snapshot() == old(Snapshot()).(showPrintablePo := false)
    {
      showPrintablePo := false;
    }

    method SetItemDetailsOpen(open: bool)
      modifies this
      ensures Snapshot() == old(Snapshot()).(showItemDetails := open)
    {
      showItemDetails := open;
    }

    method SetSignatoriesOpen(open: bool)
      modifies this
      ensures Snapshot() == old(Snapshot()).(showSignatories := open)
    {
      showSignatories := open;
    }

    method SetAttachmentsOpen(open: bool)
      modifies this
      ensures Snapshot() == old(Snapshot()).(showAttachments := open)
    {
      showAttachments := open;
    }

    /** A click on an attachment opens its preview when it has a URL and can be previewed; otherwise nothing changes. */
    method AttachmentClick(file: AttachmentFile)
      modifies this
      ensures PreviewFor(file).Some? ==> Snapshot() == old(Snapshot()).(previewFile := PreviewFor(file))
      ensures PreviewFor(file).None? ==> Snapshot() == old(Snapshot())
    {
      if !Truthy(file.previewUrl) {
        return;
      }
      if !IsPreviewableFile(file.name, file.fileType) {
        return;
      }
      previewFile := Some(PreviewFile(file.previewUrl.value, file.fileType, file.name));
    }

    method ClosePreview()
      modifies this
      ensures Snapshot() == old(Snapshot()).(previewFile := None)
    {
      previewFile := None;
    }

    /** Picked files are appended after the PO's attachments; an empty selection changes nothing. */
    method FileChange(app: App, files: seq<PickedFile>, time: string)
      modifies app
      ensures |files| > 0 ==> app.Snapshot() == Apply(old(app.Snapshot()), AppendAttachments(Po, NewAttachments(files, time)))
      ensures |files| == 0 ==> app.Snapshot() == old(app.Snapshot())
    {
      if |files| > 0 {
        app.AddAttachments(Po, NewAttachments(files, time));
      }
    }

    /** "Approve Now" in the header or in the dialog, offered only on an editable screen, ends by approving the PO. */
    method ApproveNow(app: App)
      requires !ApprovedView()
      modifies app
      ensures app.Snapshot() == Apply(old(app.Snapshot()), Approve(Po))
    {
      app.OnApprove(Po);
    }

    method Back(app: App)
      modifies app
      ensures app.Snapshot() == Apply(old(app.Snapshot()), Navigate(ApprovalsView))
    {
      app.SetView(ApprovalsView);
    }
  }
}
