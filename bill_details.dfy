/**
 * The bill screen, also used for prepayments: notes, the two accordions,
 * the actions menu, the attachment sheet and its preview. Attachments
 * themselves live in the shell and are changed through it.
 */
module BillDetailsScreen {
  import opened Js
  import opened Files
  import opened AppState
  import Expansion

  /** `notes.trim().length > 0`: the notes hold a character that is not whitespace. */
  function HasNotes(notes: string): (b: bool)
    ensures b <==> exists i :: 0 <= i < |notes| && !IsWhitespace(notes[i])
  {
    TrimEmptyIff(notes);
    |Trim(notes)| > 0
  }

  /** How this screen's preview pane renders a file: it has no document viewer. */
  datatype BillRendering = BillImage | BillPdfPlaceholder | BillBlank

  function BillRenderingFor(p: PreviewFile): (r: BillRendering)
    ensures r == BillImage <==> IsImageFile(p.fileType)
    ensures r == BillPdfPlaceholder <==> !IsImageFile(p.fileType) && IsPdfFile(p.name, p.fileType)
  {
    if IsImageFile(p.fileType) then BillImage
    else if IsPdfFile(p.name, p.fileType) then BillPdfPlaceholder
    else BillBlank
  }

  /**
   * A Word attachment is previewable, so a click opens the preview, but the
   * pane has nothing to show for it: the preview opens blank.
   */
  lemma ClickedWordFileShowsBlank(file: AttachmentFile)
    requires Truthy(file.previewUrl) && IsWordFile(file.name)
    requires !IsImageFile(file.fileType) && !IsPdfFile(file.name, file.fileType)
    ensures PreviewFor(file).Some? && BillRenderingFor(PreviewFor(file).value) == BillBlank
  {
  }

  /** A clicked preview is never blank unless it is a Word file. */
  lemma BlankOnlyForWordFiles(file: AttachmentFile)
    requires PreviewFor(file).Some? && BillRenderingFor(PreviewFor(file).value) == BillBlank
    ensures IsWordFile(file.name)
  {
  }

  /** The screen's own state. */
  datatype BillScreen = BillScreen(
    notes: string,
    isEditingNotes: bool,
    showNotes: bool,
    expandedTaxId: Option<string>,
    expandedApprovalId: Option<string>,
    showActionsMenu: bool,
    showAttachments: bool,
    previewFile: Option<PreviewFile>)

  class BillDetailsView {
    /** Props: which record is shown, whether read-only, and whether the attachment setter was passed. */
    const isPrepayment: bool
    const isHistoryView: bool
    const canChangeAttachments: bool

    var notes: string
    var isEditingNotes: bool
    var showNotes: bool
    var expandedTaxId: Option<string>
    var expandedApprovalId: Option<string>
    var showActionsMenu: bool
    var showAttachments: bool
    var previewFile: Option<PreviewFile>

    function Snapshot(): BillScreen
      reads this
    {
      BillScreen(notes, isEditingNotes, showNotes, expandedTaxId, expandedApprovalId,
                 showActionsMenu, showAttachments, previewFile)
    }

    /** The record kind whose status and attachments this screen changes. */
    function Kind(): ApprovalKind {
      if isPrepayment then Prepayment else Bill
    }

    constructor (isPrepayment: bool, isHistoryView: bool, canChangeAttachments: bool)
      ensures this.isPrepayment == isPrepayment && this.isHistoryView == isHistoryView
      ensures this.canChangeAttachments == canChangeAttachments
      ensures Snapshot() == BillScreen("", false, false, None, None, false, false, None)
    {
      this.isPrepayment := isPrepayment;
      this.isHistoryView := isHistoryView;
      this.canChangeAttachments := canChangeAttachments;
      notes := "";
      isEditingNotes := false;
      showNotes := false;
      expandedTaxId := None;
      expandedApprovalId := None;
      showActionsMenu := false;
      showAttachments := false;
      previewFile := None;
    }

    /** The notes header: flips the panel, and opening it also starts editing. */
    method ToggleNotes()
      modifies this
      ensures Snapshot() == old(Snapshot()).(showNotes := !old(showNotes),
                                             isEditingNotes := old(showNotes) ==> old(isEditingNotes))
      ensures !old(showNotes) ==> showNotes && isEditingNotes
    {
      var wasShown := showNotes;
      showNotes := !wasShown;
      if !wasShown {
        isEditingNotes := true;
      }
    }

    method EditNotes(text: string)
      modifies this
      ensures Snapshot() == old(Snapshot()).(notes := text)
    {
      notes := text;
    }

    /** The "edit" button of a shown, not-edited note. */
    method StartEditing()
      modifies this
      ensures Snapshot() == old(Snapshot()).(isEditingNotes := true)
    {
      isEditingNotes := true;
    }

    /** Leaving the text area closes the panel; the notes are kept. */
    method BlurNotes()
      modifies this
      ensures Snapshot() == old(Snapshot()).(isEditingNotes := false, showNotes := false)
    {
      isEditingNotes := false;
      showNotes := false;
    }

    /** Enter without Shift finishes editing and closes the panel; any other key changes nothing here. */
    method NotesKeyDown(key: string, shiftKey: bool)
      modifies this
      ensures key == "Enter" && !shiftKey ==> Snapshot() == old(Snapshot()).(isEditingNotes := false, showNotes := false)
      ensures !(key == "Enter" && !shiftKey) ==> Snapshot() == old(Snapshot())
    {
      if key == "Enter" && !shiftKey {
        isEditingNotes := false;
        showNotes := false;
      }
    }

    method ToggleTax(id: string)
      modifies this
      ensures Snapshot() == old(Snapshot()).(expandedTaxId := Expansion.Toggle(old(expandedTaxId), id))
    {
      expandedTaxId := if expandedTaxId == Some(id) then None else Some(id);
    }

    method ToggleApproval(id: string)
      modifies this
      ensures Snapshot() == old(Snapshot()).(expandedApprovalId := Expansion.Toggle(old(expandedApprovalId), id))
    {
      expandedApprovalId := if expandedApprovalId == Some(id) then None else Some(id);
    }

    method ToggleActionsMenu()
      modifies this
      ensures Snapshot() == old(Snapshot()).(showActionsMenu := !old(showActionsMenu))
    {
      showActionsMenu := !showActionsMenu;
    }

    /** The overlay and both menu entries ("Reject", "Add Record to Favorites") only close the menu. */
    method CloseActionsMenu()
      modifies this
      ensures Snapshot() == old(Snapshot()).(showActionsMenu := false)
    {
      showActionsMenu := false;
    }

    method SetAttachmentsOpen(open: bool)
      modifies this
      ensures Snapshot() == old(Snapshot()).(showAttachments := open)
    {
      showAttachments := open;
    }

    /** A click on an attachment opens its preview when it has a URL and can be previewed; otherwise nothing changes. */
    method AttachmentClick(file: AttachmentFile)
      modifies this
      ensures PreviewFor(file).Some? ==> Snapshot() == old(Snapshot()).(previewFile := PreviewFor(file))
      ensures PreviewFor(file).None? ==> Snapshot() == old(Snapshot())
    {
      if !Truthy(file.previewUrl) {
        return;
      }
      if !IsPreviewableFile(file.name, file.fileType) {
        return;
      }
      previewFile := Some(PreviewFile(file.previewUrl.value, file.fileType, file.name));
    }

    method ClosePreview()
      modifies this
      ensures Snapshot() == old(Snapshot()).(previewFile := None)
    {
      previewFile := None;
    }

    /** Picked files are appended after the record's attachments, unless none were picked or there is no setter. */
    method FileChange(app: App, files: seq<PickedFile>, time: string)
      modifies app
      ensures |files| > 0 && canChangeAttachments ==>
                app.Snapshot() == Apply(old(app.Snapshot()), AppendAttachments(Kind(), NewAttachments(files, time)))
      ensures !(|files| > 0 && canChangeAttachments) ==> app.Snapshot() == old(app.Snapshot())
    {
      if |files| > 0 && canChangeAttachments {
        app.AddAttachments(Kind(), NewAttachments(files, time));
      }
    }

    /** "Approve Now", offered outside history, ends by approving this screen's record. */
    method ApproveNow(app: App)
      requires !isHistoryView
      modifies app
      ensures app.Snapshot() == Apply(old(app.Snapshot()), Approve(Kind()))
    {
      app.OnApprove(Kind());
    }

    /** The "PO Number" row. */
    method OpenPurchaseOrder(app: App)
      modifies app
      ensures app.Snapshot() == Apply(old(app.Snapshot()), NavigateToPO)
    {
      app.OnNavigateToPO();
    }

    method Back(app: App)
      modifies app
      ensures app.Snapshot() == Apply(old(app.Snapshot()), Navigate(ApprovalsView))
    {
      app.SetView(ApprovalsView);
    }
  }
}
