/**
 * The application shell: the screen shown, the approval simulation that
 * is switched on, the three approval statuses, and the attachments of
 * the three records. `AppRecord` is the value of that state, `Apply` the
 * effect of each handler on it, and `App` the object whose fields the
 * handlers update in place.
 */
module AppState {
  import opened Js
  import opened Files

  datatype View =
    | DashboardView | FunctionsView | ApprovalsView | DetailsView
    | BillDetailsView | PrepaymentDetailsView | PurchasesView

  /** The three kinds of approval record. */
  datatype ApprovalKind = Po | Bill | Prepayment

  datatype Status = Pending | Approved

  // ---------------------------------------------------------------- storage

  /** The browser's key-value store; `None` when reading it throws. */
  type Storage = Option<map<string, string>>

  /**
   * The stored value of `key`, or `defaultValue` when the store cannot be
   * read, the key is absent, its text is empty (falsy), or it does not
   * parse (`parse` yields `None` where JSON parsing throws).
   */
  function GetStoredState<T>(storage: Storage, key: string, defaultValue: T, parse: string -> Option<T>): (r: T)
    ensures r == defaultValue
            || (storage.Some? && key in storage.value && storage.value[key] != ""
                && parse(storage.value[key]) == Some(r))
    ensures storage.Some? && key in storage.value && storage.value[key] != "" && parse(storage.value[key]).Some?
            ==> r == parse(storage.value[key]).value
    ensures storage.None? || key !in storage.value.Keys ==> r == defaultValue
  {
    match storage
    case None => defaultValue
    case Some(m) =>
      if key !in m || m[key] == "" then defaultValue
      else parse(m[key]).GetOr(defaultValue)
  }

  /** Writes `stringify(value)` under `key`; a store that cannot be written is left as it is. */
  function SetStoredState<T>(storage: Storage, key: string, value: T, stringify: T -> string): Storage {
    match storage
    case None => None
    case Some(m) => Some(m[key := stringify(value)])
  }

  /** A value written to a working store is read back, provided its text parses back to it. */
  lemma StoredStateRoundTrip<T>(storage: Storage, key: string, value: T, defaultValue: T,
                                parse: string -> Option<T>, stringify: T -> string)
    requires storage.Some?
    requires stringify(value) != "" && parse(stringify(value)) == Some(value)
    ensures GetStoredState(SetStoredState(storage, key, value, stringify), key, defaultValue, parse) == value
  {
  }

  /** Writing one key does not change what another key reads back. */
  lemma StoredStateOtherKey<T, U>(storage: Storage, key: string, value: T, stringify: T -> string,
                                  other: string, defaultValue: U, parse: string -> Option<U>)
    requires other != key
    ensures GetStoredState(SetStoredState(storage, key, value, stringify), other, defaultValue, parse)
         == GetStoredState(storage, other, defaultValue, parse)
  {
  }

  /** How each field's stored text is parsed. */
  datatype Codecs = Codecs(
    view: string -> Option<View>,
    flag: string -> Option<bool>,
    kind: string -> Option<ApprovalKind>,
    status: string -> Option<Status>,
    files: string -> Option<seq<AttachmentFile>>)

  // ---------------------------------------------------------------- state

  datatype AppRecord = AppRecord(
    view: View,
    isApprovalsVisible: bool,
    isPurchasesEnabled: bool,
    approvalType: ApprovalKind,
    poStatus: Status,
    billStatus: Status,
    prepaymentStatus: Status,
    isHistoryView: bool,
    poAttachments: seq<AttachmentFile>,
    billAttachments: seq<AttachmentFile>,
    prepaymentAttachments: seq<AttachmentFile>)

  /** The state of a first visit: every key falls back to its default. */
  const DefaultRecord: AppRecord :=
    AppRecord(DashboardView, false, false, Po, Pending, Pending, Pending, false, [], [], [])

  /** The state the shell starts in, each field read from its own key. */
  function InitialRecord(storage: Storage, c: Codecs): AppRecord {
    AppRecord(
      GetStoredState(storage, "appView", DashboardView, c.view),
      GetStoredState(storage, "isApprovalsVisible", false, c.flag),
      GetStoredState(storage, "isPurchasesEnabled", false, c.flag),
      GetStoredState(storage, "approvalType", Po, c.kind),
      GetStoredState(storage, "poStatus", Pending, c.status),
      GetStoredState(storage, "billStatus", Pending, c.status),
      GetStoredState(storage, "prepaymentStatus", Pending, c.status),
      GetStoredState(storage, "isHistoryView", false, c.flag),
      GetStoredState(storage, "poAttachments", [], c.files),
      GetStoredState(storage, "billAttachments", [], c.files),
      GetStoredState(storage, "prepaymentAttachments", [], c.files))
  }

  /** An unreadable or empty store yields the first-visit state, whatever the parsers. */
  lemma InitialRecordWithoutStorage(storage: Storage, c: Codecs)
    requires storage.None? || storage == Some(map[])
    ensures InitialRecord(storage, c) == DefaultRecord
  {
  }

  function StatusFor(k: ApprovalKind, po: Status, bill: Status, prepayment: Status): Status {
    match k
    case Po => po
    case Bill => bill
    case Prepayment => prepayment
  }

  function StatusOf(s: AppRecord, k: ApprovalKind): Status {
    StatusFor(k, s.poStatus, s.billStatus, s.prepaymentStatus)
  }

  function WithStatus(s: AppRecord, k: ApprovalKind, st: Status): AppRecord {
    match k
    case Po => s.(poStatus := st)
    case Bill => s.(billStatus := st)
    case Prepayment => s.(prepaymentStatus := st)
  }

  function AttachmentsOf(s: AppRecord, k: ApprovalKind): seq<AttachmentFile> {
    match k
    case Po => s.poAttachments
    case Bill => s.billAttachments
    case Prepayment => s.prepaymentAttachments
  }

  function WithAttachments(s: AppRecord, k: ApprovalKind, files: seq<AttachmentFile>): AppRecord {
    match k
    case Po => s.(poAttachments := files)
    case Bill => s.(billAttachments := files)
    case Prepayment => s.(prepaymentAttachments := files)
  }

  /** The argument of `onDetails`; either field may be absent, and so may the whole context. */
  datatype DetailsContext = DetailsContext(fromHistory: Option<bool>, recordType: Option<ApprovalKind>)

  /** The handlers the shell passes to its screens, as events on its state. */
  datatype Event =
    | Navigate(to: View)
    | EnableApprovals(kind: ApprovalKind)
    | DisableApprovals(kind: ApprovalKind)
    | SetPurchasesEnabled(enabled: bool)
    | OpenDetails(context: Option<DetailsContext>)
    | NavigateToPO
    | Approve(kind: ApprovalKind)
    | AppendAttachments(kind: ApprovalKind, files: seq<AttachmentFile>)

  /** The details screen for a record type: bill and prepayment have their own, anything else is the PO screen. */
  function DetailsViewFor(recordType: Option<ApprovalKind>): View {
    if recordType == Some(Bill) then BillDetailsView
    else if recordType == Some(Prepayment) then PrepaymentDetailsView
    else DetailsView
  }

  /** `Boolean(context?.fromHistory)`. */
  function FromHistory(context: Option<DetailsContext>): bool {
    context.Some? && context.value.fromHistory == Some(true)
  }

  function RecordType(context: Option<DetailsContext>): Option<ApprovalKind> {
    if context.Some? then context.value.recordType else None
  }

  /** The effect of one handler. */
  function Apply(s: AppRecord, e: Event): AppRecord {
    match e
    case Navigate(v) => s.(view := v)
    case EnableApprovals(k) =>
      (match k
       case Po => s.(isApprovalsVisible := true, approvalType := Po, poStatus := Pending, poAttachments := [])
       case Bill => s.(isApprovalsVisible := true, approvalType := Bill, billStatus := Pending)
       case Prepayment => s.(isApprovalsVisible := true, approvalType := Prepayment, prepaymentStatus := Pending))
    case DisableApprovals(k) =>
      if k == Po then s.(isApprovalsVisible := false)
      else s.(isApprovalsVisible := false, approvalType := Po)
    case SetPurchasesEnabled(b) => s.(isPurchasesEnabled := b)
    case OpenDetails(context) =>
      s.(isHistoryView := FromHistory(context), view := DetailsViewFor(RecordType(context)))
    case NavigateToPO => s.(poStatus := Approved, isHistoryView := false, view := DetailsView)
    case Approve(k) => WithStatus(s, k, Approved).(view := ApprovalsView)
    case AppendAttachments(k, files) => WithAttachments(s, k, AttachmentsOf(s, k) + files)
  }

  // ---------------------------------------------------------------- derived values

  /** The dashboard's approvals badge. */
  function PendingCount(s: AppRecord): (n: nat)
    ensures n <= 1
    ensures n == 1 <==> s.isApprovalsVisible && StatusOf(s, s.approvalType) == Pending
  {
    if !s.isApprovalsVisible then 0
    else if s.approvalType == Po then (if s.poStatus == Pending then 1 else 0)
    else if s.approvalType == Bill then (if s.billStatus == Pending then 1 else 0)
    else if s.approvalType == Prepayment then (if s.prepaymentStatus == Pending then 1 else 0)
    else 0
  }

  /** The four switches shown on the functions screen. */
  datatype Flags = Flags(po: bool, bill: bool, prepayment: bool, purchases: bool)

  /** Whether the switch of an approval kind is on. */
  function FlagOf(f: Flags, k: ApprovalKind): bool {
    match k
    case Po => f.po
    case Bill => f.bill
    case Prepayment => f.prepayment
  }

  /** At most one approval simulation is on, and one is on exactly when approvals are visible. */
  function EnabledFlags(s: AppRecord): (f: Flags)
    ensures !(f.po && f.bill) && !(f.po && f.prepayment) && !(f.bill && f.prepayment)
    ensures (f.po || f.bill || f.prepayment) <==> s.isApprovalsVisible
    ensures forall k :: FlagOf(f, k) <==> s.isApprovalsVisible && s.approvalType == k
    ensures f.purchases == s.isPurchasesEnabled
  {
    Flags(
      s.isApprovalsVisible && s.approvalType == Po,
      s.isApprovalsVisible && s.approvalType == Bill,
      s.isApprovalsVisible && s.approvalType == Prepayment,
      s.isPurchasesEnabled)
  }

  /** The bottom navigation bar is drawn on the dashboard and the functions screen only. */
  function BottomNavVisible(s: AppRecord): (b: bool)
    ensures b <==> s.view == DashboardView || s.view == FunctionsView
  {
    s.view != ApprovalsView && s.view != DetailsView && s.view != BillDetailsView
    && s.view != PrepaymentDetailsView && s.view != PurchasesView
  }

  // ---------------------------------------------------------------- properties of the handlers

  /**
   * Switching a simulation on makes it the only one on with one pending
   * record; only the PO switch clears attachments, and only its own.
   */
  lemma EnableStartsSimulation(s: AppRecord, k: ApprovalKind)
    ensures var t := Apply(s, EnableApprovals(k));
            && PendingCount(t) == 1
            && EnabledFlags(t) == Flags(k == Po, k == Bill, k == Prepayment, s.isPurchasesEnabled)
            && (forall j :: j != k ==> StatusOf(t, j) == StatusOf(s, j))
            && (forall j :: (k != Po || j != Po) ==> AttachmentsOf(t, j) == AttachmentsOf(s, j))
            && (k == Po ==> t.poAttachments == [])
            && t.view == s.view && t.isHistoryView == s.isHistoryView
  {
  }

  /**
   * Switching a simulation off hides approvals, so no switch is on and the
   * badge is 0; bill and prepayment also fall back to the PO kind.
   */
  lemma DisableStopsSimulation(s: AppRecord, k: ApprovalKind)
    ensures var t := Apply(s, DisableApprovals(k));
            && PendingCount(t) == 0
            && EnabledFlags(t) == Flags(false, false, false, s.isPurchasesEnabled)
            && t.approvalType == (if k == Po then s.approvalType else Po)
            && (forall j :: StatusOf(t, j) == StatusOf(s, j) && AttachmentsOf(t, j) == AttachmentsOf(s, j))
            && t.view == s.view
  {
  }

  /** Approving a record marks only its kind approved; the badge drops to 0 when it is the active kind. */
  lemma ApproveMarksOnlyItsKind(s: AppRecord, k: ApprovalKind)
    ensures var t := Apply(s, Approve(k));
            && StatusOf(t, k) == Approved
            && (forall j :: j != k ==> StatusOf(t, j) == StatusOf(s, j))
            && t.view == ApprovalsView
            && (s.approvalType == k ==> PendingCount(t) == 0)
            && (s.approvalType != k ==> PendingCount(t) == PendingCount(s))
            && EnabledFlags(t) == EnabledFlags(s)
  {
  }

  /** `onDetails` opens the screen of the record type and records whether it came from history. */
  lemma OpenDetailsRouting(s: AppRecord, context: Option<DetailsContext>)
    ensures var t := Apply(s, OpenDetails(context));
            && (t.view == BillDetailsView <==> RecordType(context) == Some(Bill))
            && (t.view == PrepaymentDetailsView <==> RecordType(context) == Some(Prepayment))
            && (t.view == DetailsView <==> RecordType(context) != Some(Bill) && RecordType(context) != Some(Prepayment))
            && (t.isHistoryView <==> context.Some? && context.value.fromHistory == Some(true))
            && t.(view := s.view, isHistoryView := s.isHistoryView) == s
  {
  }

  /**
   * A status changes only when its kind is switched on (to pending), when
   * its kind is approved, or, for the PO, when the PO is opened from a
   * bill or prepayment (to approved).
   */
  lemma StatusChangesOnlyBy(s: AppRecord, e: Event, k: ApprovalKind)
    ensures var t := Apply(s, e);
            StatusOf(t, k) != StatusOf(s, k) ==>
              || (e == EnableApprovals(k) && StatusOf(t, k) == Pending)
              || (e == Approve(k) && StatusOf(t, k) == Approved)
              || (e == NavigateToPO && k == Po && StatusOf(t, k) == Approved)
  {
    match e
    case EnableApprovals(j) =>
    case Approve(j) =>
    case _ =>
  }

  /**
   * The attachments of a record only grow at the end, by the files added
   * to that record, except that switching the PO simulation on empties the
   * PO's list.
   */
  lemma AttachmentsChangeOnlyBy(s: AppRecord, e: Event, k: ApprovalKind)
    ensures var t := Apply(s, e);
            && (e.AppendAttachments? && e.kind == k ==> AttachmentsOf(t, k) == AttachmentsOf(s, k) + e.files)
            && (e == EnableApprovals(Po) && k == Po ==> AttachmentsOf(t, k) == [])
            && (!(e.AppendAttachments? && e.kind == k) && !(e == EnableApprovals(Po) && k == Po)
                ==> AttachmentsOf(t, k) == AttachmentsOf(s, k))
  {
    match e
    case AppendAttachments(j, files) =>
    case EnableApprovals(j) =>
    case _ =>
  }

  // ---------------------------------------------------------------- the object

  /** The shell's state, held in fields that its handlers set one by one. */
  class App {
    var view: View
    var isApprovalsVisible: bool
    var isPurchasesEnabled: bool
    var approvalType: ApprovalKind
    var poStatus: Status
    var billStatus: Status
    var prepaymentStatus: Status
    var isHistoryView: bool
    var poAttachments: seq<AttachmentFile>
    var billAttachments: seq<AttachmentFile>
    var prepaymentAttachments: seq<AttachmentFile>

    /** The value of the state. */
    function Snapshot(): AppRecord
      reads this
    {
      AppRecord(view, isApprovalsVisible, isPurchasesEnabled, approvalType, poStatus, billStatus,
                prepaymentStatus, isHistoryView, poAttachments, billAttachments, prepaymentAttachments)
    }

    /** Each field starts from its stored value or its default. */
    constructor Load(storage: Storage, c: Codecs)
      ensures Snapshot() == InitialRecord(storage, c)
    {
      view := GetStoredState(storage, "appView", DashboardView, c.view);
      isApprovalsVisible := GetStoredState(storage, "isApprovalsVisible", false, c.flag);
      isPurchasesEnabled := GetStoredState(storage, "isPurchasesEnabled", false, c.flag);
      approvalType := GetStoredState(storage, "approvalType", Po, c.kind);
      poStatus := GetStoredState(storage, "poStatus", Pending, c.status);
      billStatus := GetStoredState(storage, "billStatus", Pending, c.status);
      prepaymentStatus := GetStoredState(storage, "prepaymentStatus", Pending, c.status);
      isHistoryView := GetStoredState(storage, "isHistoryView", false, c.flag);
      poAttachments := GetStoredState(storage, "poAttachments", [], c.files);
      billAttachments := GetStoredState(storage, "billAttachments", [], c.files);
      prepaymentAttachments := GetStoredState(storage, "prepaymentAttachments", [], c.files);
    }

    /** `setView`, as called by the screens' navigate and back handlers. */
    method SetView(v: View)
      modifies this
      ensures Snapshot() == Apply(old(Snapshot()), Navigate(v))
    {
      view := v;
    }

    method EnableApprovals()
      modifies this
      ensures Snapshot() == Apply(old(Snapshot()), Event.EnableApprovals(Po))
    {
      isApprovalsVisible := true;
      approvalType := Po;
      poStatus := Pending;
      poAttachments := [];
    }

    method EnableBillApprovals()
      modifies this
      ensures Snapshot() == Apply(old(Snapshot()), Event.EnableApprovals(Bill))
    {
      isApprovalsVisible := true;
      approvalType := Bill;
      billStatus := Pending;
    }

    method EnablePrepaymentApprovals()
      modifies this
      ensures Snapshot() == Apply(old(Snapshot()), Event.EnableApprovals(Prepayment))
    {
      isApprovalsVisible := true;
      approvalType := Prepayment;
      prepaymentStatus := Pending;
    }

    method DisableApprovals()
      modifies this
      ensures Snapshot() == Apply(old(Snapshot()), Event.DisableApprovals(Po))
    {
      isApprovalsVisible := false;
    }

    method DisableBillApprovals()
      modifies this
      ensures Snapshot() == Apply(old(Snapshot()), Event.DisableApprovals(Bill))
    {
      isApprovalsVisible := false;
      approvalType := Po;
    }

    method DisablePrepaymentApprovals()
      modifies this
      ensures Snapshot() == Apply(old(Snapshot()), Event.DisableApprovals(Prepayment))
    {
      isApprovalsVisible := false;
      approvalType := Po;
    }

    method EnablePurchases()
      modifies this
      ensures Snapshot() == Apply(old(Snapshot()), SetPurchasesEnabled(true))
    {
      isPurchasesEnabled := true;
    }

    method DisablePurchases()
      modifies this
      ensures Snapshot() == Apply(old(Snapshot()), SetPurchasesEnabled(false))
    {
      isPurchasesEnabled := false;
    }

    method OnDetails(context: Option<DetailsContext>)
      modifies this
      ensures Snapshot() == Apply(old(Snapshot()), OpenDetails(context))
    {
      if context.Some? && context.value.recordType == Some(Bill) {
        isHistoryView := FromHistory(context);
        view := BillDetailsView;
        return;
      }
      if context.Some? && context.value.recordType == Some(Prepayment) {
        isHistoryView := FromHistory(context);
        view := PrepaymentDetailsView;
        return;
      }
      isHistoryView := FromHistory(context);
      view := DetailsView;
    }

    /** The PO link of a bill or prepayment: the PO is shown as approved, outside history. */
    method OnNavigateToPO()
      modifies this
      ensures Snapshot() == Apply(old(Snapshot()), NavigateToPO)
    {
      poStatus := Approved;
      isHistoryView := false;
      view := DetailsView;
    }

    /** `onApprove` of the PO screen and `onApproveBill` of the bill and prepayment screens. */
    method OnApprove(k: ApprovalKind)
      modifies this
      ensures Snapshot() == Apply(old(Snapshot()), Approve(k))
    {
      match k {
        case Po => poStatus := Approved;
        case Bill => billStatus := Approved;
        case Prepayment => prepaymentStatus := Approved;
      }
      view := ApprovalsView;
    }

    /** `onAttachmentsChange(prev => [...prev, ...files])` on the setter of record `k`'s list. */
    method AddAttachments(k: ApprovalKind, files: seq<AttachmentFile>)
      modifies this
      ensures Snapshot() == Apply(old(Snapshot()), AppendAttachments(k, files))
    {
      match k
      case Po => poAttachments := poAttachments + files;
      case Bill => billAttachments := billAttachments + files;
      case Prepayment => prepaymentAttachments := prepaymentAttachments + files;
    }
  }
}
