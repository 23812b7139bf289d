/**
 * The functions screen: four tabs, each opening a small modal that
 * switches one simulation on or off. At most one modal is open, and the
 * tab of an approval simulation is disabled while another one runs.
 */
module FunctionsScreen {
  import opened Js
  import opened AppState
  import Expansion

  datatype Modal = PoModal | BillModal | PrepaymentModal | PurchasesModal

  /** The approval kind a modal switches; the purchases modal switches none. */
  function KindOf(m: Modal): Option<ApprovalKind> {
    match m
    case PoModal => Some(Po)
    case BillModal => Some(Bill)
    case PrepaymentModal => Some(Prepayment)
    case PurchasesModal => None
  }

  /** Whether the simulation a modal switches is on. */
  function IsOn(m: Modal, f: Flags): bool {
    match m
    case PoModal => f.po
    case BillModal => f.bill
    case PrepaymentModal => f.prepayment
    case PurchasesModal => f.purchases
  }

  /** A tab is disabled while one of the other two approval simulations is on; the purchases tab never is. */
  function TabDisabled(m: Modal, f: Flags): bool {
    match m
    case PoModal => f.bill || f.prepayment
    case BillModal => f.po || f.prepayment
    case PrepaymentModal => f.po || f.bill
    case PurchasesModal => false
  }

  /**
   * On the shell's flags, an approval tab is disabled exactly when a
   * simulation of another kind is running, so the running one can always
   * be switched off and none can be switched on beside it.
   */
  lemma TabDisabledIff(s: AppRecord, m: Modal)
    ensures KindOf(m).Some? ==>
              (TabDisabled(m, EnabledFlags(s)) <==> s.isApprovalsVisible && s.approvalType != KindOf(m).value)
    ensures KindOf(m).None? ==> !TabDisabled(m, EnabledFlags(s))
    ensures IsOn(m, EnabledFlags(s)) ==> !TabDisabled(m, EnabledFlags(s))
  {
    var f := EnabledFlags(s);
    assert f.po == FlagOf(f, Po) && f.bill == FlagOf(f, Bill) && f.prepayment == FlagOf(f, Prepayment);
  }

  /** The buttons of an open modal. */
  datatype Action = Enable | Disable | Dismiss

  /** A modal offers "stop" and "close" while its simulation is on, "start" and "cancel" otherwise. */
  function ModalActions(m: Modal, f: Flags): (r: seq<Action>)
    ensures |r| == 2 && r[1] == Dismiss
    ensures Enable in r <==> !IsOn(m, f)
    ensures Disable in r <==> IsOn(m, f)
  {
    if IsOn(m, f) then [Disable, Dismiss] else [Enable, Dismiss]
  }

  /** The shell state after pressing a modal's button. */
  function PressEffect(m: Modal, a: Action, s: AppRecord): AppRecord {
    match a
    case Dismiss => s
    case Enable =>
      (match m
       case PoModal => Apply(Apply(s, EnableApprovals(Po)), Navigate(DashboardView))
       case BillModal => Apply(Apply(s, EnableApprovals(Bill)), Navigate(DashboardView))
       case PrepaymentModal => Apply(s, EnableApprovals(Prepayment))
       case PurchasesModal => Apply(Apply(s, SetPurchasesEnabled(true)), Navigate(DashboardView)))
    case Disable =>
      (match m
       case PoModal => Apply(s, DisableApprovals(Po))
       case BillModal => Apply(s, DisableApprovals(Bill))
       case PrepaymentModal => Apply(s, DisableApprovals(Prepayment))
       case PurchasesModal => Apply(s, SetPurchasesEnabled(false)))
  }

  /**
   * "Start" switches the modal's simulation on; an approval simulation
   * then has one pending record. Every start but the prepayment one
   * returns to the dashboard.
   */
  lemma EnableSwitchesOn(m: Modal, s: AppRecord)
    ensures var t := PressEffect(m, Enable, s);
            && IsOn(m, EnabledFlags(t))
            && (KindOf(m).Some? ==> PendingCount(t) == 1 && t.isPurchasesEnabled == s.isPurchasesEnabled)
            && (KindOf(m).None? ==> EnabledFlags(t) == EnabledFlags(s).(purchases := true)
                                    && PendingCount(t) == PendingCount(s))
            && t.view == (if m == PrepaymentModal then s.view else DashboardView)
  {
  }

  /** "Stop" switches the modal's simulation off and leaves the screen where it is. */
  lemma DisableSwitchesOff(m: Modal, s: AppRecord)
    ensures var t := PressEffect(m, Disable, s);
            && !IsOn(m, EnabledFlags(t))
            && (KindOf(m).Some? ==> PendingCount(t) == 0 && !t.isApprovalsVisible)
            && (KindOf(m).None? ==> t == s.(isPurchasesEnabled := false))
            && t.view == s.view
  {
  }

  /** An open modal belongs to a tab that is enabled. */
  predicate OpenTabEnabled(activeModal: Option<Modal>, f: Flags) {
    activeModal.Some? ==> !TabDisabled(activeModal.value, f)
  }

  class FunctionsView {
    var activeModal: Option<Modal>

    constructor ()
      ensures activeModal == None
    {
      activeModal := None;
    }

    /** A click on an enabled tab opens its modal, or closes it when it is already open. */
    method ClickTab(m: Modal, f: Flags)
      modifies this
      ensures TabDisabled(m, f) ==> activeModal == old(activeModal)
      ensures !TabDisabled(m, f) ==> activeModal == Expansion.Toggle(old(activeModal), m)
      ensures old(OpenTabEnabled(activeModal, f)) ==> OpenTabEnabled(activeModal, f)
    {
      if !TabDisabled(m, f) {
        activeModal := if activeModal == Some(m) then None else Some(m);
      }
    }

    /** Pressing one of the open modal's buttons: the handler runs and the modal closes. */
    method Press(app: App, a: Action)
      requires activeModal.Some?
      requires a in ModalActions(activeModal.value, EnabledFlags(app.Snapshot()))
      modifies this, app
      ensures activeModal == None
      ensures app.Snapshot() == PressEffect(old(activeModal.value), a, old(app.Snapshot()))
    {
      var m := activeModal.value;
      match a {
        case Dismiss =>
        case Enable =>
          match m {
            case PoModal =>
              app.EnableApprovals();
              app.SetView(DashboardView);
            case BillModal =>
              app.EnableBillApprovals();
              app.SetView(DashboardView);
            case PrepaymentModal =>
              app.EnablePrepaymentApprovals();
            case PurchasesModal =>
              app.EnablePurchases();
              app.SetView(DashboardView);
          }
        case Disable =>
          match m {
            case PoModal => app.DisableApprovals();
            case BillModal => app.DisableBillApprovals();
            case PrepaymentModal => app.DisablePrepaymentApprovals();
            case PurchasesModal => app.DisablePurchases();
          }
      }
      activeModal := None;
    }
  }
}
