/**
 * The detail view of one purchase order from the purchase-order list:
 * four tabs, each opening its own full-screen panel, a tax table with one
 * expandable row, and display fallbacks for the optional fields.
 */
module PoDetailView {
  import opened Js
  import Expansion

  datatype DetailTab = DetailsTab | VendorTab | ApprovalsTab | TaxesTab

  /** A purchase order as handed to the view; the last six fields may be absent. */
  datatype PurchaseOrderData = PurchaseOrderData(
    id: string,
    company: string,
    amount: string,
    date: string,
    status: string,
    poType: Option<string>,
    promisedOn: Option<string>,
    description: Option<string>,
    location: Option<string>,
    owner: Option<string>,
    currency: Option<string>)

  /** The texts the view shows for the optional fields. */
  datatype DisplayedFields = DisplayedFields(
    poType: string,
    promisedOn: string,
    description: string,
    location: string,
    owner: string,
    currency: string,
    itemDescription: string)

  const DefaultType: string := "Normal"
  const DefaultLocation: string := "Primary Location"
  const DefaultCurrency: string := "PHP"
  const DefaultItemDescription: string := "Komatsu PC210 PART NO.23131313"

  function Displayed(po: PurchaseOrderData): DisplayedFields {
    DisplayedFields(
      Or(po.poType, DefaultType),
      Or(po.promisedOn, po.date),
      Or(po.description, ""),
      Or(po.location, DefaultLocation),
      Or(po.owner, ""),
      Or(po.currency, DefaultCurrency),
      Or(po.description, DefaultItemDescription))
  }

  /** A field given as non-empty text is shown as given. */
  lemma DisplayedKeepsGivenValues(po: PurchaseOrderData)
    ensures var f := Displayed(po);
            && (Truthy(po.poType) ==> f.poType == po.poType.value)
            && (Truthy(po.promisedOn) ==> f.promisedOn == po.promisedOn.value)
            && (Truthy(po.location) ==> f.location == po.location.value)
            && (Truthy(po.currency) ==> f.currency == po.currency.value)
            && (Truthy(po.description) ==> f.description == po.description.value == f.itemDescription)
            && (po.owner.Some? ==> f.owner == po.owner.value)
  {
  }

  /**
   * An absent or empty field falls back: type to "Normal", the promised
   * date to the order date, location to "Primary Location", currency to
   * "PHP"; so those, and the item description, are never blank.
   */
  lemma DisplayedFallbacks(po: PurchaseOrderData)
    ensures var f := Displayed(po);
            && (!Truthy(po.poType) ==> f.poType == DefaultType)
            && (!Truthy(po.promisedOn) ==> f.promisedOn == po.date)
            && (!Truthy(po.location) ==> f.location == DefaultLocation)
            && (!Truthy(po.currency) ==> f.currency == DefaultCurrency)
            && (!Truthy(po.description) ==> f.description == "" && f.itemDescription == DefaultItemDescription)
            && f.poType != "" && f.location != "" && f.currency != "" && f.itemDescription != ""
            && (po.date != "" ==> f.promisedOn != "")
  {
  }

  datatype ViewState = ViewState(
    activeTab: DetailTab,
    showItemDetails: bool,
    showVendorInfo: bool,
    showApprovals: bool,
    showTaxes: bool,
    expandedTax: Option<nat>)

  /** The panel flag that belongs to a tab. */
  function PanelOpen(s: ViewState, k: DetailTab): bool {
    match k
    case DetailsTab => s.showItemDetails
    case VendorTab => s.showVendorInfo
    case ApprovalsTab => s.showApprovals
    case TaxesTab => s.showTaxes
  }

  function WithPanel(s: ViewState, k: DetailTab, open: bool): ViewState {
    match k
    case DetailsTab => s.(showItemDetails := open)
    case VendorTab => s.(showVendorInfo := open)
    case ApprovalsTab => s.(showApprovals := open)
    case TaxesTab => s.(showTaxes := open)
  }

  /** Setting one tab's panel flag leaves the other three, the active tab and the tax row as they were. */
  lemma WithPanelFrame(s: ViewState, k: DetailTab, open: bool)
    ensures PanelOpen(WithPanel(s, k, open), k) == open
    ensures forall j :: j != k ==> PanelOpen(WithPanel(s, k, open), j) == PanelOpen(s, j)
    ensures WithPanel(s, k, open).activeTab == s.activeTab
    ensures WithPanel(s, k, open).expandedTax == s.expandedTax
  {
  }

  /** Opening a panel and going back restores everything but the active tab. */
  lemma OpenThenBack(s: ViewState, k: DetailTab)
    requires !PanelOpen(s, k)
    ensures WithPanel(WithPanel(s, k, true).(activeTab := k), k, false) == s.(activeTab := k)
  {
  }

  class DetailView {
    var activeTab: DetailTab
    var showItemDetails: bool
    var showVendorInfo: bool
    var showApprovals: bool
    var showTaxes: bool
    var expandedTax: Option<nat>

    function Snapshot(): ViewState
      reads this
    {
      ViewState(activeTab, showItemDetails, showVendorInfo, showApprovals, showTaxes, expandedTax)
    }

    constructor ()
      ensures Snapshot() == ViewState(DetailsTab, false, false, false, false, None)
    {
      activeTab := DetailsTab;
      showItemDetails := false;
      showVendorInfo := false;
      showApprovals := false;
      showTaxes := false;
      expandedTax := None;
    }

    /** A tab click selects the tab and opens its panel; the other panels are left as they are. */
    method HandleTabClick(k: DetailTab)
      modifies this
      ensures Snapshot() == WithPanel(old(Snapshot()), k, true).(activeTab := k)
    {
      activeTab := k;
      if k == DetailsTab {
        showItemDetails := true;
      } else if k == TaxesTab {
        showTaxes := true;
      } else if k == ApprovalsTab {
        showApprovals := true;
      } else if k == VendorTab {
        showVendorInfo := true;
      }
    }

    /** The back arrow of a panel closes that panel only; the active tab stays selected. */
    method Back(k: DetailTab)
      modifies this
      ensures Snapshot() == WithPanel(old(Snapshot()), k, false)
    {
      match k {
        case DetailsTab => showItemDetails := false;
        case VendorTab => showVendorInfo := false;
        case ApprovalsTab => showApprovals := false;
        case TaxesTab => showTaxes := false;
      }
    }

    /** Clicking tax row `index` expands it, or collapses it when it is the expanded one. */
    method ToggleTax(index: nat)
      modifies this
      ensures Snapshot() == old(Snapshot()).(expandedTax := Expansion.Toggle(old(expandedTax), index))
    {
      expandedTax := if expandedTax == Some(index) then None else Some(index);
    }
  }
}
