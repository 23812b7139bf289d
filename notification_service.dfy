/**
 * The page-side notification service: it tracks the notification
 * permission, asks for it at most while it is undecided, and shows a
 * notification through the service-worker registration, falling back to
 * a page notification, with a backup message posted to the worker.
 */
module NotificationService {
  import opened Js
  import opened Schema
  import ServiceWorker

  datatype Permission = DefaultPermission | Granted | Denied

  /**
   * What the browser answers during one call. `promptAnswer` is the
   * user's answer to the permission prompt (`None`: the request throws);
   * the two `...Succeeds` flags say whether the registration's display
   * and the page's own `Notification` constructor complete.
   */
  datatype Browser = Browser(
    hasNotificationApi: bool,
    permission: Permission,
    promptAnswer: Option<Permission>,
    hasServiceWorker: bool,
    registrationShowSucceeds: bool,
    hasController: bool,
    directShowSucceeds: bool)

  /** The argument of `showNotification`. */
  datatype Request = Request(
    title: string,
    body: string,
    icon: Option<string>,
    badge: Option<string>,
    tag: Option<string>,
    data: Option<Data>)

  datatype Channel = ViaRegistration | PageNotification

  /** What a call does that the outside world sees. */
  datatype Effect =
    | Shown(channel: Channel, title: string, options: Options)
    | PostedToWorker(message: WorkerMessage)

  /** The cached permission after re-reading it from the browser, which is possible only when it has the API. */
  function Refreshed(b: Browser, cached: Permission): Permission {
    if b.hasNotificationApi then b.permission else cached
  }

  /** The outcome of `requestPermission`. */
  datatype PermissionRequest = PermissionRequest(granted: bool, prompted: bool, permission: Permission)

  /**
   * `requestPermission` decides on the cached permission, without
   * re-reading it: the user is asked only while it is undecided, and the
   * answer (when the request does not throw) becomes the cached value.
   */
  function RequestPlan(b: Browser, cached: Permission): (r: PermissionRequest)
    ensures r.prompted <==> b.hasNotificationApi && cached == DefaultPermission
    ensures !r.prompted ==> r.permission == cached
    ensures r.prompted ==> r.permission == b.promptAnswer.GetOr(cached)
    ensures r.granted <==> b.hasNotificationApi
                           && (cached == Granted || (cached == DefaultPermission && b.promptAnswer == Some(Granted)))
    ensures r.granted ==> r.permission == Granted
  {
    if !b.hasNotificationApi then PermissionRequest(false, false, cached)
    else if cached == Granted then PermissionRequest(true, false, cached)
    else if cached == Denied then PermissionRequest(false, false, cached)
    else
      assert cached == DefaultPermission;
      match b.promptAnswer
      case None => PermissionRequest(false, true, cached)
      case Some(p) => PermissionRequest(p == Granted, true, p)
  }

  /** A decided permission is never asked again, so a denial is final. */
  lemma DecidedPermissionIsNotAsked(b: Browser, cached: Permission)
    requires cached != DefaultPermission
    ensures !RequestPlan(b, cached).prompted
    ensures RequestPlan(b, cached).granted <==> b.hasNotificationApi && cached == Granted
  {
  }

  /** The options object built for every display. */
  function ServiceOptions(req: Request): (o: Options)
    ensures o.body == Some(req.body) && o.tag == req.tag && o.data == req.data
    ensures o.icon == Some(if Truthy(req.icon) then req.icon.value else DefaultIcon)
    ensures o.badge == Some(if Truthy(req.badge) then req.badge.value else DefaultBadge)
    ensures o.vibrate == Some(DefaultVibrate)
    ensures o.requireInteraction == Some(false) && o.silent == Some(false)
  {
    Options(Some(req.body), Some(Or(req.icon, DefaultIcon)), Some(Or(req.badge, DefaultBadge)),
            req.tag, req.data, Some(DefaultVibrate), Some(false), Some(false))
  }

  /** The service's options already carry everything the worker's message handler would add. */
  lemma ServiceOptionsNormalized(req: Request)
    ensures ServiceWorker.Normalized(ServiceOptions(req))
    ensures ServiceWorker.MergeMessageOptions(ServiceOptions(req)) == ServiceOptions(req)
  {
    assert DefaultIcon != "" && DefaultBadge != "";
    ServiceWorker.MergeNormalizes(ServiceOptions(req));
  }

  /**
   * What `showNotification` does: nothing unless the browser has the API
   * and the (re-read) permission is granted; then a display through the
   * registration followed, when a controller exists, by the backup
   * message; a page notification when there is no worker or the
   * registration's display fails; and nothing when that throws too.
   */
  function DisplayPlan(b: Browser, req: Request): (r: seq<Effect>)
    ensures r != [] ==> b.hasNotificationApi && b.permission == Granted
    ensures |r| <= 2
    ensures r != [] ==> r[0].Shown? && r[0] == Shown(r[0].channel, req.title, ServiceOptions(req))
    ensures r != [] && r[0].channel == ViaRegistration <==>
              b.hasNotificationApi && b.permission == Granted && b.hasServiceWorker && b.registrationShowSucceeds
    ensures |r| == 2 <==> r != [] && r[0].channel == ViaRegistration && b.hasController
    ensures |r| == 2 ==> r[1] == PostedToWorker(WorkerMessage(Some(ShowMessageType), req.title, Some(ServiceOptions(req))))
    ensures r == [] <==> !b.hasNotificationApi || b.permission != Granted
                         || (!(b.hasServiceWorker && b.registrationShowSucceeds) && !b.directShowSucceeds)
  {
    if !b.hasNotificationApi || b.permission != Granted then []
    else
      var o := ServiceOptions(req);
      if b.hasServiceWorker && b.registrationShowSucceeds then
        [Shown(ViaRegistration, req.title, o)]
        + (if b.hasController then [PostedToWorker(WorkerMessage(Some(ShowMessageType), req.title, Some(o)))] else [])
      else if b.directShowSucceeds then [Shown(PageNotification, req.title, o)]
      else []
  }

  /**
   * The backup message makes the worker show the very notification the
   * registration just showed: same title, same options, same tag.
   */
  lemma BackupMessageRepeatsNotification(b: Browser, req: Request, displaySucceeds: bool)
    requires |DisplayPlan(b, req)| == 2
    ensures ServiceWorker.OnMessage(Some(DisplayPlan(b, req)[1].message), displaySucceeds)
         == ServiceWorker.Attempted(req.title, (DisplayPlan(b, req)[0]).options, displaySucceeds)
  {
    ServiceOptionsNormalized(req);
  }

  /** The four notifications the application sends. */
  datatype Template = PoApproval | BillApproval | PrepaymentApproval | PurchasesEnabled

  function Compose(t: Template): (r: Request)
    ensures r.icon == None && r.badge == None && r.tag.Some? && r.data.Some?
  {
    match t
    case PoApproval =>
      Request("New PO for Approval", "You have 1 new Purchase Order pending approval", None, None,
              Some("po-approval"), Some(map["type" := "po", "action" := "approval"]))
    case BillApproval =>
      Request("New Bill for Approval", "You have 1 new Bill pending approval", None, None,
              Some("bill-approval"), Some(map["type" := "bill", "action" := "approval"]))
    case PrepaymentApproval =>
      Request("New Prepayment for Approval", "You have 1 new Prepayment pending approval", None, None,
              Some("prepayment-approval"), Some(map["type" := "prepayment", "action" := "approval"]))
    case PurchasesEnabled =>
      Request("Purchases Enabled", "You can now view and manage purchases", None, None,
              Some("purchases-enabled"), Some(map["type" := "purchases", "action" := "enabled"]))
  }

  /**
   * A click on one of the application's notifications leads to the screen
   * it announces: the approvals screen for the three approval kinds, the
   * purchases screen for purchases.
   */
  lemma TemplateClickTarget(t: Template)
    ensures ServiceWorker.IsKnownType(NotificationType(Compose(t).data))
    ensures ServiceWorker.TargetUrl(NotificationType(Compose(t).data))
         == (if t == PurchasesEnabled then "/?view=purchases" else "/?view=approvals")
    ensures ServiceWorker.NavigateView(NotificationType(Compose(t).data))
         == (if t == PurchasesEnabled then NavPurchases else NavApprovals)
  {
  }

  /** Each template has its own tag, so a notification replaces only an earlier one of its own kind. */
  lemma TemplateTagsDistinct(t: Template, u: Template)
    requires t != u
    ensures Compose(t).tag != Compose(u).tag
  {
    assert Compose(t).tag.value[0] != Compose(u).tag.value[0] || Compose(t).tag.value[1] != Compose(u).tag.value[1];
  }

  /** The service object; its one field is the cached permission. */
  class Service {
    var permission: Permission

    constructor (b: Browser)
      ensures permission == Refreshed(b, DefaultPermission)
    {
      permission := DefaultPermission;
      if b.hasNotificationApi {
        permission := b.permission;
      }
    }

    method RequestPermission(b: Browser) returns (granted: bool, prompted: bool)
      modifies this
      ensures PermissionRequest(granted, prompted, permission) == RequestPlan(b, old(permission))
    {
      prompted := false;
      if !b.hasNotificationApi {
        return false, false;
      }
      if permission == Granted {
        return true, false;
      }
      if permission == Denied {
        return false, false;
      }
      prompted := true;
      match b.promptAnswer {
        case None =>
          granted := false;
        case Some(p) =>
          permission := p;
          granted := p == Granted;
      }
    }

    /** Re-reads the permission; true exactly when the API exists and permission is granted. */
    method IsSupported(b: Browser) returns (supported: bool)
      modifies this
      ensures permission == Refreshed(b, old(permission))
      ensures supported <==> b.hasNotificationApi && b.permission == Granted
    {
      if b.hasNotificationApi {
        permission := b.permission;
      }
      supported := b.hasNotificationApi && permission == Granted;
    }

    method GetPermission(b: Browser) returns (p: Permission)
      modifies this
      ensures permission == Refreshed(b, old(permission)) && p == permission
    {
      if b.hasNotificationApi {
        permission := b.permission;
      }
      p := permission;
    }

    method ShowNotification(b: Browser, req: Request) returns (effects: seq<Effect>)
      modifies this
      ensures permission == Refreshed(b, old(permission))
      ensures effects == DisplayPlan(b, req)
    {
      if b.hasNotificationApi {
        permission := b.permission;
      }
      var supported := IsSupported(b);
      if !supported {
        return [];
      }
      var o := ServiceOptions(req);
      if b.hasServiceWorker {
        if b.registrationShowSucceeds {
          effects := [Shown(ViaRegistration, req.title, o)];
          if b.hasController {
            effects := effects + [PostedToWorker(WorkerMessage(Some(ShowMessageType), req.title, Some(o)))];
          }
        } else if b.directShowSucceeds {
          effects := [Shown(PageNotification, req.title, o)];
        } else {
          effects := [];
        }
      } else if b.directShowSucceeds {
        effects := [Shown(PageNotification, req.title, o)];
      } else {
        effects := [];
      }
    }

    /** `notifyPOApproval`, `notifyBillApproval`, `notifyPrepaymentApproval` and `notifyPurchases`. */
    method Notify(b: Browser, t: Template) returns (effects: seq<Effect>)
      modifies this
      ensures permission == Refreshed(b, old(permission))
      ensures effects == DisplayPlan(b, Compose(t))
    {
      effects := ShowNotification(b, Compose(t));
    }
  }
}
