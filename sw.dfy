/**
 * The service worker's event handlers: showing a pushed notification,
 * routing a notification click to a window, and showing a notification
 * the page asks for by message. Platform calls (`showNotification`,
 * `clients.matchAll`, `focus`, `openWindow`, `postMessage`) are not run:
 * the handlers return the outcome or the list of actions they take.
 */
module ServiceWorker {
  import opened Js
  import opened Schema

  const DefaultTitle: string := "Acu Preview"
  const DefaultBody: string := "You have a new notification"

  // ---------------------------------------------------------------- push

  /** The parsed JSON body of a push; every field may be absent. */
  datatype PushPayload = PushPayload(
    title: Option<string>,
    body: Option<string>,
    icon: Option<string>,
    badge: Option<string>,
    data: Option<Data>)

  /**
   * A push event: without data, or with data whose `json()` either yields
   * a payload or throws (`None`: a malformed body, or a body that parses
   * to `null`, whose fields cannot be read).
   */
  datatype PushEvent = NoData | WithData(json: Option<PushPayload>)

  /** What the push handler does: nothing, throw out of the handler, or show. */
  datatype PushOutcome = Ignored | JsonThrew | Show(title: string, options: Options)

  /** The options object the push handler builds from a payload. */
  function PushOptions(p: PushPayload): (o: Options)
    ensures Truthy(p.body) ==> o.body == p.body
    ensures !Truthy(p.body) ==> o.body == Some(DefaultBody)
    ensures Truthy(p.icon) ==> o.icon == p.icon
    ensures !Truthy(p.icon) ==> o.icon == Some(DefaultIcon)
    ensures Truthy(p.badge) ==> o.badge == p.badge
    ensures !Truthy(p.badge) ==> o.badge == Some(DefaultBadge)
    ensures o.data == Some(if p.data.Some? then p.data.value else map[])
    ensures o.tag == None
  {
    Options(
      body := Some(Or(p.body, DefaultBody)),
      icon := Some(Or(p.icon, DefaultIcon)),
      badge := Some(Or(p.badge, DefaultBadge)),
      tag := None,
      data := Some(p.data.GetOr(map[])),
      vibrate := Some(DefaultVibrate),
      requireInteraction := Some(false),
      silent := Some(false))
  }

  function OnPush(e: PushEvent): (r: PushOutcome)
    ensures r.Ignored? <==> e.NoData?
    ensures r.JsonThrew? <==> e.WithData? && e.json.None?
    ensures r.Show? ==> r.title == (if Truthy(e.json.value.title) then e.json.value.title.value else DefaultTitle)
    ensures r.Show? ==> r.options == PushOptions(e.json.value)
  {
    match e
    case NoData => Ignored
    case WithData(json) =>
      match json
      case None => JsonThrew
      case Some(p) => Show(Or(p.title, DefaultTitle), PushOptions(p))
  }

  /** The payload `{ data: { type: "bill" } }` shows the default title and body. */
  lemma BillPushScenario()
    ensures OnPush(WithData(Some(PushPayload(None, None, None, None, Some(map["type" := "bill"])))))
         == Show("Acu Preview", Options(Some("You have a new notification"),
              Some("/icons/android/android-launchericon-192-192.png"),
              Some("/icons/android/android-launchericon-96-96.png"),
              None, Some(map["type" := "bill"]), Some([200, 100, 200]), Some(false), Some(false)))
  {
  }

  // ---------------------------------------------------------------- click

  /** A window client as the click handler sees it: its URL, and whether it has `focus`. */
  datatype Client = Client(url: string, focusable: bool)

  /** An effect of the click handler; clients are named by their index in the enumeration. */
  datatype ClickAction =
    | CloseNotification
    | PostMessage(client: nat, message: ClientMessage)
    | Focus(client: nat)
    | OpenWindow(url: string)

  /** The URL a click opens a new window at. */
  function TargetUrl(t: Option<string>): string {
    if t == Some("po") || t == Some("bill") || t == Some("prepayment") then "/?view=approvals"
    else if t == Some("purchases") then "/?view=purchases"
    else "/"
  }

  /** The view of the `NAVIGATE` message a click posts to an open window. */
  function NavigateView(t: Option<string>): NavView {
    if t == Some("purchases") then NavPurchases else NavApprovals
  }

  predicate IsKnownType(t: Option<string>) {
    t == Some("po") || t == Some("bill") || t == Some("prepayment") || t == Some("purchases")
  }

  /**
   * The target URL and the message view agree for the four known types;
   * for an unknown or absent type the URL is the root while the message
   * still names the approvals view.
   */
  lemma ClickRouting(t: Option<string>)
    ensures t == Some("po") || t == Some("bill") || t == Some("prepayment")
            ==> TargetUrl(t) == "/?view=approvals" && NavigateView(t) == NavApprovals
    ensures t == Some("purchases") ==> TargetUrl(t) == "/?view=purchases" && NavigateView(t) == NavPurchases
    ensures !IsKnownType(t) ==> TargetUrl(t) == "/" && NavigateView(t) == NavApprovals
    ensures NavigateView(t) == NavPurchases <==> t == Some("purchases")
  {
  }

  /** A string lacking one of the characters of `sub` does not contain `sub`. */
  lemma NotContainsMissingChar(s: string, sub: string, k: nat)
    requires k < |sub| && sub[k] !in s
    ensures !Contains(s, sub)
  {
    ContainsIff(s, sub);
  }

  /** No target URL carries a `type` query parameter. */
  lemma TargetUrlHasNoType(t: Option<string>)
    ensures !Contains(TargetUrl(t), "type=")
  {
    var url := TargetUrl(t);
    assert "type="[0] == 't';
    assert 't' !in url;
    NotContainsMissingChar(url, "type=", 0);
  }

  /** A client the handler may act on: its URL contains the origin and it supports `focus`. */
  predicate Matches(c: Client, origin: string) {
    Contains(c.url, origin) && c.focusable
  }

  /** The index of the first matching client, if there is one. */
  function FirstMatch(clients: seq<Client>, origin: string): (r: Option<nat>)
    ensures r.Some? ==> r.value < |clients| && Matches(clients[r.value], origin)
    ensures r.Some? ==> forall j :: 0 <= j < r.value ==> !Matches(clients[j], origin)
    ensures r.None? ==> forall j :: 0 <= j < |clients| ==> !Matches(clients[j], origin)
  {
    if |clients| == 0 then None
    else if Matches(clients[0], origin) then Some(0)
    else
      match FirstMatch(clients[1..], origin)
      case None => None
      case Some(i) => Some(i + 1)
  }

  /**
   * What a click does, in order: close the notification; then message and
   * focus the first matching client; or, when none matches, open a window
   * at the target URL if the platform can.
   */
  function ClickPlan(data: Option<Data>, clients: seq<Client>, origin: string, canOpenWindow: bool): (r: seq<ClickAction>)
    ensures 1 <= |r| <= 3 && r[0] == CloseNotification
    ensures (exists a :: a in r && a.OpenWindow?)
            <==> canOpenWindow && forall j :: 0 <= j < |clients| ==> !Matches(clients[j], origin)
    ensures forall a :: a in r && a.Focus? ==> a.client < |clients| && Matches(clients[a.client], origin)
    ensures forall a :: a in r && a.Focus? ==> forall j :: 0 <= j < a.client ==> !Matches(clients[j], origin)
    ensures forall a :: a in r && a.OpenWindow? ==> a.url == TargetUrl(NotificationType(data))
    ensures forall a :: a in r && a.PostMessage? ==>
              a.message == Navigate(NavigateView(NotificationType(data)), NotificationType(data))
    ensures forall a :: a in r && a.PostMessage? ==>
              a.client < |clients| && Matches(clients[a.client], origin)
              && forall j :: 0 <= j < a.client ==> !Matches(clients[j], origin)
  {
    var t := NotificationType(data);
    match FirstMatch(clients, origin)
    case Some(i) => [CloseNotification, PostMessage(i, Navigate(NavigateView(t), t)), Focus(i)]
    case None =>
      if canOpenWindow then
        var r := [CloseNotification, OpenWindow(TargetUrl(t))];
        assert r[1] in r;
        r
      else [CloseNotification]
  }

  /** The `notificationclick` handler: the loop over the enumerated clients, with its early return. */
  method OnNotificationClick(data: Option<Data>, clients: seq<Client>, origin: string, canOpenWindow: bool)
    returns (actions: seq<ClickAction>)
    ensures actions == ClickPlan(data, clients, origin, canOpenWindow)
  {
    actions := [CloseNotification];
    var notificationType := NotificationType(data);
    var targetUrl := TargetUrl(notificationType);
    var i := 0;
    while i < |clients|
      invariant 0 <= i <= |clients|
      invariant forall j :: 0 <= j < i ==> !Matches(clients[j], origin)
    {
      if Matches(clients[i], origin) {
        actions := actions + [PostMessage(i, Navigate(NavigateView(notificationType), notificationType)), Focus(i)];
        return;
      }
      i := i + 1;
    }
    if canOpenWindow {
      actions := actions + [OpenWindow(targetUrl)];
    }
  }

  /** With a matching client open, a click focuses exactly one client and opens no window. */
  lemma ClickWithOpenClient(data: Option<Data>, clients: seq<Client>, origin: string, canOpenWindow: bool, k: nat)
    requires k < |clients| && Matches(clients[k], origin)
    ensures var r := ClickPlan(data, clients, origin, canOpenWindow);
            |r| == 3 && r[2].Focus? && r[2].client <= k
            && r[1] == PostMessage(r[2].client, Navigate(NavigateView(NotificationType(data)), NotificationType(data)))
            && forall a :: a in r ==> !a.OpenWindow?
  {
    var m := FirstMatch(clients, origin);
    assert m.Some? && m.value <= k;
  }

  /** With no matching client, a click only closes the notification and, when it can, opens a window at the target URL. */
  lemma NoMatchOpensOrNothing(data: Option<Data>, clients: seq<Client>, origin: string, canOpenWindow: bool)
    requires forall j :: 0 <= j < |clients| ==> !Matches(clients[j], origin)
    ensures ClickPlan(data, clients, origin, canOpenWindow)
         == [CloseNotification] + (if canOpenWindow then [OpenWindow(TargetUrl(NotificationType(data)))] else [])
  {
    assert FirstMatch(clients, origin).None?;
  }

  /** The data a push attaches is what the click handler routes on. */
  lemma PushThenClick(p: PushPayload, clients: seq<Client>, origin: string, canOpenWindow: bool)
    ensures ClickPlan(PushOptions(p).data, clients, origin, canOpenWindow)
         == ClickPlan(p.data, clients, origin, canOpenWindow)
  {
  }

  // ---------------------------------------------------------------- message

  /** The options the message handler shows: the caller's, with defaults and forced flags over them. */
  function MergeMessageOptions(o: Options): Options {
    o.(icon := Some(Or(o.icon, DefaultIcon)),
       badge := Some(Or(o.badge, DefaultBadge)),
       vibrate := Some(o.vibrate.GetOr(DefaultVibrate)),
       silent := Some(false),
       requireInteraction := Some(false))
  }

  /** Options that already carry everything the message handler would substitute or force. */
  predicate Normalized(o: Options) {
    Truthy(o.icon) && Truthy(o.badge) && o.vibrate.Some?
    && o.silent == Some(false) && o.requireInteraction == Some(false)
  }

  /**
   * Merging normalises: it keeps the caller's body, tag and data, keeps an
   * icon, badge or vibrate pattern the caller gave and substitutes the
   * default for one it did not, forces both flags to false, and leaves
   * normalised options as they are (so merging twice is merging once).
   */
  lemma MergeNormalizes(o: Options)
    ensures Normalized(MergeMessageOptions(o))
    ensures var m := MergeMessageOptions(o);
            m.body == o.body && m.tag == o.tag && m.data == o.data
            && (o.vibrate.Some? ==> m.vibrate == o.vibrate)
            && (Truthy(o.icon) ==> m.icon == o.icon) && (Truthy(o.badge) ==> m.badge == o.badge)
            && (!Truthy(o.icon) ==> m.icon == Some(DefaultIcon))
            && (!Truthy(o.badge) ==> m.badge == Some(DefaultBadge))
            && (o.vibrate.None? ==> m.vibrate == Some(DefaultVibrate))
            && m.silent == Some(false) && m.requireInteraction == Some(false)
    ensures Normalized(o) ==> MergeMessageOptions(o) == o
    ensures MergeMessageOptions(MergeMessageOptions(o)) == MergeMessageOptions(o)
  {
    assert DefaultIcon != "" && DefaultBadge != "";
  }

  /** Everything the push handler shows is already normalised. */
  lemma PushOptionsNormalized(p: PushPayload)
    ensures Normalized(PushOptions(p))
  {
    assert DefaultIcon != "" && DefaultBadge != "";
  }

  /** The message handler's outcome; a rejected display is caught and reported as not shown. */
  datatype MessageOutcome = NotHandled | OptionsThrew | Attempted(title: string, options: Options, shown: bool)

  /**
   * The `message` handler. Only `SHOW_NOTIFICATION` messages are acted on;
   * a message without `options` throws when its icon is read; otherwise the
   * merged options are shown and a failure of the display is caught.
   */
  function OnMessage(m: Option<WorkerMessage>, displaySucceeds: bool): (r: MessageOutcome)
    ensures r.NotHandled? <==> m.None? || m.value.kind != Some(ShowMessageType)
    ensures r.OptionsThrew? <==> m.Some? && m.value.kind == Some(ShowMessageType) && m.value.options.None?
    ensures r.Attempted? ==>
              && r.title == m.value.title && r.shown == displaySucceeds
              && Normalized(r.options)
              && r.options.body == m.value.options.value.body
              && r.options.tag == m.value.options.value.tag
              && r.options.data == m.value.options.value.data
    ensures r.Attempted? ==> r.options == MergeMessageOptions(m.value.options.value)
  {
    if m.None? || m.value.kind != Some(ShowMessageType) then NotHandled
    else if m.value.options.None? then OptionsThrew
    else
      MergeNormalizes(m.value.options.value);
      Attempted(m.value.title, MergeMessageOptions(m.value.options.value), displaySucceeds)
  }
}
