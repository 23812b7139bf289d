/**
 * The notification vocabulary shared by the page and its service worker:
 * the options object handed to `showNotification`, the opaque `data`
 * payload, the messages the two contexts post to each other, and the
 * default icon, badge and vibration pattern both of them substitute.
 */
module Schema {
  import opened Js

  /** The key-value `data` attached to a notification and read back on click. */
  type Data = map<string, string>

  const DefaultIcon: string := "/icons/android/android-launchericon-192-192.png"
  const DefaultBadge: string := "/icons/android/android-launchericon-96-96.png"
  const DefaultVibrate: seq<int> := [200, 100, 200]

  /** The `type` of a message that asks the worker to show a notification. */
  const ShowMessageType: string := "SHOW_NOTIFICATION"

  /** A notification options object; every property may be absent. */
  datatype Options = Options(
    body: Option<string>,
    icon: Option<string>,
    badge: Option<string>,
    tag: Option<string>,
    data: Option<Data>,
    vibrate: Option<seq<int>>,
    requireInteraction: Option<bool>,
    silent: Option<bool>)

  /** `event.data` of a message posted to the service worker: `{ type, title, options }`. */
  datatype WorkerMessage = WorkerMessage(kind: Option<string>, title: string, options: Option<Options>)

  /** The view named in a `NAVIGATE` message. */
  datatype NavView = NavApprovals | NavPurchases

  /** A message the service worker posts to a window: `{ type: 'NAVIGATE', view, notificationType }`. */
  datatype ClientMessage = Navigate(view: NavView, notificationType: Option<string>)

  /** The `type` entry of a notification's data, with absent data read as `{}`. */
  function NotificationType(data: Option<Data>): (r: Option<string>)
    ensures r.Some? <==> data.Some? && "type" in data.value
    ensures r.Some? ==> r.value == data.value["type"]
  {
    var d := data.GetOr(map[]);
    if "type" in d then Some(d["type"]) else None
  }
}
