# Approvals prototype: a verified model of its logic

This project models the logic of a mobile-style purchasing and approvals
prototype: a single-page shell that simulates one approval workflow at a
time (a purchase order, a bill or a prepayment), a functions screen that
switches those simulations and a "purchases" flag on and off, an approvals
list, detail screens with attachments and previews, a page-side
notification service, and the service worker that shows notifications and
routes clicks on them.

The modules follow the program's files:

- `Js` (`js.dfy`): the JavaScript value and string semantics the code relies on: optional values, `||` on strings, `includes`, `startsWith`, `toLowerCase`, `split('.').pop()`, `trim`.
- `Schema` (`schema.dfy`): the notification options, the data payload, and the messages exchanged between page and worker.
- `ServiceWorker` (`sw.dfy`): the push, click and message handlers of `public/sw.js`. The click handler's loop over clients is a method proved against the function `ClickPlan`.
- `Files` and `Expansion` (`files.dfy`): file classification, the preview guard, and the appended attachment rows. These are written once, although the bill screen and the purchase-order screen each define them. `Expansion` holds the "same id collapses, other id replaces" toggle.
- `AppState` (`app.dfy`): the shell. `AppRecord` is its state and `Apply` is the effect of each handler, written as a transition function. The class `App` keeps the same state in fields, and each of its methods is proved to make `Snapshot() == Apply(old(Snapshot()), e)`. The lemmas state the workflow's invariants.
- `FunctionsScreen`, `Approvals`, `BillDetailsScreen`, `PoDetailsScreen`, `PoDetailView`: the screens. Each is a class with its own state, and its handlers call the shell's methods.
- `NotificationService` (`notification_service.dfy`): the `permission` field and the display fallbacks. The browser is a `Browser` oracle record, and every display or posted message is returned as an `Effect`.

Platform calls are never made. The browser's answers are passed in as
parameters: the permission, the prompt's answer, whether a service worker
or controller exists, whether a display succeeds, the list of window
clients, whether `openWindow` exists, and the key-value store with its JSON
parser. What the code does with them comes back as a value: the recorded
effects, the click actions, or the push outcome.

Some of the code's behaviour may surprise a reader. The model follows the code:

- The click target URL never carries a `type` parameter. It is `/?view=approvals`, `/?view=purchases` or `/` (`ServiceWorker.TargetUrlHasNoType`).
- An open window is never navigated. The first matching client always gets a `NAVIGATE` message and is then focused.
- An unknown or absent notification type sends `view: approvals` to an open window but opens a new window at `/` (`ServiceWorker.ClickRouting`).
- `event.data.json()` is unguarded, so a malformed push body makes the handler throw. It is not dropped gracefully (`ServiceWorker.OnPush`, outcome `JsonThrew`).
- The shell reads no launch query parameters and has no message listener, so the `NAVIGATE` message has no receiver in the page. It also asks for no permission at start-up.
- The bill screen's preview pane shows an image or a PDF placeholder and nothing else. A Word attachment opens a blank preview (`BillDetailsScreen.ClickedWordFileShowsBlank`). The purchase-order screen hands Word files to its document viewer instead.

## Model

| member | source | states |
|---|---|---|
| Js.ContainsIff | src/components/BillDetails.tsx:20 | `Js.Contains`, the model of `includes`, holds exactly when the substring occurs at some position |
| Js.ToLower | src/components/BillDetails.tsx:19 | lower-casing keeps the length and maps each character on its own |
| Js.AfterLast | src/components/BillDetails.tsx:19 | `split(c).pop()` is a suffix free of `c`: either the whole string or the text after a `c` |
| Js.AfterLastOfSplit | src/components/BillDetails.tsx:19 | the last segment of a string is whatever follows its last separator |
| Js.AfterLastWithoutSeparator | src/components/BillDetails.tsx:19 | a string without the separator is its own last segment |
| Js.TrimEmptyIff | src/components/BillDetails.tsx:80 | `Js.Trim`, the model of `trim()`, yields "" exactly when every character is whitespace |
| Schema.NotificationType | public/sw.js:33-34 | absent data reads as `{}`, and the type is its `type` entry |
| ServiceWorker.PushOptions | public/sw.js:10-18 | body, icon and badge each take their default when falsy; data defaults to `{}`; no tag is set |
| ServiceWorker.OnPush | public/sw.js:5-24 | no data shows nothing; a failing `json()` throws; otherwise the title defaults to "Acu Preview" and the options are `PushOptions` |
| ServiceWorker.BillPushScenario | public/sw.js:8-21 | the payload `{data:{type:"bill"}}` shows title "Acu Preview" with the default body, icon, badge and vibration |
| ServiceWorker.ClickRouting | public/sw.js:37-44 | `ServiceWorker.TargetUrl` sends po, bill and prepayment to `/?view=approvals`, purchases to `/?view=purchases` and anything else to `/`; `ServiceWorker.NavigateView` names the purchases view exactly for purchases |
| ServiceWorker.NotContainsMissingChar | public/sw.js:53 | a string that lacks one character of `sub` does not contain `sub` |
| ServiceWorker.TargetUrlHasNoType | public/sw.js:40 | no target URL contains `type=` |
| ServiceWorker.FirstMatch | public/sw.js:52-53 | finds the first client whose URL contains the origin and that supports focus, or reports that none does |
| ServiceWorker.ClickPlan | public/sw.js:27-69 | a click closes the notification first; it then posts the `NAVIGATE` message for the notification's type to the first matching client and focuses it; a window is opened, at the type's target URL, exactly when no client matches and `openWindow` exists |
| ServiceWorker.OnNotificationClick | public/sw.js:50-66 | the loop with its early return produces exactly `ClickPlan` |
| ServiceWorker.ClickWithOpenClient | public/sw.js:52-62 | with a matching client open, the click focuses a client no later than it, posts it the `NAVIGATE` message, and opens no window |
| ServiceWorker.NoMatchOpensOrNothing | public/sw.js:50-66 | with no matching client, a click only closes the notification, then opens a window at the type's target URL when `openWindow` exists; it posts no message and focuses nothing |
| ServiceWorker.PushThenClick | public/sw.js:15 | the data a push attaches routes a click exactly like the payload's own data |
| ServiceWorker.MergeNormalizes | public/sw.js:83-89 | `ServiceWorker.MergeMessageOptions` keeps body, tag and data; keeps a given icon, badge or vibrate and otherwise substitutes the default icon, badge and `[200, 100, 200]`; forces `silent` and `requireInteraction` to false; it is idempotent |
| ServiceWorker.PushOptionsNormalized | public/sw.js:10-18 | push options already carry every default the message merge would add |
| ServiceWorker.OnMessage | public/sw.js:77-96 | only `SHOW_NOTIFICATION` is acted on; a message without options throws; otherwise the options shown under the message's title are exactly the merge of the given options, and a display failure is caught |
| Files.FileExtension | src/components/BillDetails.tsx:19 | the lower-cased text after the last dot, or the whole lower-cased name; it never contains a dot |
| Files.ExtensionIgnoresCase | src/components/PurchaseOrderDetails.tsx:23 | a name and its lower-cased form have the same extension |
| Files.ClassifiedByLastSegment | src/components/BillDetails.tsx:19-23 | for any name ending in a dot and a dot-free segment: the extension is that segment lower-cased; `Files.IsWordFile` holds exactly when it is a Word extension; `Files.IsPdfFile` exactly when the MIME type contains "pdf" or it is "pdf"; `Files.IsImageFile` (`Js.StartsWith`) exactly when the MIME type begins with "image/"; `Files.IsPreviewableFile` is the union of the three |
| Files.PdfExtensionExample | src/components/BillDetails.tsx:19-20 | worked example only: "Report.Final.PDF" has extension "pdf" |
| Files.DotlessAndTrailingDotExamples | src/components/BillDetails.tsx:19 | worked example only: "README" has extension "readme", and "archive." has "" |
| Files.WordExtensionExample | src/components/BillDetails.tsx:17-21 | worked example only: "notes.DOCX" is a Word file |
| Files.DocxFamilyIsWord | src/components/PurchaseOrderDetails.tsx:1061-1062 | every docx-family extension is a Word extension |
| Files.PreviewFor | src/components/BillDetails.tsx:98-102 | a click opens a preview exactly when the file has a non-empty URL and is previewable, and the preview holds that URL, type and name |
| Files.NewAttachments | src/components/BillDetails.tsx:110-117 | one row per picked file, in order, with its name, size label, the time, its type and its object URL |
| Files.DocRenderingFor | src/components/PurchaseOrderDetails.tsx:1059-1076 | a non-Word file gets "cannot preview"; the docx family gets the local renderer |
| Files.RenderingFor | src/components/PurchaseOrderDetails.tsx:1037-1049 | images are checked first, then PDF, and anything else goes to the document viewer |
| Files.ClickedPreviewIsRenderable | src/components/PurchaseOrderDetails.tsx:78-82 | a preview opened by a click never reaches "cannot preview" |
| Expansion.Toggle | src/components/BillDetails.tsx:568 | the expanded id collapses, and any other id replaces it |
| AppState.GetStoredState | src/App.tsx:14-21 | the default when the store cannot be read, the key is absent or empty, or the text does not parse; otherwise the parsed value |
| AppState.StoredStateRoundTrip | src/App.tsx:14-29 | a value written to a working store reads back when its text parses back to it |
| AppState.StoredStateOtherKey | src/App.tsx:23-29 | writing one key leaves what every other key reads |
| AppState.InitialRecordWithoutStorage | src/App.tsx:32-64 | an unreadable or empty store starts on the dashboard with everything off, pending and empty |
| AppState.PendingCount | src/App.tsx:111-123 | the badge is 0 or 1, and it is 1 exactly when approvals are visible and the status of the active kind is pending |
| AppState.EnabledFlags | src/App.tsx:166-169 | at most one approval flag is on; one is on exactly when approvals are visible, and then it is the flag of the active kind |
| AppState.BottomNavVisible | src/App.tsx:256 | the bottom bar is drawn exactly on the dashboard and the functions screen |
| AppState.EnableStartsSimulation | src/App.tsx:139-154 | under `AppState.Apply`, the shell's transition function, enabling a kind leaves only its flag on with one pending record and other statuses unchanged; only PO enabling clears attachments, and only its own |
| AppState.DisableStopsSimulation | src/App.tsx:155-163 | under `AppState.Apply`, disabling turns every approval flag off and the badge to 0; bill and prepayment reset the kind to PO; statuses and attachments are kept |
| AppState.ApproveMarksOnlyItsKind | src/App.tsx:207-210 | under `AppState.Apply`, approving sets only that kind's status to approved and shows the approvals list; the badge drops to 0 when that kind is active |
| AppState.OpenDetailsRouting | src/App.tsx:175-188 | under `AppState.Apply`, bill opens the bill screen, prepayment the prepayment screen, anything else the PO screen; the history flag is `Boolean(fromHistory)`; nothing else changes |
| AppState.StatusChangesOnlyBy | src/App.tsx:139-154 | under `AppState.Apply`, a status changes only by enabling its kind (to pending), approving it, or the PO link (PO to approved) |
| AppState.AttachmentsChangeOnlyBy | src/App.tsx:206-218 | under `AppState.Apply`, a record's attachments change only by files appended at the end, or by PO enabling emptying the PO's list |
| AppState.App.Load | src/App.tsx:32-64 | every field starts from its stored value or its default |
| AppState.App.SetView | src/App.tsx:130 | the navigate and back handlers set only the view |
| AppState.App.EnableApprovals | src/App.tsx:139-144 | state becomes `Apply(s, EnableApprovals(Po))` |
| AppState.App.EnableBillApprovals | src/App.tsx:145-149 | state becomes `Apply(s, EnableApprovals(Bill))` |
| AppState.App.EnablePrepaymentApprovals | src/App.tsx:150-154 | state becomes `Apply(s, EnableApprovals(Prepayment))` |
| AppState.App.DisableApprovals | src/App.tsx:155 | state becomes `Apply(s, DisableApprovals(Po))` |
| AppState.App.DisableBillApprovals | src/App.tsx:156-159 | state becomes `Apply(s, DisableApprovals(Bill))` |
| AppState.App.DisablePrepaymentApprovals | src/App.tsx:160-163 | state becomes `Apply(s, DisableApprovals(Prepayment))` |
| AppState.App.EnablePurchases | src/App.tsx:164 | only the purchases flag turns on |
| AppState.App.DisablePurchases | src/App.tsx:165 | only the purchases flag turns off |
| AppState.App.OnDetails | src/App.tsx:175-188 | state becomes `Apply(s, OpenDetails(context))` |
| AppState.App.OnNavigateToPO | src/App.tsx:189-193 | PO approved, history off, PO screen shown |
| AppState.App.OnApprove | src/App.tsx:224-227 | state becomes `Apply(s, Approve(k))` for the PO, bill and prepayment handlers |
| AppState.App.AddAttachments | src/App.tsx:217-218 | state becomes `Apply(s, AppendAttachments(k, files))` |
| FunctionsScreen.TabDisabledIff | src/components/Functions.tsx:46 | an approval tab is disabled exactly when another kind's simulation runs; the purchases tab never is; the running kind's tab is enabled |
| FunctionsScreen.ModalActions | src/components/Functions.tsx:124 | a modal offers start exactly when its flag is off and stop exactly when it is on, each with a dismiss button |
| FunctionsScreen.EnableSwitchesOn | src/components/Functions.tsx:503-507 | start turns the modal's flag on; an approval kind then has one pending record; all but prepayment return to the dashboard |
| FunctionsScreen.DisableSwitchesOff | src/components/Functions.tsx:552-555 | stop turns the flag off, leaves the badge at 0 for approval kinds, and stays on the screen |
| FunctionsScreen.FunctionsView.constructor | src/components/Functions.tsx:33 | no modal is open |
| FunctionsScreen.FunctionsView.ClickTab | src/components/Functions.tsx:51-55 | a disabled tab changes nothing; an enabled one toggles its modal; an open modal always belongs to an enabled tab |
| FunctionsScreen.FunctionsView.Press | src/components/Functions.tsx:147-151 | any button closes the modal, and the shell's state becomes `PressEffect` of the modal and the button |
| Approvals.Sample | src/components/ApprovalsComponent.tsx:305-338 | each kind's sample has that kind; only bill and prepayment carry a PO number |
| Approvals.PendingApprovals | src/components/ApprovalsComponent.tsx:32-38 | one record, the active kind's sample, exactly when its status is pending |
| Approvals.ApprovedHistory | src/components/ApprovalsComponent.tsx:39-46 | one record, the active kind's sample, exactly when its status is approved |
| Approvals.PendingOrHistory | src/components/ApprovalsComponent.tsx:32-46 | exactly one of pending and history is non-empty |
| Approvals.RowsFor | src/components/ApprovalsComponent.tsx:48-56 | "all" and "my" list pending, "history" lists approved, and the other tabs list nothing |
| Approvals.BadgeCountsMyApprovals | src/App.tsx:111-123 | while approvals are visible, the badge equals the number of "my approvals" rows |
| Approvals.EnableListsPending | src/App.tsx:139-154 | after enabling a kind, "my approvals" holds its sample and the history is empty |
| Approvals.ApproveMovesToHistory | src/App.tsx:207-210 | approving the active record moves it from "my approvals" to the history |
| Approvals.RowOpensItsDetails | src/components/ApprovalsComponent.tsx:124-134 | a row opens its kind's screen, read-only exactly from the history tab |
| Approvals.ApprovalsList.constructor | src/components/ApprovalsComponent.tsx:29-30 | the list opens on "my approvals" |
| Approvals.ApprovalsList.SelectTab | src/components/ApprovalsComponent.tsx:88-102 | the tab buttons select their tab |
| Approvals.ApprovalsList.ClickRow | src/components/ApprovalsComponent.tsx:124-134 | rendered from the shell's state, a row click runs `onDetails` with the row's type and whether the tab is history, which opens the active kind's screen, read-only exactly from the history tab |
| Approvals.ApprovalsList.ClickPurchaseOrderNumber | src/components/ApprovalsComponent.tsx:157-160 | the PO link of a bill or prepayment row runs the navigate-to-PO handler, which shows the PO approved and not as history |
| Approvals.ApprovalsList.Back | src/App.tsx:174 | back returns to the dashboard |
| NotificationService.RequestPlan | src/services/notificationService.ts:24-54 | the user is asked only while the cached permission is undecided; the answer is cached; the result is true exactly for granted |
| NotificationService.DecidedPermissionIsNotAsked | src/services/notificationService.ts:30-37 | a granted or denied permission is never asked again |
| NotificationService.ServiceOptions | src/services/notificationService.ts:94-103 | icon and badge default independently when falsy; body, tag and data pass through; flags false; default vibration |
| NotificationService.ServiceOptionsNormalized | src/services/notificationService.ts:94-103 | the service's options are a fixed point of the worker's message merge |
| NotificationService.DisplayPlan | src/services/notificationService.ts:80-138 | no effect without API and permission; the registration shows, followed by the backup message when a controller exists; a page notification when there is no worker or the registration fails; nothing escapes |
| NotificationService.BackupMessageRepeatsNotification | src/services/notificationService.ts:116-122 | the worker handles the backup message by showing the same title with the same options |
| NotificationService.Compose | src/services/notificationService.ts:143-186 | each template gives a tag and data, with no icon or badge |
| NotificationService.TemplateClickTarget | src/services/notificationService.ts:143-186 | a click on each template leads to the approvals screen, or to purchases for the purchases template |
| NotificationService.TemplateTagsDistinct | src/services/notificationService.ts:147-183 | the four templates have four different tags |
| NotificationService.Service.constructor | src/services/notificationService.ts:13-19 | the permission starts as the browser's, or as default without the API |
| NotificationService.Service.RequestPermission | src/services/notificationService.ts:24-54 | result, prompt and new cached value are `RequestPlan` of the old cached value |
| NotificationService.Service.IsSupported | src/services/notificationService.ts:59-65 | refreshes the permission; true exactly with the API and permission granted |
| NotificationService.Service.GetPermission | src/services/notificationService.ts:70-75 | refreshes and returns the permission |
| NotificationService.Service.ShowNotification | src/services/notificationService.ts:80-138 | refreshes the permission, and the effects are `DisplayPlan` |
| NotificationService.Service.Notify | src/services/notificationService.ts:143-186 | the effects are `DisplayPlan` of the template |
| BillDetailsScreen.HasNotes | src/components/BillDetails.tsx:80 | notes count as filled exactly when they hold a non-whitespace character |
| BillDetailsScreen.BillRenderingFor | src/components/BillDetails.tsx:1169-1196 | the pane shows an image first, then a PDF placeholder, and otherwise nothing |
| BillDetailsScreen.ClickedWordFileShowsBlank | src/components/BillDetails.tsx:98-102 | a Word attachment opens a preview that shows nothing |
| BillDetailsScreen.BlankOnlyForWordFiles | src/components/BillDetails.tsx:1169-1196 | a clicked preview is blank only for a Word file |
| BillDetailsScreen.BillDetailsView.constructor | src/components/BillDetails.tsx:64-76 | empty notes, nothing open, nothing expanded, no preview |
| BillDetailsScreen.BillDetailsView.ToggleNotes | src/components/BillDetails.tsx:313-318 | flips the panel, and opening it also starts editing |
| BillDetailsScreen.BillDetailsView.EditNotes | src/components/BillDetails.tsx:354 | sets only the notes |
| BillDetailsScreen.BillDetailsView.StartEditing | src/components/BillDetails.tsx:383 | sets only editing |
| BillDetailsScreen.BillDetailsView.BlurNotes | src/components/BillDetails.tsx:355-358 | leaves editing and closes the panel |
| BillDetailsScreen.BillDetailsView.NotesKeyDown | src/components/BillDetails.tsx:359-364 | Enter without Shift leaves editing and closes the panel; other keys change nothing |
| BillDetailsScreen.BillDetailsView.ToggleTax | src/components/BillDetails.tsx:568 | the tax accordion follows `Toggle`, and nothing else changes |
| BillDetailsScreen.BillDetailsView.ToggleApproval | src/components/BillDetails.tsx:706 | the approval accordion follows `Toggle`, and nothing else changes |
| BillDetailsScreen.BillDetailsView.ToggleActionsMenu | src/components/BillDetails.tsx:195 | flips only the menu |
| BillDetailsScreen.BillDetailsView.CloseActionsMenu | src/components/BillDetails.tsx:224-227 | the overlay, "Reject" and "Add Record to Favorites" only close the menu |
| BillDetailsScreen.BillDetailsView.SetAttachmentsOpen | src/components/BillDetails.tsx:165 | opens or closes only the attachment sheet |
| BillDetailsScreen.BillDetailsView.AttachmentClick | src/components/BillDetails.tsx:98-102 | sets the preview to `PreviewFor(file)` when there is one, and otherwise changes nothing |
| BillDetailsScreen.BillDetailsView.ClosePreview | src/components/BillDetails.tsx:1128 | clears only the preview |
| BillDetailsScreen.BillDetailsView.FileChange | src/components/BillDetails.tsx:108-121 | appends the new rows to this record's list; does nothing when no files were picked or there is no setter |
| BillDetailsScreen.BillDetailsView.ApproveNow | src/components/BillDetails.tsx:82-96 | ends by approving the bill or the prepayment |
| BillDetailsScreen.BillDetailsView.OpenPurchaseOrder | src/components/BillDetails.tsx:296 | runs the navigate-to-PO handler |
| BillDetailsScreen.BillDetailsView.Back | src/App.tsx:215 | returns to the approvals list |
| PoDetailsScreen.ActionsFor | src/components/PurchaseOrderDetails.tsx:191-203 | a read-only screen offers two entries, an editable one five; an editable screen lists hold, approve and reject first, in that order; those three appear only when editable; printable view and favourites come last |
| PoDetailsScreen.LinkedPoIsReadOnly | src/App.tsx:189-193 | a PO reached by the link of a bill or prepayment is shown read-only and offers no approve entry |
| PoDetailsScreen.ApprovedPoStaysReadOnly | src/components/PurchaseOrderDetails.tsx:47 | once approved, the PO screen stays read-only until PO approvals are enabled again |
| PoDetailsScreen.PoDetailsView.constructor | src/components/PurchaseOrderDetails.tsx:48-54 | every panel, menu and dialog starts closed |
| PoDetailsScreen.PoDetailsView.ToggleActionsMenu | src/components/PurchaseOrderDetails.tsx:170 | flips only the menu |
| PoDetailsScreen.PoDetailsView.CloseActionsMenu | src/components/PurchaseOrderDetails.tsx:176 | the overlay only closes the menu |
| PoDetailsScreen.PoDetailsView.PickAction | src/components/PurchaseOrderDetails.tsx:216-225 | an entry closes the menu; approve opens the dialog only when editable; the printable entry opens the printable view |
| PoDetailsScreen.PoDetailsView.CloseApproveModal | src/components/PurchaseOrderDetails.tsx:673 | closes only the dialog |
| PoDetailsScreen.PoDetailsView.ClosePrintablePo | src/components/PurchaseOrderDetails.tsx:951 | closes only the printable view |
| PoDetailsScreen.PoDetailsView.SetItemDetailsOpen | src/components/PurchaseOrderDetails.tsx:332 | opens or closes only the item details |
| PoDetailsScreen.PoDetailsView.SetSignatoriesOpen | src/components/PurchaseOrderDetails.tsx:353 | opens or closes only the signatories |
| PoDetailsScreen.PoDetailsView.SetAttachmentsOpen | src/components/PurchaseOrderDetails.tsx:140 | opens or closes only the attachment sheet |
| PoDetailsScreen.PoDetailsView.AttachmentClick | src/components/PurchaseOrderDetails.tsx:78-82 | sets the preview to `PreviewFor(file)` when there is one, and otherwise changes nothing |
| PoDetailsScreen.PoDetailsView.ClosePreview | src/components/PurchaseOrderDetails.tsx:994 | clears only the preview |
| PoDetailsScreen.PoDetailsView.FileChange | src/components/PurchaseOrderDetails.tsx:63-76 | appends the new rows to the PO's list; an empty selection changes nothing |
| PoDetailsScreen.PoDetailsView.ApproveNow | src/components/PurchaseOrderDetails.tsx:84-98 | ends by approving the PO |
| PoDetailsScreen.PoDetailsView.Back | src/App.tsx:202 | returns to the approvals list |
| PoDetailView.DisplayedKeepsGivenValues | src/components/PurchaseOrderDetailView.tsx:212-264 | `PoDetailView.Displayed` shows a field given as non-empty text as given |
| PoDetailView.DisplayedFallbacks | src/components/PurchaseOrderDetailView.tsx:212-264 | in `PoDetailView.Displayed`, type falls back to "Normal", the promised date to the order date, location to "Primary Location", currency to "PHP"; those are never blank |
| PoDetailView.WithPanelFrame | src/components/PurchaseOrderDetailView.tsx:149-160 | setting one panel flag leaves the other three, the tab and the tax row unchanged |
| PoDetailView.OpenThenBack | src/components/PurchaseOrderDetailView.tsx:337 | opening a closed panel and going back restores everything but the active tab |
| PoDetailView.DetailView.constructor | src/components/PurchaseOrderDetailView.tsx:116-120 | starts on the details tab with all four panels closed |
| PoDetailView.DetailView.HandleTabClick | src/components/PurchaseOrderDetailView.tsx:149-160 | selects the tab and opens only its panel |
| PoDetailView.DetailView.Back | src/components/PurchaseOrderDetailView.tsx:594 | closes only that panel and keeps the tab |
| PoDetailView.DetailView.ToggleTax | src/components/PurchaseOrderDetailView.tsx:677 | the tax row follows `Toggle`, and nothing else changes |

## Left out

- Rendering: JSX, styles, animations, and the fields of the sample records other than type, record number and PO number are not modelled, because they are display only.
- AppState.GetStoredState: JSON parsing is an oracle `string -> Option<T>`. Stored text that parses to a value of another type, including `null`, is outside the model.
- The change-triggered persistence hooks in `src/App.tsx:67-109` are plumbing. `SetStoredState` models one write, but the shell's methods do not write the store.
- Approve Now: the two 1.5-second timers and the loading and success animation state are not modelled. `ApproveNow` is reduced to the final callback, and the PO dialog's approve button is the same method.
- The file size label, the clock time of an upload and the object URL are opaque inputs (`sizeLabel`, `time`, `objectUrl`), because they come from floating point, the clock and the browser.
- Js.ToLower: maps only the ASCII letters A–Z. File extensions with other cased letters are outside the model.
- Asynchrony is not modelled: `navigator.serviceWorker.ready` never resolving, overlapping events, and the order in which promises settle. Each call is one atomic step.
- A thrown `controller.postMessage` after a successful registration display would also trigger a page notification. This path is not modelled, and the controller message is taken to succeed.
- The worker's `notificationclose` handler only logs, and all console logging is left out.
- A worker message whose `title` is missing is outside `WorkerMessage`, which always has a title.
- The shell's dashboard and bottom bar pass arbitrary screen names to `setView`. The model admits only the seven views.
- The bill screen's details, taxes, sort and approvers panels (`showDetailsModal`, `showTaxesModal`, `showSortModal`, `showApprovalsModal`, `showApprovalsSortModal`) are plain open/close flags and are not modelled. The same holds for the bill row's colour and the history labels.
- The PDF, DOCX and generic document viewers (react-pdf, docx-preview, DocViewer, with their fetch and blob handling) are foreign libraries. Only the choice among them is modelled.
- The install prompt, the dashboard, the purchases and purchase-order list screens and the small presentational components contain no logic beyond display.
