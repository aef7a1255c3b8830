# Delivery-status monitoring (Dafny model)

This project models a browser application that tracks parcels. It is
written in React, and its model is in Dafny.

- A user submits tracking numbers for a carrier. Each number is looked up
  on a tracking server, and each number found is kept in a record list in
  `localStorage`.
- A monitoring service polls every stored record on a timer. When the
  lookup answer differs from the stored one, the service stores the new
  answer and posts notifications to a Slack webhook. There are four kinds:
  first shipment, delivery, delay (48 hours without any checkpoint) and
  exception.
- A detail page refreshes one record and lets the user edit its number
  and carrier.

The model makes the browser explicit. `Browser` holds `localStorage` as
typed entries: missing, saved, or text that does not parse. It also holds
a `writable` flag for when writes throw, a clock, the `setInterval` timers,
and the network. The network has two fixed oracles, the tracking server and
the webhook, plus a log of every request sent, oldest first. Every
operation is proved against functions of that state. The log lets the
proofs say which lookups and posts happen, in which order.

| module (file) | source |
|---|---|
| `Model` (model.dfy) | the record, result, checkpoint and settings objects |
| `Text` (text.dfy) | JavaScript `trim`, `indexOf`, `includes`, `replace` with a string pattern |
| `Browser` (browser.dfy) | `localStorage`, the clock, timers, the network |
| `Api` (api.dfy) | `src/services/api.js`: `getApiKey`, `trackDelivery` |
| `TrackingStorage` (tracking_storage.dfy) | `src/services/trackingStorage.js` |
| `SettingsStorage` (settings_storage.dfy) | `src/services/settingsStorage.js` |
| `SlackService` (slack_service.dfy) | `src/services/slackService.js` |
| `MonitoringService` (monitoring_service.dfy) | `src/services/monitoringService.js` |
| `MainPage` (main_page.dfy) | the logic of `src/components/MainPage.jsx` |
| `TrackingDetail` (tracking_detail.dfy) | the logic of `src/components/TrackingDetail.jsx` |

Four consequences of the code are worth stating:

- The delay and exception rules are evaluated only inside
  `sendNotifications`. That function is called only when
  `detectStatusChange` reports a change, so a shipment whose answer stays
  the same is never reported as delayed (`StuckShipmentIsQuiet`).
- The delay rule reads the record as it was before the poll. When both
  notifications are switched on, a record at least 48 hours old whose
  first checkpoint has just appeared gets both the shipment and the delay
  notification (`DelayFiresWithFirstShipment`).
- The main page and the Slack message use different status texts. A
  result without checkpoints reads '미출고' on the page, and '배송중' or
  '배송완료' in the message by the completion flag
  (`StatusTextAgreesWithSlack`).
- Saving an edit stores the trimmed number, but the detail page moves to
  the number as typed. A number typed with surrounding whitespace is then
  not found when the page loads it (`PaddedEditIsLost`).

## Model

| member | source | states |
|---|---|---|
| Model.Steps | src/services/monitoringService.js:115-116 | a missing checkpoint list reads as the empty list, a present one as itself |
| Text.TrimSpec | src/services/slackService.js:5 | `trim` leaves exactly the slice between a whitespace prefix and a whitespace suffix, and that slice starts and ends with non-whitespace |
| Text.TrimBlankIff | src/components/TrackingDetail.jsx:95 | a string trims to empty if and only if it is made only of whitespace |
| Text.Trim | src/components/MainPage.jsx:55 | JavaScript `trim` over the ECMAScript whitespace set; its properties are the rows `Text.TrimSpec` and `Text.TrimBlankIff` |
| Text.IndexOf | src/services/slackService.js:65 | the result is -1 or a position where the pattern occurs, and no earlier position has an occurrence |
| Text.Includes | src/services/monitoringService.js:202-205 | `includes` holds exactly when the pattern occurs at some position |
| Text.ReplaceFirst | src/services/slackService.js:65 | `replace` with a string pattern; its property is the row `Text.ReplaceFirstSpec` |
| Text.ReplaceFirstSpec | src/services/slackService.js:65 | without an occurrence the string is unchanged; otherwise only the first occurrence is replaced |
| Browser.Clock.Wait | src/services/monitoringService.js:64 | waiting advances the clock by exactly the given milliseconds |
| Browser.Timers.constructor | src/services/monitoringService.js:36 | no timer is registered at first |
| Browser.Timers.SetInterval | src/services/monitoringService.js:36-38 | registers one timer for the period under a fresh handle and changes no other timer |
| Browser.Timers.ClearInterval | src/services/monitoringService.js:44 | removes exactly the given timer |
| Api.TrackReply | src/services/api.js:36-58 | without a non-empty API key the lookup rejects with the missing-key message; otherwise it is the server's answer for that key, carrier and number |
| Api.QueryLog | src/services/api.js:38-50 | no request is sent when the key check fails; otherwise exactly one query with the key, the carrier code and the number |
| Api.TrackDelivery | src/services/api.js:36-58 | the reply is `TrackReply`, and the request log grows by exactly `QueryLog` |
| TrackingStorage.Records | src/services/trackingStorage.js:19-27 | a saved list is read back as it is; a missing or unparsable entry reads as the empty list |
| TrackingStorage.Merge | src/services/trackingStorage.js:34 | each field the patch defines wins over the item's field, and every other field is kept |
| TrackingStorage.MergeLaws | src/services/trackingStorage.js:34 | spreading a whole record replaces the item, an empty patch changes nothing, and the same patch applied twice equals applying it once |
| TrackingStorage.UpdateList | src/services/trackingStorage.js:33-35 | same length; every record with the key is merged with the patch, every other record is kept in place |
| TrackingStorage.DeleteList | src/services/trackingStorage.js:48 | the result holds exactly the records whose number differs from the key, and no longer list |
| TrackingStorage.DeleteListAppend | src/services/trackingStorage.js:48 | deleting distributes over concatenation, so the remaining records keep their order |
| TrackingStorage.DeleteListAbsent | src/services/trackingStorage.js:48 | deleting a number no record has leaves the list unchanged |
| TrackingStorage.SaveTrackingData | src/services/trackingStorage.js:6-16 | appends the record after the stored list (even one with the same number) and returns true; when the write throws, it returns false and the entry is unchanged |
| TrackingStorage.UpdateTrackingData | src/services/trackingStorage.js:30-42 | stores `UpdateList` of the stored list, or returns false and changes nothing |
| TrackingStorage.DeleteTrackingData | src/services/trackingStorage.js:45-55 | stores `DeleteList` of the stored list, or returns false and changes nothing |
| TrackingStorage.ClearTrackingData | src/services/trackingStorage.js:58-66 | removes the entry, after which the list reads empty, or returns false and changes nothing |
| SettingsStorage.MergeSettings | src/services/settingsStorage.js:33 | each field the saved object defines wins, and every other field comes from the defaults |
| SettingsStorage.SettingsFrom | src/services/settingsStorage.js:27-40 | the defaults when nothing parses, the merge over the defaults otherwise |
| SettingsStorage.SaveLoadRoundTrip | src/services/settingsStorage.js:16-40 | a complete settings object saved and read back is the same object; an empty one reads back as the defaults |
| SettingsStorage.DefaultsHaveNoWebhook | src/services/settingsStorage.js:6-13 | without a saved webhook URL the URL is empty, so monitoring does not start |
| SettingsStorage.SaveSettings | src/services/settingsStorage.js:16-24 | stores the object, and later reads give its merge over the defaults; when the write throws, it returns false and nothing changes |
| SettingsStorage.ClearSettings | src/services/settingsStorage.js:43-51 | removes the entry, after which reads give the defaults; when the write throws, it returns false and nothing changes |
| SlackService.ColorByType | src/services/slackService.js:110-125 | the colour of each type; its property is the row `SlackService.ColorsDistinguishTypes` |
| SlackService.ColorsDistinguishTypes | src/services/slackService.js:110-125 | the five known types get five different colours, none of them the fallback grey |
| SlackService.StatusText | src/services/slackService.js:128-131 | '정보 없음' without a result, then '배송완료' or '배송중' by the completion flag alone |
| SlackService.CreateNotificationMessage | src/services/slackService.js:134-147 | the notification carries the type and the record unchanged, and always has a title |
| SlackService.TitleByType | src/services/slackService.js:135-143 | the title of each type; its properties are the rows `SlackService.CreateNotificationMessage` and `SlackService.TitlesDistinguishTypes` |
| SlackService.TitlesDistinguishTypes | src/services/slackService.js:134-147 | the four monitoring types get four different titles, none of them the generic one, and the posted text is the title |
| SlackService.SlackPayload | src/services/slackService.js:11-59 | the webhook payload; its shape is the row `SlackService.PayloadShape` |
| SlackService.PayloadShape | src/services/slackService.js:11-59 | the text falls back to the default; with a record, exactly one attachment in the type's colour, with the footer, three identity fields, then the last location and, when it is not empty, the last time |
| SlackService.ProxyUrl | src/services/slackService.js:63-65 | the development-build target URL; its properties are the rows `SlackService.ProxyUrlOfOtherUrl` and `SlackService.ProxyUrlOfSlackUrl` |
| SlackService.ProxyUrlOfOtherUrl | src/services/slackService.js:63-65 | a URL that does not mention the Slack host is used as it is in the development build |
| SlackService.ProxyUrlOfSlackUrl | src/services/slackService.js:63-65 | a Slack webhook URL is routed through the proxy path with its own path kept |
| SlackService.MapSendError | src/services/slackService.js:97-106 | an error mentioning CORS, cross-origin or blocked becomes the fixed browser-policy message; any other is rethrown as it is |
| SlackService.MapSendErrorIdempotent | src/services/slackService.js:97-106 | the fixed message does not itself match the markers, so mapping twice equals mapping once |
| SlackService.SendSlackNotification | src/services/slackService.js:4-107 | a blank URL throws the missing-webhook message before anything is sent; otherwise exactly one post of the payload to the target URL is sent, and the call resolves or rejects with the mapped error as the webhook answers |
| MonitoringService.DetectStatusChange | src/services/monitoringService.js:100-132 | a first answer is a change, a missing answer is none, and otherwise a change means the flag, the step count or the last step's place or time differ |
| MonitoringService.SameObservationNoChange | src/services/monitoringService.js:100-132 | answers that agree on the flag, the count and the last place and time are no change, whatever else differs; in particular an answer is no change from itself |
| MonitoringService.IsFirstShipment | src/services/monitoringService.js:171-180 | never without checkpoints; otherwise true exactly when there was no previous result or step list, or the step count grew |
| MonitoringService.JustDelivered | src/services/monitoringService.js:149 | true exactly when the new answer is complete and the previous one is missing or not complete |
| MonitoringService.DeliveredOnlyOnEdge | src/services/monitoringService.js:149 | a complete answer after a complete one is never a delivery again |
| MonitoringService.IsDelayed | src/services/monitoringService.js:183-193 | true exactly when 48 hours have passed since creation and the stored result shows no checkpoint |
| MonitoringService.SomeKeyword | src/services/monitoringService.js:202-206 | true exactly when some keyword occurs in the step's place or in its non-empty kind |
| MonitoringService.HasException | src/services/monitoringService.js:196-208 | never without checkpoints; otherwise true exactly when one of the six fixed keywords occurs in the last step's place or kind |
| MonitoringService.ExceptionExamples | src/services/monitoringService.js:196-208 | an arrival at '서울 도착' is no exception and a return '반송 처리' is one |
| MonitoringService.GatesMembers | src/services/monitoringService.js:143-164 | each notification kind is in the list exactly when its switch is on |
| MonitoringService.GatesOrdered | src/services/monitoringService.js:143-164 | the kinds switched on come in the fixed order shipment, delivery, delay, exception |
| MonitoringService.Intents | src/services/monitoringService.js:143-164 | each kind is chosen if and only if its setting is on and its rule holds, with delay judged on the record from before the poll, in the fixed order |
| MonitoringService.DelayFiresWithFirstShipment | src/services/monitoringService.js:143-158 | with both notifications switched on, any record at least 48 hours old whose first checkpoint has just appeared gets the shipment and the delay notification in the same round, and exactly those two, shipment first, when delivery and exception are off |
| MonitoringService.PlanShape | src/services/monitoringService.js:143-164 | each send to a blank URL throws before posting; each send to another URL posts its payload once and throws exactly when the webhook refuses it |
| MonitoringService.Attempted | src/services/monitoringService.js:141-167 | a non-empty round makes at least one send and never more than planned |
| MonitoringService.Dispatch | src/services/monitoringService.js:141-167 | the requests of a notification round; its properties are the rows `MonitoringService.DispatchSendsAttempted` to `MonitoringService.DispatchOnlyPosts` |
| MonitoringService.DispatchSendsAttempted | src/services/monitoringService.js:141-167 | a round sends exactly the requests of its first `Attempted` notifications, in order |
| MonitoringService.AttemptedStopsAtFirstThrow | src/services/monitoringService.js:141-167 | every send before the last one made went through, and when fewer sends are made than planned, the last one made threw |
| MonitoringService.DispatchAllSent | src/services/monitoringService.js:141-167 | when no send throws, every planned notification is posted |
| MonitoringService.DispatchGate | src/services/monitoringService.js:143-146 | a switched-off kind is skipped; a switched-on one is sent first, and the rest follow only if it did not throw |
| MonitoringService.DispatchStep | src/services/monitoringService.js:141-167 | one block of the round, in terms of the request log: a send that throws ends the round, one that does not leaves the rest of the round to be sent |
| MonitoringService.DispatchOnlyPosts | src/services/monitoringService.js:141-167 | a round sends nothing but Slack posts |
| MonitoringService.NotificationRequests | src/services/monitoringService.js:135-168 | without a webhook URL nothing is sent, and what is sent is Slack posts only |
| MonitoringService.CheckSpec | src/services/monitoringService.js:72-97 | one `checkTrackingStatus` on the store and the log; its properties are the rows `MonitoringService.UnchangedResultNoWrite`, `MonitoringService.StuckShipmentIsQuiet`, `MonitoringService.CheckSent` and `MonitoringService.CheckQueries` |
| MonitoringService.TickSpec | src/services/monitoringService.js:52-69 | one `checkAllTrackings` over a list; its properties are the rows `MonitoringService.TickTime`, `MonitoringService.TickQueriesEveryRecord` and `MonitoringService.TickKeepsNumbers` |
| MonitoringService.UnchangedResultNoWrite | src/services/monitoringService.js:72-97 | a failed lookup or an unchanged answer only adds the lookup to the log: nothing is stored or notified |
| MonitoringService.StuckShipmentIsQuiet | src/services/monitoringService.js:72-97 | a shipment whose answer comes back as stored is neither rewritten nor notified about, however long it has been stuck |
| MonitoringService.TickTime | src/services/monitoringService.js:61-65 | a tick waits one second per record |
| MonitoringService.Queries | src/services/monitoringService.js:61-65 | the queries picked from a log are no more than its requests, and all of them are tracking queries |
| MonitoringService.QueriesAppend | src/services/monitoringService.js:61-65 | the queries of two consecutive logs are the queries of the first followed by those of the second |
| MonitoringService.QueriesFor | src/services/monitoringService.js:61-65 | with an API key one query per record, without one none |
| MonitoringService.CheckSent | src/services/monitoringService.js:80-92 | what a check sends after its lookup is Slack posts only |
| MonitoringService.CheckQueries | src/services/monitoringService.js:72-97 | one check adds exactly its record's lookup to the queries sent, whatever it notifies |
| MonitoringService.TickQueriesEveryRecord | src/services/monitoringService.js:52-69 | a tick looks up every record of the list it read, in list order, even when earlier ones failed |
| MonitoringService.Numbers | src/services/monitoringService.js:84-89 | the numbers of a list, position by position |
| MonitoringService.TickKeepsNumbers | src/services/monitoringService.js:52-97 | a tick keeps the stored list's length, order and tracking numbers |
| MonitoringService.MonitoringService.constructor | src/services/monitoringService.js:9-12 | a new service is stopped and holds no timer |
| MonitoringService.MonitoringService.GetStatus | src/services/monitoringService.js:211-216 | reports the running flag and the timer handle |
| MonitoringService.MonitoringService.Start | src/services/monitoringService.js:15-39 | a no-op when running or without a webhook URL; otherwise it runs one tick at once and registers exactly one timer with the configured period in minutes. The service stays running exactly when it holds a timer |
| MonitoringService.MonitoringService.Stop | src/services/monitoringService.js:42-49 | clears its timer if it has one and ends stopped with no timer; stopping a stopped service changes nothing |
| MonitoringService.MonitoringService.CheckAllTrackings | src/services/monitoringService.js:52-69 | the new store, log and clock are the tick over the list read at the start, one record after another |
| MonitoringService.MonitoringService.CheckTrackingStatus | src/services/monitoringService.js:72-97 | the new store and log are those of the check: a lookup, then on a change an update of the record with the new answer and the update time, then the notification round |
| MonitoringService.MonitoringService.SendNotifications | src/services/monitoringService.js:135-168 | the log grows by exactly the requests of the notification round for the settings read at the call |
| MonitoringService.MonitoringService.SendInOrder | src/services/monitoringService.js:141-167 | the four blocks in order, stopping at the first send that throws |
| MonitoringService.MonitoringService.SendIfDue | src/services/monitoringService.js:143-146 | one block: if due, one send of that kind's notification, and it reports exactly whether that send threw |
| MainPage.Split | src/components/MainPage.jsx:54 | `split(/[\s\n,]+/)`; what the parser makes of it is stated by the `MainPage.Parse…` rows below |
| MainPage.ParseTrackingNumbers | src/components/MainPage.jsx:52-57 | `parseTrackingNumbers`; its properties are the rows `MainPage.ParseTokensAreWords` to `MainPage.CommaSeparatedWords` |
| MainPage.ParseTokensAreWords | src/components/MainPage.jsx:52-57 | every parsed number is non-empty and holds no whitespace and no comma |
| MainPage.ParseKeepsOrder | src/components/MainPage.jsx:52-57 | joined in order, the parsed numbers are exactly the input's characters other than whitespace and commas |
| MainPage.ParseEmptyIff | src/components/MainPage.jsx:52-57 | no number is parsed if and only if the input consists only of whitespace and commas |
| MainPage.WordIsOneToken | src/components/MainPage.jsx:52-57 | a non-empty word without whitespace or commas parses to exactly itself, so a number is never cut inside |
| MainPage.ParseSplitsAtSeparator | src/components/MainPage.jsx:52-57 | the numbers of two inputs joined by a whitespace character or a comma are the numbers of the first followed by those of the second |
| MainPage.CommaSeparatedWords | src/components/MainPage.jsx:52-57 | two words joined by a comma parse to exactly those two numbers, in order |
| MainPage.StatusText | src/components/MainPage.jsx:128-133 | each of the four texts is shown exactly in its own case: no result, no checkpoints, complete, in transit |
| MainPage.LastTrackingInfo | src/components/MainPage.jsx:136-141 | the placeholder without checkpoints, the last checkpoint otherwise |
| MainPage.StatusTextAgreesWithSlack | src/components/MainPage.jsx:128-133 | the page and the Slack message agree except on a result without checkpoints, where they differ |
| MainPage.LastInfoMatchesSlack | src/components/MainPage.jsx:136-141 | the last location the list shows is the one the Slack message reports |
| MainPage.FindCarrier | src/components/MainPage.jsx:78 | none exactly when no carrier has the code; otherwise the first carrier with the code |
| MainPage.CarrierName | src/components/MainPage.jsx:78 | the first matching carrier's name when it is not empty; the code when that name is empty or no carrier matches; never anything but the code or a matching carrier's name |
| MainPage.Found | src/components/MainPage.jsx:81-101 | the records one submit saves; its properties are the rows `MainPage.FoundShape` and `MainPage.FoundIsFetchedInOrder` |
| MainPage.FoundShape | src/components/MainPage.jsx:81-101 | each saved record is a submitted number under the selected carrier, with the answer its own lookup returned and both times set to the submit time; at most one per number, none without an API key, and one for every number when every lookup succeeds |
| MainPage.FetchedNumbers | src/components/MainPage.jsx:81-101 | a number is listed exactly when it is submitted and its lookup succeeds |
| MainPage.FoundIsFetchedInOrder | src/components/MainPage.jsx:81-101 | a submit saves exactly the numbers whose lookup succeeds, in input order, the i-th of them as the record of that number with its own fetched answer |
| MainPage.SubmitQueries | src/components/MainPage.jsx:81-101 | with an API key one lookup per number, without one none |
| MainPage.SaveAll | src/components/MainPage.jsx:96 | the entry after one `saveTrackingData` per record; its property is the row `MainPage.SaveAllAppends` |
| MainPage.SaveAllAppends | src/components/MainPage.jsx:96 | saving appends the records after the stored ones in order, and leaves the entry alone when storage refuses writes |
| MainPage.LookUpOne | src/components/MainPage.jsx:82-100 | one lookup; when it succeeds, its record is appended to the stored list (unless storage refuses writes), and when it fails, nothing is stored |
| MainPage.LookUpAndSave | src/components/MainPage.jsx:81-101 | looks up each number in order and saves a record for each lookup that succeeds, skipping failures |
| MainPage.Page.constructor | src/components/MainPage.jsx:9-14 | the page starts with the given carriers, empty input and list, no error |
| MainPage.Page.HandleTrackingSubmit | src/components/MainPage.jsx:60-112 | no numbers: the numbers error and nothing else changes; no carrier: the carrier error and nothing else changes; otherwise every number is looked up, each success saved, the list reloaded from storage, the input cleared and `loading` cleared; the two error paths leave `loading` as it was |
| TrackingDetail.FindRecord | src/components/TrackingDetail.jsx:33 | none exactly when no record has the number; otherwise the first record with it |
| TrackingDetail.Refreshed | src/components/TrackingDetail.jsx:56-60 | only the answer and the update time change |
| TrackingDetail.Edited | src/components/TrackingDetail.jsx:100-106 | the trimmed number and the form's carrier fields with a new update time; the answer and the creation time are kept |
| TrackingDetail.EditedNumberIsClean | src/components/TrackingDetail.jsx:95-102 | a number that passes the check is saved non-empty and without whitespace at either end |
| TrackingDetail.SavedEditIsFound | src/components/TrackingDetail.jsx:108-115 | after the edit is stored under the old number, looking up the new number finds the edited record, provided no other record already had that number |
| TrackingDetail.PaddedEditIsLost | src/components/TrackingDetail.jsx:100-115 | when the typed number differs from its trim and no stored record has the typed number, looking the typed number up after the edit finds nothing |
| TrackingDetail.Page.constructor | src/components/TrackingDetail.jsx:8-17 | the page starts with the route's number, nothing loaded, an empty form |
| TrackingDetail.Page.LoadTrackingData | src/components/TrackingDetail.jsx:31-44 | shows the first stored record with the route's number and fills the form from it; without one, sets the not-found error and keeps the rest |
| TrackingDetail.Page.HandleRefresh | src/components/TrackingDetail.jsx:47-70 | nothing without a record; otherwise one lookup, then on success the refreshed record is stored under its number and shown, and on failure the error is shown and nothing is stored |
| TrackingDetail.Page.ToggleEdit | src/components/TrackingDetail.jsx:81-91 | flips the mode; leaving the mode restores the form from the shown record |
| TrackingDetail.Page.HandleSaveEdit | src/components/TrackingDetail.jsx:94-116 | a blank number sets the error and changes nothing else; otherwise the edited record is stored under the old number and shown, edit mode ends, and the route moves to the form's number when it differs |

## Left out

- Rendering, routing, `App.jsx`, `SettingsPage.jsx` and `vite.config.js` are not part of this model. Only the logic of the two pages is modelled, not their markup.
- Timer callbacks are not run. `Start` performs the first tick at once and records the repeating timer with its period. Later ticks are `CheckAllTrackings` calls on the same state. Overlapping ticks and the interleaving of asynchronous work are not modelled.
- `new Date()` and `Date.now()` are a `now` parameter or the `Clock`. Timestamps are integer milliseconds, not ISO strings. Lookups and posts take no time; only the one-second wait moves the clock.
- The `id` field of a saved record (`Date.now() + Math.random()`) is not modelled, because nothing in the core reads it.
- JSON encoding is replaced by typed storage entries. Text that does not parse is the `Unparsable` entry, and a write that throws is the `writable` flag.
- `getApiKey` is the `apiKey` field of the storage. `saveApiKey` and `getCarrierList` belong to the pages' loading code and are left out. The carrier list is given to the main page's constructor.
- Api.TrackReply: the server's answer, including the error message `trackDelivery` rethrows (the server's `msg` or the fixed lookup-failure message), is an oracle of the network.
- SlackService.SendSlackNotification: an HTTP error status and a network failure are both a `Refused` answer carrying the error's message. The attachment's `ts` field (the clock in seconds) is left out, because nothing in the core reads it.
- Console logging is left out.
- The completion flag is a boolean and a checkpoint time is a string, as the tracking server sends them.
- The outer `catch` of `handleTrackingSubmit` cannot be reached in the model, because every step inside it that could throw is already caught or returns a status.
- MainPage.Page.HandleTrackingSubmit: every record of one submit is stamped with the same time, where the source reads the clock again for each record.
- The delete handlers (`handleDelete`, `handleDeleteTracking`) are a confirmation dialog around `TrackingStorage.DeleteTrackingData` followed by navigation or a reload. The dialog and the navigation are left out.
- TrackingDetail.Page.ToggleEdit: requires a loaded record, because the page shows its edit controls only once a record is loaded (src/components/TrackingDetail.jsx:118).
- TrackingDetail.Page.HandleSaveEdit: requires a loaded record, for the same reason. The navigation to the new number is modelled as the change of the route number; the reload it triggers is a separate `LoadTrackingData` call.
- The detail page's `getStatusText` is the same function as the main page's, so it is modelled once, as `MainPage.StatusText`.
