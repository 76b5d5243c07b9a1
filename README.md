# Weather Disaster Tracker — a Dafny model of its decision logic

The Weather Disaster Tracker is a disaster-information web application. An
Express server scrapes storm data, stores citizen emergency reports in MongoDB,
alerts the authorities by e-mail (SendGrid) and SMS (Twilio), and answers chat
questions through Gemini or through a keyword fallback. A React client has an
onboarding tour, a storm map, an emergency-report form, a regional contact
directory, a Bluetooth/SMS emergency page and a floating chat widget.

This project models the logic inside those parts that makes decisions:

- which alerts the report route sends and which flags it reports;
- the report schema and the store's queries and updates;
- the reply the chat route and the chat widget choose;
- the storm lists the scraping routes build;
- the state machines of the client components.

The external services are not modelled directly. Each appears only as its
outcome, passed in as a parameter: a scraped page, a send that resolved or
threw, a backend answer, the device the browser's picker chose.

The weather page fetches `/api/weather/jamaica`
(src/pages/JamaicaWeatherPage.jsx:12), but the server defines no such route.
The Bluetooth page posts to `/api/bluetooth/send-sms`
(src/pages/BluetoothPage.jsx:67), which the server does not define either, so
the model takes that request's answer as an input.

Modules, one per source file (the server's `index.js` is split by route):

- `Wrappers`: the `Option` and `Result` datatypes.
- `Strings`: `trim`, ASCII `toLowerCase`, `includes`, and numbers printed in templates.
- `ServerEnv`: the environment variables, and the Gemini and Twilio clients made from them.
- `StormFeeds`: `/api/active-storms` and `/api/storm-analytics`.
- `ReportStore`: the report schema and the store helpers of `server/database.js`. It includes a class `Store` over a sequence of reports.
- `EmergencyRoute`: `POST /api/emergency-report`.
- `ChatRoute`: `POST /api/chat`.
- `Onboarding`: the tour, with a class `Guide`.
- `EmergencyContacts`: the contact directory, filters and `tel:` links.
- `Bluetooth`: the device list and the SMS form, with a class `BluetoothPanel`.
- `ChatWidget`: the chat widget, with a class `Chat`.
- `ReportForm`: the report form, with a class `ReportPage`.
- `StormMap`: the category colours and the highlighting on the map page.

Each asynchronous handler is split in two. `Begin…` is the part before the
`await`. `Complete…` is the part after it, including the `finally` block.
A method that runs both stands for the whole handler.

## Model

| member | source | states |
|---|---|---|
| Strings.TrimStartSpec | src/components/ChatBot.jsx:46 | trimming the start keeps a suffix that starts with a non-space and drops only white space |
| Strings.TrimEndSpec | src/components/ChatBot.jsx:46 | trimming the end keeps a prefix that ends with a non-space and drops only white space |
| Strings.TrimEmptyIff | src/components/ChatBot.jsx:46 | an input trims to the empty string exactly when every character is white space, so the send guard rejects exactly the blank inputs |
| Strings.TrimIsTrimmed | src/components/ChatBot.jsx:46 | a trimmed text neither starts nor ends with white space |
| Strings.LowerIdempotent | src/components/ChatBot.jsx:28 | lower-casing an already lower-cased text changes nothing |
| Strings.ContainsIff | src/pages/EmergencyContactsPage.jsx:151-152 | the `includes` scan succeeds exactly when the searched text occurs at some index |
| Strings.ContainsEmpty | src/pages/EmergencyContactsPage.jsx:150-152 | every text includes the empty string |
| Strings.ContainsMiddle | server/index.js:292-298 | a text includes any piece that stands inside a concatenation |
| Strings.ContainsWithin | server/index.js:292-310 | a text that includes a piece is still included with anything put around it |
| Strings.JoinedContains | server/index.js:294-298 | the joined blocks include the block of every storm |
| StormFeeds.CollectActiveStorms | server/index.js:80-111 | a failed fetch answers `[]`; otherwise the answer is the list `ActiveStorms(page)` gives, built by pushing in visiting order |
| StormFeeds.ActiveStormsStep | server/index.js:88-105 | visiting one more element adds that element's storm exactly when its trimmed name is non-empty |
| StormFeeds.FromElementExtends | server/index.js:88-105 | a storm built from an element of a prefix is built from the same element of the whole page |
| StormFeeds.ActiveStormsSound | server/index.js:93-103 | every listed storm comes from a named element and has id equal to that element's index plus one, category 3, and "N/A" for an empty wind or pressure |
| StormFeeds.ActiveStormIdsIncrease | server/index.js:95 | the ids increase strictly along the list, so no two storms share an id |
| StormFeeds.ActiveStormsComplete | server/index.js:93-94 | every element with a non-empty name is listed |
| StormFeeds.StormAnalytics | server/index.js:35-77 | the answer is `null` exactly when the fetch failed or the page names no storm; otherwise the name is the trimmed non-empty title, no statistic is empty ("N/A" instead), and an unreadable category reads 0 |
| ReportStore.ErrorsIff | server/database.js:21-92 | validation reports no error exactly when the six required strings are present and non-empty, the type and severity are in their enumerations, and a given status is in its enumeration; the optional paths never fail |
| ReportStore.OneErrorPerPath | server/database.js:23-72 | the validation errors name each schema path at most once: an absent or empty type or severity is reported as missing only, not also as outside its enumeration |
| ReportStore.Build | server/database.js:69-91 | a valid body becomes a conforming document with the body's values, status "pending" unless given, both alert flags false and both timestamps set to the save time |
| ReportStore.InsertKeeps | server/database.js:119 | inserting adds exactly the new report to the multiset of reports and lengthens the sequence by one |
| ReportStore.InsertSorted | server/database.js:119 | inserting into a newest-first sequence keeps it newest first |
| ReportStore.SortNewestFirstCorrect | server/database.js:119 | sorting by `reportedAt` descending gives a newest-first permutation of the reports |
| ReportStore.WithSeverityExact | server/database.js:129 | the severity query keeps only reports of that severity, and every such report as often as it is stored |
| ReportStore.Store.constructor | server/database.js:4-18 | the store starts empty, connected or not as start-up decided |
| ReportStore.Store.Save | server/database.js:95-114 | an invalid body fails with the schema's errors (at most one per path, `required` before `enum`) whatever the connection, since validation runs before the insert; a valid body fails without a connection; otherwise it is appended as the built document and returned, and nothing is stored on any failure |
| ReportStore.Store.Resave | server/database.js:95-98 | saving a stored document again succeeds exactly when connected, the document conforms and its id is stored; it replaces just that document, with `updatedAt` set to the save time |
| ReportStore.Store.GetAll | server/database.js:117-124 | every stored report, newest first, as a permutation; `[]` without a connection |
| ReportStore.Store.GetBySeverity | server/database.js:127-134 | exactly the reports of that severity, each as often as stored, newest first; `[]` without a connection |
| ReportStore.Store.UpdateStatus | server/database.js:137-150 | it fails without a connection and always succeeds with one; it answers null exactly when no report has the id; otherwise it changes only `status` and `updatedAt` of the identified report and answers the updated report; every other report is unchanged |
| ReportStore.StatusUpdateCanLeaveEnum | server/database.js:139-143 | because the update runs no validator, a conforming report can get a status outside the enumeration |
| EmergencyRoute.AlertAuthorities | server/index.js:141-189 | `emailSent` holds exactly when the SendGrid key, sender and recipient are set and the send resolved; `smsSent` holds exactly when severity is "critical", a Twilio client exists, both numbers are set and the send resolved; the messages go out in source order |
| EmergencyRoute.RecordFlags | server/index.js:191-199 | writing the flags back changes only the saved report, which gets the flags and a new `updatedAt` |
| EmergencyRoute.HandleEmergencyReport | server/index.js:115-236 | the answer is always a success; `saved` holds exactly when connected and the body valid; the alert flags hold exactly under their conditions whether or not saving failed; a saved report is stored once with the final flags and its id is the answer's `reportId`; an unsaved one leaves the store unchanged |
| EmergencyRoute.NotificationsIgnoreSaving | server/index.js:131-139 | the messages sent depend only on the fields the templates use, never on whether the body passed the schema |
| EmergencyRoute.SmsNeedsCritical | server/index.js:173-185 | an SMS is in the outbox only for a critical report, with both Twilio credentials and both numbers set |
| Strings.JoinedStep | server/index.js:294-298 | one more storm appends exactly that storm's block to the joined blocks |
| ChatRoute.StormBranchReply | server/index.js:290-310 | the reply built by repeated appends, one block per storm, equals the storm answer |
| ChatRoute.FallbackReply | server/index.js:286-317 | the keyword chain's reply equals the fallback text of the message |
| ChatRoute.HandleChat | server/index.js:248-327 | Gemini's answer is returned when Gemini is configured and answers; otherwise a missing message gives the 500 answer and a present one gives the fallback text |
| ChatRoute.UpperCaseKeywordFound | server/index.js:286-289 | a keyword typed in capitals anywhere in a message is found after lower-casing |
| ChatRoute.FallbackIgnoresCase | server/index.js:286 | a message and its lower-cased form get the same fallback reply |
| ChatRoute.StormKeywordsFirst | server/index.js:289-311 | any message containing "HURRICANE" gets the storm answer, even if it also names evacuation or supplies |
| ChatRoute.FallbackPriority | server/index.js:289-317 | each of the four answers is chosen exactly when its keywords occur and no earlier group's do |
| ChatRoute.StormReplyShape | server/index.js:290-310 | with no storm and no analytics the reply is the "no active systems" text; otherwise it begins with the information header and ends with the safety reminder |
| Strings.JoinedPrefix | server/index.js:294-298 | the blocks of the first storms begin the blocks of all storms |
| ChatRoute.StormListed | server/index.js:292-298 | every active storm's block appears in the storm answer |
| Onboarding.ButtonLabelIff | src/components/OnboardingGuide.jsx:121 | the primary button reads "Get Started" exactly on step 6, the last one, and "Next" on every other step |
| Onboarding.ExactlyOneDot | src/components/OnboardingGuide.jsx:87-95 | exactly one progress dot is active, the one at the current step |
| Onboarding.Guide.constructor | src/components/OnboardingGuide.jsx:5 | the tour starts on step 0, not completed |
| Onboarding.Guide.Next | src/components/OnboardingGuide.jsx:45-51 | below the last step it advances by one without completing; on the last step it completes and stays; the step stays within the seven steps |
| Onboarding.Guide.Prev | src/components/OnboardingGuide.jsx:53-57 | it steps back by one above step 0 and does nothing on step 0 |
| Onboarding.Guide.Skip | src/components/OnboardingGuide.jsx:59-61 | it completes from any step without changing the step |
| Onboarding.NextThenPrev | src/components/OnboardingGuide.jsx:45-57 | below the last step, Next then Previous returns to the same step, not completed |
| EmergencyContacts.Lookup | src/pages/EmergencyContactsPage.jsx:80 | the looked-up region is listed in the table under that key |
| EmergencyContacts.LookupAt | src/pages/EmergencyContactsPage.jsx:80 | in a table without repeated keys, the key at an index looks up that index's region |
| EmergencyContacts.FilteredContacts | src/pages/EmergencyContactsPage.jsx:79-81 | no selection shows the whole table; a selection shows exactly one entry, the table's entry for that key |
| EmergencyContacts.Regions | src/pages/EmergencyContactsPage.jsx:83-86 | one option per key, in key order, with the key as value and the region's name as label |
| EmergencyContacts.ContactTableShape | src/pages/EmergencyContactsPage.jsx:10-77 | the directory has six regions under six distinct keys, the first being Jamaica |
| EmergencyContacts.SearchEmptyKeepsAll | src/pages/EmergencyContactsPage.jsx:150 | an empty search keeps every contact |
| EmergencyContacts.SearchMembership | src/pages/EmergencyContactsPage.jsx:149-153 | a contact is kept exactly when it is in the region and the lower-cased query occurs in its lower-cased type or description |
| EmergencyContacts.SearchIsSubsequence | src/pages/EmergencyContactsPage.jsx:149 | the kept contacts are an order-preserving subsequence of the region's contacts |
| EmergencyContacts.EmptyGuardRedundant | src/pages/EmergencyContactsPage.jsx:150-152 | the empty-query test decides the same way as the substring tests alone |
| EmergencyContacts.SectionsNonEmpty | src/pages/EmergencyContactsPage.jsx:155 | every rendered region has at least one contact, each passing the search |
| EmergencyContacts.SectionForAppend | src/pages/EmergencyContactsPage.jsx:148-155 | a region has a section in two runs of rendered sections exactly when it has one in either |
| EmergencyContacts.SectionShownIff | src/pages/EmergencyContactsPage.jsx:148-155 | a region is rendered exactly when one of its contacts passes the search |
| EmergencyContacts.SectionKeysFromTable | src/pages/EmergencyContactsPage.jsx:148 | every rendered region's key is a key of the shown table |
| EmergencyContacts.KeyAbsentFromRest | src/pages/EmergencyContactsPage.jsx:148 | with distinct keys, the first region's key is not rendered by the later regions |
| EmergencyContacts.DialDigits | src/pages/EmergencyContactsPage.jsx:178 | the sanitised number holds only digits and `+` |
| EmergencyContacts.DialDigitsSubsequence | src/pages/EmergencyContactsPage.jsx:178 | the kept characters stay in the number's order |
| EmergencyContacts.DialDigitsKeepsAll | src/pages/EmergencyContactsPage.jsx:178 | each digit and `+` occurs as often as in the number |
| EmergencyContacts.DialDigitsIdempotent | src/pages/EmergencyContactsPage.jsx:178 | sanitising twice is sanitising once |
| EmergencyContacts.DialDigitsOfDialString | src/pages/EmergencyContactsPage.jsx:178 | a number of digits and `+` only is left as it is |
| EmergencyContacts.DialDigitsAppend | src/pages/EmergencyContactsPage.jsx:178 | sanitising a concatenation sanitises each part |
| EmergencyContacts.TelHrefTwoNumbers | src/pages/EmergencyContactsPage.jsx:27 | the Bahamas police entry "911 or 919" dials "tel:911919", both numbers run together |
| Bluetooth.OrElse | src/pages/BluetoothPage.jsx:30 | an absent or empty name falls back; any other name is kept |
| Bluetooth.FindById | src/pages/BluetoothPage.jsx:37 | the search finds a listed device with that id, and finds none exactly when no device has it |
| Bluetooth.AddListedKeeps | src/pages/BluetoothPage.jsx:37-38 | a device whose id is listed leaves the list unchanged |
| Bluetooth.AddNewAppends | src/pages/BluetoothPage.jsx:39 | a new id is appended at the end, one longer, earlier entries unchanged |
| Bluetooth.AddKeepsIdsDistinct | src/pages/BluetoothPage.jsx:36-40 | the ids stay pairwise distinct, and the added id is listed afterwards |
| Bluetooth.SmsTextLayout | src/pages/BluetoothPage.jsx:65 | the text is the alert header, the type, the message label, the message and the sender line, in that order |
| Bluetooth.SmsTextRecoversMessage | src/pages/BluetoothPage.jsx:65 | for one type, the text determines the message typed |
| Bluetooth.BluetoothPanel.constructor | src/pages/BluetoothPage.jsx:5-13 | the initial state: off, not scanning, no devices, no selection, empty texts, type "Need Help", no banner, not sending |
| Bluetooth.BluetoothPanel.Toggle | src/pages/BluetoothPage.jsx:117 | the switch flips the enabled flag |
| Bluetooth.BluetoothPanel.Select | src/pages/BluetoothPage.jsx:194 | clicking a device selects it |
| Bluetooth.BluetoothPanel.SetPhoneNumber | src/pages/BluetoothPage.jsx:234 | the phone input sets the number |
| Bluetooth.BluetoothPanel.SetMessageType | src/pages/BluetoothPage.jsx:250 | the type select sets the type |
| Bluetooth.BluetoothPanel.SetMessage | src/pages/BluetoothPage.jsx:269 | the message area sets the message |
| Bluetooth.BluetoothPanel.BeginScan | src/pages/BluetoothPage.jsx:16-18 | a scan starts with the banner cleared |
| Bluetooth.BluetoothPanel.CompleteScan | src/pages/BluetoothPage.jsx:20-55 | a picked device is added if absent with the "Found" banner; a cancelled pick gives the info banner and any other error the error banner; the list stays free of repeated ids and the scan ends |
| Bluetooth.BluetoothPanel.BeginSend | src/pages/BluetoothPage.jsx:59-75 | a send starts with the "Sending" banner and posts the number, the alert text and the type |
| Bluetooth.BluetoothPanel.CompleteSend | src/pages/BluetoothPage.jsx:77-100 | only an OK answer clears the message and shows success (two texts, by `twilioConfigured`); a non-OK answer shows its error or "Failed to send message"; a network failure shows the network error; the send always ends |
| Bluetooth.ScanForDevices | src/pages/BluetoothPage.jsx:16-56 | after a whole scan the picked id is listed, appended only if new, ids stay distinct, and the scan is over |
| Bluetooth.SendEmergencySms | src/pages/BluetoothPage.jsx:59-101 | a whole send posts the alert text of the typed message, clears the message only on an OK answer, and is over |
| ChatWidget.ClassifyPriority | src/components/ChatBot.jsx:30-42 | each of the six answers is chosen exactly when its keywords occur and no earlier group's do |
| ChatWidget.ClassifyIgnoresCase | src/components/ChatBot.jsx:28 | a message and its lower-cased form get the same answer |
| ChatWidget.CapitalKeywordFound | src/components/ChatBot.jsx:28-38 | a keyword typed in capitals anywhere in a message is found after lower-casing |
| ChatWidget.FloodInCapitals | src/components/ChatBot.jsx:36-37 | a message containing "FLOOD" and no earlier group's keyword gets the flood answer |
| ChatWidget.FailuresAnsweredLocally | src/components/ChatBot.jsx:69-88 | a non-OK answer and an unreachable backend both give the local answer; an OK answer's reply is shown as it is |
| ChatWidget.Chat.constructor | src/components/ChatBot.jsx:5-13 | the log starts with exactly the greeting, closed, with empty input and not loading |
| ChatWidget.Chat.SetOpen | src/components/ChatBot.jsx:99-117 | the chat button opens the widget and the close button closes it |
| ChatWidget.Chat.Type | src/components/ChatBot.jsx:158 | typing sets the input |
| ChatWidget.Chat.BeginSend | src/components/ChatBot.jsx:45-55 | a blank input changes nothing and sends nothing; otherwise the raw input is appended as the user's message, the input cleared, loading started, and that input sent |
| ChatWidget.Chat.CompleteSend | src/components/ChatBot.jsx:57-91 | exactly one assistant message is appended, whatever the backend did, and loading ends |
| ChatWidget.HandleSend | src/components/ChatBot.jsx:45-92 | a blank input leaves the log alone; any other input adds the user's message and one answer; earlier messages are never changed; the greeting stays first |
| ReportForm.WithField | src/pages/EmergencyReportPage.jsx:21-24 | the named field takes the value; every other field and the images stay |
| ReportForm.SameFieldsSameForm | src/pages/EmergencyReportPage.jsx:5-17 | two forms that agree on every field and on the images are equal |
| ReportForm.WithOwnValue | src/pages/EmergencyReportPage.jsx:23 | writing a field's own value back changes nothing |
| ReportForm.LastWriteWins | src/pages/EmergencyReportPage.jsx:23 | of two writes to one field, the later wins |
| ReportForm.DifferentFieldsCommute | src/pages/EmergencyReportPage.jsx:23 | writes to two different fields can happen in either order |
| ReportForm.InitialFormEmpty | src/pages/EmergencyReportPage.jsx:5-17 | the initial form has every text field empty and no images |
| ReportForm.ReportPage.constructor | src/pages/EmergencyReportPage.jsx:5-19 | the page starts with the initial form, not submitting, no success view |
| ReportForm.ReportPage.HandleChange | src/pages/EmergencyReportPage.jsx:21-24 | an input changes just its own field |
| ReportForm.ReportPage.HandleImageUpload | src/pages/EmergencyReportPage.jsx:26-29 | the chosen files replace the images; the text fields stay |
| ReportForm.ReportPage.SetCurrentLocation | src/pages/EmergencyReportPage.jsx:33-39 | a located position sets latitude and longitude only |
| ReportForm.ReportPage.BeginSubmit | src/pages/EmergencyReportPage.jsx:50-52 | submitting starts |
| ReportForm.ReportPage.CompleteSubmit | src/pages/EmergencyReportPage.jsx:54-92 | on success the success view shows and the reset is scheduled; submitting ends on success and on failure |
| ReportForm.ReportPage.ResetTimerFires | src/pages/EmergencyReportPage.jsx:72-87 | the reset closes the success view and returns the form to its initial state |
| ReportForm.SubmitAndReset | src/pages/EmergencyReportPage.jsx:50-93 | a successful submission followed by its reset leaves the page as a fresh one |
| StormMap.CategoryBands | src/pages/MapPage.jsx:26-31 | red exactly for category 5 and up, orange exactly for 3–4, yellow exactly for 1–2, blue exactly below 1 |
| StormMap.TierMonotone | src/pages/MapPage.jsx:26-31 | a higher category never gets a less severe colour |
| StormMap.ScrapedStormsOrange | src/pages/MapPage.jsx:60 | every storm of the scraped list is shown orange, since all are category 3 |
| StormMap.AtMostOneHighlighted | src/pages/MapPage.jsx:53 | in the scraped list at most one card is highlighted, because the ids differ |

## Left out

- The Jamaica weather page: its `/api/weather/jamaica` route does not exist on the server, so it is not modelled.
- Network and foreign calls: the HTML fetches and cheerio selectors, the SendGrid and Twilio sends, Gemini's prompt and answer, and the chat route's fetches of its own endpoints. Each appears only as its result: the selector texts, a success or failure flag, an optional reply.
- E-mail HTML bodies, Gemini prompt texts and the report-received times (`toLocaleString`): only the recipients, senders and subjects of the messages are modelled.
- The start-up log lines, the `/api/health` route and the console output: these are output only.
- Mongoose internals: the connection attempt is reduced to a boolean. Type casting, ObjectId and CastError are not modelled, and ids are natural numbers given out in order. `_id` as a JSON value is not modelled either.
- `reportedAt` supplied by a client: the model always sets it to the save time.
- ReportStore.Store.Save: a valid body without a connection fails with `NotConnected`, which stands for the buffered insert timing out; the time-out itself is not modelled.
- EmergencyRoute.RecordFlags: the connection is fixed for a whole request, so the second `save()` always succeeds and its `catch` (server/index.js:196-198) never runs in the model. A connection lost between the two saves is not modelled.
- ReportStore.Store.Resave: a validation failure returns `Invalid([])` rather than the list of failing paths. Only the success case is used, by `RecordFlags`, which saves a conforming document.
- ReportStore.SortNewestFirstCorrect: the order of reports with equal `reportedAt` is not stated, because MongoDB does not promise one.
- The `/api/reports` routes and their 500 answers: these are thin wrappers over the store methods, which are modelled. The outer `try/catch` of the emergency route is also left out, since nothing the model runs there can throw.
- Twilio client construction errors: the client is taken to exist exactly when both credentials are set.
- The storm-analytics chart series: these are fixed arrays, sent unchanged.
- `parseInt` on scraped category text (StormFeeds.StormAnalytics): the parsed value is an input, with `None` standing for `NaN`.
- Floating point: the fixed storm position is kept as a `real`. Coordinates formatted with `toFixed(6)` are inputs (`SetCurrentLocation`).
- The random distance of a Bluetooth device, and the browser device handle, are not modelled.
- Timers and interleaving: `setInterval` refreshes, the two-second simulated submit, and the three-second reset. The reset timer is a `resetPending` flag plus the `ResetTimerFires` method. Events that arrive between a `Begin…` and its `Complete…` (a second Enter while loading, edits while submitting) are not modelled.
- ReportForm.ReportPage.CompleteSubmit: it takes `rejected` as an input. The simulated call never rejects, so the `alert` path is modelled only as "no success view".
- Browser APIs: Web Bluetooth, geolocation and its error alerts, `localStorage`, scrolling, and `preventDefault`. The HTML `required` attributes on the SMS form's phone and message fields (src/pages/BluetoothPage.jsx:237, 273) are not modelled: the browser blocks an empty submit before `sendEmergencySMS` runs, but `Bluetooth.BluetoothPanel.BeginSend` and `Bluetooth.SendEmergencySms` accept one and post it.
- Rendering: the JSX layout, icons, routing, the analytics and Jamaica weather pages, and the map page's fetching.
- Unicode case folding: `toLowerCase` is modelled on ASCII letters only.
- EmergencyContacts.FilteredContacts: it requires the selected key to be "" or a key of the table. The select offers only those values; any other key would show an `undefined` region.
