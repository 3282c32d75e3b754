# GlassBox processing pipeline and its client pages, in Dafny

GlassBox is a demonstration medical-billing application. A clinician signs in through
simulated single sign-on, uploads a PDF invoice, watches its processing progress as
Server-Sent Events, and gets back a draft bill. This project models the logic behind that
flow and proves properties of it:

- **API server.**
  - The tRPC request context and its authorization guard, with the development-session fallback.
  - The in-memory file registry and the `getUploadUrl` mutation that fills it.
  - The bill-item selection of `getBill`.
  - The scripted processing worker, which publishes status updates on the topic `status:<fileId>` of one process-wide event emitter.
  - The mock upload endpoint and the status-stream endpoint, which subscribes one listener per request and forwards every update as an SSE "update" event.
- **Web client.**
  - The dashboard: the job list and its status-update reducer, the registry of open EventSources, the focused job and the user header.
  - The login page's allowlist check.
  - The mock identity provider's provider choice and status machine.

The modules follow the source files:

| module | models |
|---|---|
| `Common` | `Option` and `Result` |
| `Text` | `includes`, `startsWith`, `endsWith` and `split`; `Join` is there only as the inverse that states `split`'s round trip |
| `Uri` | `encodeURIComponent` and query-value decoding (`URLSearchParams.get`) |
| `Status` | the shared `ProcessingStep` and `StatusUpdate` shapes |
| `EventBus` | the Node event emitter, limited to `on`, `off` and `emit` |
| `Worker` | worker.ts |
| `Trpc` | trpc.ts |
| `DocumentRouter` | document.ts |
| `BillingRouter` | billing.ts |
| `Server` | the two handlers of index.ts |
| `Dashboard` | Dashboard.tsx |
| `Login` | Login.tsx |
| `MockIdP` | MockIdP.tsx |

How the model represents state:

- **Classes.** State the source changes in place is a class:
  - the worker's registry, emitter and pending timers (`Worker.WorkerState`);
  - the emitter's listener table (`EventBus.Emitter`);
  - the React state of each page (`Dashboard.DashboardState`, `Login.LoginPage`, `MockIdP.MockIdPPage`).
- **Timers.** `setTimeout` callbacks are entries of a pending list that the caller fires.
- **Listeners.** A listener closure is a fresh number. What it does is recorded as a delivery.

**A consequence for the dashboard.** The worker emits UPLOADED synchronously inside the upload POST. The dashboard opens its status stream only after that POST returns. So the dashboard's stream never carries UPLOADED: its jobs start at the 30 % OCR update, provided the stream connects before the first timer fires 4 s later (`Server.WholeRun`, `Dashboard.DashboardJobCompletes`).

**Repeated and unknown ids.** The code has no guard against either, and the model keeps that:

- `getUploadUrl` overwrites the registry entry of an id that is already present.
- `startProcessing` for an id that was never registered runs the degraded scenario.
- Every POST to the upload route starts processing again, however often it is repeated for the same id.

## Model

| member | source | states |
|---|---|---|
| Text.Includes | services/api/src/routers/billing.ts:19-21 | a string only includes a needle no longer than itself; the empty needle and a prefix are always included |
| Text.IncludesIff | services/api/src/routers/billing.ts:19-21 | `includes` holds exactly when the needle occurs at some position of the string |
| Text.FirstCharAbsent | services/api/src/routers/billing.ts:19-21 | a string lacking the needle's first character does not include the needle |
| Text.EndsWith | services/web/src/pages/MockIdP.tsx:58 | a suffix the string ends with is no longer than it; every string ends with the empty suffix |
| Text.EndsWithIff | services/web/src/pages/MockIdP.tsx:58 | `endsWith` holds exactly when the string is some text followed by the suffix |
| Text.Split | services/web/src/pages/Dashboard.tsx:121 | `split` always yields at least one piece |
| Text.SplitJoin | services/web/src/pages/Dashboard.tsx:121 | joining the pieces of `split` with the separator gives back the string, and no piece contains the separator |
| Text.SplitAtFirst | services/web/src/pages/Dashboard.tsx:121 | the first piece of `split` is exactly the text before the first separator |
| Text.SplitNoSep | services/web/src/pages/Dashboard.tsx:128 | a string without the separator splits into itself alone |
| Uri.Utf8 | services/web/src/pages/Login.tsx:23 | a character encodes to one to four bytes below 256, and to its own code alone exactly when it is ASCII |
| Uri.PercentByte | services/web/src/pages/Login.tsx:23 | a byte escapes to "%" and two hex digits whose values are the byte's high and low nibble |
| Uri.PercentBytes | services/web/src/pages/Login.tsx:23 | the escape of n bytes is n three-character blocks, block k being the escape of byte k |
| Uri.EncodeChar | services/web/src/pages/Login.tsx:23 | a character encodes to itself exactly when it is unreserved; otherwise to one "%" escape per UTF-8 byte; either way only unreserved characters and "%" |
| Uri.EncodeURIComponent | services/web/src/pages/Login.tsx:23 | the encoding is no shorter than the input and consists only of unreserved characters and "%", so it cannot break the query it is put in |
| Uri.UnreservedUnchanged | services/web/src/pages/Login.tsx:23 | text made only of unreserved characters is left unchanged |
| Uri.DecodeQueryValue | services/web/src/pages/MockIdP.tsx:9 | the model of the decoding `URLSearchParams.get` applies to a query value: the result is never longer than the raw value, and a value without "%" or "+" is returned as it is |
| Uri.DecodeEncodedChar | services/web/src/pages/Login.tsx:23 | the escape of one ASCII character decodes back to that character, ahead of whatever follows |
| Uri.DecodeEscapedChar | services/web/src/pages/Login.tsx:23 | the `%HH` escape of a reserved ASCII character decodes back to it |
| Uri.DecodePercentByte | services/web/src/pages/MockIdP.tsx:9 | `%HH` of a byte below 0x80 decodes to the character with that code, ahead of whatever follows |
| Uri.DecodeEncode | services/web/src/pages/Login.tsx:23 | decoding the `encodeURIComponent` output of an ASCII string gives that string back |
| EventBus.LastIndex | services/api/src/index.ts:77 | the position of the last registration of a listener, -1 exactly when it is not registered |
| EventBus.RemoveLast | services/api/src/index.ts:77 | `off` removes exactly one occurrence of a registered listener, the last one, and keeps every other entry in its order; an unregistered listener changes nothing; a duplicate-free list stays duplicate-free and loses the listener |
| EventBus.Fanout | services/api/src/worker.ts:47 | `emit` calls every listener of the topic once, in registration order, with the update |
| EventBus.Emitter.On | services/api/src/index.ts:74 | a listener never handed out before (so never registered or called) is appended to the topic's list; other topics and all deliveries are unchanged |
| EventBus.Emitter.Off | services/api/src/index.ts:77 | the topic's list becomes `RemoveLast` of it; the listener is gone and other topics are unchanged; an empty list removes the topic |
| EventBus.Emitter.Emit | services/api/src/worker.ts:47 | one publication; the topic's listeners receive the update in order; no listener is added or removed |
| Worker.Topic | services/api/src/worker.ts:47 | the topic is `status:` followed by the file id, which can be read back from it |
| Worker.TopicInjective | services/api/src/worker.ts:47 | two files share a topic only if they are the same file |
| Worker.Lookup | services/api/src/worker.ts:24 | the registry read yields a value exactly for a stored id, and then the stored value |
| Worker.IsTestPdf | services/api/src/worker.ts:25 | the test is true exactly for metadata whose filename is "test.pdf"; missing metadata is not the test file (what it selects: `Worker.ScenarioRun`) |
| Worker.ScenarioSelection | services/api/src/worker.ts:24-25 | the test on the registry entry holds exactly for a stored filename equal to "test.pdf"; an unknown id fails it (what it selects: `Worker.ScenarioRun`) |
| Worker.Plan | services/api/src/worker.ts:30-42 | each scenario has four stages with strictly increasing delays and progress above 10; it ends with COMPLETED at 100, never schedules FAILED, and no earlier stage is terminal |
| Worker.ScenariosDifferOnlyInMessages | services/api/src/worker.ts:30-42 | both scenarios run OCR, extraction, rules and completion at 4, 8, 12 and 16 s with progress 30, 60, 80 and 100; only the last three messages differ, and the degraded ones are the missing-date texts |
| Worker.Emitted | services/api/src/worker.ts:23-48 | a start publishes five updates for the file: UPLOADED first, with progress strictly increasing, ending with COMPLETED at 100; none is FAILED and only the last is terminal (the exact values and the registry-dependent messages: `Worker.ScenarioRun`) |
| Worker.ScheduleFor | services/api/src/worker.ts:30-42 | four timers with increasing delays, whose updates are the emitted sequence after UPLOADED (the exact delays and messages per registry entry: `Worker.ScenarioRun`) |
| Worker.ScenarioRun | services/api/src/worker.ts:23-42 | the run published for a file follows the registry: the happy extraction, rules and completion messages exactly for a stored "test.pdf", the missing-date ones for any other filename or an unknown id; statuses UPLOADED, OCR, extraction, rules, COMPLETED with progress 10, 30, 60, 80, 100 and timers at 4, 8, 12 and 16 s |
| Worker.WorkerState.Emit | services/api/src/worker.ts:45-48 | one publication on the file's topic of an update carrying exactly the given fields, delivered to that topic's listeners |
| Worker.WorkerState.StartProcessing | services/api/src/worker.ts:23-43 | UPLOADED is published before returning, the four timers of the scenario chosen by the registry are added, and the registry is unchanged |
| Worker.WorkerState.FireTimer | services/api/src/worker.ts:32-41 | a fired timer leaves the pending list and its update is published on its file's topic |
| Trpc.CreateContext | services/api/src/trpc.ts:6-49 | the context always has a session and a user; a found session is passed through, and a thrown or empty lookup gives the mock development user |
| Trpc.ThrowIsNoSession | services/api/src/trpc.ts:8-15 | a thrown lookup and an empty lookup give the same context |
| Trpc.ProtectedProcedure | services/api/src/trpc.ts:57-67 | the guard rejects with UNAUTHORIZED exactly when the session or the user is missing, and otherwise passes both on unchanged |
| Trpc.CreatedContextIsAuthorized | services/api/src/trpc.ts:17-67 | because of the fallback, every context `createContext` builds passes the guard |
| DocumentRouter.UploadUrl | services/api/src/routers/document.ts:18 | the upload URL is the API origin and the upload path followed by the file id |
| DocumentRouter.GetUploadUrl | services/api/src/routers/document.ts:7-24 | behind the guard, the id is mapped to the filename, overwriting any earlier entry, and the ticket returned; a rejected call changes nothing |
| DocumentRouter.InsertThenLookup | services/api/src/routers/document.ts:13 | after the insert the worker reads the new filename for that id and the old value for any other id |
| BillingRouter.FilenameFor | services/api/src/routers/billing.ts:15-16 | the stored filename, or "" for an unknown id |
| BillingRouter.SelectItems | services/api/src/routers/billing.ts:18-21 | the Mallorca list exactly when the filename includes "Mallorca"; Schmidt exactly when it includes "Schmidt" but not "Mallorca"; Müller when only "Müller" occurs; the default list when none of them does |
| BillingRouter.DocumentUrl | services/api/src/routers/billing.ts:25 | the document URL is the documents path with the file id between the prefix and "/pdf" |
| BillingRouter.GetBill | services/api/src/routers/billing.ts:12-27 | rejected exactly when the guard rejects; otherwise the items chosen from the stored filename and the document URL of the id |
| BillingRouter.UnknownFileGetsDefault | services/api/src/routers/billing.ts:15-18 | an id that was never registered is billed with the default list |
| BillingRouter.IncludesInMiddle | services/api/src/routers/billing.ts:19-21 | a name found anywhere in the filename counts as included |
| BillingRouter.MallorcaWins | services/api/src/routers/billing.ts:21 | Mallorca anywhere in the filename wins over everything else |
| BillingRouter.SchmidtBeatsMueller | services/api/src/routers/billing.ts:20 | Schmidt anywhere in the filename wins over Müller unless Mallorca occurs |
| BillingRouter.MuellerAnywhere | services/api/src/routers/billing.ts:19 | Müller anywhere in the filename selects its list when the other two names are absent |
| BillingRouter.CaseSensitiveMatch | services/api/src/routers/billing.ts:19-21 | matching is case-sensitive: a filename without a capital M or S gets the default list |
| Server.MatchUploadRoute | services/api/src/index.ts:50-51 | a path matches exactly when it is the upload prefix followed by one non-empty segment without "/", and that segment, taken without percent-decoding, is the id |
| Server.UploadUrlMatchesRoute | services/api/src/index.ts:50-51 | the URL handed out for a nanoid reaches the upload route with the same id |
| Server.UploadHandler | services/api/src/index.ts:50-56 | every POST starts processing for the id in the path, with no guard against repeats, and answers success |
| Server.OpenStatusStream | services/api/src/index.ts:59-74 | the request's fresh listener is subscribed to the file's topic, nothing is published or delivered, and the new stream has written nothing, whatever the server handled before |
| Server.StreamOfFresh | services/api/src/index.ts:63-67 | a listener that was never called has written no event |
| Server.AbortStatusStream | services/api/src/index.ts:76-78 | on abort exactly this request's listener leaves the topic; the other listeners and topics stay |
| Server.StreamOf | services/api/src/index.ts:63-67 | a stream writes at most one event per listener call, each an "update" event |
| Server.StreamOfDelivered | services/api/src/index.ts:63-67 | every update a stream writes is one its own listener was called with |
| Server.UpdateEvents | services/api/src/index.ts:63-67 | one "update" event per update, carrying it, in order |
| Server.StreamOfAppend | services/api/src/index.ts:63-67 | a stream's output over two stretches of listener calls is the two outputs in order |
| Server.StreamOfFanout | services/api/src/index.ts:63-74 | one emit writes exactly one event to the stream of a listener registered on the topic, and none to a stream whose listener is not registered |
| Server.SubscribersSeeEveryUpdate | services/api/src/index.ts:63-74 | every subscriber of a topic writes the whole run of updates, in publication order, once each |
| Server.DrainStep | services/api/src/worker.ts:30-42 | the first pending timer carries the next update of the run, and firing it leaves the rest of the schedule |
| Server.DrainTimers | services/api/src/worker.ts:30-42 | firing the four timers of a start calls the topic's single listener once per scheduled update, in schedule order |
| Server.StartJob | services/api/src/index.ts:50-78 | after registration, one stream subscription and the upload, the listener is the topic's only one, the four timers are pending, and the stream has had UPLOADED exactly when it was opened before the upload |
| Server.RunStream | services/api/src/index.ts:63-74 | a single subscriber's stream holds UPLOADED when it was subscribed at the upload, then every scheduled update in order |
| Server.WholeRun | services/api/src/index.ts:50-78 | a stream opened before the upload receives all five updates of the run in order; one opened after the upload, as the dashboard does, receives all but UPLOADED |
| Dashboard.UpdateJob | services/web/src/pages/Dashboard.tsx:83-97 | for a matching job the update becomes the status and is appended to the logs, keeping the old logs as a prefix; `isCompleted` holds iff COMPLETED and `hasError` iff FAILED, so never both |
| Dashboard.ApplyUpdate | services/web/src/pages/Dashboard.tsx:80-98 | every job of another file is returned unchanged and in place; every job of the stream's file is updated |
| Dashboard.ApplyAll | services/web/src/pages/Dashboard.tsx:77-98 | over a run of updates a job of that file gets the whole run appended to its logs and the last update as its status and flags; other jobs are untouched |
| Dashboard.NewJob | services/web/src/pages/Dashboard.tsx:47-54 | a new job has the file's id and name, no status, no log lines and neither flag |
| Dashboard.StreamedRun | services/api/src/worker.ts:23-42 | what the dashboard's stream receives is four updates, none UPLOADED, ending with COMPLETED at 100 |
| Dashboard.DashboardJobCompletes | services/web/src/pages/Dashboard.tsx:47-98 | a new job fed what the dashboard's stream receives ends completed without error at 100 %, logs the four post-upload updates and no UPLOADED line, and leaves the other jobs as they were |
| Dashboard.FindJob | services/web/src/pages/Dashboard.tsx:37 | the position of the first job with the id, -1 exactly when there is none |
| Dashboard.FocusedJob | services/web/src/pages/Dashboard.tsx:37 | no focus finds nothing; otherwise the first job with the focused id, and nothing exactly when no job has it |
| Dashboard.FocusOnLast | services/web/src/pages/Dashboard.tsx:37 | when only the last job has the focused id, that job is found |
| Dashboard.NewJobIsFocused | services/web/src/pages/Dashboard.tsx:47-57 | the new job is the focused job and stays so while its updates arrive |
| Dashboard.OrgName | services/web/src/pages/Dashboard.tsx:121-125 | "Charité" exactly for charite.de, "Helios Kliniken" exactly for helios-kliniken.de, "GlassBox" otherwise |
| Dashboard.GetUserDisplay | services/web/src/pages/Dashboard.tsx:117-131 | nothing exactly when there is no user; the name, or when it is empty the text before the first "@"; the organisation of the second "@"-piece |
| Dashboard.DisplayOfAddress | services/web/src/pages/Dashboard.tsx:117-131 | for `local@domain` without a name, the header shows the local part and the organisation of that domain |
| Dashboard.DisplayWithoutAtSign | services/web/src/pages/Dashboard.tsx:121-128 | an e-mail without "@" shows as itself under "GlassBox" |
| Dashboard.StatusStreamUrl | services/web/src/pages/Dashboard.tsx:74 | the stream URL is the status path followed by the file id |
| Dashboard.DashboardState.StartSSE | services/web/src/pages/Dashboard.tsx:71-75 | a file that already has a registered stream changes nothing; otherwise exactly one new stream is opened and registered; the registry still holds exactly the open streams |
| Dashboard.DashboardState.OnUpdate | services/web/src/pages/Dashboard.tsx:77-99 | a closed stream changes nothing; otherwise the jobs become `ApplyUpdate`, and a terminal update for an existing job closes the stream and removes its registry entry |
| Dashboard.DashboardState.HandleUpload | services/web/src/pages/Dashboard.tsx:39-69 | no file does nothing; a failed mutation alerts; otherwise one new job is appended and focused, the POST is made, and the stream is opened only after a successful POST, registered at the next number unless the file already has one, while a failed POST alerts |
| Dashboard.DashboardState.ToggleMinimize | services/web/src/pages/Dashboard.tsx:110-112 | the focus is cleared, so no job is focused, and the jobs are untouched |
| Dashboard.DashboardState.FocusJob | services/web/src/pages/Dashboard.tsx:264-267 | clicking a job makes it the focused one |
| Dashboard.DashboardState.Unmount | services/web/src/pages/Dashboard.tsx:103-108 | every registered stream is closed and the registry emptied, so no stream the page opened remains open |
| Login.IsAllowed | services/web/src/pages/Login.tsx:18-20 | an accepted address is non-empty plain ASCII |
| Login.AllowedExactly | services/web/src/pages/Login.tsx:18-20 | exactly the two listed addresses are accepted |
| Login.RedirectUrl | services/web/src/pages/Login.tsx:23 | the redirect is the mock-IdP path followed by the encoded e-mail |
| Login.RedirectCarriesEmail | services/web/src/pages/Login.tsx:20-24 | the query value of the redirect decodes back to the accepted e-mail |
| Login.LoginPage.SubmitDisabled | services/web/src/pages/Login.tsx:92 | the submit button is disabled exactly while a login is loading, so after an accepted e-mail it stays disabled and after a refused one it is enabled again |
| Login.LoginPage.OnEmailChange | services/web/src/pages/Login.tsx:66-69 | editing sets the e-mail and clears the error |
| Login.LoginPage.HandleSSOLogin | services/web/src/pages/Login.tsx:13-30 | an accepted e-mail navigates to the mock IdP with loading left on and no error; a refused one shows the SSO-domain error, ends loading and does not navigate |
| MockIdP.EmailParam | services/web/src/pages/MockIdP.tsx:9 | a missing parameter reads as "", a present one as itself |
| MockIdP.LoginHandsOverEmail | services/web/src/pages/MockIdP.tsx:9 | the query value the login page sends decodes to the accepted e-mail, which the page reads unchanged |
| MockIdP.GetProviderConfig | services/web/src/pages/MockIdP.tsx:57-75 | Helios with Okta exactly for an e-mail ending in "@helios-kliniken.de", Charité with Entra ID for every other one |
| MockIdP.HeliosAddress | services/web/src/pages/MockIdP.tsx:58 | any address at the Helios domain gets the Helios provider |
| MockIdP.ShortEmailIsCharite | services/web/src/pages/MockIdP.tsx:67-74 | an e-mail shorter than the suffix, the empty one included, gets Charité |
| MockIdP.AllowedAccountsProviders | services/web/src/pages/MockIdP.tsx:57-75 | the two accepted accounts land at Entra ID and Okta respectively |
| MockIdP.Advances | services/web/src/pages/MockIdP.tsx:11-51 | the status never stays put or returns to initializing; redirecting and error are final; initializing can only move to authenticating |
| MockIdP.HeadingFor | services/web/src/pages/MockIdP.tsx:105-109 | each status has its own heading; while initializing it names the first space-separated word of the organisation |
| MockIdP.FirstWordHeading | services/web/src/pages/MockIdP.tsx:106 | the initial heading names exactly the text before the first space of the organisation name |
| MockIdP.HeliosFirstWord | services/web/src/pages/MockIdP.tsx:60 | "Helios" is the text before the first space of the Helios organisation name |
| MockIdP.ChariteFirstWord | services/web/src/pages/MockIdP.tsx:69 | "Charité" is the text before the first space of the Charité organisation name |
| MockIdP.ProviderHeadings | services/web/src/pages/MockIdP.tsx:105-109 | the initial heading says "Helios" for the Helios provider and "Charité" for the Charité one |
| MockIdP.SignUpName | services/web/src/pages/MockIdP.tsx:32 | the sign-up name contains no "@" and is the text before the first "@", or the whole e-mail without one |
| MockIdP.MockIdPPage.constructor | services/web/src/pages/MockIdP.tsx:8-21 | the page starts initializing with the e-mail from the query and the delayed login scheduled |
| MockIdP.MockIdPPage.Unmount | services/web/src/pages/MockIdP.tsx:20 | the cleanup cancels the delayed login |
| MockIdP.MockIdPPage.FireLoginTimer | services/web/src/pages/MockIdP.tsx:15-25 | the delayed login moves initializing to authenticating and signs out first |
| MockIdP.MockIdPPage.FinishLogin | services/web/src/pages/MockIdP.tsx:27-54 | sign-up with the demo password and local-part name, then sign-in in every case; an error moves to error, alerts and goes to /login; success moves to redirecting and schedules the redirect |
| MockIdP.MockIdPPage.FireRedirectTimer | services/web/src/pages/MockIdP.tsx:52-54 | the redirect goes to /dashboard |

## Left out

- **Timing.**
  - Real time and the event loop: timers are pending entries fired by the caller. Which pending timer fires first is the caller's choice; `Server.DrainTimers` fires them in delay order.
  - Concurrency between requests is not modelled.
- **Server internals.**
  - Node `EventEmitter` internals beyond `on`, `off` and `emit`: max-listener warnings, `once` and error events.
  - The never-resolving promise that keeps a status stream open.
  - SSE framing and the hono transport.
  - CORS and static-file serving.
  - The `/api/documents/:fileId/pdf` route and PDF generation.
- **Data representation.**
  - JSON serialization: an SSE event carries the update value itself.
  - The four bill-item lists are opaque constants.
  - The mock session's dates and the `db` and `headers` context fields.
- **Foreign calls and randomness.** Their outcomes are parameters:
  - better-auth's `getSession`, `signOut`, `signUp` and `signIn` (whose calls are only recorded);
  - `nanoid()` (the file id);
  - the upload `fetch` (only whether it resolved).
- **Logging.** The `console.error` and `console.log` calls (services/api/src/trpc.ts:13 and :19, services/web/src/pages/Dashboard.tsx:66) change no modelled state and are left out.
- **Client rendering.**
  - i18n: translated texts are their translation keys.
  - JSX rendering and floating-point display values.
  - React batching and StrictMode double invocation: state updates apply at once and once.
- **Limits of individual members.**
  - Server.MatchUploadRoute: the route parameter is the raw path segment. hono percent-decodes route parameters, so a segment holding an escape such as `%41` names a different id there. The nanoid ids `getUploadUrl` hands out contain no `%`, so their uploads are unaffected (`Server.UploadUrlMatchesRoute`).
  - MockIdP.MockIdPPage.FireLoginTimer: a `signOut` that throws would abort `performLogin` before sign-up; that path is not modelled.
  - Uri.DecodeEncode: proved for ASCII strings only. Percent escapes of bytes at or above 0x80 are not decoded by the model, so the round trip of non-ASCII e-mails is not stated. Both accepted login addresses are ASCII.
