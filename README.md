# AI webhook summarizer — a Dafny model of its control logic

The system summarizes a web page with a grounded Gemini request. It has three parts:

- an Express server whose `/api/summarize` endpoint takes a URL and returns a summary with its grounding sources;
- a React dashboard, where webhooks are configured, results are listed and toast notifications are shown;
- a Chrome extension that posts the current tab's URL to a webhook, from a context menu or from its popup.

This project models the logic those parts run and proves what that logic promises:

- the validation of a summarize request and the normalisation of the model's grounding chunks into sources, in the server and in the front end's direct AI service;
- the webhook configuration registry of the dashboard's settings page and of the extension's options page: trimmed-name add, delete by id, and webhook URLs;
- the keyed notification list and the dashboard's result list, and the dashboard's three-way display rule;
- the extension's background worker: the context-menu rebuild, the storage-change trigger, and the click guards with the webhook-name lookup;
- the extension's popup: the initial selection, the summarize guards and its idle/loading/success/error status machine, `isConfigured`, the copy-URL guard, and the 50-character error truncation.

The model follows the way each source file is written.

- State that a component updates in place is a class whose methods say, with `modifies`, what they change and what the new state is:
  - `Notifications.NotificationCenter`, `Settings.SettingsView`, `Dashboard.DashboardView`, `Options.OptionsPage`, `Popup.PopupView`;
  - `Background.ContextMenus`, which stands for the browser's menu registry. Its rebuild is a loop of `create` calls with an invariant.
- Pure code is functions and lemmas: the list updates, the source pipelines, the error mapping, URL building, the model label and the display rules.

JavaScript's idioms are written out once in `Text` and `Seqs`:

- truthiness, `a || b`, `trim`;
- `filter`, `map`, `find`, and the "remove every entry with this id" filter.

Modules, one per source file plus shared ones:

- `Wrappers`: optional values and results.
- `Text`: ECMAScript `trim`, truthiness, `||`, and the `/api/webhook/` URL format.
- `Seqs`: `filter`, `map`, `find`, `findIndex`, and remove-by-key.
- `Types`: the shared data shapes, the add and delete of the registry, thrown values, and fetch outcomes.
- `Grounding`: the AI request and response, the model default, the prompt, and the chunk filter.
- `Server` (server.js), `GeminiService` (services/geminiService.ts), `Notifications` (contexts/NotificationContext.tsx), `Settings` (components/dashboard/SettingsView.tsx), `Dashboard` (components/dashboard/DashboardView.tsx), `Options` (chrome-extension/options.tsx), `Background` (chrome-extension/background.ts), `Popup` (chrome-extension/popup.tsx).

Oracles are parameters and nothing about them is assumed:

- the model call is `ai: AiRequest -> AiOutcome`;
- `new URL` succeeding is `isUrl: string -> bool`;
- `fetch` is `WebhookRequest -> FetchOutcome`, or its outcome;
- the clipboard's answer is `written: bool`;
- `Date.now()`-based ids and clock readings are `id`/`now` parameters;
- what `chrome.storage.sync.get` returned is a `StoredSettings` value;
- the active tab is `Option<Tab>`.

Facts about the code that the model keeps:

- The code produces sources in the nested shape `{ web: { uri, title } }` (server.js:68-73, services/geminiService.ts:40-45), which the result card reads. The flat `WebhookSource` of types.ts:8-11 is never built.
- Neither server.js:66-73 nor services/geminiService.ts:38-45 deduplicates sources by uri. `Server.ServerKeepsDuplicateUris` and `GeminiService.ServiceKeepsDuplicateUris` prove that two chunks with one uri both stay.
- The server turns a missing or empty title into `''`. The front-end service passes the title through, possibly missing. Neither falls back to the uri. `GeminiService.SourcesAgreeWithServer` states the exact difference.
- server.js defines only `/api/summarize`. The `/api/webhook/:id` route the extension and the options page post to is not part of it, so the model stops at the request sent.

## Model

Some definitions have no row of their own because the rows below state what they mean: `Text.IsBlank` (in Text.BlankIffAllWhitespace), `Text.Truthy` (in Text.OrElse), `Grounding.ChunkUri` and `Grounding.ChunkTitle` (in Grounding.HasUri, Server.ServerSource and GeminiService.ServiceSource), `Grounding.SummaryRequest`, the request of server.js:53-60 with its `googleSearch` tool (in Server.HandleSummarize and GeminiService.SummarizeContentFromUrl), and `Background.ChildItem` (in Background.MenuFor).

| member | source | states |
|---|---|---|
| Text.Trim | components/dashboard/SettingsView.tsx:24 | `trim` leaves no whitespace at either end and never lengthens the string |
| Text.TrimSlice | components/dashboard/SettingsView.tsx:31 | the trimmed name is the input with a whitespace prefix and a whitespace suffix cut off, nothing else |
| Text.TrimIdempotent | chrome-extension/options.tsx:41 | trimming the stored (already trimmed) name again changes nothing |
| Text.BlankIffAllWhitespace | chrome-extension/options.tsx:34 | a name is rejected as empty exactly when it consists of whitespace only |
| Text.OrElse | chrome-extension/background.ts:60 | JavaScript's or-default is the value when it is a non-empty string and the fallback otherwise, so a non-empty fallback gives a non-empty result |
| Text.WebhookUrl | components/dashboard/SettingsView.tsx:49 | the webhook URL starts with the base, and the id it addresses reads back from it |
| Text.WebhookUrlInjective | components/dashboard/SettingsView.tsx:105 | on one origin, distinct webhook ids give distinct URLs |
| Text.WebhookIdOfSound | chrome-extension/options.tsx:66 | any URL an id reads back from is exactly that id's webhook URL |
| Seqs.Filter | server.js:66-67 | `filter` keeps exactly the elements passing the test and never lengthens the list |
| Seqs.FilterIsSubsequence | services/geminiService.ts:38-39 | `filter` keeps what it keeps in the original order |
| Seqs.FilterCounts | contexts/NotificationContext.tsx:79 | `filter` keeps every occurrence of a kept value and none of a rejected one |
| Seqs.FilterAppend | server.js:67 | filtering a concatenation is filtering its parts |
| Seqs.FilterKeepsAll | components/dashboard/DashboardView.tsx:14 | `filter` with a test every element passes returns the list unchanged |
| Seqs.Map | server.js:68-73 | `map` gives one image per element, index by index |
| Seqs.MapContains | services/geminiService.ts:40-45 | every element's image is in the mapped list |
| Seqs.MapAppend | chrome-extension/background.ts:18-25 | mapping a concatenation is mapping its parts |
| Seqs.FindIndex | components/dashboard/SettingsView.tsx:97 | the index is of the first element passing the test, and there is none exactly when no element passes |
| Seqs.Find | components/dashboard/SettingsView.tsx:41 | `find` returns the first element passing the test, and returns nothing exactly when none passes |
| Seqs.RemoveKey | components/dashboard/SettingsView.tsx:43 | removing by key drops every entry with that key, keeps every other entry with all its occurrences, and keeps their order |
| Seqs.RemoveAbsentKey | contexts/NotificationContext.tsx:79 | removing a key no entry has is a no-op |
| Seqs.RemoveKeyAppend | contexts/NotificationContext.tsx:75-79 | removing a key from a concatenation removes it from each part |
| Seqs.RemoveKeyIdempotent | components/dashboard/DashboardView.tsx:14 | deleting the same id twice is the same as deleting it once |
| Types.FindConfig | chrome-extension/background.ts:60 | the lookup returns the first configuration with the id, and nothing exactly when none has it |
| Types.WithoutConfig | components/dashboard/SettingsView.tsx:43 | the configurations left are exactly those without the id, each with all its occurrences, in their original order |
| Types.AddConfig | components/dashboard/SettingsView.tsx:24-35 | a blank name is rejected; otherwise exactly one configuration with the trimmed name, the id and the model is appended, and the earlier ones are untouched and in order |
| Types.AllNamedPreserved | chrome-extension/options.tsx:39-53 | adding and deleting keep every stored name non-empty and trimmed |
| Types.DeleteUnknownIsNoOp | components/dashboard/SettingsView.tsx:41-45 | deleting an id the lookup does not find leaves the list unchanged |
| Types.DeleteUndoesAdd | components/dashboard/SettingsView.tsx:29-43 | deleting the id of a webhook just added with a new id restores the list |
| Types.MessageOr | chrome-extension/popup.tsx:64 | an `Error` yields its message and anything else yields the fallback |
| Types.RequestFailed | chrome-extension/popup.tsx:58 | the thrown `Error` reads "Request failed: ", then the status text, " - " and the response body |
| Types.Settle | chrome-extension/popup.tsx:56-59 | a request succeeds exactly on an ok response and then carries that response; a non-ok one fails with "Request failed: statusText - body"; a rejected fetch fails with what it threw |
| Grounding.ModelFor | server.js:54 | the model is the requested one when its name is non-empty, else `gemini-2.5-flash`; never empty |
| Grounding.SummaryPrompt | server.js:51 | the prompt is the fixed request text followed by the URL verbatim |
| Grounding.SummaryPromptInjective | services/geminiService.ts:18 | the prompt determines the URL |
| Grounding.ChunksOf | server.js:63 | missing grounding chunks are read as none |
| Grounding.HasUri | server.js:67 | a chunk is cited exactly when it has a `web` part with a non-empty uri |
| Server.ServerSource | server.js:68-73 | a cited chunk's source copies its uri and takes its title, or `''` when the title is missing or empty |
| Server.ServerSources | server.js:63-73 | there is one source per chunk with a uri and none for the others; the list is no longer than the chunks; each uri is non-empty and each title is a string |
| Server.ServerSourcesAppend | server.js:66-73 | the sources of concatenated chunks are the concatenated sources, so order is kept |
| Server.ServerSourcesSingle | server.js:67-73 | one chunk yields its source when it has a uri, with title `''` when it has none, and nothing otherwise |
| Server.ServerKeepsDuplicateUris | server.js:66-73 | two chunks with the same uri both stay: no deduplication |
| Server.HandleSummarize | server.js:36-82 | a falsy url gives 400 "URL is required." and an unparsable one gives 400 "Invalid URL format provided.", both without an AI call and in that order; a valid url calls the model with the prompt and the requested model, or `gemini-2.5-flash` when none is named; a thrown call gives 500 with a fixed message; only an answer gives a summary, with its sources (none when chunks are missing) |
| GeminiService.ServiceSource | services/geminiService.ts:40-45 | a cited chunk's source copies its uri and passes its title through unchanged |
| GeminiService.ServiceSources | services/geminiService.ts:33-45 | the same selection as the server, with the title passed through as-is |
| GeminiService.SourcesAgreeWithServer | services/geminiService.ts:38-45 | service and server cite the same uris in the same order; only a missing or empty title differs (`''` on the server) |
| GeminiService.ServiceSourcesAppend | services/geminiService.ts:38-45 | the service's sources of concatenated chunks are the sources of each part concatenated, so order is kept |
| GeminiService.ServiceSourcesSingle | services/geminiService.ts:38-45 | one chunk yields its pass-through source when it has a uri and nothing otherwise |
| GeminiService.ServiceKeepsDuplicateUris | services/geminiService.ts:38-45 | the service does not deduplicate either |
| GeminiService.FailureMessage | services/geminiService.ts:48-53 | an `Error` is rethrown as "Gemini API Error: " + its message, and anything else as "The model failed to generate a response." |
| GeminiService.FailureMessageInjective | services/geminiService.ts:50-53 | the rethrown message tells the two failure kinds apart and preserves the original message |
| GeminiService.SummarizeContentFromUrl | services/geminiService.ts:16-55 | the service always calls the model with the prompt and the requested model, or `gemini-2.5-flash` when none is named; it fails exactly when the call throws, with the mapped message; otherwise it returns the text and the service sources |
| Notifications.StyleOf | contexts/NotificationContext.tsx:26-37 | success toasts get the check icon and error toasts the alert circle, and never the other way round |
| Notifications.WithoutNotification | contexts/NotificationContext.tsx:79 | the toasts left are exactly those without the id, each with all its occurrences, in their original order |
| Notifications.NotificationCenter.constructor | contexts/NotificationContext.tsx:71 | the provider starts with no toasts |
| Notifications.NotificationCenter.AddNotification | contexts/NotificationContext.tsx:73-76 | exactly one toast with the clock id, the message and the type is appended at the end |
| Notifications.NotificationCenter.RemoveNotification | contexts/NotificationContext.tsx:78-80 | every toast with the id goes and the rest stay in order |
| Notifications.UseNotification | contexts/NotificationContext.tsx:18-24 | the hook returns the provider's context and fails with the fixed message exactly when there is no provider |
| Notifications.RemoveAfterAdd | contexts/NotificationContext.tsx:73-80 | dismissing a toast just added takes it away again |
| Notifications.RemoveOtherAfterAdd | contexts/NotificationContext.tsx:75-79 | dismissing another id keeps a toast just added, at the end |
| Notifications.SameInstantDismissedTogether | contexts/NotificationContext.tsx:74-79 | two toasts added at the same instant share an id and one dismissal removes both |
| Notifications.RemoveAbsentNotification | contexts/NotificationContext.tsx:79 | dismissing an id no toast has changes nothing |
| Settings.ModelLabel | components/dashboard/SettingsView.tsx:97 | the label is the non-empty name of the first model with the webhook's id; it is "Default Model" when no model has that id or that name is empty; never empty |
| Settings.ModelLabels | components/dashboard/SettingsView.tsx:12-15 | with the one model offered, only its id is labelled "Gemini 2.5 Flash" |
| Settings.SettingsView.constructor | components/dashboard/SettingsView.tsx:18-19 | the page opens with an empty name and the first model selected |
| Settings.SettingsView.SetNewWebhookName | components/dashboard/SettingsView.tsx:68 | typing changes only the name field |
| Settings.SettingsView.SetNewWebhookModel | components/dashboard/SettingsView.tsx:74 | choosing changes only the model field |
| Settings.SettingsView.AddWebhook | components/dashboard/SettingsView.tsx:22-38 | a blank name leaves configurations and field alone and adds the error toast; otherwise AddConfig with the selected model, the field is cleared, and one success toast names the trimmed name |
| Settings.SettingsView.DeleteWebhook | components/dashboard/SettingsView.tsx:40-46 | an unknown id changes nothing and adds no toast; a known one removes every configuration with it and adds one toast naming the first |
| Settings.SettingsView.CopyToClipboard | components/dashboard/SettingsView.tsx:48-52 | the clipboard gets origin + "/api/webhook/" + id and one success toast is added |
| Dashboard.ContentFor | components/dashboard/DashboardView.tsx:26-50 | no configurations shows "No webhooks configured" whatever the results; configurations without results show the placeholder; otherwise one card per result in order |
| Dashboard.WithoutResult | components/dashboard/DashboardView.tsx:14 | the results left are exactly those without the id, each with all its occurrences, in their original order |
| Dashboard.DashboardView.constructor | components/dashboard/DashboardView.tsx:12 | the view holds the configurations and results it is given |
| Dashboard.DashboardView.DeleteResult | components/dashboard/DashboardView.tsx:13-15 | every result with the id goes and the others keep their order |
| Dashboard.DeleteAbsentResult | components/dashboard/DashboardView.tsx:14 | deleting an id no result has changes nothing |
| Dashboard.DeletingLastCardShowsPlaceholder | components/dashboard/DashboardView.tsx:28-40 | deleting the only card brings back the waiting placeholder |
| Options.TestRequest | chrome-extension/options.tsx:61-75 | no request without a base URL; otherwise one to that webhook's URL asking for the fixed test page |
| Options.OptionsPage.constructor | chrome-extension/options.tsx:9-12 | the page starts with empty configurations, URL, name and status |
| Options.OptionsPage.Load | chrome-extension/options.tsx:14-19 | missing stored values fall back to the defaults, so the base URL is never empty after loading |
| Options.OptionsPage.SetApiBaseUrl | chrome-extension/options.tsx:105 | typing changes only the URL |
| Options.OptionsPage.SetNewWebhookName | chrome-extension/options.tsx:122 | typing changes only the name field |
| Options.OptionsPage.SaveSettings | chrome-extension/options.tsx:26-30 | saving reports success and changes nothing else |
| Options.OptionsPage.AddWebhook | chrome-extension/options.tsx:32-50 | a blank name only sets "Webhook name cannot be empty."; otherwise one configuration with the trimmed name and no model is appended, the field is cleared and the status names it |
| Options.OptionsPage.DeleteWebhook | chrome-extension/options.tsx:52-58 | every configuration with the id goes, the rest keep their order, and the status says so |
| Options.OptionsPage.TestWebhook | chrome-extension/options.tsx:60-88 | an empty base URL sets the error status and sends nothing; otherwise the test request is sent, and only an ok response ends in the success status |
| Background.MenuFor | chrome-extension/background.ts:8-27 | missing or empty configurations give no menu; otherwise a parent item and then one child per configuration in order, with its id, its name, the parent's id and the `page` context |
| Background.ShouldRebuild | chrome-extension/background.ts:41 | a change triggers a rebuild exactly when it is in the sync area and touches the configurations or the base URL |
| Background.ClickAccepted | chrome-extension/background.ts:48 | a click passes exactly when its tab has a non-empty URL and its parent is the extension's menu item; the separate truthiness test on the parent id adds nothing |
| Background.Configured | chrome-extension/background.ts:53 | the extension may send only with a non-empty base URL and at least one stored webhook |
| Background.ChildrenHangUnderParent | chrome-extension/background.ts:18-25 | every child entry carries the parent's id and its configuration's id |
| Background.ChildClicksAccepted | chrome-extension/background.ts:48 | a click on any child entry in a tab with a URL passes the guard |
| Background.WebhookName | chrome-extension/background.ts:60 | the name is the first matching configuration's name when that is non-empty, and "Unknown Webhook" when there is no match or the name is empty |
| Background.OnClicked | chrome-extension/background.ts:47-95 | a click without a tab URL or not under the parent item is ignored; an unconfigured extension opens its options and sends nothing; otherwise the tab's URL is posted to the clicked webhook, and the success notification comes exactly for an ok response, the error one with the thrown message otherwise |
| Background.ContextMenus.RemoveAll | chrome-extension/background.ts:9 | the registry is emptied |
| Background.ContextMenus.Create | chrome-extension/background.ts:12-24 | one item joins the registry at the end |
| Background.ContextMenus.CreateOrUpdate | chrome-extension/background.ts:8-27 | whatever the registry held, it ends as MenuFor of the configurations |
| Background.ContextMenus.Update | chrome-extension/background.ts:29-32 | a missing stored list rebuilds as an empty one |
| Background.ContextMenus.OnStorageChanged | chrome-extension/background.ts:40-44 | the menu is rebuilt only for a sync-area change of the configurations or the base URL, and otherwise left as it was |
| Popup.DisplayedError | chrome-extension/popup.tsx:135 | an error of at most 50 characters is shown whole; a longer one as its first 50 characters and "..."; never more than 53 |
| Popup.DisplayedErrorIdempotent | chrome-extension/popup.tsx:135 | truncating a shown error again changes nothing |
| Popup.LongErrorsShownAlike | chrome-extension/popup.tsx:135 | two long errors look alike exactly when their first 50 characters agree |
| Popup.PopupView.constructor | chrome-extension/popup.tsx:9-14 | the popup starts idle, with nothing loaded, selected or copied |
| Popup.PopupView.IsConfigured | chrome-extension/popup.tsx:88 | the popup counts as configured exactly when the background worker would send with these settings |
| Popup.PopupView.SummarizeDisabled | chrome-extension/popup.tsx:128 | the button is disabled only while loading, when no status line is shown |
| Popup.PopupView.StatusLine | chrome-extension/popup.tsx:134-135 | an unconfigured popup shows no status line; otherwise success shows the triggered line, error shows "Error: " and the truncated error, and idle or loading show nothing |
| Popup.PopupView.Load | chrome-extension/popup.tsx:16-25 | a missing list becomes empty and a missing URL becomes `''`; the first webhook is selected when there is one; the popup asks for setup exactly when the background worker would open the options instead |
| Popup.PopupView.SelectWebhook | chrome-extension/popup.tsx:108 | choosing changes only the selection |
| Popup.PopupView.StartSummarize | chrome-extension/popup.tsx:27-42 | no selection or no base URL gives the configure error; no tab throws and changes nothing; a tab without a URL gives the tab error; otherwise the status is loading, the error is cleared, the button is disabled, and the tab's URL is posted to the selected webhook |
| Popup.PopupView.FinishSummarize | chrome-extension/popup.tsx:44-66 | success exactly on an ok response; otherwise the error status with the thrown message or "An unknown error occurred."; the button is enabled again |
| Popup.PopupView.CopyUrl | chrome-extension/popup.tsx:69-81 | nothing happens without a selection or a base URL; otherwise the webhook URL is offered to the clipboard, and the button shows "Copied!" on success and the error is set on failure |
| Popup.PopupView.ResetCopyStatus | chrome-extension/popup.tsx:75 | the copy button goes back to its idle label |

## Left out

- I/O and platform plumbing:
  - The Express setup, static serving, the catch-all route, `app.listen` and the `API_KEY` exit (server.js:1-32, server.js:85-96).
  - `services/apiService.ts`.
  - All network transport. Requests are values and responses are oracle answers.
- The Gemini SDK and `new URL` parsing are oracles. Only `text` and the first candidate's `groundingChunks` of an answer are modelled.
- Chrome APIs. `chrome.storage` reads are a `StoredSettings` value. The background worker's `openOptionsPage` is the `OpenedOptions` click effect. Storage writes, the popup's two `openOptionsPage` buttons (chrome-extension/popup.tsx:99, :139), `window.close` and `console.error` are not modelled. The menu registry is the `items` sequence. A system notification is a value.
- Timers:
  - the toast auto-dismiss after 5 seconds;
  - the options page's status auto-clear after 3 seconds;
  - the popup's window close after 1.5 seconds.
  The popup's 2-second copy-label reset is `ResetCopyStatus`, to be called by whoever models time.
- Asynchrony:
  - A `.then` continuation is taken to run right after its handler. The options page's add clears its field after the write, and that interleaving is not modelled.
  - The popup's summarize is split at its request into `StartSummarize` and `FinishSummarize`.
  - React's batching of state updates and closures seeing stale state are not modelled. The settings page's delete looks up the rendered list and filters the latest one; this model takes them to be the same list.
- Options.OptionsPage.TestWebhook: the "Sending test to …" status (chrome-extension/options.tsx:67) shown while the request is in flight is overwritten within the same call, so its contract states only the final status.
- Options.OptionsPage.TestWebhook: the message of the error thrown for a non-ok response ("Request failed with status …") is not modelled, because the page never shows it.
- `Date.now()`/`Math.random()` ids are parameters, and their uniqueness is not assumed. `SameInstantDismissedTogether` shows what equal clock readings do.
- String lengths count Dafny characters, not UTF-16 code units. The 50-character cut of `Popup.DisplayedError` differs for text outside the Basic Multilingual Plane.
- Popup.PopupView.SummarizeDisabled: it is the button's `disabled` attribute; the button exists only when IsConfigured() holds (chrome-extension/popup.tsx:96-137), which the predicate does not include.
- Popup.DisplayedError: it does not state "shown whole only when short". A 53-character error ending in "..." is shown unchanged too.
- `WebhookConfig.url` of `types.ts` is absent, because no modelled code sets or reads it.
- A JSON `url` that is not a string is not modelled. The body's `url` is an optional string.
- Rendering is modelled only where it carries logic: the dashboard's content choice, the toast style, the model label, the popup's status line and its button's disabled state.
