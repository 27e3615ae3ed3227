# Video-And-AI orchestration core, modelled in Dafny

This project models the orchestration logic of the Video-And-AI React app. The model has three parts.

1. **The request supervisor of App.tsx.** This is `onModeSelect` together with `handleCancel`:
   - the no-file guard;
   - the request token taken from `Date.now()`;
   - prompt resolution from the mode table;
   - up to three generation attempts, with an exponential back-off wait after each empty attempt except the last;
   - applying the final response by a fixed priority;
   - supersession: a request whose token has been replaced gives up at its next check.
2. **The upload path:**
   - `uploadFile` of api.ts: one upload, then the file state is polled every 2000 ms while it is `PROCESSING`, with at most 60 re-polls, reporting progress and status along the way;
   - `handleFileUpload` of App.tsx: the media-type check, the reset of the session, and the replacement of the object URL that backs the player;
   - the unmount clean-up.
3. **The session and its pure parts:**
   - the session record of context.tsx and its initial values;
   - the mode table of modes.ts;
   - the `setTimecodes` sanitiser;
   - the sidebar's width clamp, button predicates and key handling (Sidebar.tsx);
   - the output panel's view selection and filters (OutputPanel.tsx).

Remote services are oracles:
- **Generation service.** `Env.replies[i]` is what attempt `i` resolves or rejects with. `Env.jitter[i]` is the `Math.random() * 1000` jitter of the wait after attempt `i`.
- **Token replacement.** `Env.replacedDuring` is the suspension during which another handler first replaced the request token. A newer request or a cancel does this. Call `i` is suspension `2i`, and the wait after it is suspension `2i + 1`.
- **File service.** `polls[j]` is the handle the `j`-th state fetch answers with.
- **Object URLs.** `newUrl` is the object URL `URL.createObjectURL` returns.

Each handler is a pure function from the session to the ordered trace of `Effect`s it performs. `Effects.ApplyAll` plays a trace on a `Machine`. A `Machine` is the session record plus `latestRequestRef`, `vidUrlRef` and a ledger of live object URLs.

Tokens are `Date.now()` values, and the model assumes they never repeat: once a token has been replaced, it never becomes current again. `SupervisorProofs.CancelWithRepeatedClockIsIneffective` shows why this is an assumption. A cancel in the same millisecond as the request it targets leaves that request current.

Points where the code is not what a reader of its design would expect (the model follows the code throughout):

- **Final response.** Inside the loop a `SAFETY` or `RECITATION` finish reason stops retrying first. When the final response is applied, however, a usable `set_timecodes*` call and non-empty text both win over the finish reason. The finish reason only decides between the two block messages and the no-valid-response message. See `Supervisor.Classify`.
- **Stopping on a call.**
  - Any first function call stops the loop, even one without a name or arguments. Such a call is then not applied. Without text or a block reason, the request ends with the no-valid-response message after a single call.
  - A usable call whose name does not start with `set_timecodes` stops the loop and writes no output at all.
- **Upload timeout.** The poller fetches the state up to 61 times: the first fetch plus 60 re-polls. A timeout reports neither 100 nor 0, so there is no final 0 report (`Upload.TimeoutReportsNoEnd`).
- **Other settled states.** Any settled state other than `FAILED` counts as success, not only `ACTIVE` (`Upload.SuccessIff`).
- **A superseded request is not fully silent.**
  - A back-off wait that is already scheduled still elapses.
  - The `finally` block still scrolls the output to the top.
  - It writes no output and does not clear `isLoading` (`SupervisorProofs.SupersededRequestIsQuiet`).
- **Uploading does not replace the request token.** A generation request still running for the previous file stays current, and still applies its outcome after the upload has cleared the results (`MediaUpload.UploadKeepsRequestToken`).
- **Enter bypasses the disabled Generate button.** Enter without Shift in a prompt box submits even while Generate is disabled, whether a request is loading or the prompt is blank (`Sidebar.EnterIgnoresDisabled`, `Sidebar.EnterSubmitsWhileDisabledExample`).
- **Mode and prompt can disagree, in `onModeSelect`'s interface only.** The prompt is chosen by the *selected* mode's Custom and Chart tests, but it is read from the mode that was *passed in*. When the two disagree, Chart wraps the custom prompt, Custom wraps the chart prompt, and a prompt function can reach the call uncalled (`SupervisorProofs.UncalledTemplateReachesCall`). Calling Custom while Chart is selected with a preset reads a missing `subModes` and throws (`Supervisor.ModePromptDisagreement`). The app itself never reaches these cases: App.tsx:252-253 hands `onModeSelect` only to the sidebar, and every sidebar call passes the current `selectedMode` (Sidebar.tsx:101, Sidebar.tsx:133, Sidebar.tsx:194), which `Sidebar.Handle` states. They are a hazard for any other caller of the function, not a behaviour of the running app.
- **Initial chart mode.** The initial chart mode `'Sentiment'` is not a Chart preset. A Chart request made before a preset is picked therefore interpolates `undefined` (`Context.InitialChartModeHasNoPreset`).

## Model

| member | source | states |
|---|---|---|
| Context.InitialState | context.tsx:72-92 | the session starts with no file, URL, media type, results or errors; both loading flags are off, progress is 0, the status is empty, the sidebar is shown, the segment index is -1, the selected mode is the first table key, and the chart mode is 'Sentiment' |
| Context.UseAppContext | context.tsx:124-130 | reading the context fails exactly when no provider value exists, with the provider error message; otherwise it yields the provided value |
| Context.InitialChartModeHasNoPreset | context.tsx:89 | the initial chart mode names none of Chart's presets, so the preset lookup of a Chart request made before a preset is picked finds nothing |
| Effects.ApplyFrame | App.tsx:37-70 | one effect changes only what it writes: the request token only through a token write, `vidUrlRef` and the live URLs only through the object-URL calls, and a wait, call or scroll changes nothing |
| Effects.InitialMachine | App.tsx:69-70 | a fresh session has request token 0, no object URL held and none live |
| Effects.QuietTailIsNoOp | App.tsx:125-181 | the part of a quiet trace after its k-th suspension consists only of timers and scrolls, so it changes nothing whatever ran in between |
| Effects.QuietConcat | App.tsx:125-181 | quiet traces compose across the point where the token was replaced |
| Strings.TrimStart | Sidebar.tsx:197 | the result is the suffix of the input after its leading JavaScript whitespace, and it starts with a non-whitespace character |
| Strings.TrimEnd | Sidebar.tsx:197 | the result is the prefix of the input before its trailing whitespace, and it ends with a non-whitespace character |
| Strings.Trim | Sidebar.tsx:197-198 | `trim()` is the slice of the input between a whitespace-only start, ending where `TrimStart` begins, and a whitespace-only end; a non-empty result starts and ends with non-whitespace |
| Strings.TrimEmptyIffBlank | Sidebar.tsx:197-198 | `!s.trim()` holds exactly when every character of `s` is whitespace |
| Sanitize.Unescape | App.tsx:82 | the global backslash-quote replacement never lengthens a text; it shortens it exactly when the text contains a backslash-quote pair, and otherwise leaves it unchanged |
| Sanitize.UnescapeEscape | App.tsx:82 | the replacement undoes quote escaping for every text, backslashes included |
| Sanitize.SanitizeEntry | App.tsx:81-83 | one entry keeps its time, objects and value and whether it has a text; the text never grows, and one without an escaped quote is kept as it is |
| Sanitize.SanitizeTimecodes | App.tsx:80-85 | `setTimecodes` keeps length and order; it changes only texts, never lengthens one, keeps which entries have a text, and leaves entries without an escaped quote unchanged |
| Sanitize.SanitizeUndoesEscaping | App.tsx:80-85 | a list whose texts were escaped is stored exactly as it was before escaping |
| Modes.ModeTable | modes.ts:28-131 | the table holds eight modes in declaration order with distinct keys; exactly Chart and Custom carry prompt functions and every other mode stores its own prompt; only Chart has sub-modes; `isList` holds exactly for the four list keys |
| Modes.FirstKey | modes.ts:28-29 | `Object.keys(modes)[0]` is 'A/V captions' |
| Modes.Lookup | App.tsx:110 | `modes[key]` is defined exactly for the table's eight own keys; the entry found has that key, its prompt kind, its sub-modes (Chart only) and its list flag as the table says |
| Modes.LookupIsTableEntry | modes.ts:28-131 | the entry `modes[key]` is the one found by searching the table in declaration order for that key, so the per-key rules stated for `Lookup` are read off the table itself |
| Modes.FindSubMode | App.tsx:118 | `subModes[name]` is defined exactly when a preset has that name as an own key, and it is that preset's description |
| Modes.ApplyTemplate | modes.ts:111-128 | the Custom template starts with its fixed prefix; the Chart template starts with its prefix and ends with its suffix |
| Modes.TemplateRoundTrip | modes.ts:111-128 | stripping the fixed prefix (and the Chart suffix) from a template's output gives back exactly the interpolated input, with a missing input spelled 'undefined' |
| Modes.ChartModeNames | App.tsx:35 | the Chart preset names are Excitement, Importance and Number of people, in order |
| Modes.ChartPresets | modes.ts:114-120 | the Chart entry carries the three presets |
| Modes.SentimentIsNotAPreset | modes.ts:114-120 | looking up 'Sentiment' among Chart's presets yields nothing |
| Supervisor.Classify | App.tsx:149-170 | the final response is applied by the first matching rule: a call with a non-empty name and arguments (a `set_timecodes*` name sets the list from its `timecodes`, any other name is ignored), then non-empty text, then SAFETY, then RECITATION, then no valid response; each direction is stated |
| Supervisor.ResolvePrompt | App.tsx:110-120 | resolution fails exactly for a mode that is not an own key of the table, or for Custom called while Chart is selected with a preset; when `mode` is the selected mode, Custom gives its prefix and the custom prompt, and Chart gives prefix, chart prompt or preset description, and suffix; every other mode gives its stored prompt |
| Supervisor.ModePromptDisagreement | App.tsx:110-120 | when the mode passed in and the selected mode disagree: an unknown mode throws the `.prompt` TypeError; Custom with Chart selected gives the Custom prefix and the chart prompt, or throws reading the missing `subModes` for a preset; Chart with Custom selected wraps the custom prompt in the Chart template; Chart or Custom with neither selected passes the prompt function on uncalled |
| Supervisor.ChartLabel | App.tsx:102-108 | the chart label is the chart prompt in custom chart mode, the chart mode with a preset, and '' outside Chart mode |
| SupervisorProofs.RequestStartsWithToken | App.tsx:87-94 | a request writes only the no-file error exactly when there is no file; with a file it first takes its token, before anything else, and does more than the seven start writes |
| Supervisor.Cancel | App.tsx:184-188 | a cancel issues its clock value as the token, turns loading off and clears the error; it never suspends and writes no timecodes, text or active mode |
| SupervisorProofs.Schedule | App.tsx:123-144 | the longest suspension schedule has five entries: calls at even positions with attempt q/2, and after each of the first two calls a wait lasting between 1000·2^i and 1000·2^i + 1000 ms |
| SupervisorProofs.FirstSettled | App.tsx:124-139 | the deciding attempt is below 3; every earlier reply neither threw nor carried a stop signal; and it settles unless it is the last attempt |
| SupervisorProofs.SuspensionCount | App.tsx:124-145 | a request suspends at most five times |
| SupervisorProofs.RunStartsWithCall | App.tsx:124-127 | the loop from attempt i only scrolls exactly when the token was already replaced, and otherwise starts with attempt i's call with the request's prompt |
| SupervisorProofs.RunEndsWithScroll | App.tsx:122-181 | however the loop ends (settled reply, thrown error, last attempt or replaced token) its last effect is the `finally` block's scroll |
| SupervisorProofs.RequestEndsWithScroll | App.tsx:108-181 | a request with a file ends with the scroll to the top, whether its prompt resolves or not |
| SupervisorProofs.RunFollowsSchedule | App.tsx:124-145 | the loop entered at attempt i suspends exactly at the schedule's entries from 2i up to the suspension count |
| SupervisorProofs.RequestFollowsSchedule | App.tsx:123-144 | a request with a file and a resolvable prompt suspends exactly at the first suspension-count entries of the schedule: at most three calls in attempt order, and a bounded wait only between consecutive attempts |
| SupervisorProofs.OnModeSelectCases | App.tsx:87-120 | a request has one of three shapes: the no-file error alone; the start writes then the catch and finally writes of a prompt error; or the start writes then the retry loop |
| SupervisorProofs.UncalledTemplateReachesCall | App.tsx:110-127 | with Chart or Custom passed in while neither is selected, the first call of a request with a file receives the prompt function itself instead of a prompt text |
| SupervisorProofs.NoPromptNoCall | App.tsx:88-120 | a request without a file, or with a prompt that cannot be resolved, makes no call and never waits |
| SupervisorProofs.EarlyStop | App.tsx:129-139 | once an attempt's reply throws or carries a stop signal, no later attempt calls or waits |
| SupervisorProofs.ScheduleStopsAt | App.tsx:129-139 | every suspension in the request's schedule belongs to an attempt no later than any attempt that settles |
| SupervisorProofs.RunIsQuiet | App.tsx:125-181 | the loop from attempt i, once its token was replaced, makes no further call and writes nothing; only an already scheduled wait and the final scroll happen |
| SupervisorProofs.SupersededRequestIsQuiet | App.tsx:124-181 | after the suspension during which its token was replaced, a request makes no call and writes no timecodes, text or error, and does not touch `isLoading` |
| SupervisorProofs.ReplyOutputs | App.tsx:149-175 | applying a reply leaves at most one of the three outputs set, and none exactly when the reply is a usable call with a non-`set_timecodes` name |
| SupervisorProofs.ExpectedOutputs | App.tsx:98-175 | what a current request leaves in the outputs has at most one of them set |
| SupervisorProofs.WritesStoreOutputs | App.tsx:149-175 | the outcome writes of a reply, on cleared outputs, store exactly that reply's outputs and change nothing else |
| SupervisorProofs.SettleOutputs | App.tsx:147-181 | settling a request that is still current stores the reply's outputs and clears `isLoading` |
| SupervisorProofs.RunOutcome | App.tsx:122-181 | a loop that is never superseded ends with the deciding reply's outputs stored and `isLoading` cleared |
| SupervisorProofs.StartClearsResults | App.tsx:93-107 | the start of a request takes the token, sets the active mode and the chart label, marks the session loading and clears all three outputs |
| SupervisorProofs.CurrentRequestOutcome | App.tsx:87-182 | a request with a file that is never superseded ends with its token current, loading off, mode and label set, and exactly the expected outputs, whatever the outputs held before; nothing else changes |
| SupervisorProofs.PromptFailureOutcome | App.tsx:171-179 | a prompt that cannot be resolved is reported as the request's error, with loading cleared |
| SupervisorProofs.NoFileGuard | App.tsx:88-91 | without a file, a request only sets the no-file error: no call, and the token stays unchanged |
| SupervisorProofs.AmbiguousRepliesExhaustRetries | App.tsx:123-169 | when no reply settles and nothing supersedes the request, three calls and two waits happen and the request ends with the no-valid-response error |
| SupervisorProofs.LastRequestWins | App.tsx:87-182 | if request A is superseded by request B, which runs to completion before A's remainder, the session ends exactly as B left it: B's outputs and B's token |
| SupervisorProofs.CancelSupersedes | App.tsx:184-188 | a cancel with a fresh token makes the running request stale, stops loading, clears the error and changes nothing else |
| SupervisorProofs.CancelWithRepeatedClockIsIneffective | App.tsx:185 | a cancel whose clock value equals the running token leaves that request current |
| Upload.Poll | api.ts:105-130 | the polling loop returns one of the fetched handles, with a settled state other than `FAILED`, or throws the timeout or the failure message |
| Upload.UploadFile | api.ts:80-131 | an upload opens with 'Uploading file...', 10, the upload call, 50, 'Processing media...' and the first fetch; it returns a fetched handle that is neither `PROCESSING` nor `FAILED`, or throws one of the two messages |
| Upload.SettledFrom | api.ts:105-119 | the first fetch, from a given one on among the 61, whose state is not `PROCESSING`; none exactly when all of them are |
| Upload.PollClosedForm | api.ts:105-130 | the loop entered after r re-polls makes one report-wait-fetch round per re-poll up to the first settled fetch, then ends as that fetch decides |
| Upload.UploadClosedForm | api.ts:80-131 | the whole trace is the opening, one round per re-poll, and the ending of the outcome decided by the first settled fetch |
| Upload.ProgressTrace | api.ts:86-127 | progress is reported as 10, then 50, then min(55 + 5j, 95) once per re-poll, then 100 on success, 0 on failure and nothing more on timeout |
| Upload.RampBounds | api.ts:111 | every polling report lies in [55, 95], and the reports before the ending never decrease, also with 100 appended |
| Upload.FetchesAndSleeps | api.ts:97-119 | the state is fetched once plus once per re-poll, so at most 61 times, with one timer per re-poll |
| Upload.SleepsPrecedeFetches | api.ts:113-118 | every timer lasts 2000 ms and is followed at once by a fetch |
| Upload.ProgressMonotone | api.ts:101-126 | the reports never decrease on success, and on failure the final 0 is the only drop |
| Upload.TimeoutReportsNoEnd | api.ts:105-108 | a timeout reports neither 100 nor 0 |
| Upload.TimeoutIff | api.ts:105-108 | the upload times out exactly when all 61 fetches answer `PROCESSING` |
| Upload.FailedIff | api.ts:121-124 | the upload fails exactly when the first settled fetch is `FAILED` |
| Upload.SuccessIff | api.ts:121-130 | the upload succeeds exactly when the first settled fetch has any other state, and it then returns that fetch's handle |
| Upload.StatusOrder | api.ts:86-127 | the statuses are 'Uploading file...', 'Processing media...' and, only on success, 'Processing complete' |
| MediaUpload.HandleFileUpload | App.tsx:190-232 | no file means no effect; a file of another type only sets the invalid-type error; an accepted file first turns the loading flag on and ends with the `finally` block turning it off and zeroing progress |
| MediaUpload.Unmount | App.tsx:72-78 | the unmount clean-up releases the held object URL exactly when it is truthy, and does nothing else |
| MediaUpload.NotBoth | App.tsx:193-194 | no MIME type is both video and audio |
| MediaUpload.MediaKind | App.tsx:193-199 | a file is accepted as video exactly when its type starts with 'video/', as audio exactly when it starts with 'audio/', and rejected otherwise |
| MediaUpload.ReportWrites | App.tsx:219-223 | the upload's callbacks only write progress and status |
| MediaUpload.ResetEffect | App.tsx:201-209 | the reset turns the loading flag on; clears the file, results and errors; zeroes progress and duration; sets the media type; changes nothing else |
| MediaUpload.UrlSwapEffect | App.tsx:211-216 | the URL held before is released when truthy; the new one becomes live, is held in `vidUrlRef` and is shown |
| MediaUpload.ReportEffect | App.tsx:219-223 | the reports leave the last progress and the last status reported, and touch nothing else |
| MediaUpload.UploadReportsEffect | App.tsx:219-223 | after the upload's reports, the status is 'Processing complete' on success and 'Processing media...' otherwise |
| MediaUpload.SettleEffect | App.tsx:224-231 | the handle or the thrown message is stored, loading ends and progress returns to 0 |
| MediaUpload.RejectedFile | App.tsx:190-199 | without a file the handler does nothing; with a file of any other type it only sets the invalid-type error |
| MediaUpload.AcceptedFile | App.tsx:190-232 | an accepted file ends the handler with loading off, progress 0, earlier results cleared, the media type and new URL set, and either the returned handle (no error) or the thrown message (no file) |
| MediaUpload.UploadKeepsRequestToken | App.tsx:190-232 | uploading never changes the request token |
| MediaUpload.InitialLedger | App.tsx:70 | a fresh session holds no URL and has none live |
| MediaUpload.UploadKeepsLedger | App.tsx:211-215 | every upload keeps at most one object URL live, namely the one `vidUrlRef` holds |
| MediaUpload.UnmountReleasesAll | App.tsx:72-78 | unmounting releases every live object URL |
| Sidebar.ClampWidth | Sidebar.tsx:68 | the width lies in [200, 600] and equals the request when that lies in range, or else the nearer bound |
| Sidebar.InitialWidthInRange | Sidebar.tsx:55 | the initial 250-pixel width already lies in the clamped range |
| Sidebar.ClampWidthIdempotentMonotone | Sidebar.tsx:68 | clamping twice is clamping once, and clamping keeps order |
| Sidebar.Resize | Sidebar.tsx:62-72 | the width follows the mouse only while resizing with the sidebar mounted, and stays in range |
| Sidebar.GenerateDisabled | Sidebar.tsx:195-199 | Generate is disabled whenever a request loads; when none loads it is enabled in every mode without a prompt box and for a chart preset |
| Sidebar.GenerateDisabledIff | Sidebar.tsx:195-199 | Generate is disabled exactly while loading, or when the prompt in use (custom prompt, or chart prompt in custom chart mode) is whitespace only |
| Sidebar.ModeButtonsDisabledIff | Sidebar.tsx:147-154 | of the eight mode buttons exactly Table is disabled, and only for audio |
| Sidebar.Handle | Sidebar.tsx:85-201 | an action on a hidden or disabled control does nothing; a submission leaves the session as it is and submits the selected mode; an edit touches only the selected mode, chart mode and two prompts |
| Sidebar.HandleFrame | Sidebar.tsx:85-201 | a sidebar action edits only the selected mode, chart mode and two prompts, and submits only the selected mode |
| Sidebar.GenerateSubmitsIffEnabled | Sidebar.tsx:192-199 | clicking Generate submits exactly when the sidebar is shown and the button is enabled |
| Sidebar.EnterIgnoresDisabled | Sidebar.tsx:98-136 | in a prompt box, Enter without Shift submits the selected mode whatever the button state; with Shift it does not |
| Sidebar.EnterSubmitsWhileDisabledExample | Sidebar.tsx:98-103 | with an empty custom prompt and a request loading, Generate is disabled and Enter still submits |
| Sidebar.BackLeavesSubMode | Sidebar.tsx:186-190 | Back selects the first mode key, which shows the mode list again |
| Sidebar.FocusSelectsCustomChart | Sidebar.tsx:136 | focusing the chart prompt selects the custom chart mode, after which Generate is disabled exactly while loading or with a blank chart prompt |
| Sidebar.PresetResolves | Sidebar.tsx:113-119 | a preset picked from the chart list resolves to a description |
| OutputPanel.TextItems | OutputPanel.tsx:74-75 | the filtered list is no longer than the list, and every kept entry has a text |
| OutputPanel.TextBasedTimecodes | OutputPanel.tsx:74-75 | a null list gives the empty list; otherwise only entries with a text are kept |
| OutputPanel.TextItemsConcat | OutputPanel.tsx:74-75 | filtering keeps relative order: the filter of a concatenation is the concatenation of the filters |
| OutputPanel.TextItemsMembership | OutputPanel.tsx:74-75 | an entry is kept exactly when it is in the list and has a text |
| OutputPanel.TextItemsAllOrFewer | OutputPanel.tsx:74-75 | the filter keeps everything exactly when every entry has a text, and it is idempotent |
| OutputPanel.SanitizeKeepsTextBased | App.tsx:81-83 | sanitising does not change the number of text-based entries |
| OutputPanel.ShowActionToolbar | OutputPanel.tsx:77-80 | the toolbar never shows for Table or Chart, nor without a non-empty list |
| OutputPanel.ToolbarIff | OutputPanel.tsx:77-80 | the toolbar shows exactly when some listed entry has a text and the active mode is neither Table nor Chart |
| OutputPanel.IsListModeIff | OutputPanel.tsx:149 | `modes[k]?.isList` holds exactly for the four list keys |
| OutputPanel.TimecodeViewByMode | OutputPanel.tsx:100-181 | with a list on show, Table gives the table, Chart the chart, the four list modes the list, and Paragraph and Haiku the sentence buttons; each direction is stated |
| OutputPanel.ViewItemsAreTextBased | OutputPanel.tsx:100-181 | list and sentence views show only text-based entries, while table and chart get the whole list |
| OutputPanel.RenderContent | OutputPanel.tsx:82-183 | the spinner shows exactly while loading; every other view shows what the session holds: the non-empty error or text, the whole list for a table or chart (with the chart label), and only text entries for a list or sentences |
| OutputPanel.ViewOfOutputs | OutputPanel.tsx:94-183 | for every session once loading is over, whatever the outputs hold: a non-empty error is shown first; a non-empty text only without one; a stored list only when neither is shown; and nothing when none of the three is there |
| OutputPanel.ViewAfterRequest | OutputPanel.tsx:82-183 | after a current request the panel no longer spins, and it shows that request's own error, text or list |
| OutputPanel.LoadingHidesEverything | OutputPanel.tsx:83-93 | while loading, the panel shows only the spinner with Cancel, whatever else the session holds |

## Left out

- The generation SDK call (`generateContent`, api.ts:35-78) and the file service's `files.upload`/`files.get` are oracles: replies, states and handles are inputs.
- Time, timers and real asynchrony:
  - `setTimeout` waits are events that carry their delay;
  - the `Math.random()` jitter is an input constrained to [0, 1000);
  - interleaving with other handlers is reduced to the suspension during which the request token is replaced, which is all supersession depends on.
- The `files.upload`/`files.get` calls rejecting inside `uploadFile`, and the 'Error processing file.' fallback for a non-`Error` thrown value, are not modelled. The upload ends only in the timeout, the failure, or a handle.
- JSX, hooks, DOM listeners, drag-and-drop, `scrollIntoView` of the active segment, the sidebar collapse button and the hidden-sidebar width are left out. `console.error` is left out too. Scrolling to the top is an inert effect. `URL.createObjectURL`/`revokeObjectURL` are modelled only as a ledger of live URLs.
- A Table view whose entries have no `objects` field throws while rendering. The model only says the table gets the whole list.
- ApiKeyModal.tsx and vite.config.ts are not part of this model: one is UI only, the other build configuration. So are the API-key fields Sidebar.tsx reads, which the session record does not define.
- The literal instruction texts, emojis and descriptions of modes.ts are left out. A fixed prompt is represented by the key of the mode that stores it. The two templates are modelled exactly.
- Modules the app imports that this model does not cover: `utils.timeToSecs`, `functions`, `Chart`, `VideoPlayer`, `ActionToolbar` and `types`. Timecodes are modelled with optional `text`, `objects` and `value` fields.
- Numbers: progress and the retry counters are integers. Video duration, widths, delays and chart values are `real`. No floating-point rounding or NaN is modelled.
- The wording of JavaScript's TypeErrors (unknown mode, missing sub-modes, a call without `timecodes`) follows V8 and is kept as fixed messages.
- Modes.Lookup: names inherited from `Object.prototype` (such as 'toString' or 'constructor') are treated as absent. In the program `modes['toString']` is defined and its `.prompt` is `undefined`. The sidebar only ever passes own keys.
- Modes.FindSubMode: inherited names are treated as absent. In the program `subModes['constructor']` is a function, and the Chart template would interpolate its source text. Presets only ever pass own keys.
- Supervisor.ResolvePrompt: an inherited mode name fails with the `.prompt` TypeError in the model. In the program its `undefined` prompt reaches the generation call instead.
- SupervisorProofs.SupersededRequestIsQuiet: relies on fresh tokens (`Date.now()` never repeating), an assumption rather than a guarantee of the code. `CancelWithRepeatedClockIsIneffective` shows what happens without it.
- MediaUpload.UploadKeepsLedger: requires the new object URL to be non-empty, which browsers guarantee but the code does not check.
- SupervisorProofs.LastRequestWins: covers two requests, where B starts after A's token was replaced and runs to completion before A resumes. Longer chains follow by applying it again, but that is not proved as one lemma.
