# Crew job submission and status polling, modelled in Dafny

This project models the job-submission and status-reconciliation logic of the
agents page (`AgentsPage.js`) of a content-processing front end. An operator
picks a job kind ("crew"), edits that kind's settings, selects a client and
submits content. The backend replies with a task id. The page then polls a
global, multi-task status feed every few seconds. It keeps only the entries of
its own task and appends their serialisations to a log. It stops polling when
the task's latest entry is a `success` or `error` entry.

Modules, one per concern of the page:

- `JsValues` (`js_values.dfy`): the JavaScript values the page handles. It gives
  truthiness, strict equality, property reads (which throw on
  `null`/`undefined`), `||`, `Array.prototype.join` and `String(v)`.
- `CrewSettings` (`crew_settings.dfy`): the per-kind settings record and its
  initial value. Also the field edit of `handleCrewSettingChange`, and the client
  lookup and autoblogging refresh of `handleClientSelect`.
- `Submission` (`submission.dfy`): the request payload of `handleExecuteCrew`,
  the submit-button guard, and how the reply becomes a task id or an error
  message.
- `Feed` (`feed.dfy`): one poll tick as a function. It reads the body, filters by
  task id, builds the newline-joined log block and checks the last entry.
- `Page` (`agents_page.dfy`): the class `AgentsPage`. Its fields are the
  component state (`settings`, `selectedClient`, `content`, `isProcessing`,
  `error`, `log`, `isPolling`, `taskId`) and the host's timer state. Its methods
  are the handlers, the polling effect with its cleanup, and one tick. The
  object invariant `Valid()` has two parts. First, at most one interval is live,
  and one is live exactly while the page is mounted and `isPolling && taskId`
  holds. Second, the log is the newline-joined serialisation of every entry
  delivered so far.

`handleExecuteCrew` awaits the network, so it is split in two methods.
`BeginExecute` is the synchronous part: busy flag, error cleared, payload built.
`FinishExecute` takes the reply: task id and polling, or the error message, and
then the `finally`. Network replies and feed bodies are inputs. A reply is a
rejection message, or a parsed body plus `response.ok`. A feed fetch either
failed or produced a parsed body.

Three behaviours of the code that a reader might not expect, all modelled as
the code has them:

- A new submission does not reset the log. Entries of the new task are appended
  after those of the old one.
- Re-polling a feed that has not changed appends the same entries again. The log
  does not deduplicate, so a tick is not idempotent (`Feed.RepollAppendsAgain`).
- A failed submission shows the thrown error's own message. For a failed
  `fetch`, that is the message the runtime gives, not a fixed generic text.

## Model

| member | source | states |
|---|---|---|
| `CrewSettings.EditSetting` | AgentsPage.js:143-151 | Only `settings[crew][field]` changes, and it becomes `value`. Every other kind and every other field of `crew` keeps its value. A missing kind is created holding just that field. |
| `CrewSettings.EditSettingUndo` | AgentsPage.js:143-151 | Editing a field and then setting it back to its old value restores the settings exactly. |
| `CrewSettings.EditSettingLastWins` | AgentsPage.js:143-151 | Of two edits to the same field, the later one decides the result. |
| `CrewSettings.EditSettingCommutes` | AgentsPage.js:143-151 | Edits to different fields, or to different kinds, give the same settings in either order. |
| `CrewSettings.FindClient` | AgentsPage.js:440 | `clients.find`: none iff no client's `id` is strictly equal to the id. Otherwise it returns the first client in the list whose id is. |
| `CrewSettings.ApplyClient` | AgentsPage.js:444-457 | The six autoblogging fields (industry_focus, company_boilerplate, contact_information, target_audience, spokesperson_name, spokesperson_title) take the client's industry, boilerplate, contact_info, target_audience, spokesperson_name, spokesperson_title, or `""` when that is missing or falsy. Other autoblogging fields and other kinds are unchanged. |
| `CrewSettings.ApplyClientIdempotent` | AgentsPage.js:439-464 | Applying the same client twice equals applying it once, so the re-run triggered by the `selectedClient` effect changes nothing further. |
| `CrewSettings.SelectClientFrame` | AgentsPage.js:439-458 | An id that no client has leaves the settings unchanged. Selecting any client changes no kind other than autoblogging. |
| `Submission.BuildPayload` | AgentsPage.js:210-218 | The request carries the crew type, the content, the selected client's id (absent without a client), exactly `crewSettings[crewType]` and the special instructions. |
| `Submission.PayloadIgnoresOtherKindEdits` | AgentsPage.js:143-151 | Editing another kind's settings does not change the request sent for the current kind. |
| `Submission.PayloadIgnoresClientRefresh` | AgentsPage.js:444-457 | A client refresh does not change the request sent for any kind other than autoblogging. |
| `Submission.EnabledPayload` | AgentsPage.js:548 | When the button is enabled (not processing, a client selected, content non-empty), the request names that client and has non-empty content. |
| `Submission.ExecuteOutcome` | AgentsPage.js:221-231 | A task starts iff the reply is OK and its body is not null; the task id is then `data.task_id`. A rejected `fetch` or `json()` shows its own message. |
| `Submission.RejectedReplyMessage` | AgentsPage.js:223-225 | On a non-OK reply the error is `data.error` when it is a non-empty string. It is "Failed to execute crew" when `data.error` is missing or falsy. |
| `Feed.Relevant` | AgentsPage.js:163-167 | The filtered entries are no more than the feed's, and each one matches the task by top-level or nested `message.task_id`. |
| `Feed.RelevantMembers` | AgentsPage.js:163-167 | An entry is kept iff it is in the feed and matches the task. |
| `Feed.RelevantAppend` | AgentsPage.js:163-167 | Filtering a concatenation is concatenating the filtered parts, so feed order is kept. |
| `Feed.RelevantCount` | AgentsPage.js:163-167 | A matching entry is kept as many times as it occurs in the feed (duplicates kept). A non-matching entry is not kept at all. |
| `Feed.LastMatchIndex` | AgentsPage.js:178 | Searching from the end of the feed, the result is the last index whose entry matches the task, or -1 if there is none. |
| `Feed.LastRelevantIsLastMatch` | AgentsPage.js:178-184 | The last filtered entry is the last matching entry of the feed. |
| `Feed.ReadFeed` | AgentsPage.js:159-169 | The feed is filtered exactly when the body is an object with truthy `success` and an array `data` whose entries are all non-null, and then the entries read are that array. |
| `Feed.ReadFeedFailures` | AgentsPage.js:158-189 | Each of these throws and is swallowed: a failed fetch, a null body, a truthy non-array `data`, or a null entry. A body without truthy `success` and `data` is skipped. |
| `Feed.LogOfAppend` | AgentsPage.js:170-175 | Appending the block of new entries to the log of earlier entries gives the log of all of them, with one newline between, and no separator when the log was empty. |
| `Feed.Reconcile` | AgentsPage.js:161-185 | The tick changes nothing iff no entry of the task was read. Otherwise the old log is a prefix of the new one, which is `prev + "\n" + block` (or just the block when `prev` is empty). Polling stops iff the task's last entry in the feed has type "success" or "error". |
| `Feed.EarlierTerminalDoesNotStop` | AgentsPage.js:178-184 | If a terminal entry of the task is followed by a later non-terminal entry of the task, polling is not stopped. |
| `Feed.RepollAppendsAgain` | AgentsPage.js:170-175 | Ticking again on an unchanged feed appends the same block again after a newline, with the same stop verdict. |
| `Feed.NestedTaskIdMatches` | AgentsPage.js:166 | An entry whose task id appears inside its `message` object is selected, whatever other keys that object has. |
| `Feed.FirstTickProgress` | AgentsPage.js:158-185 | A feed with t100's progress entry and another task's success entry appends only the progress entry and keeps polling. |
| `Feed.SecondTickSuccess` | AgentsPage.js:158-185 | A feed with t100's success entry appends it and stops polling. |
| `JsValues.JoinWithConcat` | AgentsPage.js:171-173 | Joining two non-empty lists with newlines equals joining each and putting one newline between the two results. |
| `Page.AgentsPage.constructor` | AgentsPage.js:32-94 | On mount the state is the initial one: the initial settings, no client, empty log, no task, not polling, and no interval started. |
| `Page.AgentsPage.PollingEffect` | AgentsPage.js:153-157 | The effect's cleanup clears the previous interval before anything starts. A fresh interval is live afterwards iff `isPolling && taskId`, and no other interval is live. |
| `Page.AgentsPage.Unmount` | AgentsPage.js:193-198 | After unmount no interval is live. |
| `Page.AgentsPage.SetContent` | AgentsPage.js:466-468 | The content becomes the typed text and nothing else changes. |
| `Page.AgentsPage.EditCrewSetting` | AgentsPage.js:143-151 | The settings become `EditSetting` of the old settings, and no other state changes. |
| `Page.AgentsPage.SelectClient` | AgentsPage.js:439-458 | The selection becomes the client found (none if no client matches). The settings are refreshed from a found client and are unchanged otherwise. |
| `Page.AgentsPage.BeginExecute` | AgentsPage.js:200-219 | Only while enabled. The page becomes busy, so the button is disabled, and the error is cleared. The payload carries exactly `crewSettings[crewType]`, the selected client's id and non-empty content. |
| `Page.AgentsPage.FinishExecute` | AgentsPage.js:221-234 | OK reply: `taskId := data.task_id` and polling on. Otherwise: the error message is shown, and `taskId`, `isPolling` and the interval are untouched. In every case `isProcessing` ends false. The interval is replaced only if `isPolling` or `taskId` changed, and such a change, a new task id included, always clears the old interval before any new one starts. |
| `Page.AgentsPage.Tick` | AgentsPage.js:157-198 | Sets the log and polling flag as `Reconcile` says, and the log never shrinks. It appends exactly the task's entries to the delivered sequence. A failed or skipped read changes nothing. A stop clears the interval. While polling goes on, the live interval is the same one: a log update is not a dependency of the polling effect. |

## Left out

- Rendering is not modelled: the JSX, `renderCrewForm`, the layout and the MUI components (AgentsPage.js:237-437, 470-592). They are presentation only.
- File listing and upload are not modelled: `fetchFiles` and `handleFileChange` (AgentsPage.js:97-141). They are thin I/O wrappers around `fetch`.
- HTTP, `API_BASE_URL` and `response.json()` are not modelled. Each reply or feed body is an input value: a rejection message, or a parsed body with the `ok` flag.
- The exact text of `JSON.stringify(update, null, 2)` is not modelled. It is the page's `serialize` function, assumed only to return a non-empty string, which every JSON text is.
- Timing is not modelled: the 5000 ms cadence, and ticks that overlap because `setInterval` does not wait for an async tick. A tick is one atomic step, fired only while its interval is live.
- The `selectedClient` effect (AgentsPage.js:460-464) is not modelled as a step. Its re-application of the client is covered by `CrewSettings.ApplyClientIdempotent`. The client selection from the shared client context at mount is not modelled either: the page starts with no client.
- Inline setters in the JSX (`setCrewType`, `setSpecialInstructions`) have no method: `crewType` and `specialInstructions` are plain fields. The state the core never reads is also left out: `outputs`, `isConnected`, `settings`, `selectedFile`, `files`, `loading`, `fileToDelete`, `clientData`, `clientError`, `showAdvancedOptions`. So is the unused `socket.io` import.
- Numbers are integers, so `NaN`, `-0`, fractions, the rounding of integers above 2^53 to doubles (`9007199254740993 === 9007199254740992` holds in JavaScript but not in `StrictEquals`) and the exponent form of `String` for large numbers (`String(1e21)` is `"1e+21"`, `ToJsString` prints all the digits) are not modelled. The page only truth-tests and compares the numbers it meets.
- Object identity is not modelled. `===` on two arrays or objects is always false. This is exact for values from different parsed bodies, but it misses an object id compared with itself.
- The message of a TypeError raised by reading a property of a null body follows V8's wording. Other engines word it differently.
- `fastapi_webstream.py` is not part of this model. It holds WebSocket connection management and broadcast, CORS setup, and an endpoint that calls an external `Crew`.
- `utilities/event_streamer.py` is not part of this model. It only stores callbacks and invokes them, with async delivery through `asyncio`.
