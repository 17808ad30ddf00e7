# Sora video generator: submission and status polling

This project models the two pieces of logic in the sora-video-gen web app.

- **The generator page** (`components/VideoGenerator.tsx`). `handleGenerate` checks the prompt, posts it to the app's own submission endpoint, and puts a new `generating` entry at the front of the history. `pollVideoStatus` then runs a poll closure every five seconds. The closure maps each status reply into `generating`, `completed` or `failed` and rewrites the entry by id. It stops on a terminal status, and it stops after 60 counted attempts. Non-terminal replies and failed queries draw on the same budget. The page also keeps a list of reference images (`handleImageUpload`, `removeImage`).
- **The submission handler** (`app/api/generate/route.ts`). It rejects a missing or blank prompt and a missing or placeholder provider key. It builds the provider payload, filling in defaults for falsy settings. It calls the provider once and turns the answer into either the task id and status or one error message with a status code.

The model is in four modules:

- `Js` (`js.dfy`): the JavaScript behaviour both files rely on. It covers JSON-shaped values plus `undefined`, truthiness and `||`, plain and optional property reads, thrown values, and `String.prototype.trim` over the ECMAScript whitespace and line-terminator set. `JSON.parse`, `JSON.stringify` and the text of engine TypeErrors are not defined here. They are fields of an `Engine` value that every operation takes as a parameter.
- `GenerateRoute` (`generate_route.dfy`): the handler as pure functions. The parsed request body, the environment, the provider's reply and `Date.now()` are all parameters.
- `VideoGenerator` (`video_generator.dfy`): the page in two parts.
  - Its state is a `State` value, and each event is a function of it. `Submit` is one click of the generate button, `Step` is one run of the poll closure, and `Drain` is a whole poll session.
  - The class `Component` holds the same state in fields. Its methods change those fields step by step, and each method is proved to agree with its function. `PollVideoStatus` is the timer loop, with `maxAttempts - attempts` as its decreasing measure. One timer firing is one call of `Poll`.
- `Handoff` (`handoff.dfy`): the page and the handler together. The body the page posts is the one the handler reads, and the answer the handler sends is the one the page reads back.

Replies from the server are inputs: the reply to a submission is a parameter, and the k-th status reply of a session is `answers(k)`. Clock readings are `nat` parameters.

## Model

| member | source | states |
|---|---|---|
| Js.Trim | app/api/generate/route.ts:14 | the result is a slice of the string with only ECMAScript whitespace cut from the front and the back; it is empty iff the string is all whitespace, and otherwise neither starts nor ends with whitespace, so exactly the leading and trailing whitespace is removed |
| Js.BlankIsTrimmedEmpty | components/VideoGenerator.tsx:35 | a prompt counts as blank exactly when its trim is the empty string |
| GenerateRoute.ServerError | app/api/generate/route.ts:92-98 | every caught exception becomes status 500; the message is the prefix 服务器错误: followed by the Error's message, or by "Unknown error" for a thrown non-Error |
| GenerateRoute.Setting | app/api/generate/route.ts:40-42 | `settings?.name \|\| fallback` is always truthy; it is the setting when that is truthy and the fallback otherwise |
| GenerateRoute.BuildPayload | app/api/generate/route.ts:37-46 | the payload keeps the prompt; the model is sora-2; watermark and private are false; images is empty; orientation, size and duration each take the setting when it is truthy, else landscape, large or 10 |
| GenerateRoute.Prepare | app/api/generate/route.ts:8-58 | a body that does not parse, or parses to null, is a 500; a falsy or blank prompt is a 400; a non-string truthy prompt is a 500; a missing or placeholder key is a 500 with the configuration message; the provider is called iff the prompt is a non-blank string and the key is configured, and then with the built payload, `Bearer <key>` as authorization and the endpoint (or https://yunwu.ai) followed by /v1/video/create as the URL |
| GenerateRoute.ProviderMessage | app/api/generate/route.ts:73-75 | the error message is a string `message` if there is one, else a string `error`, else the stringified first truthy of message, error and the default; it throws exactly when the error data is nullish |
| GenerateRoute.Decimal | app/api/generate/route.ts:87 | `Date.now().toString()` is a non-empty string of digits with no leading zero unless the reading is 0 |
| GenerateRoute.DecimalRoundTrip | app/api/generate/route.ts:87 | reading the timestamp fallback back as a number gives the clock reading |
| GenerateRoute.Started | app/api/generate/route.ts:85-90 | the task id is id if truthy, else task_id if truthy, else the timestamp; the status is the provider's if truthy, else processing; both are truthy |
| GenerateRoute.Finish | app/api/generate/route.ts:51-98 | a rejected fetch is a 500; a non-ok reply whose error body is not null mirrors the provider status with the message that ProviderMessage selects; a non-ok reply whose body is JSON null fails reading its message and is a 500; a non-JSON error body is reported verbatim; the answer is a success iff the reply is ok and its body parses to a non-null value; an ok reply that still fails is a 500 |
| GenerateRoute.Post | app/api/generate/route.ts:4-100 | the provider is called iff Prepare gets that far, and then the answer is Finish's; every success went through the provider and carries a truthy task id; every refusal carries a status that is not 2xx |
| VideoGenerator.MapStatus | components/VideoGenerator.tsx:110-111 | the entry is completed iff the reply status is "completed", failed iff it is "failed", and generating for any other value, missing included |
| VideoGenerator.Observed | components/VideoGenerator.tsx:105-114 | an answered poll keeps the polled entry's id, prompt, creation time and settings; it takes the reply's URLs when truthy, else ""; it takes the mapped status |
| VideoGenerator.ReplaceById | components/VideoGenerator.tsx:117-119 | the history keeps its length; exactly the entries whose id equals the task id become the updated entry, and every other entry is unchanged |
| VideoGenerator.ReplaceByIdIdempotent | components/VideoGenerator.tsx:117-119 | replacing by id twice with the same entry gives the same history as replacing once, whatever the entry |
| VideoGenerator.RemoveAt | components/VideoGenerator.tsx:160-162 | removing index i drops exactly the element at i and keeps the rest in order; an index outside the list changes nothing |
| VideoGenerator.AddUploads | components/VideoGenerator.tsx:152-158 | the chosen files follow the existing images in order; with no file list or an empty one the list is unchanged |
| VideoGenerator.TaskIdOf | components/VideoGenerator.tsx:45-68 | a rejected fetch or an unparseable body is rethrown as it is; an ok reply with a non-null body yields its taskId; a null body throws a TypeError; a non-ok reply throws an Error whose message is a string `error` as is, else its stringification, else 生成失败 |
| VideoGenerator.NewEntry | components/VideoGenerator.tsx:67-75 | the new entry has the task id, the prompt, a copy of the settings, the submission time, empty URLs and status generating |
| VideoGenerator.Submit | components/VideoGenerator.tsx:34-89 | a blank prompt sets the prompt error, sends nothing and changes nothing else; otherwise the prompt, the settings and whether images are attached are sent; on success exactly one generating entry is put in front of the unchanged history, it is shown, and a session of 60 attempts starts polling it; on failure only the error message changes and isGenerating returns to false |
| VideoGenerator.Step | components/VideoGenerator.tsx:95-147 | one poll keeps the session invariant and uses up budget; a terminal status stops polling, clears isGenerating and does not count an attempt; any other reply counts one attempt, and polling goes on iff attempts < maxAttempts; an answered reply rewrites the entry by id and shows it, while a failed query changes no entry; while polling goes on, no ending is recorded |
| VideoGenerator.Drain | components/VideoGenerator.tsx:91-150 | a session always ends, with isGenerating cleared; it makes at most its remaining budget of queries; it ends by timeout or by failed queries only after the whole budget is spent; the history keeps its length, and an entry becomes failed only when the session ends on a failed status |
| VideoGenerator.PollKeepsShowingGenerating | components/VideoGenerator.tsx:104-136 | a poll after which the session goes on leaves the newest entry generating and on display |
| VideoGenerator.SessionShowsOutcome | components/VideoGenerator.tsx:104-136 | from a running session whose newest entry is generating and on display, every session ends, and then that entry and the preview show completed, failed, or (after a timeout or failed queries) still generating, never forced to failed |
| VideoGenerator.SubmittedSessionEnds | components/VideoGenerator.tsx:77-93 | a successful submission starts a session that makes between 1 and 60 status queries, ends with isGenerating false, and leaves the entry with the new task id first in the history, on display and showing the outcome |
| VideoGenerator.ObservedAsWritten | components/VideoGenerator.tsx:105-114 | the entry as the poll closure builds it from the values captured at submission: the captured video's prompt, or the prompt when there is no captured video or its prompt is empty; a captured video's creation time and settings, else the poll's clock and the settings; the task id, the reply's URLs or "", and the mapped status |
| VideoGenerator.StaleCaptureRelabelsEntry | components/VideoGenerator.tsx:107-113 | when a different video was on display at submission, the as-written poll gives the new entry that video's prompt, creation time and settings, while Observed keeps the entry's own prompt, submission time and settings |
| VideoGenerator.StaleCaptureRestampsEntry | components/VideoGenerator.tsx:112 | on a first submission the as-written poll gives the entry the poll's clock reading as its creation time, while Observed keeps the submission time |
| VideoGenerator.Component.constructor | components/VideoGenerator.tsx:21-32 | the initial state: empty prompt, landscape/large/10, no images, no history, not generating, nothing on display, no error, no session |
| VideoGenerator.Component.HandleGenerate | components/VideoGenerator.tsx:34-89 | the fields afterwards are Submit's new state, and the request sent is Submit's |
| VideoGenerator.Component.Prepend | components/VideoGenerator.tsx:77-93 | the new entry is put on display and in front of the unchanged history, and a session starts polling it with 0 attempts of 60; nothing else changes |
| VideoGenerator.Component.Poll | components/VideoGenerator.tsx:95-147 | the fields afterwards are Step's state for the reply |
| VideoGenerator.Component.PollVideoStatus | components/VideoGenerator.tsx:91-150 | the timer loop ends with no query due; its fields and its number of queries are Drain's |
| VideoGenerator.Component.HandleImageUpload | components/VideoGenerator.tsx:152-158 | only the image list changes, to AddUploads of the old one |
| VideoGenerator.Component.RemoveImage | components/VideoGenerator.tsx:160-162 | only the image list changes, to RemoveAt of the old one |
| VideoGenerator.Component.ShowVideo | components/VideoGenerator.tsx:412 | clicking a history entry puts exactly that entry on display |
| Handoff.ClientRequestIsForwarded | app/api/generate/route.ts:8-46 | a prompt the page sends is accepted by the handler; with a configured key it reaches the provider with the page's settings, where an empty orientation or size and a zero duration become the defaults |
| Handoff.ClientTracksRouteTaskId | components/VideoGenerator.tsx:57-68 | the task id the handler answers with is the id the page polls |
| Handoff.ClientShowsRouteError | components/VideoGenerator.tsx:59-64 | a refusal with an error status reaches the page as an Error carrying the handler's own message |
| Handoff.SubmissionEndToEnd | components/VideoGenerator.tsx:43-88 | whatever the provider does, the page either starts polling the handler's truthy task id, or shows the handler's error with isGenerating false and the history unchanged |

## Left out

- Rendering: the JSX of `components/VideoGenerator.tsx` from line 168 on is not modelled, except the history click at line 412 (`ShowVideo`) and the generate button's `disabled` condition at line 306. That condition is why `HandleGenerate` and `Submit` require `!isGenerating`. Typing a prompt into the textarea and choosing settings (lines 181, 252, 267, 282) are plain assignments to the component's `prompt` and `settings` fields. They have no methods.
- The status endpoint `app/api/status/[taskId]/route.ts` is not part of this model. Its replies are free inputs to `Poll` and `Drain`, so every property about polling holds whatever that endpoint answers. The test endpoint, the gallery, the navigation bar and the sign-in route are not part of this model either.
- There is no credit ledger and no persistence of jobs: no file of the app implements either.
- `fetch`, `response.json()`, `response.text()`, `process.env`, `JSON.parse`, `JSON.stringify`, `Date.now()` and `new Date()` are inputs. A failing `response.text()` on the provider's error reply is not modelled separately; like any other throw, it would end in the handler's catch block.
- Numbers are integers. Floating point, NaN and `Number(...)` conversion of the duration field are not modelled.
- Task ids are compared by value. `===` on two distinct objects that look the same would be false, but the model says true. Task ids are strings in practice.
- Timers: the five-second delay between queries is not modelled. A session is a sequence of `Poll` calls.
- Concurrency is not modelled: no overlapping sessions, no several tabs, and no update of the page after it unmounts.
- `alert` and `console` output have no effect on state and are not modelled. What `Ending` records is the choice of alert.
- The stale closure: as written, the poll closure reads the `currentVideo`, `prompt` and `settings` of the render where `handleGenerate` ran. `ObservedAsWritten` models that version and is set aside under Findings; the rest of the model uses `Observed`, the evident intent. The closure also captures `generatedVideos` at line 78. That copy is never out of date in this model, because a new submission cannot start while a session is generating.
- `Js.Trim` works on code points. JavaScript strings are UTF-16, and no whitespace character lies outside the Basic Multilingual Plane, so no input trims differently.

## Findings

| source | as written | input that shows it | evidently intended | confidence | as-written member | corrected member |
|---|---|---|---|---|---|---|
| components/VideoGenerator.tsx:107-113 | the poll closure builds the updated entry from `currentVideo?.prompt \|\| prompt`, `currentVideo?.createdAt \|\| new Date()` and `currentVideo?.settings \|\| settings`, all captured in the render where `handleGenerate` ran, before `setCurrentVideo(newVideo)` took effect | submit "a cat" while an earlier video with prompt "a dog" is on display; the first answered poll relabels the new entry "a dog" with the old video's date and settings; on a first submission every answered poll gives the entry a new creation time | the updated entry keeps the polled entry's own prompt, creation time and settings | high; not executed | VideoGenerator.ObservedAsWritten, VideoGenerator.StaleCaptureRelabelsEntry, VideoGenerator.StaleCaptureRestampsEntry | VideoGenerator.Observed |
