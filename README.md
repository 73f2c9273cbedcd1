# OpenAIKit event stream, modelled in Dafny

This project models the streaming core of the Swift OpenAIKit client:
`AIEventStream` and the header builders of `OpenAIKit`.

`AIEventStream` opens one long-lived URLSession data task. URLSession delivers
its delegate callbacks one at a time on a queue of concurrency 1. In the model,
each callback is a method of the class `EventStream.AIEventStream` that the
caller invokes in sequence:

- `didReceive response` is `DidReceiveResponse`;
- `didReceive data` is `DidReceiveData`;
- `didCompleteWithError` is `DidCompleteWithError`;
- the redirect callback is `WillPerformHttpRedirection`.

The serial delegate queue delivers these callbacks in order, one at a time.
`startStream`, `stopStream` and the observer setters run on the caller's
thread; the model treats each of them as one step between callbacks (see
"## Left out"). The class keeps the fields the source changes:

- the session, or none;
- the HTTP status of the task's response, recorded by the response callback;
- `isStreamActive`;
- `fetchError`;
- which of the three observers are registered.

Each observer invocation (`onStart`, `onMessage(data, message)`,
`onComplete(code, forceEnd, error)`) is appended to an event log. The log
holds `Start`, `Message` and `Complete` events. An invocation is logged only
when that observer is registered, as the source's optional calls `?()` fire
only then.

The pieces the source takes from Foundation are inputs of the model:

- the HTTP status of the response handed to `didReceive response`, absent when it is not an `HTTPURLResponse`. URLSession keeps that response on the task, and the data and completion callbacks read it back from there (lines 90 and 115); the model reads it back from the field, so every callback sees the same response;
- the chunk read by `JSONSerialization` as a string-keyed dictionary, absent when it is not one;
- the chunk decoded as UTF-8, absent when it is not valid UTF-8;
- the transport error URLSession reports;
- the response type's decoder (`JSONDecoder.aiDecoder`), a function from the text after `data: ` to an optional message, fixed when the stream is built.

JSON values are an opaque type parameter `J`; requests are an opaque type
parameter `R`.

Line framing (`components(separatedBy: "\n")` and `hasPrefix`) lives in the
module `LineFraming`. That module proves these facts:

- the number of components is the number of newlines plus one;
- joining the components with `"\n"` gives back the text;
- splitting a join of newline-free lines gives back the lines.

Completion classification is written twice. `DidCompleteWithError` follows the
code: it reassigns a local `error` and `message`. `ReportedError` states the
precedence rule: transport error, else the synthesized status error, else
`fetchError`. The method's postcondition proves the two agree.

`OpenAIKit.OpenAIKit` keeps the API token and the optional organization.
Its two methods build the JSON and the multipart header maps.

### Where the code surprises

The model follows the code in every case below.

- **Guard on JSON bodies** (`AIEventStream.swift:91`). The guard reads as meant
  to catch the error bodies of failing responses (non-2xx with an `"error"`
  key). As written, it records every JSON dictionary under an HTTP response as
  `fetchError`, with no messages, except a 2xx one that has `"error"`. So a 2xx
  dictionary without `"error"` is recorded, and a 2xx dictionary with `"error"`
  is framed as lines. `RecordsBodyErrorCases` shows the cases.
- **Trailing empty line**. `components(separatedBy:)` yields an empty last
  component after a final `"\n"`. So `"data: {…}\n"` yields two message events,
  not one. The second has no decoded value. See `TerminatedDataLineEvents`.
- **Whole chunk per event**. Each message event carries the whole chunk, not
  its own line. Line 110 passes the outer `data`; the per-line `data` of line
  106 is out of scope there.
- **Status error masks a body error**. With status 500, no transport error, and
  a recorded body error, the completion reports the synthesized
  "Text generation failed" error. It does not report the body error. See
  `StatusErrorMasksBodyError`.
- **No at-most-once completion**. `stopStream` reports `(0, true, nil)` on every
  call. A `didCompleteWithError` delivered after it is still reported. See
  `StopTwice` and `StopThenLateCompletion`.
- **No restart**. `stopStream` invalidates the session but never clears it.
  After a stop, `startStream` opens nothing new. See `StopThenStart`.

## Model

| member | source | states |
|---|---|---|
| `LineFraming.HasPrefixMeansConcatenation` | Sources/OpenAIKit/Helpers/AIEventStream.swift:106 | `hasPrefix` holds iff the line is the prefix followed by some rest |
| `EventStream.LineMessage` | Sources/OpenAIKit/Helpers/AIEventStream.swift:104-108 | a line without the "data: " prefix has no value; a value is only ever the decoding of the text after the first 6 characters of a "data: " line |
| `EventStream.LineEvents` | Sources/OpenAIKit/Helpers/AIEventStream.swift:103-111 | the loop over the lines yields exactly one event per line, in order, the i-th being the whole chunk with the i-th line's value |
| `EventStream.ChunkEvents` | Sources/OpenAIKit/Helpers/AIEventStream.swift:100-111 | a framed chunk yields at least one event, and every event is a message carrying the whole chunk |
| `EventStream.SynthesizedError` | Sources/OpenAIKit/Helpers/AIEventStream.swift:121-127 | an error is synthesized iff the status is at least 400; it carries the status as code and says "Access denied" exactly for 403 |
| `EventStream.ReportedError` | Sources/OpenAIKit/Helpers/AIEventStream.swift:115-129 | a transport error is always reported; without one, the report is the synthesized error or the stored fetch error; nothing is reported only when all three are absent |
| `LineFraming.Split` | Sources/OpenAIKit/Helpers/AIEventStream.swift:101 | `components(separatedBy: "\n")` always yields at least one component |
| `LineFraming.SplitCount` | Sources/OpenAIKit/Helpers/AIEventStream.swift:101 | a text with n newlines has exactly n + 1 components |
| `LineFraming.SplitLinesHaveNoNewline` | Sources/OpenAIKit/Helpers/AIEventStream.swift:101 | no component contains the separator |
| `LineFraming.JoinSplit` | Sources/OpenAIKit/Helpers/AIEventStream.swift:101 | joining the components with "\n" restores the text |
| `LineFraming.SplitJoin` | Sources/OpenAIKit/Helpers/AIEventStream.swift:101 | splitting a "\n"-join of newline-free lines gives back exactly those lines |
| `EventStream.LineMessageDecodes` | Sources/OpenAIKit/Helpers/AIEventStream.swift:104-108 | a line has a decoded value iff it starts with "data: " and the text after its first 6 characters decodes, and then it is that decoding |
| `EventStream.DataLineRoundTrip` | Sources/OpenAIKit/Helpers/AIEventStream.swift:106-107 | the line "data: " + p hands exactly p to the decoder |
| `EventStream.ChunkEventsCount` | Sources/OpenAIKit/Helpers/AIEventStream.swift:100-111 | a framed chunk yields one message event per "\n" plus one |
| `EventStream.ChunkEventsAreLines` | Sources/OpenAIKit/Helpers/AIEventStream.swift:100-111 | the events follow the lines in order; each carries the whole chunk; its value is present iff its line is a "data: " line that decodes; the lines contain no "\n" and join back to the text |
| `EventStream.UndecodableChunkEvents` | Sources/OpenAIKit/Helpers/AIEventStream.swift:100-110 | a chunk that is not UTF-8 yields exactly one event, with no decoded value |
| `EventStream.TerminatedDataLineEvents` | Sources/OpenAIKit/Helpers/AIEventStream.swift:100-111 | "data: p\n" yields the decoded event for p followed by one empty-line event |
| `EventStream.RecordsBodyErrorCases` | Sources/OpenAIKit/Helpers/AIEventStream.swift:90-95 | a 2xx body without "error" is recorded; a 2xx body with "error" is framed; a 500 body is recorded; a non-HTTP response or a non-JSON chunk is never recorded |
| `EventStream.ReportedErrorPrecedence` | Sources/OpenAIKit/Helpers/AIEventStream.swift:114-129 | a transport error always wins; with no status the error is transport ?? fetchError; status >= 400 with no transport error reports "Access denied" (403) or "Text generation failed" with the status as code; otherwise fetchError |
| `EventStream.BodyErrorReportedIff` | Sources/OpenAIKit/Helpers/AIEventStream.swift:114-129 | a recorded body error is reported iff there is no transport error and no status >= 400 |
| `EventStream.CompletionEventShape` | Sources/OpenAIKit/Helpers/AIEventStream.swift:114-129 | a natural completion is never forced and reports the response's status, or none |
| `EventStream.StatusErrorMasksBodyError` | Sources/OpenAIKit/Helpers/AIEventStream.swift:120-129 | status 500 with a recorded body error reports the synthesized generic error |
| `EventStream.AIEventStream.constructor` | Sources/OpenAIKit/Helpers/AIEventStream.swift:24-43 | a new stream has no session, no response status, no error, is inactive, has no observers and an empty log |
| `EventStream.AIEventStream.OnStart` | Sources/OpenAIKit/Helpers/AIEventStream.swift:138-140 | registers the start observer |
| `EventStream.AIEventStream.OnComplete` | Sources/OpenAIKit/Helpers/AIEventStream.swift:142-144 | registers the completion observer |
| `EventStream.AIEventStream.OnMessage` | Sources/OpenAIKit/Helpers/AIEventStream.swift:146-148 | registers the message observer |
| `EventStream.AIEventStream.StartStream` | Sources/OpenAIKit/Helpers/AIEventStream.swift:45-60 | with a session it changes nothing; otherwise it creates a new, not invalidated session with the headers Accept: text/event-stream and Cache-Control: no-cache, running a task for the stream's request |
| `EventStream.AIEventStream.StopStream` | Sources/OpenAIKit/Helpers/AIEventStream.swift:62-67 | the stream goes inactive; a session is invalidated but never removed; exactly one Complete(0, true, nil) is logged on every call when the completion observer is registered |
| `EventStream.AIEventStream.DidReceiveResponse` | Sources/OpenAIKit/Helpers/AIEventStream.swift:80-85 | every response is answered with allow; its status is kept as the task's response status; the stream becomes active; exactly one Start is logged per call when the start observer is registered |
| `EventStream.AIEventStream.DidReceiveData` | Sources/OpenAIKit/Helpers/AIEventStream.swift:87-112 | while inactive nothing changes; when the line-91 guard as written (`RecordsBodyError`: HTTP response, JSON dictionary, and not both 2xx and an "error" key) records the chunk under the task's response status, fetchError becomes that status code and the dictionary and nothing is logged; otherwise the chunk's message events are appended in order, when the message observer is registered, and fetchError is untouched |
| `EventStream.AIEventStream.DidCompleteWithError` | Sources/OpenAIKit/Helpers/AIEventStream.swift:114-130 | logs exactly one completion when the completion observer is registered, classified from the task's response status by the precedence rule of ReportedError |
| `EventStream.AIEventStream.WillPerformHttpRedirection` | Sources/OpenAIKit/Helpers/AIEventStream.swift:132-134 | the proposed redirect request is followed unchanged |
| `EventStream.StopThenStart` | Sources/OpenAIKit/Helpers/AIEventStream.swift:45-67 | once a session exists, stop then start leaves that session, now invalidated, and the stream inactive |
| `EventStream.StopThenData` | Sources/OpenAIKit/Helpers/AIEventStream.swift:62-88 | a chunk after stopStream logs nothing beyond the forced completion and leaves fetchError alone |
| `EventStream.StopTwice` | Sources/OpenAIKit/Helpers/AIEventStream.swift:62-67 | two stops log two forced completions |
| `EventStream.StopThenLateCompletion` | Sources/OpenAIKit/Helpers/AIEventStream.swift:62-130 | a completion delivered after stopStream is logged after the forced one |
| `EventStream.RegisteredStream` | Sources/OpenAIKit/Helpers/AIEventStream.swift:45-130 | with all observers registered, start, a 2xx response, one non-JSON chunk and a clean completion log exactly Start, the chunk's messages, Complete(status, false, nil) |
| `OpenAIKit.OpenAIKit.constructor` | Sources/OpenAIKit/OpenAIKit.swift:21-23 | stores the API token and the organization (absent by default) unchanged |
| `OpenAIKit.OpenAIKit.BaseHeaders` | Sources/OpenAIKit/OpenAIKit.swift:32-44 | keys are exactly Authorization and content-type, plus OpenAI-Organization iff an organization is given (2 or 3 entries); Authorization is "Bearer " + token; the organization key maps to the organization; content-type is application/json |
| `OpenAIKit.OpenAIKit.BaseMultipartHeaders` | Sources/OpenAIKit/OpenAIKit.swift:46-58 | the same keys and values, with content-type multipart/form-data |
| `OpenAIKit.OpenAIKit.HeadersAgreeExceptContentType` | Sources/OpenAIKit/OpenAIKit.swift:32-58 | the two builders have the same keys, agree on every key but content-type, and differ there |

## Left out

- URLSession and the network: the session configuration, its timeouts (`TimeInterval(INT_MAX)`, a floating-point value), `dataTask(with:).resume()` and `invalidateAndCancel`. A session is a value holding its extra headers, its task's request and an "invalidated" flag.
- The OperationQueue and `cancelAllOperations`. Delivery is a sequence of method calls, as the serial queue makes it. Here the model over-approximates: it lets any callback follow a stop, so a trace such as stop, response, chunk (which reactivates the stream and delivers messages after the forced completion) is admitted. The code drops the callbacks already queued when the stop runs (`cancelAllOperations`, line 65) and cancels the task (`invalidateAndCancel`, line 64). What it does not stop is a callback already running, or one URLSession queues afterwards, such as the cancelled task's `didCompleteWithError`; `StopThenLateCompletion` shows that case.
- Concurrency between the caller's thread and the delegate queue. `startStream`, `stopStream` and the observer setters are modelled as atomic with respect to the callbacks. A `stopStream` that lands while `didReceive data` is inside its `for line in lines` loop is not modelled: there the remaining lines are still delivered after the forced completion, because `isStreamActive` is tested only at line 88 and `cancelAllOperations` does not stop a running operation. `StopThenData` covers only a chunk whose callback starts after the stop. The unsynchronised access to `isStreamActive` from the two threads is left out too.
- JSONSerialization, JSONDecoder.aiDecoder and UTF-8 conversion. They are inputs or a decoder function, not reimplemented. `JSONDecoder.aiDecoder` and `JSONEncoder.aiEncoder` are not part of this model.
- Swift String is Character-based. `hasPrefix` and `dropFirst(6)` are modelled by code unit, which differs only when a combining character follows "data: ". `components(separatedBy:)` splits by code unit, as modelled.
- NSError and its `userInfo`. Errors are a small datatype: a transport error, a body error (status and dictionary), or a status error (status and localized message).
- Errors thrown by the completion observer. The source swallows them with `try?`; the model logs the invocation.
- Authentication-challenge forwarding (`AIEventStream.swift:71-78`). It is thin delegate plumbing whose outcome belongs to the credential checker.
- `AIStreamResponse` (`AIEventStream.swift:15-21`). It is a data holder with no logic.
- `OpenAIKitNetwork` and the credential checker the OpenAIKit initializer forwards to it (`OpenAIKit.swift:16-18, 25`). `OpenAIKitNetwork` is not part of this model.
- Package.swift, a build manifest.
