# Video downloader: progress relay and page, modelled in Dafny

The system downloads a video for a browser. The page (`frontend/src/App.jsx`)
takes a URL and opens a server-sent-events stream on `/progress`. It then
requests `/download?url=…`. The server (`backend/app.js`) starts the external
downloader on that URL and writes to `video_<timestamp>.mp4`. It reads every
chunk the downloader prints and broadcasts what it finds to every open
`/progress` connection: a percentage, or an error. When the downloader exits,
the server broadcasts a completion or a failure, then either sends the file and
deletes it, or answers 500.

The model has six files and seven modules:

- `text.dfy` (`Wrappers`, `Text`): digits and decimal rendering, ASCII
  lower-casing, substring search and ASCII trimming.
- `events.dfy` (`Events`): the three events the server broadcasts, their JSON
  payloads, and a decoder with a round-trip proof. Percentages are whole
  numbers of tenths, because the server only reads `<digits>.<digit>`, so
  `12.3%` is 123.
- `scanner.dfy` (`Scanner`): the search for `(\d+\.\d)%`, the leftmost-first
  regular-expression search. It is stated declaratively (`MatchSpan`,
  `IsLeftmost`) and computed by a scanner that skips whole runs of digits. The
  two are proved to agree. `Classify` decides what one chunk of standard output
  or standard error produces.
- `channel.dfy` (`Channel`): the list of open progress connections, as a class.
  Subscribing appends, closing filters, and broadcasting loops over the list in
  order. A connection is a number drawn from a counter, standing for the fresh
  response object each request gets. One ordered trace holds every frame
  written and every step of request handling (spawning the downloader, an
  answer, sending or deleting the file). `Log(c)` is the events connection `c`
  received, read off the frames. `Received(c)` is the text on that
  connection: `data: <payload>` and a blank line per event.
- `download.dfy` (`Download`): the `/download` route. It holds the URL guard,
  the file name, a class for one running download that relays output chunks
  and handles the exit, and a driver, `HandleDownload`. The driver takes the
  downloader's run as a script: its chunks, its exit code, and the elapsed time
  as printed.
- `app.dfy` (`App`): the page's fields as a class whose methods follow the
  handlers. Each handler also exists as a pure transition on a `Page` value. On
  top of these, end-to-end lemmas follow a page that listens to a whole run.
  The page decodes each frame the server writes, and a closed stream delivers
  nothing more.

What the code does, and the model with it:

- Every open `/progress` connection receives every event: `sendProgress`
  writes to each connection in the list.
- A standard-error chunk that mentions "error" only broadcasts the chunk-error
  event. The run goes on, more events may follow, and the HTTP outcome depends
  on the exit code alone, so an error in the output does not by itself cause a
  500.
- The file is deleted only on the success path, after it has been sent. On a
  non-zero exit it is left in place.
- The exit event is broadcast before the file is sent or the 500 is answered.
- The page closes its stream on the first error message it receives. After a
  chunk error, the page shows the error even when the download later succeeds
  and the file is saved.

## Model

| member | source | states |
|---|---|---|
| Text.DecimalDigits | backend/app.js:52 | The timestamp's decimal text has at least one digit and no leading zero, and reads back as the timestamp |
| Text.DecimalInjective | backend/app.js:52 | Two naturals have the same decimal text exactly when they are equal |
| Text.Lower | backend/app.js:74 | Lower-casing keeps the length, turns every capital letter into its small letter, and keeps every other character |
| Text.Contains | backend/app.js:74 | `includes` is true exactly when the pattern occurs at some index |
| Text.TrimStart | frontend/src/App.jsx:19 | The result is a suffix of the input, everything removed is white space, and the result does not start with white space |
| Text.TrimEnd | frontend/src/App.jsx:19 | The result is a prefix of the input, everything removed is white space, and the result does not end with white space |
| Text.Trim | frontend/src/App.jsx:19 | The trimmed URL neither starts nor ends with white space, and it is empty exactly when every character is white space |
| Events.NumberText | backend/app.js:63-64 | The number printed for a percentage reads back as the same number of tenths |
| Events.ProgressIsNotCompleted | backend/app.js:64 | A progress payload never has the shape of a completion payload |
| Events.Payload | backend/app.js:42 | Decoding the JSON payload of an event gives back that event, when its strings need no escaping |
| Scanner.RunEnd | backend/app.js:61 | The digits from `i` end at the first non-digit or at the end of the chunk |
| Scanner.FindFrom | backend/app.js:61 | A match the scan reports is a real match of the expression: digits, `.`, one digit and `%` |
| Scanner.FindFromMeaning | backend/app.js:61 | The scan from `from` reports a match exactly when one starts at or after `from`, and then reports the leftmost one |
| Scanner.SpanUnique | backend/app.js:61 | Two matches that start at the same index end at the same `.` |
| Scanner.ExtractPercent | backend/app.js:61-63 | A percentage is reported only as the value of the leftmost match, and none is reported only when the chunk has no match |
| Scanner.ExtractPercentMeaning | backend/app.js:61-63 | A chunk yields a percentage exactly when it contains digits, `.`, one digit and `%`, and the value comes from the leftmost such match |
| Scanner.LeftmostTakesWholeRun | backend/app.js:61 | The leftmost match's integer part is the whole run of digits before the `.` |
| Scanner.NoMatchAtNonDigit | backend/app.js:61 | No match starts at a character that is not a digit |
| Scanner.Classify | backend/app.js:59-77 | A chunk yields a percentage or the fixed chunk-error message, never anything else, and standard output never yields an error |
| Scanner.ClassifyMeaning | backend/app.js:59-77 | Standard output yields a percentage or nothing. A percentage from the leftmost match wins on both streams. Otherwise a standard-error chunk mentioning "error" in any case yields the fixed chunk-error message. No chunk yields a completion |
| Scanner.NoPercentSignNoMatch | backend/app.js:61 | A chunk without `%` yields no percentage |
| Scanner.ExampleLeadingText | backend/app.js:61-64 | `  12.3% of 10MiB` yields 123 tenths |
| Scanner.ExampleWholeRun | backend/app.js:61-64 | `x912.3%` yields 9123 tenths: the whole digit run is captured |
| Scanner.ExampleNotClamped | backend/app.js:63-64 | `250.0%` yields 2500 tenths: there is no clamping to 100 |
| Scanner.ExampleTwoFractionDigits | backend/app.js:61 | `12.34%` yields no percentage |
| Scanner.ExampleFirstMatchWins | backend/app.js:61-64 | `5.0% then 7.5%` yields 50 tenths: the first match wins |
| Scanner.ErrorInAnyCase | backend/app.js:68-77 | A chunk containing `error` in any letter case and no `%` is a failure on standard error and ignored on standard output |
| Scanner.ExampleCapitalError | backend/app.js:68-77 | `ERROR: x` on standard error yields the chunk-error message |
| Channel.Frame | backend/app.js:42 | The data a subscriber reads from the `data: …` frame is exactly the payload |
| Channel.WireRoundTrip | backend/app.js:42 | A subscriber reading a broadcast frame gets back the event sent |
| Channel.FanOut | backend/app.js:41-43 | One broadcast performs one write per listed connection, each carrying the event to a listed connection |
| Channel.Without | backend/app.js:35 | `filter` removes every occurrence of the closed connection and keeps every other one as often as before |
| Channel.WithoutKeepsOrder | backend/app.js:35 | `filter` keeps the remaining connections in their original relative order |
| Channel.WithoutAbsent | backend/app.js:35 | Filtering out a connection that is not in the list changes nothing |
| Channel.LogOfAbsent | backend/app.js:32 | A connection that no write went to has received nothing |
| Channel.LogOfAppend | backend/app.js:41-43 | A connection's log of two traces in sequence is its two logs in sequence |
| Channel.LogOfFanOut | backend/app.js:41-43 | One broadcast writes the frame to a connection once per occurrence of it in the list |
| Channel.LogOfFanOutDistinct | backend/app.js:41-43 | With distinct connections, one broadcast reaches every registered connection exactly once and no other |
| Channel.LogOfBroadcasts | backend/app.js:40-44 | Over several broadcasts to a fixed list, each registered connection receives every event in order, and others receive nothing |
| Channel.LogAfterBroadcasts | backend/app.js:40-44 | After such broadcasts on top of an earlier trace, each registered connection's log has gained exactly those events, and other logs are unchanged |
| Channel.BroadcastsAppend | backend/app.js:40-44 | Broadcasting two runs of events writes the two traces one after the other |
| Channel.MapSeqAppend | backend/app.js:42 | Framing two runs of events gives the two runs of frames one after the other |
| Channel.ProgressChannel.constructor | backend/app.js:17 | The server starts with no connections and nothing written |
| Channel.ProgressChannel.Subscribe | backend/app.js:32 | A new connection is appended at the end. It is fresh: never listed before and never written to, so it has received nothing. Nothing is written |
| Channel.ProgressChannel.Unsubscribe | backend/app.js:34-36 | The closed connection is filtered out, so it is no longer in the list. An absent connection leaves the list unchanged. Nothing is written, and no identity is reused |
| Channel.ProgressChannel.Broadcast | backend/app.js:40-44 | The event is written once to each connection in list order. The list is unchanged, and with no connections nothing is written. Each registered connection's log and text gain exactly that event's frame, and others gain nothing |
| Channel.ProgressChannel.Record | backend/app.js:82 | A step of request handling, such as the 500 answer, is appended to the trace after everything written so far. No connection's log or text changes, and the list and the identity counter are unchanged |
| Download.FileNameInjective | backend/app.js:51-52 | Different timestamps give different file names |
| Download.FileNameParts | backend/app.js:52 | The file name is `video_`, then digits that read back as the timestamp, then `.mp4` |
| Download.Terminal | backend/app.js:79-86 | The exit event is a completion with the time exactly when the exit code is 0, and it is never an event the output can cause |
| Download.FinishOrder | backend/app.js:79-91 | Finishing writes no frame. Exit code 0 sends the file and deletes it only afterwards; any other code answers 500 `Download failed` and sends and deletes nothing |
| Download.OutcomeFromOutput | backend/app.js:59-77 | One chunk yields only percentages or the chunk-error message |
| Download.ChunkEventsFromOutput | backend/app.js:59-77 | A run's output yields only percentages or the chunk-error message |
| Download.OutputCountsNoExit | backend/app.js:59-77 | Such events include no completion and no exit failure |
| Download.JobEventsEndOnce | backend/app.js:79-86 | A run broadcasts exactly one exit event, last. With exit code 0 it is one completion and no exit failure; otherwise one exit failure and no completion |
| Download.DownloadJob.constructor | backend/app.js:51-57 | A request with a URL names its file `video_<timestamp>.mp4` and starts the downloader on that file and URL; the start is the one step added to the trace, and no connection receives anything |
| Download.DownloadJob.OnOutput | backend/app.js:59-77 | One chunk broadcasts exactly the events `Classify` gives for it, to the unchanged list of connections |
| Download.DownloadJob.RelayOutput | backend/app.js:59-77 | The run's chunks, in order, broadcast exactly the events of the run's output |
| Download.DownloadJob.OnClose | backend/app.js:79-91 | The trace gains, in this order, the exit event's frame for every connection and then the end of the request: 500 `Download failed` for a non-zero or missing exit code, otherwise the file sent and then deleted. The list of connections and the identity counter are unchanged. The state becomes Failed or Succeeded |
| Download.HandleDownload | backend/app.js:47-91 | A missing or empty `url` adds only the 400 `No URL provided` answer to the trace: no spawn and no frame. Otherwise the trace gains, in order, the spawn, the frames of the output's events and of the exit event, and then the end of the request |
| Download.WatchDownload | backend/app.js:32-91 | A connection opened before the download request is fresh, and it receives exactly the run's events as frames: the output's events, then the exit event. A request without a URL sends it nothing |
| App.Ui.constructor | frontend/src/App.jsx:4-8 | The fields start as `""`, 0, null, false, null, with no stream |
| App.Ui.Edit | frontend/src/App.jsx:107 | Typing replaces the URL and nothing else |
| App.Ui.ResetAll | frontend/src/App.jsx:10-16 | The page's fields become `Reset` of the old ones |
| App.Ui.HandleDownload | frontend/src/App.jsx:18-30 | A download starts exactly when the URL does not trim to nothing, and the fields become `Start` of the old ones |
| App.Ui.OnMessage | frontend/src/App.jsx:32-59 | While the stream is open, the fields become `Receive` of the old ones and the message |
| App.Ui.OnFetchSettled | frontend/src/App.jsx:62-82 | The fields become `FetchSettled` of the old ones and the outcome |
| App.Reset | frontend/src/App.jsx:10-16 | `resetAll` sets `""`, 0, null, false, null and leaves the stream as it was |
| App.Start | frontend/src/App.jsx:18-30 | A URL made only of white space changes nothing. Otherwise the page is loading, at 0, with no error and a stream open, keeping the URL and the time taken |
| App.Receive | frontend/src/App.jsx:32-59 | No message changes the URL, opens the stream or starts loading, and an error shown anew is the message's own |
| App.FetchSettled | frontend/src/App.jsx:62-82 | The end of the request never changes the URL, the progress or the time taken. A failure always sets an error, stops loading and closes the stream |
| App.Deliver | frontend/src/App.jsx:32-59 | Delivering one frame keeps the URL, never reopens the stream and never starts loading |
| App.Delivered | frontend/src/App.jsx:32-59 | However many frames arrive, the URL is kept, a closed stream stays closed and a stopped download does not resume loading |
| App.ResetRestores | frontend/src/App.jsx:10-16 | `resetAll` forgets everything but whether the stream is open, so a second call changes nothing |
| App.UnparseableIgnored | frontend/src/App.jsx:56-58 | An unparseable frame changes nothing |
| App.ErrorStops | frontend/src/App.jsx:36-41 | A message with a non-empty error shows it, stops loading and closes the stream. Its progress and time are ignored |
| App.ProgressShownUnlessZero | frontend/src/App.jsx:36-49 | A message with no error and no time changes nothing but the progress: a missing or zero progress leaves the page as it was, any other replaces the shown one |
| App.TimeFinishes | frontend/src/App.jsx:46-50 | A message with a time and no error closes the stream, records the time, stops loading and keeps the error |
| App.CompletionAtHundred | frontend/src/App.jsx:43-50 | The completion message leaves the page at 100% with the time shown, not loading, with the stream closed |
| App.FetchFailureStops | frontend/src/App.jsx:62-82 | A non-OK response shows `Download failed for this link`, and a rejected request shows its message. Either way loading stops and the stream closes. An OK response changes nothing |
| App.ParseWire | frontend/src/App.jsx:34 | The page reads every frame the server writes back as the message of the event it carries |
| App.JobEventsEncodable | backend/app.js:75-86 | Every event a run broadcasts can be read back, given a time printed without quotes or control characters |
| App.ParseWires | frontend/src/App.jsx:32-34 | For a run of events, the page receives the messages of those events, in order |
| App.ClosedStreamIgnores | frontend/src/App.jsx:39 | Once the stream is closed, no later frame changes the page |
| App.ProgressKeepsListening | frontend/src/App.jsx:43-45 | While only percentages arrive, the stream stays open and only the shown progress changes |
| App.OutputKeepsListeningOrShowsError | frontend/src/App.jsx:32-59 | While the output is relayed, the page either still listens with only its progress changed, or has shown the chunk error, stopped loading and closed the stream |
| App.JobMessages | frontend/src/App.jsx:32-34 | The page's messages for a run are those of the output's events, then that of the exit event |
| App.FailedRunShowsError | frontend/src/App.jsx:36-41 | A page listening to a failed run ends showing an error, not loading, with its stream closed |
| App.SucceededRunShowsTime | frontend/src/App.jsx:43-50 | A page listening to a successful run whose output reported no error ends at 100% with the time shown. It is not loading, its stream is closed, and its error is as before |

## Left out

- HTTP plumbing is not modelled: Express, CORS, response headers, `flushHeaders` and `app.listen`.
- The downloader process is replaced by a script: its chunks and its exit code. Exit code `null` (killed by a signal) is `None`. Callbacks are not delivered asynchronously.
- A `spawn` that fails (backend/app.js:57) emits `error`, which nothing listens for, so the server crashes instead of reaching `close`. The script cannot express this.
- An `fs.unlinkSync` that throws inside the `res.download` callback (backend/app.js:89) also crashes the server. In the model, `DeleteFile` always succeeds.
- File input and output are left out. `spawn`, the answers, `res.download` and `fs.unlinkSync` appear only as steps of the channel's trace, in the order they happen among the frames.
- The clock is left out. `Date.now()` is the parameter `timestamp`. The elapsed time from `toFixed(2)` is an opaque string. The global `startTime`, which concurrent requests overwrite, is not modelled.
- Events.NumberText: a percentage is an exact number of tenths, and the model prints it exactly. `parseFloat` and `JSON.stringify` agree with that up to 15 significant digits. A longer digit run is rounded to the nearest double (`9007199254740993.0%` is sent as `9007199254740992`). A value of 10^21 or more is printed in exponent form. A run of more than about 309 digits becomes `Infinity`, which is sent as `null` and ignored by the page. None of this is modelled.
- Events.Payload: JSON escaping is not modelled. Error messages and times are assumed to need no escaping (`Encodable`), as the server's fixed messages and `toFixed` output do.
- App.Parse: `JSON.parse` is modelled only for the three payloads the server writes. Any other frame counts as unparseable, although `JSON.parse` would accept other valid JSON.
- Text.Lower: ASCII letters only. `toLowerCase` also folds other Unicode letters.
- Text.Trim: ASCII white space only. `trim` also removes Unicode spaces and line terminators.
- Download.WatchDownload: the connection is taken to be registered before the download starts. `EventSource` connects asynchronously, so a real page may miss the first events.
- Download.HandleDownload: the list of progress connections is fixed while a run lasts. Subscriptions and closes that interleave with a run are not modelled, and neither are concurrent runs.
- App.Ui: only the latest stream is tracked. An earlier stream that `handleDownload` does not close is not modelled.
- App.Ui: the `setTimeout` that calls `resetAll` three seconds after completion is not modelled as a timer. `ResetAll` is a separate step.
- Rendering, `alert`, `EventSource` construction, `fetch`, the blob, the object URL and the anchor click are not modelled.
