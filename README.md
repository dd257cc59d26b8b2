# Recorder page of web-streaming-to-video, in Dafny

`recorder.js` is the page of a browser extension that records a browser tab
to a WebM file. It keeps one recording session in module-level variables
(`mediaRecorder`, `recordedChunks`, `stream`, `startTime`, `timerInterval`)
and shows it through three panels: idle, recording and save. The start button
asks the browser to share a tab. The page picks an encoding, starts a
`MediaRecorder` with a one-second timeslice, buffers the non-empty chunks it
delivers, and ticks a clock. A stop (the button, or the user ending the share
in the browser) flushes and stops the recorder and ends every capture track.
When the recorder reports that it stopped, the page:

- shows the final time;
- fills in a default filename from the timestamp;
- assembles the chunks into one `video/webm` blob and links it for download;
- switches to the save panel.

"New recording" releases the blob URL and returns to idle.

The model has these parts:

- `Recorder` holds the session. `Page` is a class whose fields are the page's
  variables, the part of the DOM the page writes (`Dom`), the interval timers
  still running and the object URLs not yet revoked. Each event handler is a
  method with a field-level `modifies` clause. `Track`, `MediaStream` and
  `MediaRecorder` are small classes holding what the page observes of those
  browser objects; `MediaRecorder` also logs the calls the page makes on it.
  `Page.Valid` is the invariant every handler keeps:
  - exactly one panel is visible and the dot matches it;
  - only non-empty chunks are buffered;
  - the download link points at a live object URL whenever it points at one;
  - the page's timer is running while its id is set.
- `Format` holds the pure helpers: `formatTime`, with a parser that reads the
  clock text back; the download filename rule; the default filename built from
  the ISO timestamp; and the unit `formatSize` chooses.
- `Capture` holds the choice of MIME type and the error messages.
- `Artifact` holds the chunks and the blob assembled from them.
- `JsString` holds the JavaScript string built-ins the helpers use: `trim`,
  `endsWith`, `toString` and `padStart`.
- `Scenarios` drives whole sessions through the handlers.

What the browser decides is passed in as parameters:

- the outcome of `getDisplayMedia` (a stream, or an error with its `name` and
  `message`);
- whether `new MediaRecorder` or `start` throws;
- the set of types `isTypeSupported` accepts;
- `Date.now()`, the `toISOString()` text and the id `setInterval` returns.

## Model

| member | source | states |
|---|---|---|
| JsString.Trim | recorder.js:102 | `trim()` leaves no whitespace at either end; it is empty exactly when the input is blank; it returns an already-trimmed string unchanged |
| JsString.TrimSlice | recorder.js:102 | `trim()` removes whitespace and nothing else: the input is its leading whitespace, then the result, then only whitespace |
| JsString.PadStart | recorder.js:30 | `padStart(2, '0')` keeps the numeral as the suffix, fills the front with `0`, and reaches at least the width |
| JsString.Numeral | recorder.js:30 | `n.toString()` is a digit string denoting `n`: one digit exactly below 10, at most two below 100, and no leading zero |
| Format.JsRemainder | recorder.js:28-29 | JavaScript's `%` truncates toward zero: the result lies strictly between `-b` and `b`, has the sign of `a`, is the mathematical remainder for `a >= 0`, and for `a < 0` is minus the remainder of `-a` |
| Format.FormatTimeRoundTrip | recorder.js:25-31 | for `ms >= 0`, `formatTime(ms)` has at least two hour digits, exactly two minute digits and two second digits, both below 60, separated by colons, and it reads back as `floor(ms / 1000)` seconds |
| Format.ClockRoundTrip | recorder.js:30 | hours, minutes below 60 and seconds below 60, padded and joined with colons, read back as `h*3600 + m*60 + s` |
| Format.ClockArithmetic | recorder.js:26-29 | the minutes and seconds `formatTime` computes are below 60, and hours, minutes and seconds recombine to the whole seconds |
| Format.FormatTimeWidth | recorder.js:25-31 | below 100 hours, the clock text is exactly 8 characters long |
| Format.SizeUnitFor | recorder.js:34-38 | `formatSize` picks bytes below 1024, KB below 1024*1024 and MB above; the size is at least one of the chosen unit and, except in MB, fewer than 1024 of it |
| Format.DownloadFilenameRule | recorder.js:101-106 | the download name always ends in `.webm`; blank input gives `recording.webm`; a trimmed input that already ends in `.webm` is kept unchanged; any other non-blank input becomes the trimmed input with exactly `.webm` appended |
| Format.DownloadFilenameIdempotent | recorder.js:101-106 | applying the filename rule to its own output returns it unchanged |
| Format.DashSeparators | recorder.js:127 | `replace(/[T:]/g, '-')` keeps the length and maps each `T` and `:` to `-`, every other character to itself |
| Format.DefaultFilenameShape | recorder.js:126-128 | the default name is `recording-` followed by the first 19 characters of the timestamp (all of it when shorter), each kept or turned into `-`, and it contains no `T` and no `:` |
| Format.DefaultFilenameOfTimestamp | recorder.js:126-128 | for a `YYYY-MM-DDTHH:mm:ss.sssZ` timestamp, the default name is `recording-YYYY-MM-DD-HH-mm-ss` |
| Format.DefaultDownloadName | recorder.js:126-128 | the download name derived from a default name only appends `.webm` to it |
| Capture.FirstSupported | recorder.js:168 | the position `find` stops at: every entry before it is unsupported, and the entry there, if any, is supported |
| Capture.FindSupported | recorder.js:168 | `find` returns nothing exactly when no entry is supported; otherwise it returns the first supported entry |
| Capture.ChooseMimeType | recorder.js:160-168 | the encoder's type is always one of the five preferences; it is supported, or it is `video/webm` and none is supported; no supported preference ranks above it |
| Capture.CauseMessageNotGeneric | recorder.js:210-217 | none of the four fixed messages starts with `Recording failed. ` |
| Capture.StartErrorMessageCases | recorder.js:208-220 | `NotAllowedError`, `NotFoundError`, `AbortError` and `NotSupportedError` get their fixed messages; a message starts with `Recording failed. ` exactly when the name is none of those, and the rest of it is the error's message, or `Unknown error.` when that is empty |
| Capture.StartErrorMessageDistinguishes | recorder.js:208-220 | equal messages mean the same cause, and for generic failures the same detail, so the four fixed messages are distinct from one another and from every generic message |
| Capture.RecorderErrorNotStartError | recorder.js:184-222 | no message the encoder's error handler shows (`Recording error: …`) equals any message the start error handler shows, so the user can tell the two failures apart |
| Artifact.Assemble | recorder.js:86 | the blob's bytes are the chunks' bytes one after another, its media type is `video/webm`, and its size is the sum of the chunk sizes |
| Artifact.ConcatSize | recorder.js:86-87 | the assembled bytes are as many as the chunk sizes add up to |
| Artifact.ConcatAppend | recorder.js:86 | assembling two runs of chunks concatenates their bytes |
| Artifact.ConcatPush | recorder.js:175 | pushing a chunk appends its bytes to the artifact and adds its size |
| Artifact.ChunkPlacement | recorder.js:86 | chunk `i` occupies exactly the bytes between the sizes of the chunks before it and the chunks up to it, so arrival order is kept |
| Recorder.Dom.WithPanel | recorder.js:63-74 | after `showState(state)`, exactly that panel is visible, the dot is marked recording exactly for the recording panel, and nothing else in the DOM changes |
| Recorder.Stage | recorder.js:143-201 | `startRecording` fails at capture exactly when capture is rejected, fails at construction exactly when the constructor throws, and starts exactly when the stream has a video track and setup proceeds |
| Recorder.StartFailure | recorder.js:143-204 | the error the catch block receives: the capture error; the constructor's error (thrown before the video track is looked at); the `TypeError` from `videoTracks[0].onended` on a stream without video; or the error `start` throws |
| Recorder.Prepared | recorder.js:77-98 | with no chunks only the error is shown; otherwise the size line shows the sum of the chunk sizes, the link points at a `video/webm` blob of the chunks in order, and the download name follows the filename box; nothing else changes |
| Recorder.WithFinalTime | recorder.js:121-123 | with a start time set, the final time shows the clock text of the time elapsed since it; without one it stays as it was; nothing else changes |
| Recorder.FinalTimeReadsBack | recorder.js:121-123 | the final time shown reads back as the whole seconds since the start |
| Recorder.FinalDom | recorder.js:111-135 | after finalising, the save panel is shown even with no data; the filename box holds the default name; the final time is shown when a start time is set; with no chunks the error is shown and the link is left alone; otherwise the link points at the blob of the chunks with their total size, named after the default name |
| Recorder.NewUrls | recorder.js:93 | `prepareDownload` creates one object URL, for the assembled blob, exactly when there are chunks |
| Recorder.StopTracks | recorder.js:244-246 | every track of the stream has ended |
| Recorder.Page.constructor | recorder.js:3-7 | the variables start as declared (null, empty, null, null, null), no timer runs, no object URL exists, and the idle panel is shown |
| Recorder.Page.ShowState | recorder.js:63-74 | the DOM becomes `WithPanel(state)` of the old DOM |
| Recorder.Page.UpdateTimer | recorder.js:41-45 | while a start time is set, the clock shows the time elapsed since it; otherwise nothing changes |
| Recorder.Page.UpdateDownloadFilename | recorder.js:101-106 | the link's download name becomes the filename rule applied to the box's text |
| Recorder.Page.OnFilenameInput | recorder.js:297-298 | typing in the box sets the download name by the rule, which always ends in `.webm` |
| Recorder.Page.PrepareDownload | recorder.js:77-98 | the DOM becomes `Prepared` of the old DOM and the chunks; exactly the new object URL is added to the live ones; `Valid` is kept |
| Recorder.Page.ClearTimer | recorder.js:115-118 | a set timer is cleared and forgotten; an unset one leaves everything alone |
| Recorder.Page.ShowFinalTime | recorder.js:121-123 | the DOM becomes `WithFinalTime` of the old DOM |
| Recorder.Page.OnRecordingStopped | recorder.js:111-135 | the timer is cleared; the DOM becomes `FinalDom` (save panel, default name, prepared download, or the no-data error); the new URL is recorded; `Valid` is kept |
| Recorder.Page.StartRecording | recorder.js:138-224 | a rejected capture leaves the stream, buffer and recorder alone; a granted stream is kept and the buffer emptied; a constructed recorder uses `ChooseMimeType`; any failure shows `StartErrorMessage` of its error, re-enables the button and starts no timer; success starts the recorder with a 1000 ms timeslice, records the start time and timer, and shows the recording panel |
| Recorder.Page.TryStart | recorder.js:143-202 | the `try` block stops at the first step that throws and returns its error, with the same state outcomes stage by stage, and `None` when recording starts |
| Recorder.Page.BeginRecording | recorder.js:197-201 | `start(1000)` is called, the start time and timer id are set, the timer runs, and the recording panel is shown |
| Recorder.Page.CatchStartError | recorder.js:204-223 | the button is re-enabled and the error line shows `StartErrorMessage(err)` |
| Recorder.Page.OnDataAvailable | recorder.js:173-177 | a present, non-empty chunk is appended at the end of the buffer; otherwise the buffer is unchanged |
| Recorder.Page.OnRecorderStop | recorder.js:179-182 | the encoder's stop event finalises the session as `onRecordingStopped` does |
| Recorder.Page.OnRecorderError | recorder.js:184-188 | the error line shows `RecorderErrorMessage` and the start button is re-enabled; the recorder and the buffer are untouched |
| Recorder.Page.DoStopRecording | recorder.js:227-249 | the stop button is disabled; a recording recorder gets `requestData` then `stop` and becomes inactive, any other recorder is unchanged; every track of the stream ends and the stream is dropped, so a second call changes nothing but the button |
| Recorder.Page.OnVideoTrackEnded | recorder.js:191-194 | the user ending the share stops the session as `doStopRecording` does |
| Recorder.Page.StopRecording | recorder.js:252-267 | with no recorder nothing changes; with an inactive recorder the session is finalised directly; otherwise `doStopRecording` runs and the timer, live URLs and DOM beyond the stop button are untouched |
| Recorder.Page.ResetRecorder | recorder.js:270-289 | the blob URL the link holds is revoked; the buffer, stream, recorder and start time are cleared; the clock, link and buttons are reset; the error is hidden and the idle panel is shown |
| Scenarios.StartedPage | recorder.js:138-202 | a granted capture with a video track starts recording: recorder started with `[start(1000)]` and the chosen type, empty buffer, one timer running, the recording panel shown, no error |
| Scenarios.DeliverThree | recorder.js:173-177 | five data events (absent and empty ones among them) leave exactly the three non-empty chunks, in arrival order |
| Scenarios.ThreeChunks | recorder.js:86 | three chunks assemble to their bytes in order, and their total size is the sum of the three |
| Scenarios.ThreeChunksRecorded | recorder.js:173-194 | after three chunks and the end of the share, the buffer holds them, the stream is gone and the timer still runs |
| Scenarios.ThreeChunksThenTrackEnds | recorder.js:173-194 | chunks of 10, 20 and 30 bytes, the share ended, then the stop event: a 60-byte `video/webm` blob of the chunks in order, the default filename, the save panel, no stream and no timer left running |
| Scenarios.StopTwice | recorder.js:227-267 | a stop click then the end of the share: the recorder gets `requestData` and `stop` exactly once and the stream is gone |
| Scenarios.EmptyRecording | recorder.js:111-135 | stopping with no data shows `No recording data available.`, creates no object URL, and still shows the save panel |
| Scenarios.SavedOnce | recorder.js:111-135 | one chunk recorded and stopped: the link and the only live URL hold the blob of that chunk |
| Scenarios.ResetThenStartAgain | recorder.js:270-289 | a reset after saving revokes the old URL, and the next start begins with an empty buffer, a new recorder and the recording panel |
| Scenarios.CaptureRefused | recorder.js:204-223 | a refused share shows the permission message and re-enables start; the page stays idle with no recorder, stream or timer |

## Left out

- `background.js` and `popup.js` only open the recorder window and close the popup; they hold no session logic.
- `getDisplayMedia`, `MediaRecorder`, `Blob` and `URL.createObjectURL`/`revokeObjectURL` are browser APIs. Their outcomes are parameters (capture result, setup outcome, supported types), and their effects are the recorder's state and call log, the blob value and the multiset of live object URLs.
- The capture constraints (`displaySurface: "browser"`, `audio: true`) only reach the browser, and are not modelled.
- Time is a parameter: `Date.now()`, `toISOString()` and the id `setInterval` returns are inputs. The interval's periodic ticks are not scheduled; `UpdateTimer` models one tick.
- The `await` in `startRecording` is one step here; other events arriving while the capture prompt is open are not interleaved.
- `formatSize` divides in floating point and uses `toFixed(1)`, so only the unit choice is modelled (`Format.SizeUnitFor`). The DOM keeps the byte count in place of the `File size: …` text.
- The link's `💾 Save Video: …` label (recorder.js:107), CSS classes other than panel visibility and the dot, and every `console.log`/`console.error` call are left out.
- `showError` and `hideError` check that the error element exists (recorder.js:49, 57). The model assumes it does, and represents the hidden error line as `None`.
- `resetRecorder` revokes the link's `href` when it starts with `blob:`. The model tests whether the `href` is an object URL. The `#` placeholder is never a `blob:` URL.
- recorder.html is not part of this model. The page's first DOM is taken to be the one `resetRecorder` produces.
- `MediaRecorder` can report `paused`, but this page never pauses it; `DoStopRecording` leaves a paused recorder untouched, as the code does.
- A stream without a video track makes `videoTracks[0].onended = …` throw a `TypeError`. The extension uses the `browser.*` namespace of Firefox, so `MissingTrackError` carries Firefox's wording (`videoTracks[0] is undefined`); other engines word it differently.
- Format.FormatTimeRoundTrip: stated for non-negative durations only. A clock that goes backwards gives negative fields, which `JsRemainder` models but no lemma describes.
- Behaviour one might expect that the code does not have:
  - finalising with no chunks shows the error and still switches to the save panel;
  - `stopRecording` on an inactive recorder re-runs the finalisation unconditionally;
  - there is no directory-picker save and no link-click fallback, only the download link;
  - an error from the encoder shows a message and does not stop recording.
