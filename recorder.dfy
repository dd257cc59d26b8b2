/**
  * The recording session of recorder.js. The page keeps its session in
  * module-level variables (`mediaRecorder`, `recordedChunks`, `stream`,
  * `startTime`, `timerInterval`) and shows it through a few DOM elements; here
  * both are the fields of one `Page` object and every event handler is a method
  * on it. The browser objects the page drives (capture tracks, the stream, the
  * `MediaRecorder`) are small classes holding what the page can observe of them.
  * What the browser decides (whether capture is granted, which types it
  * supports, the clock, the timestamp text, timer ids) comes in as parameters.
  */
module Recorder {
  import opened Wrappers
  import opened Artifact
  import opened JsString
  import Format
  import Capture

  datatype TrackKind = AudioTrack | VideoTrack
  datatype ReadyState = Live | Ended

  /** A capture track (`MediaStreamTrack`). */
  class Track {
    const kind: TrackKind
    var readyState: ReadyState

    constructor (kind: TrackKind)
      ensures this.kind == kind && readyState == Live
    {
      this.kind := kind;
      readyState := Live;
    }

    /** `track.stop()`: the track ends for good. */
    method Stop()
      modifies this
      ensures readyState == Ended
    {
      readyState := Ended;
    }
  }

  /** A capture stream (`MediaStream`) with its tracks in `getTracks()` order. */
  class MediaStream {
    const tracks: seq<Track>

    constructor (tracks: seq<Track>)
      ensures this.tracks == tracks
    {
      this.tracks := tracks;
    }
  }

  datatype RecorderState = Inactive | Recording | Paused

  /** The page's calls into a `MediaRecorder`. */
  datatype RecorderCall = StartCall(timeslice: nat) | RequestDataCall | StopCall

  /** A `MediaRecorder`: the state the page reads, and the calls the page made on it, in order. */
  class MediaRecorder {
    const stream: MediaStream
    const mimeType: string
    var state: RecorderState
    var calls: seq<RecorderCall>

    constructor (stream: MediaStream, mimeType: string)
      ensures this.stream == stream && this.mimeType == mimeType
      ensures state == Inactive && calls == []
    {
      this.stream := stream;
      this.mimeType := mimeType;
      state := Inactive;
      calls := [];
    }

    /** `start(timeslice)`: begin encoding, delivering data every `timeslice` milliseconds. */
    method Start(timeslice: nat)
      requires state == Inactive
      modifies this
      ensures state == Recording && calls == old(calls) + [StartCall(timeslice)]
    {
      state := Recording;
      calls := calls + [StartCall(timeslice)];
    }

    /** `requestData()`: flush what is buffered as a data event. */
    method RequestData()
      requires state != Inactive
      modifies this
      ensures state == old(state) && calls == old(calls) + [RequestDataCall]
    {
      calls := calls + [RequestDataCall];
    }

    /** `stop()`: finish encoding; the final data event and the stop event follow. */
    method Stop()
      requires state != Inactive
      modifies this
      ensures state == Inactive && calls == old(calls) + [StopCall]
    {
      state := Inactive;
      calls := calls + [StopCall];
    }
  }

  /** The three panels of the page, named as `showState` names them. */
  datatype PanelName = IdlePanel | RecordingPanel | SavePanel

  /** The download link's `href`: the page's `#`, or an object URL for a blob. */
  datatype Href = Placeholder | ObjectUrl(blob: Blob)

  /**
    * What the page shows: whether each panel is hidden, the recording dot,
    * the two buttons, the error line (`None` while it is hidden), the clock,
    * the final time, the filename box, the file size line (as a byte count),
    * and the download link's `href` and `download` name.
    */
  datatype Dom = Dom(
    idleHidden: bool, recordingHidden: bool, saveHidden: bool, dotRecording: bool,
    startDisabled: bool, stopDisabled: bool, error: Option<string>,
    timerText: string, finalTimeText: string, filenameValue: string,
    fileSize: Option<nat>, downloadHref: Href, downloadName: string)
  {
    /** Exactly one of the three panels is visible. */
    predicate OnePanelShown() {
      || (!idleHidden && recordingHidden && saveHidden)
      || (idleHidden && !recordingHidden && saveHidden)
      || (idleHidden && recordingHidden && !saveHidden)
    }

    /** The visible panel. */
    function Shown(): PanelName
      requires OnePanelShown()
    {
      if !idleHidden then IdlePanel else if !recordingHidden then RecordingPanel else SavePanel
    }

    /** One panel shows, and the dot is marked exactly while it is the recording panel. */
    predicate Consistent() {
      OnePanelShown() && (dotRecording <==> Shown() == RecordingPanel)
    }

    /**
      * The DOM once `showState(state)` has run: that panel alone visible and
      * the dot marked exactly for the recording panel; nothing else changes.
      */
    function WithPanel(state: PanelName): (r: Dom)
      ensures r.Consistent() && r.Shown() == state
      ensures r.(idleHidden := idleHidden, recordingHidden := recordingHidden, saveHidden := saveHidden,
                 dotRecording := dotRecording) == this
    {
      this.(idleHidden := state != IdlePanel, recordingHidden := state != RecordingPanel,
            saveHidden := state != SavePanel, dotRecording := state == RecordingPanel)
    }
  }

  /** How `getDisplayMedia` settles. */
  datatype CaptureOutcome = Granted(stream: MediaStream) | Rejected(error: Capture.JsError)

  /** Whether `new MediaRecorder(...)` or `mediaRecorder.start(1000)` throws. */
  datatype SetupOutcome = Proceeds | ConstructorThrows(error: Capture.JsError) | StartThrows(error: Capture.JsError)

  /** JavaScript truthiness of a number-or-null variable: `null` and `0` are false. */
  predicate Truthy(v: Option<int>) {
    v.Some? && v.value != 0
  }

  /** Whether a stream has a video track, so that `getVideoTracks()[0]` exists. */
  predicate HasVideoTrack(s: MediaStream) {
    exists i | 0 <= i < |s.tracks| :: s.tracks[i].kind == VideoTrack
  }

  /**
    * The error a JavaScript engine raises for `videoTracks[0].onended = ...`
    * when the stream has no video track, as Firefox (the browser this
    * extension targets) words it.
    */
  const MissingTrackError := Capture.JsError("TypeError", "videoTracks[0] is undefined")

  /** Where `startRecording` ends: at the first step that throws, or started. */
  datatype StartStage = CaptureFailed | ConstructFailed | SetupFailed | Started

  /** The stage `startRecording` reaches for the given browser outcomes. */
  function Stage(capture: CaptureOutcome, setup: SetupOutcome): (r: StartStage)
    ensures r == CaptureFailed <==> capture.Rejected?
    ensures r == ConstructFailed <==> capture.Granted? && setup.ConstructorThrows?
    ensures r == Started <==> capture.Granted? && HasVideoTrack(capture.stream) && setup.Proceeds?
  {
    if capture.Rejected? then CaptureFailed
    else if setup.ConstructorThrows? then ConstructFailed
    else if !HasVideoTrack(capture.stream) || setup.StartThrows? then SetupFailed
    else Started
  }

  /** The error `startRecording`'s `catch` receives at a failed stage. */
  function StartFailure(capture: CaptureOutcome, setup: SetupOutcome): (e: Capture.JsError)
    requires Stage(capture, setup) != Started
    ensures capture.Rejected? ==> e == capture.error
    ensures capture.Granted? && !HasVideoTrack(capture.stream) && !setup.ConstructorThrows? ==> e == MissingTrackError
    ensures capture.Granted? && (setup.ConstructorThrows? || HasVideoTrack(capture.stream)) ==> e == setup.error
  {
    if capture.Rejected? then capture.error
    else if setup.ConstructorThrows? then setup.error
    else if !HasVideoTrack(capture.stream) then MissingTrackError
    else setup.error
  }

  const NoDataMessage := "No recording data available."
  const ZeroClock := "00:00:00"
  const ResetDownloadName := "recording.webm"
  /** The encoder's `timeslice`: a data event every second. */
  const DataInterval := 1000

  /**
    * The DOM `prepareDownload` leaves: with no chunks, the error shown and
    * nothing else; otherwise the size of the assembled blob, a link to it, and
    * the download name the filename box gives.
    */
  function Prepared(d: Dom, chunks: seq<Chunk>): (r: Dom)
    ensures chunks == [] ==> r == d.(error := Some(NoDataMessage))
    ensures chunks != [] ==>
      && r.fileSize == Some(TotalSize(chunks))
      && r.downloadHref.ObjectUrl? && r.downloadHref.blob.bytes == Concat(chunks)
      && r.downloadHref.blob.mediaType == ArtifactType
      && r.downloadName == Format.DownloadFilename(d.filenameValue)
    ensures chunks != [] ==> r.error == d.error
    ensures r.(error := d.error, fileSize := d.fileSize, downloadHref := d.downloadHref, downloadName := d.downloadName) == d
  {
    if chunks == [] then d.(error := Some(NoDataMessage))
    else
      var blob := Assemble(chunks);
      d.(fileSize := Some(blob.Size()), downloadHref := ObjectUrl(blob),
         downloadName := Format.DownloadFilename(d.filenameValue))
  }

  /** `Date.now() - startTime`: the milliseconds elapsed since the start. */
  function Elapsed(start: int, now: int): int {
    now - start
  }

  /**
    * The DOM with the final time shown: the time from `start` to `now` as a
    * clock, when a start time is set; otherwise the DOM as it was.
    */
  function WithFinalTime(d: Dom, start: Option<int>, now: int): (r: Dom)
    ensures r.finalTimeText == if Truthy(start) then Format.FormatTime(Elapsed(start.value, now)) else d.finalTimeText
    ensures r.(finalTimeText := d.finalTimeText) == d
  {
    if Truthy(start) then d.(finalTimeText := Format.FormatTime(Elapsed(start.value, now))) else d
  }

  /** The final time shown reads back as the whole seconds elapsed since the start. */
  lemma FinalTimeReadsBack(d: Dom, start: Option<int>, now: int)
    requires Truthy(start) && now >= start.value
    ensures Format.ParseClock(WithFinalTime(d, start, now).finalTimeText) == Some(Elapsed(start.value, now) / 1000)
  {
    Format.FormatTimeRoundTrip(Elapsed(start.value, now));
  }

  /**
    * The DOM `onRecordingStopped` leaves: the final time shown, the default
    * filename in the box, the download prepared from the chunks, and the save
    * panel shown whether or not there was any data.
    */
  function FinalDom(d: Dom, start: Option<int>, now: int, iso: string, chunks: seq<Chunk>): (r: Dom)
    ensures r.Consistent() && r.Shown() == SavePanel && !r.dotRecording
    ensures r.filenameValue == Format.DefaultFilename(iso)
    ensures r.finalTimeText == if Truthy(start) then Format.FormatTime(Elapsed(start.value, now)) else d.finalTimeText
    ensures r.timerText == d.timerText && r.startDisabled == d.startDisabled && r.stopDisabled == d.stopDisabled
    ensures chunks == [] ==>
      && r.error == Some(NoDataMessage)
      && r.downloadHref == d.downloadHref && r.fileSize == d.fileSize && r.downloadName == d.downloadName
    ensures chunks != [] ==>
      && r.error == d.error
      && r.fileSize == Some(TotalSize(chunks)) && r.downloadHref == ObjectUrl(Assemble(chunks))
      && r.downloadName == Format.DownloadFilename(Format.DefaultFilename(iso))
  {
    var named := WithFinalTime(d, start, now).(filenameValue := Format.DefaultFilename(iso));
    Prepared(named, chunks).WithPanel(SavePanel)
  }

  /** The object URL `prepareDownload` creates, if any. */
  function NewUrls(chunks: seq<Chunk>): (r: multiset<Blob>)
    ensures chunks == [] <==> r == multiset{}
    ensures chunks != [] ==> Assemble(chunks) in r && |r| == 1
  {
    if chunks == [] then multiset{} else multiset{Assemble(chunks)}
  }

  /** `tracks.forEach(track => track.stop())`: every track ends. */
  method StopTracks(tracks: seq<Track>)
    modifies tracks
    ensures forall t | t in tracks :: t.readyState == Ended
  {
    for i := 0 to |tracks|
      invariant forall j | 0 <= j < i :: tracks[j].readyState == Ended
    {
      tracks[i].Stop();
    }
  }

  class Page {
    // The module-level state of recorder.js.
    var mediaRecorder: MediaRecorder?
    var recordedChunks: seq<Chunk>
    var stream: MediaStream?
    var startTime: Option<int>
    var timerInterval: Option<int>

    // What the browser holds for the page: interval timers not yet cleared,
    // and object URLs not yet revoked.
    var runningTimers: set<int>
    var liveUrls: multiset<Blob>

    // The DOM the page writes.
    var dom: Dom

    /**
      * What every handler keeps: the panels consistent, only non-empty chunks
      * buffered, the download link pointing at a live object URL when it
      * points at one, and the page's interval timer running while it is set.
      */
    ghost predicate Valid()
      reads this
    {
      && dom.Consistent()
      && (forall i | 0 <= i < |recordedChunks| :: |recordedChunks[i]| > 0)
      && (dom.downloadHref.ObjectUrl? ==> dom.downloadHref.blob in liveUrls)
      && (Truthy(timerInterval) ==> timerInterval.value in runningTimers)
    }

    /**
      * The page as loaded: the variables as declared, the idle panel shown.
      * (recorder.html, which sets the initial DOM, is not part of this model;
      * its initial DOM is taken to be the one `resetRecorder` produces.)
      */
    constructor ()
      ensures Valid() && dom.Shown() == IdlePanel
      ensures mediaRecorder == null && recordedChunks == [] && stream == null
      ensures startTime == None && timerInterval == None
      ensures runningTimers == {} && liveUrls == multiset{}
      ensures !dom.startDisabled && !dom.stopDisabled && dom.error == None
      ensures dom.timerText == ZeroClock && dom.downloadHref == Placeholder
      ensures dom.downloadName == ResetDownloadName && dom.fileSize == None
    {
      mediaRecorder, recordedChunks, stream, startTime, timerInterval := null, [], null, None, None;
      runningTimers, liveUrls := {}, multiset{};
      dom := Dom(false, true, true, false, false, false, None, ZeroClock, "", "", None,
                 Placeholder, ResetDownloadName);
    }

    /** `showState(state)`: hide every panel, show the named one, mark the dot while recording. */
    method ShowState(state: PanelName)
      modifies this`dom
      ensures dom == old(dom).WithPanel(state)
    {
      dom := dom.(idleHidden := true, recordingHidden := true, saveHidden := true);
      if state == IdlePanel { dom := dom.(idleHidden := false); }
      if state == RecordingPanel { dom := dom.(recordingHidden := false); }
      if state == SavePanel { dom := dom.(saveHidden := false); }
      dom := dom.(dotRecording := state == RecordingPanel);
    }

    /** `updateTimer()`: while a start time is set, show the time elapsed since it. */
    method UpdateTimer(now: int)
      modifies this`dom
      ensures dom == if Truthy(old(startTime))
        then old(dom).(timerText := Format.FormatTime(Elapsed(old(startTime).value, now)))
        else old(dom)
    {
      if Truthy(startTime) {
        dom := dom.(timerText := Format.FormatTime(Elapsed(startTime.value, now)));
      }
    }

    /** `updateDownloadFilename()`: the link's download name from the filename box. */
    method UpdateDownloadFilename()
      modifies this`dom
      ensures dom == old(dom).(downloadName := Format.DownloadFilename(old(dom).filenameValue))
    {
      var trimmed := Trim(dom.filenameValue);
      var filename := if trimmed == "" then Format.DefaultBaseName else trimmed;
      if !EndsWith(filename, Format.Extension) {
        filename := filename + Format.Extension;
      }
      dom := dom.(downloadName := filename);
    }

    /** The filename box's `input` and `change` listeners: the user typed `value`. */
    method OnFilenameInput(value: string)
      modifies this`dom
      ensures dom == old(dom).(filenameValue := value, downloadName := Format.DownloadFilename(value))
      ensures EndsWith(dom.downloadName, Format.Extension)
    {
      Format.DownloadFilenameRule(value);
      dom := dom.(filenameValue := value);
      UpdateDownloadFilename();
    }

    /** `prepareDownload()`: assemble the chunks, create an object URL for them and link it. */
    method PrepareDownload()
      requires Valid()
      modifies this`dom, this`liveUrls
      ensures Valid()
      ensures dom == Prepared(old(dom), recordedChunks)
      ensures liveUrls == old(liveUrls) + NewUrls(recordedChunks)
    {
      if |recordedChunks| == 0 {
        dom := dom.(error := Some(NoDataMessage));
        return;
      }
      var blob := Assemble(recordedChunks);
      liveUrls := liveUrls + multiset{blob};
      dom := dom.(fileSize := Some(blob.Size()), downloadHref := ObjectUrl(blob));
      UpdateDownloadFilename();
    }

    /**
      * What `onRecordingStopped` leaves behind: the timer cleared, the final
      * time shown, the default filename in the box, the download prepared and
      * the save panel shown (also when there was no data).
      */
    twostate predicate Finalized(now: int, iso: string)
      reads this
    {
      && (if Truthy(old(timerInterval))
          then timerInterval == None && runningTimers == old(runningTimers) - {old(timerInterval).value}
          else timerInterval == old(timerInterval) && runningTimers == old(runningTimers))
      && dom == FinalDom(old(dom), old(startTime), now, iso, recordedChunks)
      && liveUrls == old(liveUrls) + NewUrls(recordedChunks)
    }

    /** `clearInterval(timerInterval)` and forget the id, when one is set. */
    method ClearTimer()
      requires Valid()
      modifies this`timerInterval, this`runningTimers
      ensures Valid()
      ensures Truthy(old(timerInterval)) ==>
        timerInterval == None && runningTimers == old(runningTimers) - {old(timerInterval).value}
      ensures !Truthy(old(timerInterval)) ==>
        timerInterval == old(timerInterval) && runningTimers == old(runningTimers)
    {
      if Truthy(timerInterval) {
        runningTimers := runningTimers - {timerInterval.value};
        timerInterval := None;
      }
    }

    /** Show the time elapsed since the start as the final time, when a start time is set. */
    method ShowFinalTime(now: int)
      modifies this`dom
      ensures dom == WithFinalTime(old(dom), old(startTime), now)
    {
      if Truthy(startTime) {
        dom := dom.(finalTimeText := Format.FormatTime(Elapsed(startTime.value, now)));
      }
    }

    /**
      * `onRecordingStopped()`, with the clock and `new Date().toISOString()` as
      * parameters. The final time is written before the timer is cleared; the
      * two steps touch different state.
      */
    method OnRecordingStopped(now: int, iso: string)
      requires Valid()
      modifies this`timerInterval, this`runningTimers, this`dom, this`liveUrls
      ensures Valid() && Finalized(now, iso)
    {
      ShowFinalTime(now);
      ClearTimer();
      dom := dom.(filenameValue := Format.DefaultFilename(iso));
      PrepareDownload();
      ShowState(SavePanel);
    }

    /**
      * `startRecording()`, with how capture and recorder setup turn out as
      * parameters, `isTypeSupported` as the set of supported types, `Date.now()`
      * as `now` and the id `setInterval` returns as `timer`: the error line is
      * hidden and the button disabled, the `try` block runs, and what it throws
      * is caught.
      */
    method StartRecording(capture: CaptureOutcome, supported: set<string>, setup: SetupOutcome, now: int, timer: int)
      requires Valid()
      modifies this`dom, this`stream, this`recordedChunks, this`mediaRecorder
      modifies this`startTime, this`timerInterval, this`runningTimers
      ensures Valid()
      // A rejected capture changes nothing but the button and the error line.
      ensures capture.Rejected? ==>
        && stream == old(stream) && recordedChunks == old(recordedChunks) && mediaRecorder == old(mediaRecorder)
      // Once the stream is granted it is kept and the buffer is emptied, whatever follows.
      ensures capture.Granted? ==> stream == capture.stream && recordedChunks == []
      ensures Stage(capture, setup) == ConstructFailed ==> mediaRecorder == old(mediaRecorder)
      ensures Stage(capture, setup) in {SetupFailed, Started} ==>
        && mediaRecorder != null && fresh(mediaRecorder)
        && mediaRecorder.stream == capture.stream
        && mediaRecorder.mimeType == Capture.ChooseMimeType(supported)
      ensures Stage(capture, setup) == SetupFailed ==> mediaRecorder.state == Inactive && mediaRecorder.calls == []
      // Any failure shows its message, re-enables the button and enters no recording state.
      ensures Stage(capture, setup) != Started ==>
        && dom == old(dom).(error := Some(Capture.StartErrorMessage(StartFailure(capture, setup))), startDisabled := false)
        && startTime == old(startTime) && timerInterval == old(timerInterval)
        && runningTimers == old(runningTimers)
      ensures Stage(capture, setup) == Started ==>
        && mediaRecorder.state == Recording && mediaRecorder.calls == [StartCall(DataInterval)]
        && startTime == Some(now) && timerInterval == Some(timer)
        && runningTimers == old(runningTimers) + {timer}
        && dom == old(dom).(error := None, startDisabled := true).WithPanel(RecordingPanel)
    {
      dom := dom.(error := None, startDisabled := true);
      var thrown := TryStart(capture, supported, setup, now, timer);
      if thrown.Some? {
        CatchStartError(thrown.value);
      }
    }

    /**
      * The `try` block of `startRecording`: take the stream, empty the buffer,
      * build the recorder, attach its handlers and start it, stopping at the
      * first step that throws; the result is what was thrown.
      */
    method TryStart(capture: CaptureOutcome, supported: set<string>, setup: SetupOutcome, now: int, timer: int)
      returns (thrown: Option<Capture.JsError>)
      requires Valid()
      modifies this`dom, this`stream, this`recordedChunks, this`mediaRecorder
      modifies this`startTime, this`timerInterval, this`runningTimers
      ensures Valid()
      ensures thrown == if Stage(capture, setup) == Started then None else Some(StartFailure(capture, setup))
      ensures capture.Rejected? ==>
        && stream == old(stream) && recordedChunks == old(recordedChunks) && mediaRecorder == old(mediaRecorder)
      ensures capture.Granted? ==> stream == capture.stream && recordedChunks == []
      ensures Stage(capture, setup) == ConstructFailed ==> mediaRecorder == old(mediaRecorder)
      ensures Stage(capture, setup) in {SetupFailed, Started} ==>
        && mediaRecorder != null && fresh(mediaRecorder)
        && mediaRecorder.stream == capture.stream
        && mediaRecorder.mimeType == Capture.ChooseMimeType(supported)
      ensures Stage(capture, setup) == SetupFailed ==> mediaRecorder.state == Inactive && mediaRecorder.calls == []
      ensures Stage(capture, setup) != Started ==>
        && dom == old(dom) && startTime == old(startTime) && timerInterval == old(timerInterval)
        && runningTimers == old(runningTimers)
      ensures Stage(capture, setup) == Started ==>
        && mediaRecorder.state == Recording && mediaRecorder.calls == [StartCall(DataInterval)]
        && startTime == Some(now) && timerInterval == Some(timer)
        && runningTimers == old(runningTimers) + {timer}
        && dom == old(dom).WithPanel(RecordingPanel)
    {
      if capture.Rejected? {
        return Some(capture.error);
      }
      stream := capture.stream;
      recordedChunks := [];
      var mimeType := Capture.ChooseMimeType(supported);
      if setup.ConstructorThrows? {
        return Some(setup.error);
      }
      var recorder := new MediaRecorder(capture.stream, mimeType);
      mediaRecorder := recorder;
      if !HasVideoTrack(capture.stream) {
        return Some(MissingTrackError);
      }
      if setup.StartThrows? {
        return Some(setup.error);
      }
      BeginRecording(recorder, now, timer);
      return None;
    }

    /**
      * The end of `startRecording`'s `try` block: start the recorder with a
      * one-second timeslice, note the start time, start the clock's interval
      * timer and show the recording panel.
      */
    method BeginRecording(recorder: MediaRecorder, now: int, timer: int)
      requires Valid() && recorder.state == Inactive
      modifies recorder, this`startTime, this`timerInterval, this`runningTimers, this`dom
      ensures Valid()
      ensures recorder.state == Recording && recorder.calls == old(recorder.calls) + [StartCall(DataInterval)]
      ensures startTime == Some(now) && timerInterval == Some(timer)
      ensures runningTimers == old(runningTimers) + {timer}
      ensures dom == old(dom).WithPanel(RecordingPanel)
    {
      recorder.Start(DataInterval);
      startTime := Some(now);
      timerInterval := Some(timer);
      runningTimers := runningTimers + {timer};
      ShowState(RecordingPanel);
    }

    /** The `catch` block of `startRecording`: re-enable the button and show the message for `err`. */
    method CatchStartError(err: Capture.JsError)
      requires Valid()
      modifies this`dom
      ensures Valid()
      ensures dom == old(dom).(startDisabled := false, error := Some(Capture.StartErrorMessage(err)))
    {
      dom := dom.(startDisabled := false);
      dom := dom.(error := Some(Capture.StartErrorMessage(err)));
    }

    /** `mediaRecorder.ondataavailable`: keep a present, non-empty chunk at the end of the buffer. */
    method OnDataAvailable(data: Option<Chunk>)
      requires Valid()
      modifies this`recordedChunks
      ensures Valid()
      ensures recordedChunks == if data.Some? && |data.value| > 0 then old(recordedChunks) + [data.value] else old(recordedChunks)
    {
      if data.Some? && |data.value| > 0 {
        recordedChunks := recordedChunks + [data.value];
      }
    }

    /** `mediaRecorder.onstop`: the recorder has finished; finalise the session. */
    method OnRecorderStop(now: int, iso: string)
      requires Valid()
      modifies this`timerInterval, this`runningTimers, this`dom, this`liveUrls
      ensures Valid() && Finalized(now, iso)
    {
      OnRecordingStopped(now, iso);
    }

    /** `mediaRecorder.onerror`: show the error and re-enable the start button; recording goes on. */
    method OnRecorderError(message: string)
      requires Valid()
      modifies this`dom
      ensures Valid()
      ensures dom == old(dom).(error := Some(Capture.RecorderErrorMessage(message)), startDisabled := false)
    {
      dom := dom.(error := Some(Capture.RecorderErrorMessage(message)));
      dom := dom.(startDisabled := false);
    }

    /**
      * `doStopRecording()`: disable the stop button, flush and stop the
      * recorder when it is recording, stop every track of the stream and
      * drop the stream.
      */
    method DoStopRecording()
      requires Valid()
      modifies this`dom, this`stream, mediaRecorder
      modifies if stream == null then [] else stream.tracks
      ensures Valid() && dom == old(dom).(stopDisabled := true) && stream == null
      ensures old(stream) != null ==> forall t | t in old(stream).tracks :: t.readyState == Ended
      ensures mediaRecorder != null && old(mediaRecorder.state) == Recording ==>
        mediaRecorder.state == Inactive && mediaRecorder.calls == old(mediaRecorder.calls) + [RequestDataCall, StopCall]
      ensures mediaRecorder != null && old(mediaRecorder.state) != Recording ==> unchanged(mediaRecorder)
    {
      dom := dom.(stopDisabled := true);
      if mediaRecorder != null && mediaRecorder.state == Recording {
        mediaRecorder.RequestData();
        mediaRecorder.Stop();
      }
      if stream != null {
        StopTracks(stream.tracks);
        stream := null;
      }
    }

    /** The `onended` handler on the first video track: the user stopped sharing in the browser. */
    method OnVideoTrackEnded()
      requires Valid()
      modifies this`dom, this`stream, mediaRecorder
      modifies if stream == null then [] else stream.tracks
      ensures Valid() && dom == old(dom).(stopDisabled := true) && stream == null
      ensures old(stream) != null ==> forall t | t in old(stream).tracks :: t.readyState == Ended
      ensures mediaRecorder != null && old(mediaRecorder.state) == Recording ==>
        mediaRecorder.state == Inactive && mediaRecorder.calls == old(mediaRecorder.calls) + [RequestDataCall, StopCall]
      ensures mediaRecorder != null && old(mediaRecorder.state) != Recording ==> unchanged(mediaRecorder)
    {
      DoStopRecording();
    }

    /**
      * `stopRecording()`, the stop button: nothing without a recorder, straight
      * to finalising when the recorder is already inactive, else `doStopRecording`.
      */
    method StopRecording(now: int, iso: string)
      requires Valid()
      modifies this`dom, this`stream, mediaRecorder
      modifies if stream == null then [] else stream.tracks
      modifies this`timerInterval, this`runningTimers, this`liveUrls
      ensures Valid()
      ensures old(mediaRecorder) == null ==> unchanged(this) && (old(stream) != null ==> unchanged(old(stream).tracks))
      ensures mediaRecorder != null && old(mediaRecorder.state) == Inactive ==>
        && Finalized(now, iso) && unchanged(mediaRecorder) && stream == old(stream)
        && (old(stream) != null ==> unchanged(old(stream).tracks))
      ensures mediaRecorder != null && old(mediaRecorder.state) != Inactive ==>
        && dom == old(dom).(stopDisabled := true) && stream == null
        && (old(stream) != null ==> forall t | t in old(stream).tracks :: t.readyState == Ended)
        && (old(mediaRecorder.state) == Recording ==>
              mediaRecorder.state == Inactive && mediaRecorder.calls == old(mediaRecorder.calls) + [RequestDataCall, StopCall])
        && (old(mediaRecorder.state) == Paused ==> unchanged(mediaRecorder))
        && timerInterval == old(timerInterval) && runningTimers == old(runningTimers) && liveUrls == old(liveUrls)
    {
      if mediaRecorder == null {
        return;
      }
      if mediaRecorder.state == Inactive {
        OnRecordingStopped(now, iso);
        return;
      }
      DoStopRecording();
    }

    /** `resetRecorder()`, the new-recording button: release the blob URL, clear the session, show idle. */
    method ResetRecorder()
      requires Valid()
      modifies this`liveUrls, this`recordedChunks, this`stream, this`mediaRecorder, this`startTime, this`dom
      ensures Valid()
      ensures liveUrls == if old(dom).downloadHref.ObjectUrl? then old(liveUrls) - multiset{old(dom).downloadHref.blob} else old(liveUrls)
      ensures recordedChunks == [] && stream == null && mediaRecorder == null && startTime == None
      ensures dom == old(dom).(timerText := ZeroClock, downloadHref := Placeholder, downloadName := ResetDownloadName,
                               startDisabled := false, stopDisabled := false, error := None).WithPanel(IdlePanel)
    {
      if dom.downloadHref.ObjectUrl? {
        liveUrls := liveUrls - multiset{dom.downloadHref.blob};
      }
      recordedChunks := [];
      stream := null;
      mediaRecorder := null;
      startTime := None;
      dom := dom.(timerText := ZeroClock, downloadHref := Placeholder, downloadName := ResetDownloadName,
                  startDisabled := false, stopDisabled := false, error := None);
      ShowState(IdlePanel);
    }
  }
}
