/**
  * Whole sessions of the recorder page, driven through its handlers in the
  * order the browser delivers events: the button clicks, the encoder's data
  * and stop events, and the capture track ending. Each method builds a fresh
  * page and states what the session leaves behind.
  */
module Scenarios {
  import opened Wrappers
  import opened Artifact
  import opened Recorder
  import Format
  import Capture

  /** A granted capture: one video track followed by one audio track. */
  method NewStream() returns (s: MediaStream, video: Track, audio: Track)
    ensures fresh(s) && fresh(video) && fresh(audio)
    ensures s.tracks == [video, audio]
    ensures video.kind == VideoTrack && audio.kind == AudioTrack
    ensures video.readyState == Live && audio.readyState == Live
  {
    video := new Track(VideoTrack);
    audio := new Track(AudioTrack);
    s := new MediaStream([video, audio]);
  }

  /**
    * A fresh page on which the start button was clicked and capture granted
    * with a video and an audio track: recording, with an empty buffer, the
    * clock timer running and the recording panel shown.
    */
  method StartedPage(supported: set<string>, start: int, timer: int)
    returns (page: Page, recorder: MediaRecorder, s: MediaStream)
    requires timer > 0
    ensures fresh(page) && fresh(recorder) && fresh(s) && |s.tracks| == 2
    ensures fresh(s.tracks[0]) && fresh(s.tracks[1])
    ensures page.Valid() && page.mediaRecorder == recorder && page.stream == s
    ensures recorder.state == Recording && recorder.calls == [StartCall(1000)]
    ensures recorder.mimeType == Capture.ChooseMimeType(supported)
    ensures page.recordedChunks == [] && page.liveUrls == multiset{}
    ensures page.startTime == Some(start) && page.timerInterval == Some(timer) && page.runningTimers == {timer}
    ensures page.dom.OnePanelShown() && page.dom.Shown() == RecordingPanel && page.dom.error == None
    ensures page.dom.downloadHref == Placeholder && page.dom.fileSize == None && !page.dom.stopDisabled
  {
    page := new Page();
    var video, audio;
    s, video, audio := NewStream();
    page.StartRecording(Granted(s), supported, Proceeds, start, timer);
    assert Stage(Granted(s), Proceeds) == Started by {
      assert s.tracks[0].kind == VideoTrack;
    }
    recorder := page.mediaRecorder;
  }

  /**
    * Start, three data events of 10, 20 and 30 bytes (around an absent and an
    * empty one), the user stops sharing, the encoder reports it stopped: a
    * 60-byte artifact of the three chunks in order, the default filename from
    * the timestamp, the save panel, and no clock timer left running. `timer`
    * is the positive id `setInterval` hands out.
    */
  method ThreeChunksThenTrackEnds(a: Chunk, b: Chunk, c: Chunk, start: int, stop: int, iso: string, timer: int)
    returns (page: Page)
    requires |a| == 10 && |b| == 20 && |c| == 30 && timer > 0
    ensures page.dom.OnePanelShown() && page.dom.Shown() == SavePanel
    ensures page.dom.fileSize == Some(60)
    ensures page.dom.downloadHref == ObjectUrl(Blob(a + b + c, "video/webm"))
    ensures page.dom.filenameValue == Format.DefaultFilename(iso)
    ensures page.stream == null && page.runningTimers == {}
  {
    ThreeChunks(a, b, c);
    page := ThreeChunksRecorded(a, b, c, start, timer);
    page.OnRecorderStop(stop, iso);
  }

  /**
    * The recording phase of that session: three chunks kept, the capture
    * gone, and the clock timer still running until the encoder reports it stopped.
    */
  method ThreeChunksRecorded(a: Chunk, b: Chunk, c: Chunk, start: int, timer: int) returns (page: Page)
    requires |a| > 0 && |b| > 0 && |c| > 0 && timer > 0
    ensures fresh(page) && page.Valid() && page.recordedChunks == [a, b, c]
    ensures page.stream == null && page.timerInterval == Some(timer) && page.runningTimers == {timer}
  {
    var recorder, s;
    page, recorder, s := StartedPage({}, start, timer);
    DeliverThree(page, a, b, c);
    page.OnVideoTrackEnded();
  }

  /** Three chunks make an artifact of their bytes in order, as large as the three together. */
  lemma ThreeChunks(a: Chunk, b: Chunk, c: Chunk)
    ensures Concat([a, b, c]) == a + b + c
    ensures TotalSize([a, b, c]) == |a| + |b| + |c|
  {
    ConcatPush([a, b], c);
    ConcatPush([a], b);
    ConcatPush([], a);
    assert [] + [a] == [a];
  }

  /** Five data events on an empty buffer, of which only the three non-empty chunks are kept, in order. */
  method DeliverThree(page: Page, a: Chunk, b: Chunk, c: Chunk)
    requires page.Valid() && page.recordedChunks == [] && |a| > 0 && |b| > 0 && |c| > 0
    modifies page`recordedChunks
    ensures page.Valid() && page.recordedChunks == [a, b, c]
  {
    page.OnDataAvailable(Some(a));
    page.OnDataAvailable(None);
    page.OnDataAvailable(Some([]));
    page.OnDataAvailable(Some(b));
    page.OnDataAvailable(Some(c));
  }

  /**
    * Stop clicked, then the user also stops sharing: the second stop finds
    * the recorder inactive and the stream gone, so the recorder is flushed and
    * stopped exactly once and every track has ended.
    */
  method StopTwice(start: int, stop: int, iso: string, timer: int) returns (page: Page)
    requires timer > 0
    ensures page.mediaRecorder != null && page.mediaRecorder.state == Inactive
    ensures page.mediaRecorder.calls == [StartCall(1000), RequestDataCall, StopCall]
    ensures page.stream == null && page.dom.stopDisabled
  {
    var recorder, s;
    page, recorder, s := StartedPage({}, start, timer);
    page.StopRecording(stop, iso);
    page.OnVideoTrackEnded();
  }

  /**
    * Start and stop with no data at all: the error is shown, no object URL
    * is made, and the save panel still comes up.
    */
  method EmptyRecording(start: int, stop: int, iso: string, timer: int) returns (page: Page)
    requires timer > 0
    ensures page.dom.OnePanelShown() && page.dom.Shown() == SavePanel
    ensures page.dom.error == Some("No recording data available.")
    ensures page.dom.downloadHref == Placeholder && page.liveUrls == multiset{}
  {
    var recorder, s;
    page, recorder, s := StartedPage({}, start, timer);
    page.StopRecording(stop, iso);
    page.OnRecorderStop(stop, iso);
  }

  /**
    * Record, finalise, reset, start again: the new session begins with an
    * empty buffer and a new recorder, and the old object URL is released.
    */
  method ResetThenStartAgain(data: Chunk, first: int, stop: int, second: int, iso: string, timer1: int, timer2: int)
    returns (page: Page, previous: MediaRecorder)
    requires |data| > 0 && timer1 > 0 && timer2 > 0
    ensures page.dom.OnePanelShown() && page.dom.Shown() == RecordingPanel
    ensures page.recordedChunks == [] && page.liveUrls == multiset{}
    ensures page.mediaRecorder != null && page.mediaRecorder != previous
  {
    page, previous := SavedOnce(data, first, stop, iso, timer1);
    page.ResetRecorder();
    var s2, v2, a2 := NewStream();
    page.StartRecording(Granted(s2), {}, Proceeds, second, timer2);
    assert Stage(Granted(s2), Proceeds) == Started by {
      assert s2.tracks[0].kind == VideoTrack;
    }
  }

  /**
    * One chunk recorded, stop clicked, the encoder reports it stopped: the
    * save link holds the only live object URL, an artifact of that chunk.
    */
  method SavedOnce(data: Chunk, start: int, stop: int, iso: string, timer: int)
    returns (page: Page, recorder: MediaRecorder)
    requires |data| > 0 && timer > 0
    ensures fresh(page) && fresh(recorder) && page.Valid() && page.mediaRecorder == recorder
    ensures page.dom.downloadHref == ObjectUrl(Blob(data, ArtifactType))
    ensures page.liveUrls == multiset{Blob(data, ArtifactType)}
  {
    assert Concat([data]) == data by {
      ConcatPush([], data);
      assert [] + [data] == [data];
    }
    var s;
    page, recorder, s := StartedPage({}, start, timer);
    page.OnDataAvailable(Some(data));
    assert page.recordedChunks == [data];
    page.StopRecording(stop, iso);
    assert page.liveUrls == multiset{};
    page.OnRecorderStop(stop, iso);
  }

  /**
    * The user refuses to share: the permission message is shown, the start
    * button comes back, and the page stays idle with no recorder and no stream.
    */
  method CaptureRefused(now: int, timer: int) returns (page: Page)
    ensures page.dom.OnePanelShown() && page.dom.Shown() == IdlePanel && !page.dom.startDisabled
    ensures page.dom.error == Some(Capture.CauseMessage(Capture.PermissionDenied))
    ensures page.mediaRecorder == null && page.stream == null && page.runningTimers == {}
  {
    page := new Page();
    var refusal := Capture.JsError("NotAllowedError", "");
    Capture.StartErrorMessageCases(refusal);
    page.StartRecording(Rejected(refusal), {}, Proceeds, now, timer);
  }
}
