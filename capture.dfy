/**
  * Choices recorder.js makes when it starts capturing: the encoder's MIME
  * type, picked from an ordered preference list by what the browser reports
  * as supported, and the message shown when a step of starting fails.
  */
module Capture {
  import opened Wrappers
  import opened JsString

  /** The encodings `startRecording` tries, best first. */
  const MimePreferences: seq<string> := [
    "video/webm;codecs=vp9,opus",
    "video/webm;codecs=vp8,opus",
    "video/webm;codecs=vp9",
    "video/webm;codecs=vp8",
    "video/webm"
  ]

  /** The type used when no preference is supported (`|| 'video/webm'`). */
  const FallbackMimeType := "video/webm"

  /** The position of the first entry the browser supports, or `|types|` when there is none. */
  function FirstSupported(types: seq<string>, supported: set<string>): (i: nat)
    ensures i <= |types|
    ensures forall k | 0 <= k < i :: types[k] !in supported
    ensures i < |types| ==> types[i] in supported
  {
    if types == [] || types[0] in supported then 0
    else 1 + FirstSupported(types[1..], supported)
  }

  /**
    * `types.find(t => isTypeSupported(t))`: the first entry the browser
    * supports, or nothing when it supports none of them.
    */
  function FindSupported(types: seq<string>, supported: set<string>): (r: Option<string>)
    ensures r == None <==> forall k | 0 <= k < |types| :: types[k] !in supported
    ensures r.Some? ==> exists i | 0 <= i < |types| ::
      types[i] == r.value && r.value in supported && forall k | 0 <= k < i :: types[k] !in supported
  {
    var i := FirstSupported(types, supported);
    if i < |types| then Some(types[i]) else None
  }

  /**
    * The encoder's MIME type: the first preference the browser supports, or
    * `video/webm` when it supports none. Either way it is one of the preferences.
    */
  function ChooseMimeType(supported: set<string>): (r: string)
    ensures r in MimePreferences
    ensures r in supported || (r == FallbackMimeType && forall t | t in MimePreferences :: t !in supported)
    ensures forall k | 0 <= k < |MimePreferences| && MimePreferences[k] in supported ::
      MimePreferences[k] == r || exists j | 0 <= j < k :: MimePreferences[j] == r
  {
    FindSupported(MimePreferences, supported).GetOr(FallbackMimeType)
  }

  /** An exception as the catch block sees it: its `name` and its `message` ("" when absent). */
  datatype JsError = JsError(name: string, message: string)

  /** What went wrong, as far as `startRecording` distinguishes it. */
  datatype Cause = PermissionDenied | SourceUnavailable | UserCancelled | UnsupportedEnvironment | Other

  function CauseOf(name: string): Cause {
    if name == "NotAllowedError" then PermissionDenied
    else if name == "NotFoundError" then SourceUnavailable
    else if name == "AbortError" then UserCancelled
    else if name == "NotSupportedError" then UnsupportedEnvironment
    else Other
  }

  /**
    * The fixed message for each recognised cause. The two longest are written
    * as two joined literals, which denote the same strings; the verifier
    * cannot read the first characters of a single literal that long.
    */
  function CauseMessage(c: Cause): string
    requires c != Other
  {
    match c
    case PermissionDenied => "Permission denied. " + "Click \"Start Recording\" and select a tab to share."
    case SourceUnavailable => "No screen or tab available to record."
    case UserCancelled => "Recording was cancelled."
    case UnsupportedEnvironment => "Screen recording " + "not supported in this browser."
  }

  const GenericPrefix := "Recording failed. "

  /** No fixed message reads like a generic failure. */
  lemma CauseMessageNotGeneric(c: Cause)
    requires c != Other
    ensures !StartsWith(CauseMessage(c), GenericPrefix)
  {
    var r := CauseMessage(c);
    if c == UserCancelled {
      assert r[10] != GenericPrefix[10];
    } else {
      assert r[0] != GenericPrefix[0];
    }
  }

  /** The message `startRecording`'s catch block shows for `err`. */
  function StartErrorMessage(err: JsError): string {
    var cause := CauseOf(err.name);
    if cause != Other then CauseMessage(cause) else GenericPrefix + FailureDetail(err)
  }

  /**
    * A recognised cause shows its fixed message; any other failure reads
    * `Recording failed. ` followed by its detail, and only those read so.
    */
  lemma StartErrorMessageCases(err: JsError)
    ensures CauseOf(err.name) != Other ==> StartErrorMessage(err) == CauseMessage(CauseOf(err.name))
    ensures CauseOf(err.name) == Other <==> StartsWith(StartErrorMessage(err), GenericPrefix)
    ensures CauseOf(err.name) == Other ==> StartErrorMessage(err)[|GenericPrefix|..] == FailureDetail(err)
  {
    if CauseOf(err.name) != Other {
      CauseMessageNotGeneric(CauseOf(err.name));
    }
  }

  /** `err.message || 'Unknown error.'` */
  function FailureDetail(err: JsError): string {
    if err.message == "" then "Unknown error." else err.message
  }

  /**
    * The message identifies the cause: two failures shown with the same text
    * have the same cause, and two of the generic kind carry the same detail.
    */
  lemma StartErrorMessageDistinguishes(e1: JsError, e2: JsError)
    requires StartErrorMessage(e1) == StartErrorMessage(e2)
    ensures CauseOf(e1.name) == CauseOf(e2.name)
    ensures CauseOf(e1.name) == Other ==> FailureDetail(e1) == FailureDetail(e2)
  {
    StartErrorMessageCases(e1);
    StartErrorMessageCases(e2);
    var c1, c2 := CauseOf(e1.name), CauseOf(e2.name);
    var r := StartErrorMessage(e1);
    if c1 == Other {
      assert r[|GenericPrefix|..] == FailureDetail(e1) && r[|GenericPrefix|..] == FailureDetail(e2);
    } else if c2 != Other {
      // The four fixed messages begin with four different letters.
      assert CauseMessage(c1)[0] == CauseMessage(c2)[0];
    }
  }

  /** The message `mediaRecorder.onerror` shows: `event.error?.message || 'Unknown error'`. */
  function RecorderErrorMessage(message: string): (r: string)
    ensures StartsWith(r, "Recording error: ")
    ensures r[17..] == if message == "" then "Unknown error" else message
  {
    "Recording error: " + (if message == "" then "Unknown error" else message)
  }

  /**
    * An error from the encoder never reads like a failure to start, so the
    * user can tell the two apart.
    */
  lemma RecorderErrorNotStartError(message: string, err: JsError)
    ensures RecorderErrorMessage(message) != StartErrorMessage(err)
  {
    var r, m := RecorderErrorMessage(message), StartErrorMessage(err);
    assert r[0] == 'R' && r[10] == 'e' by {
      assert r[..17] == "Recording error: ";
    }
    StartErrorMessageCases(err);
    match CauseOf(err.name)
    case Other =>
      assert m[10] == GenericPrefix[10];
    case UserCancelled =>
      assert m[10] == 'w';
    case _ =>
      assert m[0] != 'R';
  }
}
