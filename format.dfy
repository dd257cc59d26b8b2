/**
  * The pure helpers of recorder.js: the elapsed-time clock text (`formatTime`),
  * the download filename rule (`updateDownloadFilename`) and the default name
  * built from the ISO timestamp in `onRecordingStopped`.
  */
module Format {
  import opened Wrappers
  import opened JsString

  /**
    * JavaScript's `a % b` for a positive divisor: division truncates toward
    * zero, so a negative dividend leaves minus the remainder of its magnitude.
    */
  function JsRemainder(a: int, b: int): (r: int)
    requires b > 0
    ensures -b < r < b
    ensures a >= 0 ==> r == a % b
    ensures r != 0 ==> (r < 0 <==> a < 0)
    ensures a < 0 ==> r == -((-a) % b)
  {
    if a >= 0 then a % b else -((-a) % b)
  }

  /** `n.toString().padStart(2, '0')` */
  function TwoDigits(n: int): string {
    PadStart(IntToString(n), 2, '0')
  }

  /**
    * `formatTime(ms)`: whole seconds split into hours, minutes and seconds and
    * joined with colons. `Math.floor(x / d)` for `d > 0` is Dafny's `x / d`.
    */
  function FormatTime(ms: int): string {
    var seconds := ms / 1000;
    var h := seconds / 3600;
    var m := JsRemainder(seconds, 3600) / 60;
    var s := JsRemainder(seconds, 60);
    TwoDigits(h) + ":" + TwoDigits(m) + ":" + TwoDigits(s)
  }

  /**
    * Reads an `HH:MM:SS` clock text back into whole seconds: at least two hour
    * digits, exactly two minute and two second digits, both below 60.
    */
  function ParseClock(t: string): Option<nat> {
    if |t| < 8 || t[|t| - 6] != ':' || t[|t| - 3] != ':' then None
    else ParseFields(t[..|t| - 6], t[|t| - 5..|t| - 3], t[|t| - 2..])
  }

  /** The seconds denoted by hour, minute and second fields, when they are well-formed. */
  function ParseFields(h: string, m: string, s: string): Option<nat> {
    if AllDigits(h) && AllDigits(m) && AllDigits(s) && DecimalValue(m) < 60 && DecimalValue(s) < 60
    then Some(DecimalValue(h) * 3600 + DecimalValue(m) * 60 + DecimalValue(s))
    else None
  }

  /** A non-negative number padded to two places is a numeral of at least two digits that denotes it. */
  lemma PaddedNumeral(n: nat)
    ensures var p := TwoDigits(n);
      |p| >= 2 && AllDigits(p) && DecimalValue(p) == n && (n < 100 ==> |p| == 2)
  {
    var d := NatToString(n);
    Numeral(n);
    var p := TwoDigits(n);
    if |d| < 2 {
      assert p == ['0'] + d;
      assert p[..1] == ['0'];
      assert DecimalValue(p[..1]) == DecimalValue([]) * 10 + 0;
    }
  }

  /**
    * For a non-negative duration the clock text has the `HH:MM:SS` shape and
    * reads back as the duration in whole seconds.
    */
  lemma FormatTimeRoundTrip(ms: int)
    requires ms >= 0
    ensures ParseClock(FormatTime(ms)) == Some(ms / 1000)
  {
    var seconds := ms / 1000;
    var h, m, s := seconds / 3600, (seconds % 3600) / 60, seconds % 60;
    FormatTimeFields(ms);
    assert FormatTime(ms) == TwoDigits(h) + ":" + TwoDigits(m) + ":" + TwoDigits(s);
    ClockArithmetic(seconds);
    assert h * 3600 + m * 60 + s == seconds;
    ClockRoundTrip(h, m, s);
  }

  /** Hours, minutes and seconds written as a clock text read back as the seconds they make up. */
  lemma ClockRoundTrip(h: nat, m: nat, s: nat)
    requires m < 60 && s < 60
    ensures ParseClock(TwoDigits(h) + ":" + TwoDigits(m) + ":" + TwoDigits(s)) == Some(h * 3600 + m * 60 + s)
  {
    PaddedNumeral(h);
    PaddedNumeral(m);
    PaddedNumeral(s);
    ParseJoined(TwoDigits(h), TwoDigits(m), TwoDigits(s), h, m, s);
  }

  /** Below a hundred hours the clock text is exactly `HH:MM:SS`. */
  lemma FormatTimeWidth(ms: int)
    requires 0 <= ms < 360_000_000
    ensures |FormatTime(ms)| == 8
  {
    var seconds := ms / 1000;
    FormatTimeFields(ms);
    ClockArithmetic(seconds);
    PaddedNumeral(seconds / 3600);
    PaddedNumeral((seconds % 3600) / 60);
    PaddedNumeral(seconds % 60);
  }

  /** For a non-negative duration JavaScript's remainders are Dafny's. */
  lemma FormatTimeFields(ms: int)
    requires ms >= 0
    ensures var seconds := ms / 1000;
      FormatTime(ms)
      == TwoDigits(seconds / 3600) + ":" + TwoDigits((seconds % 3600) / 60) + ":" + TwoDigits(seconds % 60)
  {
  }

  /** Three numerals joined by colons read back field by field. */
  lemma ParseJoined(hs: string, ms: string, ss: string, h: nat, m: nat, s: nat)
    requires |hs| >= 2 && |ms| == 2 && |ss| == 2
    requires AllDigits(hs) && AllDigits(ms) && AllDigits(ss)
    requires DecimalValue(hs) == h && DecimalValue(ms) == m && DecimalValue(ss) == s
    requires m < 60 && s < 60
    ensures ParseClock(hs + ":" + ms + ":" + ss) == Some(h * 3600 + m * 60 + s)
  {
    JoinedFields(hs, ms, ss);
    assert ParseClock(hs + ":" + ms + ":" + ss) == ParseFields(hs, ms, ss);
    FieldsValue(hs, ms, ss);
  }

  lemma FieldsValue(hs: string, ms: string, ss: string)
    requires AllDigits(hs) && AllDigits(ms) && AllDigits(ss)
    requires DecimalValue(ms) < 60 && DecimalValue(ss) < 60
    ensures ParseFields(hs, ms, ss) == Some(DecimalValue(hs) * 3600 + DecimalValue(ms) * 60 + DecimalValue(ss))
  {
  }

  /** Where the fields and the colons of a joined clock text sit. */
  lemma JoinedFields(hs: string, ms: string, ss: string)
    requires |hs| >= 2 && |ms| == 2 && |ss| == 2
    ensures var t := hs + ":" + ms + ":" + ss;
      && |t| == |hs| + 6 && t[|t| - 6] == ':' && t[|t| - 3] == ':'
      && t[..|t| - 6] == hs && t[|t| - 5..|t| - 3] == ms && t[|t| - 2..] == ss
  {
    var t := hs + ":" + ms + ":" + ss;
    assert t[..|t| - 6] == hs;
    assert t[|t| - 5..|t| - 3] == ms;
  }

  /** Hours, minutes and seconds of a non-negative count of seconds recombine to it. */
  lemma ClockArithmetic(seconds: nat)
    ensures (seconds % 3600) / 60 < 60 && seconds % 60 < 60
    ensures (seconds / 3600) * 3600 + ((seconds % 3600) / 60) * 60 + seconds % 60 == seconds
  {
    var h, rest := seconds / 3600, seconds % 3600;
    var m, s := rest / 60, rest % 60;
    assert seconds == (h * 60 + m) * 60 + s;
    MultiplePlusRemainder(h * 60 + m, s);
  }

  /** Adding a multiple of 60 does not change the remainder by 60. */
  lemma MultiplePlusRemainder(q: nat, s: nat)
    requires s < 60
    ensures (q * 60 + s) % 60 == s
  {
  }

  /** The unit `formatSize` writes a byte count in. */
  datatype SizeUnit = Bytes | Kilobytes | Megabytes

  /** How many bytes one of the unit stands for. */
  function UnitBytes(u: SizeUnit): nat {
    match u
    case Bytes => 1
    case Kilobytes => 1024
    case Megabytes => 1024 * 1024
  }

  /**
    * The unit `formatSize(bytes)` picks: bytes below 1024, kilobytes below
    * 1024 * 1024, megabytes beyond. The figure shown is then at least one of
    * the unit and, except in megabytes, fewer than 1024 of it.
    */
  function SizeUnitFor(bytes: nat): (u: SizeUnit)
    ensures u != Bytes ==> bytes >= UnitBytes(u)
    ensures u != Megabytes ==> bytes < 1024 * UnitBytes(u)
  {
    if bytes < 1024 then Bytes
    else if bytes < 1024 * 1024 then Kilobytes
    else Megabytes
  }

  /** The name used when the filename box is blank, and the container's extension. */
  const DefaultBaseName := "recording"
  const Extension := ".webm"

  /**
    * `updateDownloadFilename`'s rule: trim the box's text, fall back to
    * `recording` when nothing is left, and add `.webm` unless it is already there.
    */
  function DownloadFilename(input: string): string {
    var name := if Trim(input) == "" then DefaultBaseName else Trim(input);
    if EndsWith(name, Extension) then name else name + Extension
  }

  /**
    * The download name always ends in `.webm`; a blank box gives
    * `recording.webm`; otherwise the trimmed text is kept when it already
    * ends in `.webm` and gets exactly `.webm` appended when it does not.
    */
  lemma DownloadFilenameRule(input: string)
    ensures EndsWith(DownloadFilename(input), Extension)
    ensures IsBlank(input) ==> DownloadFilename(input) == DefaultBaseName + Extension
    ensures EndsWith(Trim(input), Extension) ==> DownloadFilename(input) == Trim(input)
    ensures !IsBlank(input) && !EndsWith(Trim(input), Extension) ==> DownloadFilename(input) == Trim(input) + Extension
  {
  }

  /** Applying the rule to its own output changes nothing. */
  lemma DownloadFilenameIdempotent(input: string)
    ensures DownloadFilename(DownloadFilename(input)) == DownloadFilename(input)
  {
    DownloadFilenameRule(input);
    var r := DownloadFilename(input);
    var name := if Trim(input) == "" then DefaultBaseName else Trim(input);
    assert name[0] == r[0];
    assert !IsWhitespace(r[|r| - 1]);
    assert Trim(r) == r;
  }

  /** One character of `x.replace(/[T:]/g, '-')`. */
  function Dash(c: char): char {
    if c == 'T' || c == ':' then '-' else c
  }

  /** `x.replace(/[T:]/g, '-')` */
  function DashSeparators(s: string): (r: string)
    ensures |r| == |s|
    ensures forall k | 0 <= k < |r| :: r[k] == Dash(s[k])
  {
    if s == [] then [] else [Dash(s[0])] + DashSeparators(s[1..])
  }

  /** `'recording-' + iso.slice(0, 19).replace(/[T:]/g, '-')`: the default filename. */
  function DefaultFilename(iso: string): string {
    var stem := DashSeparators(iso[..if |iso| < 19 then |iso| else 19]);
    "recording-" + stem
  }

  /**
    * The default name is `recording-` followed by the first 19 characters of
    * the timestamp (all of it when shorter), each kept or turned into `-`, and
    * holds neither `T` nor `:`.
    */
  lemma DefaultFilenameShape(iso: string)
    ensures var r := DefaultFilename(iso);
      && |r| == 10 + (if |iso| < 19 then |iso| else 19)
      && StartsWith(r, "recording-")
      && (forall k | 0 <= k < |r| :: r[k] != 'T' && r[k] != ':')
      && (forall k | 10 <= k < |r| :: r[k] == '-' || r[k] == iso[k - 10])
  {
  }

  /** The shape `Date.prototype.toISOString` gives a year 0 to 9999: `YYYY-MM-DDTHH:mm:ss.sssZ`. */
  predicate IsIsoTimestamp(iso: string) {
    && |iso| == 24
    && (forall k | k in {0, 1, 2, 3, 5, 6, 8, 9, 11, 12, 14, 15, 17, 18, 20, 21, 22} :: IsDigit(iso[k]))
    && iso[4] == '-' && iso[7] == '-' && iso[10] == 'T' && iso[13] == ':' && iso[16] == ':'
    && iso[19] == '.' && iso[23] == 'Z'
  }

  /** For a timestamp of that shape the default name is `recording-YYYY-MM-DD-HH-mm-ss`. */
  lemma DefaultFilenameOfTimestamp(iso: string)
    requires IsIsoTimestamp(iso)
    ensures DefaultFilename(iso)
      == "recording-" + iso[..10] + "-" + iso[11..13] + "-" + iso[14..16] + "-" + iso[17..19]
  {
    var stem := DashSeparators(iso[..19]);
    var e := iso[..10] + "-" + iso[11..13] + "-" + iso[14..16] + "-" + iso[17..19];
    forall k | 0 <= k < 19 ensures stem[k] == e[k] {
      if k == 10 || k == 13 || k == 16 {
        assert iso[k] == 'T' || iso[k] == ':';
      } else {
        assert k in {0, 1, 2, 3, 4, 5, 6, 7, 8, 9, 11, 12, 14, 15, 17, 18};
        assert iso[k] != 'T' && iso[k] != ':';
      }
    }
    assert stem == e;
  }

  /** The download name derived from such a default name only adds `.webm`. */
  lemma DefaultDownloadName(iso: string)
    requires IsIsoTimestamp(iso)
    ensures DownloadFilename(DefaultFilename(iso)) == DefaultFilename(iso) + Extension
  {
    var stem := DashSeparators(iso[..19]);
    var r := DefaultFilename(iso);
    assert r == "recording-" + stem && |r| == 29;
    assert r[28] == Dash(iso[18]) && r[24] == Dash(iso[14]);
    assert IsDigit(r[28]) && IsDigit(r[24]);
    assert Trim(r) == r;
    assert !EndsWith(r, Extension) by {
      assert r[24..][0] == r[24];
    }
    DownloadFilenameRule(r);
  }
}
