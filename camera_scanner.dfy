/**
 * The Quagga wrapper of the server-rendered pages (static/js/camera-scanner.js):
 * a scanner that is started and stopped, drops a repeated code seen again
 * within a cooldown, and turns the browser's camera errors into alerts.
 * The Quagga library and the camera are outside the model: whether the
 * library is loaded and how its asynchronous initialisation ends are
 * parameters, and the codes the `onBarcodeDetected` callback receives are
 * recorded in `delivered`.
 */
module CameraScannerJs {
  import opened Wrappers

  /** `detectionCooldown`, in milliseconds. */
  const DetectionCooldown: int := 1000

  /** The three groups of camera errors the scanner explains to the user. */
  datatype CameraProblem = AccessDenied | NoCamera | CameraBusy

  /** Which group an error's `name` falls in, if any. */
  function ProblemOf(name: string): (r: Option<CameraProblem>)
    ensures r == Some(AccessDenied) <==> name == "NotAllowedError" || name == "PermissionDeniedError"
    ensures r == Some(NoCamera) <==> name == "NotFoundError" || name == "DevicesNotFoundError"
    ensures r == Some(CameraBusy) <==> name == "NotReadableError" || name == "TrackStartError"
  {
    if name == "NotAllowedError" || name == "PermissionDeniedError" then Some(AccessDenied)
    else if name == "NotFoundError" || name == "DevicesNotFoundError" then Some(NoCamera)
    else if name == "NotReadableError" || name == "TrackStartError" then Some(CameraBusy)
    else None
  }

  /** The alert shown for each group. */
  function AlertText(p: CameraProblem): string {
    match p
    case AccessDenied => "Camera access was denied. Please check your camera permissions."
    case NoCamera => "No camera detected on your device or the camera is in use by another application."
    case CameraBusy => "Cannot access your camera. It may be in use by another application."
  }

  /** The name of a plain `new Error(...)`, which `start` raises when Quagga is missing. */
  const PlainErrorName: string := "Error"

  /** A plain error is reported but explains nothing, so it shows no alert. */
  lemma PlainErrorShowsNoAlert()
    ensures ProblemOf(PlainErrorName) == None
  {
  }

  /** A detection: the decoded text and the clock reading when it arrived. */
  datatype Detection = Detection(code: string, time: int)

  /** The state a scanner starts in: no code seen yet, at time 0. */
  const Initial: Detection := Detection("", 0)

  /**
   * Whether a detection is passed on, given the last one passed on: only the
   * same code again before the cooldown has run out is dropped.
   */
  predicate Accepts(last: Detection, cooldown: int, d: Detection) {
    !(d.code == last.code && d.time - last.time < cooldown)
  }

  /**
   * A stream of detections fed to a scanner whose last passed-on detection
   * is `start`: the last detection passed on at the end, and the detections
   * passed on, in order.
   */
  function Run(start: Detection, cooldown: int, events: seq<Detection>): (r: (Detection, seq<Detection>))
    ensures r.1 == [] ==> r.0 == start
    ensures r.1 != [] ==> r.0 == r.1[|r.1| - 1]
    ensures |r.1| <= |events|
    ensures forall i :: 0 <= i < |r.1| ==> r.1[i] in events
  {
    if events == [] then (start, [])
    else
      var (last, passed) := Run(start, cooldown, events[..|events| - 1]);
      var e := events[|events| - 1];
      assert forall i :: 0 <= i < |passed| ==> passed[i] in events[..|events| - 1];
      if Accepts(last, cooldown, e) then (e, passed + [e]) else (last, passed)
  }

  /**
   * What the cooldown guarantees of a whole stream: the first detection
   * passed on is accepted against the starting state, and two consecutive
   * detections passed on with the same code are at least a cooldown apart.
   */
  lemma {:induction false} SameCodeSpacedByCooldown(start: Detection, cooldown: int, events: seq<Detection>)
    ensures var passed := Run(start, cooldown, events).1;
      && (passed != [] ==> Accepts(start, cooldown, passed[0]))
      && forall i :: 0 <= i < |passed| - 1 && passed[i].code == passed[i + 1].code ==>
           passed[i + 1].time - passed[i].time >= cooldown
  {
    if events != [] {
      var front := events[..|events| - 1];
      SameCodeSpacedByCooldown(start, cooldown, front);
    }
  }

  /** A detection passed on is never the same code within the cooldown of the previous one. */
  lemma RepeatWithinCooldownDropped(start: Detection, cooldown: int, events: seq<Detection>, e: Detection)
    requires Run(start, cooldown, events).0.code == e.code
    requires e.time - Run(start, cooldown, events).0.time < cooldown
    ensures Run(start, cooldown, events + [e]) == Run(start, cooldown, events)
  {
    assert (events + [e])[..|events|] == events;
  }

  class CameraScanner {
    var isScanning: bool
    var lastDetectedCode: string
    var lastDetectionTime: int
    var detectionCooldown: int
    /** The codes handed to the `onBarcodeDetected` callback. */
    var delivered: seq<string>
    /** The error names handed to the `onScannerError` callback. */
    var errors: seq<string>
    /** The alerts shown. */
    var alerts: seq<string>

    constructor ()
      ensures !isScanning && lastDetectedCode == Initial.code && lastDetectionTime == Initial.time
      ensures detectionCooldown == DetectionCooldown
      ensures delivered == [] && errors == [] && alerts == []
    {
      isScanning := false;
      lastDetectedCode := "";
      lastDetectionTime := 0;
      detectionCooldown := DetectionCooldown;
      delivered := [];
      errors := [];
      alerts := [];
    }

    /** The last detection passed on, as a value. */
    function Last(): Detection
      reads this
    {
      Detection(lastDetectedCode, lastDetectionTime)
    }

    /**
     * `start`: nothing happens while scanning; a missing library is reported
     * as an error; otherwise initialisation is requested and `isScanning`
     * waits for `OnInitComplete`.
     */
    method Start(libraryLoaded: bool) returns (initRequested: bool)
      modifies this`errors, this`alerts
      ensures initRequested <==> !isScanning && libraryLoaded
      ensures !isScanning && !libraryLoaded ==> errors == old(errors) + [PlainErrorName] && alerts == old(alerts)
      ensures isScanning || libraryLoaded ==> errors == old(errors) && alerts == old(alerts)
    {
      if isScanning {
        return false;
      }
      if !libraryLoaded {
        HandleError(PlainErrorName);
        return false;
      }
      return true;
    }

    /** The callback of `Quagga.init`: an error is reported, success starts scanning. */
    method OnInitComplete(error: Option<string>)
      modifies this`isScanning, this`errors, this`alerts
      ensures error.Some? ==> isScanning == old(isScanning) && errors == old(errors) + [error.value]
      ensures error.Some? && ProblemOf(error.value).Some? ==> alerts == old(alerts) + [AlertText(ProblemOf(error.value).value)]
      ensures error.Some? && ProblemOf(error.value).None? ==> alerts == old(alerts)
      ensures error.None? ==> isScanning && errors == old(errors) && alerts == old(alerts)
    {
      if error.Some? {
        HandleError(error.value);
        return;
      }
      isScanning := true;
    }

    /** `stop`: only a scanner that is running and whose library is loaded stops. */
    method Stop(libraryLoaded: bool)
      modifies this`isScanning
      ensures isScanning <==> old(isScanning) && !libraryLoaded
    {
      if isScanning && libraryLoaded {
        isScanning := false;
      }
    }

    /**
     * `onBarcodeDetected`: a detection the cooldown accepts becomes the last
     * one and is delivered; any other changes nothing.
     */
    method OnBarcodeDetected(code: string, now: int) returns (passed: bool)
      modifies this`lastDetectedCode, this`lastDetectionTime, this`delivered
      ensures passed == Accepts(old(Last()), detectionCooldown, Detection(code, now))
      ensures passed ==> Last() == Detection(code, now) && delivered == old(delivered) + [code]
      ensures !passed ==> Last() == old(Last()) && delivered == old(delivered)
    {
      if code == lastDetectedCode && now - lastDetectionTime < detectionCooldown {
        return false;
      }
      lastDetectedCode := code;
      lastDetectionTime := now;
      delivered := delivered + [code];
      return true;
    }

    /** `handleError`: every error is reported, and a known camera problem is also explained. */
    method HandleError(name: string)
      modifies this`errors, this`alerts
      ensures errors == old(errors) + [name]
      ensures ProblemOf(name).Some? ==> alerts == old(alerts) + [AlertText(ProblemOf(name).value)]
      ensures ProblemOf(name).None? ==> alerts == old(alerts)
    {
      errors := errors + [name];
      var problem := ProblemOf(name);
      if problem.Some? {
        alerts := alerts + [AlertText(problem.value)];
      }
    }
  }
}
