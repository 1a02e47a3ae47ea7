/**
 * The scanner hook of the React client (src/hooks/useBarcodeScanner.ts): it
 * asks for the camera, picks one, sets up Quagga on it, passes on detected
 * codes with a 3-second guard against the same code, and pauses for 1.5
 * seconds after each code. The hook's state cells are the fields of
 * `ScannerHook`. What the browser and Quagga answer (the permission
 * request, the device list, the outcome of `Quagga.init`) are parameters;
 * the 1.5-second restart timer is a count of restarts scheduled and an
 * event `RestartTimerFires`; the codes passed to `onBarcodeDetected` are
 * recorded in `delivered`, and the streams handed to `stopStreamTracks` in
 * `stoppedStreams`.
 */
module UseBarcodeScanner {
  import opened Wrappers
  import opened CameraUtils

  /** Within this many milliseconds the same code is not passed on again. */
  const DuplicateWindow: int := 3000

  /** The pause, in milliseconds, before the scanner is set up again after a code. */
  const RestartDelay: int := 1500

  const InitializingMessage: string := "Initializing camera..."
  const PermissionDeniedMessage: string := "Camera permission denied. Please allow camera access and try again."
  const NoCamerasMessage: string := "No cameras detected on your device"
  const InitFailedPrefix: string := "Failed to initialize barcode scanner: "

  /** The message shown when `Quagga.init` fails with an error whose `message` is given. */
  function InitFailedMessage(message: string): (r: string)
    ensures |r| > |InitFailedPrefix|
    ensures r[..|InitFailedPrefix|] == InitFailedPrefix
    ensures message != "" ==> r[|InitFailedPrefix|..] == message
    ensures message == "" ==> r[|InitFailedPrefix|..] == "Unknown error"
  {
    InitFailedPrefix + if message == "" then "Unknown error" else message
  }

  /**
   * `numOfWorkers`: half the reported cores, rounded down, but never fewer
   * than two; two when the browser reports nothing (or 0).
   */
  function WorkerCount(hardwareConcurrency: Option<nat>): (r: nat)
    ensures r >= 2
    ensures hardwareConcurrency.Some? ==> r >= hardwareConcurrency.value / 2
    ensures r == 2 || (hardwareConcurrency.Some? && r == hardwareConcurrency.value / 2)
  {
    if hardwareConcurrency.None? || hardwareConcurrency.value == 0 then 2
    else if hardwareConcurrency.value / 2 > 2 then hardwareConcurrency.value / 2
    else 2
  }

  /** A string state cell that JavaScript treats as true: set and not empty. */
  predicate Truthy(s: Option<string>) {
    s.Some? && s.value != ""
  }

  /**
   * The test of the `onDetected` handler: an empty code is ignored, and so
   * is the last code passed on when it comes again within the window.
   */
  predicate PassesOn(lastCode: Option<string>, lastTime: int, code: string, now: int) {
    code != "" && !(lastCode == Some(code) && now - lastTime < DuplicateWindow)
  }

  /**
   * After a code is passed on at `now`, the same code is refused until the
   * window has run out and passed on again from then on, while any other
   * non-empty code passes at once.
   */
  lemma SameCodeWindow(code: string, now: int, t: int, other: string)
    requires code != "" && other != "" && other != code && t >= now
    ensures !PassesOn(Some(code), now, code, t) <==> t < now + DuplicateWindow
    ensures PassesOn(Some(code), now, other, t)
  {
  }

  /**
   * What asking for the camera (`initScanner`) leaves in the camera cells,
   * starting from `cameras0` and `active0`: without a stream only the
   * permission message; with one, the video inputs, and either the best of
   * them with no message or, when there are none, the no-camera message.
   */
  predicate CameraOutcome(environment: Option<MediaStream>, any: Option<MediaStream>,
                          enumerated: Result<seq<MediaDevice>, string>,
                          cameras0: seq<MediaDevice>, active0: Option<string>,
                          cameras: seq<MediaDevice>, active: Option<string>, message: Option<string>)
  {
    var granted := RequestCameraPermission(environment, any).stream;
    && (granted.None? ==> message == Some(PermissionDeniedMessage) && cameras == cameras0 && active == active0)
    && (granted.Some? ==> cameras == GetAvailableCameras(enumerated))
    && (granted.Some? && cameras != [] ==> active == SelectBestCamera(cameras) && active.Some? && message == None)
    && (granted.Some? && cameras == [] ==> active == active0 && message == Some(NoCamerasMessage))
  }

  class ScannerHook {
    /** Whether the element Quagga renders into is mounted (`scannerRef.current`). */
    const hasScannerElement: bool
    var isOpen: bool
    var cameras: seq<MediaDevice>
    var activeCamera: Option<string>
    var errorMessage: Option<string>
    var lastScannedCode: Option<string>
    var lastScanTime: int
    var scannerInitialized: bool
    var stream: Option<MediaStream>
    var isLoading: bool
    var pendingRestarts: nat
    var delivered: seq<string>
    var stoppedStreams: seq<MediaStream>

    /** The hook's first render, with the dialog closed. */
    constructor (hasScannerElement: bool)
      ensures this.hasScannerElement == hasScannerElement && !isOpen
      ensures cameras == [] && activeCamera == None && errorMessage == None
      ensures lastScannedCode == None && lastScanTime == 0 && !scannerInitialized
      ensures stream == None && !isLoading && pendingRestarts == 0
      ensures delivered == [] && stoppedStreams == []
    {
      this.hasScannerElement := hasScannerElement;
      isOpen := false;
      cameras := [];
      activeCamera := None;
      errorMessage := None;
      lastScannedCode := None;
      lastScanTime := 0;
      scannerInitialized := false;
      stream := None;
      isLoading := false;
      pendingRestarts := 0;
      delivered := [];
      stoppedStreams := [];
    }

    /**
     * `initScanner`, given what the two camera requests and the device
     * listing yield: without a stream only the permission message is set;
     * with one, the stream is kept, the video inputs listed, and the best
     * camera chosen, or the no-camera message shown when there is none.
     */
    method InitScanner(environment: Option<MediaStream>, any: Option<MediaStream>,
                       enumerated: Result<seq<MediaDevice>, string>)
      modifies this`isLoading, this`errorMessage, this`stream, this`cameras, this`activeCamera
      ensures !isLoading
      ensures CameraOutcome(environment, any, enumerated, old(cameras), old(activeCamera), cameras, activeCamera, errorMessage)
      ensures stream == if RequestCameraPermission(environment, any).stream.Some?
                        then RequestCameraPermission(environment, any).stream else old(stream)
    {
      isLoading := true;
      errorMessage := Some(InitializingMessage);
      var mediaStream := RequestCameraPermission(environment, any).stream;
      if mediaStream.None? {
        errorMessage := Some(PermissionDeniedMessage);
        isLoading := false;
        return;
      }
      stream := mediaStream;
      var videoDevices := GetAvailableCameras(enumerated);
      cameras := videoDevices;
      if |videoDevices| > 0 {
        activeCamera := SelectBestCamera(videoDevices);
        errorMessage := None;
      } else {
        errorMessage := Some(NoCamerasMessage);
      }
      isLoading := false;
    }

    /** `stopScanner`: the scanner is no longer initialised, and any stream is stopped and dropped. */
    method StopScanner()
      modifies this`scannerInitialized, this`stream, this`stoppedStreams
      ensures !scannerInitialized && stream == None
      ensures stoppedStreams == old(stoppedStreams) + (if old(stream).Some? then [old(stream).value] else [])
    {
      scannerInitialized := false;
      if stream.Some? {
        stoppedStreams := stoppedStreams + [stream.value];
        stream := None;
      }
    }

    /**
     * `setupQuagga`: without the element or an active camera nothing
     * happens; otherwise the scanner is stopped and `Quagga.init` requested,
     * whose answer arrives in `OnQuaggaInit`.
     */
    method SetupQuagga() returns (initRequested: bool)
      modifies this`scannerInitialized, this`stream, this`stoppedStreams, this`errorMessage
      ensures initRequested <==> hasScannerElement && Truthy(activeCamera)
      ensures initRequested ==>
        && !scannerInitialized && stream == None && errorMessage == Some(InitializingMessage)
        && stoppedStreams == old(stoppedStreams) + (if old(stream).Some? then [old(stream).value] else [])
      ensures !initRequested ==>
        && scannerInitialized == old(scannerInitialized) && stream == old(stream)
        && errorMessage == old(errorMessage) && stoppedStreams == old(stoppedStreams)
    {
      if !hasScannerElement || !Truthy(activeCamera) {
        return false;
      }
      StopScanner();
      errorMessage := Some(InitializingMessage);
      return true;
    }

    /** The callback of `Quagga.init`: a failure is shown, success marks the scanner initialised. */
    method OnQuaggaInit(error: Option<string>)
      modifies this`scannerInitialized, this`errorMessage
      ensures error.Some? ==> errorMessage == Some(InitFailedMessage(error.value)) && scannerInitialized == old(scannerInitialized)
      ensures error.None? ==> scannerInitialized && errorMessage == None
    {
      if error.Some? {
        errorMessage := Some(InitFailedMessage(error.value));
        return;
      }
      scannerInitialized := true;
      errorMessage := None;
    }

    /**
     * The `onDetected` handler: a code that passes is remembered with its
     * time and delivered, the scanner is stopped, and a restart is scheduled.
     */
    method OnDetected(code: string, now: int) returns (accepted: bool)
      modifies this`lastScannedCode, this`lastScanTime, this`delivered, this`pendingRestarts,
        this`scannerInitialized, this`stream, this`stoppedStreams
      ensures accepted <==> PassesOn(old(lastScannedCode), old(lastScanTime), code, now)
      ensures accepted ==>
        && lastScannedCode == Some(code) && lastScanTime == now
        && delivered == old(delivered) + [code]
        && !scannerInitialized && stream == None
        && stoppedStreams == old(stoppedStreams) + (if old(stream).Some? then [old(stream).value] else [])
        && pendingRestarts == old(pendingRestarts) + 1
      ensures !accepted ==>
        && lastScannedCode == old(lastScannedCode) && lastScanTime == old(lastScanTime)
        && delivered == old(delivered) && pendingRestarts == old(pendingRestarts)
        && scannerInitialized == old(scannerInitialized) && stream == old(stream)
        && stoppedStreams == old(stoppedStreams)
    {
      if code == "" {
        return false;
      }
      if lastScannedCode == Some(code) && now - lastScanTime < DuplicateWindow {
        return false;
      }
      lastScannedCode := Some(code);
      lastScanTime := now;
      delivered := delivered + [code];
      StopScanner();
      pendingRestarts := pendingRestarts + 1;
      return true;
    }

    /**
     * A restart scheduled by `OnDetected` fires: the scanner is set up again
     * only if the dialog is still open with the element and a camera.
     */
    method RestartTimerFires() returns (initRequested: bool)
      requires pendingRestarts > 0
      modifies this`pendingRestarts, this`scannerInitialized, this`stream, this`stoppedStreams, this`errorMessage
      ensures pendingRestarts == old(pendingRestarts) - 1
      ensures initRequested <==> isOpen && hasScannerElement && Truthy(activeCamera)
      ensures initRequested ==>
        && !scannerInitialized && stream == None && errorMessage == Some(InitializingMessage)
        && stoppedStreams == old(stoppedStreams) + (if old(stream).Some? then [old(stream).value] else [])
      ensures !initRequested ==>
        && scannerInitialized == old(scannerInitialized) && stream == old(stream) && errorMessage == old(errorMessage)
        && stoppedStreams == old(stoppedStreams)
    {
      pendingRestarts := pendingRestarts - 1;
      initRequested := false;
      if isOpen && hasScannerElement && Truthy(activeCamera) {
        initRequested := SetupQuagga();
      }
    }

    /** `changeCamera`: choosing the active camera again changes nothing; another one stops the scanner first. */
    method ChangeCamera(deviceId: string)
      modifies this`activeCamera, this`scannerInitialized, this`stream, this`stoppedStreams
      ensures old(activeCamera) == Some(deviceId) ==>
        activeCamera == old(activeCamera) && scannerInitialized == old(scannerInitialized) && stream == old(stream)
        && stoppedStreams == old(stoppedStreams)
      ensures old(activeCamera) != Some(deviceId) ==>
        && activeCamera == Some(deviceId) && !scannerInitialized && stream == None
        && stoppedStreams == old(stoppedStreams) + (if old(stream).Some? then [old(stream).value] else [])
    {
      if activeCamera == Some(deviceId) {
        return;
      }
      StopScanner();
      activeCamera := Some(deviceId);
    }

    /** `retryScanner`: the scanner is stopped and the camera asked for again. */
    method RetryScanner(environment: Option<MediaStream>, any: Option<MediaStream>,
                        enumerated: Result<seq<MediaDevice>, string>)
      modifies this`scannerInitialized, this`stream, this`stoppedStreams,
        this`isLoading, this`errorMessage, this`cameras, this`activeCamera
      ensures !scannerInitialized && !isLoading
      ensures stoppedStreams == old(stoppedStreams) + (if old(stream).Some? then [old(stream).value] else [])
      ensures stream == RequestCameraPermission(environment, any).stream
      ensures CameraOutcome(environment, any, enumerated, old(cameras), old(activeCamera), cameras, activeCamera, errorMessage)
    {
      StopScanner();
      InitScanner(environment, any, enumerated);
    }

    /**
     * The effect on `isOpen`: the previous run's cleanup stops the scanner;
     * opening clears the message and the last code and asks for the
     * camera, closing stops the scanner and leaves the other cells alone.
     */
    method OpenChanged(open: bool, environment: Option<MediaStream>, any: Option<MediaStream>,
                       enumerated: Result<seq<MediaDevice>, string>)
      modifies this`isOpen, this`scannerInitialized, this`stream, this`stoppedStreams,
        this`isLoading, this`errorMessage, this`cameras, this`activeCamera, this`lastScannedCode
      ensures isOpen == open && !scannerInitialized
      ensures stoppedStreams == old(stoppedStreams) + (if old(stream).Some? then [old(stream).value] else [])
      ensures !open ==>
        && stream == None && lastScannedCode == old(lastScannedCode)
        && cameras == old(cameras) && activeCamera == old(activeCamera)
        && errorMessage == old(errorMessage) && isLoading == old(isLoading)
      ensures open ==>
        && lastScannedCode == None && !isLoading
        && stream == RequestCameraPermission(environment, any).stream
        && CameraOutcome(environment, any, enumerated, old(cameras), old(activeCamera), cameras, activeCamera, errorMessage)
    {
      StopScanner();
      isOpen := open;
      if open {
        errorMessage := None;
        lastScannedCode := None;
        scannerInitialized := false;
        InitScanner(environment, any, enumerated);
      } else {
        StopScanner();
      }
    }

    /** The effect on the active camera: an open dialog with a camera and no scanner yet sets one up. */
    method CameraEffect() returns (initRequested: bool)
      modifies this`scannerInitialized, this`stream, this`stoppedStreams, this`errorMessage
      ensures initRequested <==> old(isOpen && Truthy(activeCamera) && hasScannerElement && !scannerInitialized)
      ensures initRequested ==> !scannerInitialized && stream == None && errorMessage == Some(InitializingMessage)
      ensures initRequested ==>
        stoppedStreams == old(stoppedStreams) + (if old(stream).Some? then [old(stream).value] else [])
      ensures !initRequested ==>
        && scannerInitialized == old(scannerInitialized) && stream == old(stream)
        && errorMessage == old(errorMessage) && stoppedStreams == old(stoppedStreams)
    {
      initRequested := false;
      if isOpen && Truthy(activeCamera) && hasScannerElement && !scannerInitialized {
        initRequested := SetupQuagga();
      }
    }
  }
}
