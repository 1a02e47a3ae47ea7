/**
 * The scanner dialog of the React client (src/components/pos/BarcodeScanner.tsx):
 * it lists the cameras, starts Quagga on the active one, passes on a code
 * unless it equals the last code passed on (which is forgotten 3 seconds
 * after the latest one), lets the cashier pause scanning, stop and restart
 * the scanner, and switch cameras in turn. The component's state cells are
 * the fields of `ScannerDialog`. What the browser and Quagga answer are
 * parameters; the single debounce timer is `resetPending` and the event
 * `DebounceFires`, the 300 ms restart timers of `toggleScanner`, one per click
 * while the scanner is not initialised and none ever cleared, are the
 * count `restartsPending` and the event `RestartFires`; codes passed to
 * `onBarcodeDetected` are recorded in `delivered`.
 */
module BarcodeScannerDialog {
  import opened Wrappers
  import opened Seqs
  import opened CameraUtils

  /** After this many milliseconds without a new code the last code is forgotten. */
  const ResetDelay: int := 3000

  const CameraErrorMessage: string := "Could not access camera. Please check permissions and try again."

  /** `findIndex` on the cameras' ids: the first position holding `id`, or -1. */
  function FindCamera(cameras: seq<MediaDevice>, id: Option<string>): (k: int)
    ensures -1 <= k < |cameras|
    ensures k >= 0 ==> Some(cameras[k].deviceId) == id
    ensures k == -1 <==> forall i :: 0 <= i < |cameras| ==> Some(cameras[i].deviceId) != id
    ensures forall i :: 0 <= i < k ==> Some(cameras[i].deviceId) != id
  {
    if cameras == [] then -1
    else if Some(cameras[0].deviceId) == id then 0
    else
      var k := FindCamera(cameras[1..], id);
      if k == -1 then -1 else k + 1
  }

  /**
   * `switchCamera`'s index: the camera after the active one, wrapping from
   * the last to the first, and the first when the active one is not listed.
   */
  function NextCameraIndex(cameras: seq<MediaDevice>, active: Option<string>): (r: nat)
    requires |cameras| > 0
    ensures r < |cameras|
    ensures FindCamera(cameras, active) == -1 ==> r == 0
    ensures 0 <= FindCamera(cameras, active) < |cameras| - 1 ==> r == FindCamera(cameras, active) + 1
    ensures FindCamera(cameras, active) == |cameras| - 1 ==> r == 0
  {
    var next := FindCamera(cameras, active) + 1;
    if next < |cameras| then next else 0
  }

  /** No two listed cameras share an id. */
  predicate IdsDistinct(cameras: seq<MediaDevice>) {
    forall i, j :: 0 <= i < j < |cameras| ==> cameras[i].deviceId != cameras[j].deviceId
  }

  /** The camera chosen after `n` switches from the camera at position `k`. */
  function AfterSwitches(cameras: seq<MediaDevice>, k: nat, n: nat): (r: nat)
    requires k < |cameras|
    ensures r < |cameras|
  {
    if n == 0 then k else NextCameraIndex(cameras, Some(cameras[AfterSwitches(cameras, k, n - 1)].deviceId))
  }

  /** `i` reduced below `m` by subtracting `m` as often as needed: the remainder of `i` by `m`. */
  function Wrap(i: nat, m: nat): (r: nat)
    requires m > 0
    ensures r < m
    decreases i
  {
    if i < m then i else Wrap(i - m, m)
  }

  /** One more wraps to one more, or to 0 at the divisor. */
  lemma {:induction false} WrapSuccessor(i: nat, m: nat)
    requires m > 0
    ensures Wrap(i + 1, m) == if Wrap(i, m) + 1 < m then Wrap(i, m) + 1 else 0
    decreases i
  {
    if i + 1 >= m && i >= m {
      WrapSuccessor(i - m, m);
      assert i + 1 - m == (i - m) + 1;
    }
  }

  /**
   * With distinct ids, switching visits the cameras in order: after `n`
   * switches from position `k` the camera at `(k + n) mod |cameras|` is
   * active.
   */
  lemma {:induction false} SwitchesGoRoundRobin(cameras: seq<MediaDevice>, k: nat, n: nat)
    requires IdsDistinct(cameras) && k < |cameras|
    ensures AfterSwitches(cameras, k, n) == Wrap(k + n, |cameras|)
  {
    if n > 0 {
      SwitchesGoRoundRobin(cameras, k, n - 1);
      var p := AfterSwitches(cameras, k, n - 1);
      assert FindCamera(cameras, Some(cameras[p].deviceId)) == p;
      WrapSuccessor(k + n - 1, |cameras|);
    }
  }

  /** A full round of switches returns to the starting camera. */
  lemma FullRoundReturns(cameras: seq<MediaDevice>, k: nat)
    requires IdsDistinct(cameras) && k < |cameras|
    ensures AfterSwitches(cameras, k, |cameras|) == k
  {
    SwitchesGoRoundRobin(cameras, k, |cameras|);
    assert Wrap(k + |cameras|, |cameras|) == Wrap(k, |cameras|);
  }

  /** A string state cell that JavaScript treats as true: set and not empty. */
  predicate Truthy(s: Option<string>) {
    s.Some? && s.value != ""
  }

  /** The default choice of `initializeScanner`: the first video device when no camera is active yet. */
  function DefaultCamera(videoDevices: seq<MediaDevice>, active: Option<string>): (r: Option<string>)
    ensures Truthy(active) ==> r == active
    ensures !Truthy(active) && videoDevices != [] ==> r == Some(videoDevices[0].deviceId)
    ensures !Truthy(active) && videoDevices == [] ==> r == active
  {
    if |videoDevices| > 0 && !Truthy(active) then Some(videoDevices[0].deviceId) else active
  }

  /** The gate of the `onDetected` handler: a detection is processed only with a code and while scanning. */
  predicate Forwards(code: Option<string>, scanning: bool) {
    Truthy(code) && scanning
  }

  class ScannerDialog {
    /** Whether the element Quagga renders into is mounted (`scannerRef.current`). */
    const hasScannerElement: bool
    var isOpen: bool
    var initialized: bool
    var cameras: seq<MediaDevice>
    var activeCamera: Option<string>
    var error: Option<string>
    var lastScannedCode: Option<string>
    var scanning: bool
    var resetPending: bool
    /** Restart timers started by `toggleScanner` that have not fired yet. */
    var restartsPending: nat
    /** Whether the current run of the effect started Quagga (`quaggaInstance`). */
    var effectStarted: bool
    var delivered: seq<string>

    constructor (hasScannerElement: bool, isOpen: bool)
      ensures this.hasScannerElement == hasScannerElement && this.isOpen == isOpen
      ensures !initialized && cameras == [] && activeCamera == None && error == None
      ensures lastScannedCode == None && scanning && !resetPending && restartsPending == 0
      ensures !effectStarted && delivered == []
    {
      this.hasScannerElement := hasScannerElement;
      this.isOpen := isOpen;
      initialized := false;
      cameras := [];
      activeCamera := None;
      error := None;
      lastScannedCode := None;
      scanning := true;
      resetPending := false;
      restartsPending := 0;
      effectStarted := false;
      delivered := [];
    }

    /**
     * `processBarcode`: the last code passed on is ignored; any other is
     * remembered and delivered, and the debounce timer is started afresh.
     */
    method ProcessBarcode(code: string) returns (accepted: bool)
      modifies this`lastScannedCode, this`delivered, this`resetPending
      ensures accepted <==> old(lastScannedCode) != Some(code)
      ensures accepted ==> lastScannedCode == Some(code) && delivered == old(delivered) + [code] && resetPending
      ensures !accepted ==>
        lastScannedCode == old(lastScannedCode) && delivered == old(delivered) && resetPending == old(resetPending)
    {
      if lastScannedCode == Some(code) {
        return false;
      }
      lastScannedCode := Some(code);
      delivered := delivered + [code];
      resetPending := true;
      return true;
    }

    /** The debounce timer fires: the last code is forgotten. */
    method DebounceFires()
      requires resetPending
      modifies this`lastScannedCode, this`resetPending
      ensures lastScannedCode == None && !resetPending
    {
      lastScannedCode := None;
      resetPending := false;
    }

    /** The `onDetected` handler: only a detection with a code, while scanning, reaches `processBarcode`. */
    method OnDetected(code: Option<string>) returns (accepted: bool)
      modifies this`lastScannedCode, this`delivered, this`resetPending
      ensures accepted <==> Forwards(code, scanning) && old(lastScannedCode) != code
      ensures accepted ==> lastScannedCode == code && delivered == old(delivered) + [code.value] && resetPending
      ensures !accepted ==>
        lastScannedCode == old(lastScannedCode) && delivered == old(delivered) && resetPending == old(resetPending)
    {
      accepted := false;
      if Truthy(code) && scanning {
        accepted := ProcessBarcode(code.value);
      }
    }

    /**
     * The effect's `initializeScanner`, given what `enumerateDevices` yields
     * and whether `Quagga.init` throws: the video inputs are listed and the
     * first becomes active if none is; Quagga starts only when the element
     * exists and a camera was already active when the effect ran. A failed
     * listing or start shows the camera message.
     */
    method InitializeScanner(enumerated: Result<seq<MediaDevice>, string>, initThrows: bool)
      modifies this`cameras, this`activeCamera, this`initialized, this`error, this`effectStarted
      ensures enumerated.Err? ==>
        && error == Some(CameraErrorMessage)
        && cameras == old(cameras) && activeCamera == old(activeCamera)
        && initialized == old(initialized) && effectStarted == old(effectStarted)
      ensures enumerated.Ok? ==>
        && cameras == Filter(enumerated.value, IsVideoInput)
        && activeCamera == DefaultCamera(cameras, old(activeCamera))
      ensures enumerated.Ok? && (!hasScannerElement || !Truthy(old(activeCamera))) ==>
        initialized == old(initialized) && error == old(error) && effectStarted == old(effectStarted)
      ensures enumerated.Ok? && hasScannerElement && Truthy(old(activeCamera)) && initThrows ==>
        initialized == old(initialized) && error == Some(CameraErrorMessage) && effectStarted == old(effectStarted)
      ensures enumerated.Ok? && hasScannerElement && Truthy(old(activeCamera)) && !initThrows ==>
        initialized && error == None && effectStarted
    {
      if enumerated.Err? {
        error := Some(CameraErrorMessage);
        return;
      }
      var videoDevices := Filter(enumerated.value, IsVideoInput);
      cameras := videoDevices;
      var activeWhenRun := activeCamera;
      if |videoDevices| > 0 && !Truthy(activeWhenRun) {
        activeCamera := Some(videoDevices[0].deviceId);
      }
      if !hasScannerElement || !Truthy(activeWhenRun) {
        return;
      }
      if initThrows {
        error := Some(CameraErrorMessage);
        return;
      }
      initialized := true;
      error := None;
      effectStarted := true;
    }

    /**
     * The effect body: an open dialog whose scanner is not initialised
     * initialises it, with the outcomes of `InitializeScanner`; otherwise
     * nothing changes.
     */
    method RunEffect(enumerated: Result<seq<MediaDevice>, string>, initThrows: bool)
      modifies this`cameras, this`activeCamera, this`initialized, this`error, this`effectStarted
      ensures !(old(isOpen) && !old(initialized)) ==>
        cameras == old(cameras) && activeCamera == old(activeCamera) && initialized == old(initialized)
        && error == old(error) && effectStarted == old(effectStarted)
      ensures old(isOpen) && !old(initialized) && enumerated.Err? ==>
        && error == Some(CameraErrorMessage) && !initialized
        && cameras == old(cameras) && activeCamera == old(activeCamera) && effectStarted == old(effectStarted)
      ensures old(isOpen) && !old(initialized) && enumerated.Ok? ==>
        && cameras == Filter(enumerated.value, IsVideoInput)
        && activeCamera == DefaultCamera(cameras, old(activeCamera))
      ensures old(isOpen) && !old(initialized) && enumerated.Ok? && (!hasScannerElement || !Truthy(old(activeCamera))) ==>
        !initialized && error == old(error) && effectStarted == old(effectStarted)
      ensures old(isOpen) && !old(initialized) && enumerated.Ok? && hasScannerElement && Truthy(old(activeCamera)) ==>
        && (initThrows ==> !initialized && error == Some(CameraErrorMessage) && effectStarted == old(effectStarted))
        && (!initThrows ==> initialized && error == None && effectStarted)
    {
      if isOpen && !initialized {
        InitializeScanner(enumerated, initThrows);
      }
    }

    /**
     * The effect's cleanup, run before the effect runs again: a scanner the
     * effect started is stopped, and the debounce timer is cancelled, so the
     * last code is kept until another code replaces it.
     */
    method EffectCleanup()
      modifies this`initialized, this`effectStarted, this`resetPending
      ensures old(effectStarted) ==> !initialized
      ensures !old(effectStarted) ==> initialized == old(initialized)
      ensures !effectStarted && !resetPending
    {
      if effectStarted {
        initialized := false;
        effectStarted := false;
      }
      resetPending := false;
    }

    /**
     * `switchCamera`, offered only when there is more than one camera: the
     * scanner is stopped and the next camera in the list becomes active.
     */
    method SwitchCamera()
      requires |cameras| > 1
      modifies this`initialized, this`activeCamera
      ensures !initialized
      ensures activeCamera == Some(cameras[NextCameraIndex(cameras, old(activeCamera))].deviceId)
    {
      if initialized {
        initialized := false;
      }
      var nextIndex := NextCameraIndex(cameras, activeCamera);
      activeCamera := Some(cameras[nextIndex].deviceId);
    }

    /**
     * `toggleScanner`: a running scanner is stopped; otherwise one more
     * restart is scheduled in 300 ms, beside any still pending, so two
     * clicks before the first fires call `Quagga.init` twice.
     */
    method ToggleScanner()
      modifies this`initialized, this`restartsPending
      ensures !initialized
      ensures restartsPending == old(restartsPending) + (if old(initialized) then 0 else 1)
    {
      if initialized {
        initialized := false;
      } else {
        initialized := false;
        restartsPending := restartsPending + 1;
      }
    }

    /** One restart scheduled by `toggleScanner` fires, given whether its `Quagga.init` fails. */
    method RestartFires(initFails: bool)
      requires restartsPending > 0
      modifies this`initialized, this`error, this`restartsPending
      ensures restartsPending == old(restartsPending) - 1
      ensures hasScannerElement && initFails ==> error == Some(CameraErrorMessage) && initialized == old(initialized)
      ensures hasScannerElement && !initFails ==> initialized && error == None
      ensures !hasScannerElement ==> initialized == old(initialized) && error == old(error)
    {
      restartsPending := restartsPending - 1;
      if hasScannerElement {
        if initFails {
          error := Some(CameraErrorMessage);
          return;
        }
        initialized := true;
        error := None;
      }
    }

    /** The pause button: scanning is switched off or on. */
    method ToggleScanning()
      modifies this`scanning
      ensures scanning == !old(scanning)
    {
      scanning := !scanning;
    }
  }

  /**
   * Start clicked twice before the first restart fires: both timers run
   * `Quagga.init`, and when the first succeeds and the second fails the
   * dialog ends initialised and showing the camera message at once.
   */
  method DoubleStartRunsInitTwice() returns (initialized: bool, error: Option<string>)
    ensures initialized && error == Some(CameraErrorMessage)
  {
    var dialog := new ScannerDialog(true, true);
    dialog.ToggleScanner();
    dialog.ToggleScanner();
    dialog.RestartFires(false);
    dialog.RestartFires(true);
    initialized, error := dialog.initialized, dialog.error;
  }
}
