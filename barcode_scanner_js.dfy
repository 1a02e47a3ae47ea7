/**
 * The scanner dialog of the server-rendered pages (static/js/barcode-scanner.js):
 * manual entry or camera mode, a guard against the same code twice in a
 * row, and a history of the five most recent codes. The page is reduced to
 * what the controller's branches test: whether the page has the scanner's
 * container (`hasContainer`), whether the dialog's controls are rendered in
 * it (`panelRendered`) and whether the camera panel is the one shown
 * (`cameraShown`). The 2-second reset timer is a count of resets scheduled
 * and an event `ResetTimerFires`; the codes passed to the page's
 * `onBarcodeDetected` callback are recorded in `delivered`.
 */
module BarcodeScannerJs {
  import opened StringUtil
  import opened CameraScannerJs

  /** How many codes the history keeps. */
  const HistoryLimit: nat := 5

  /** The delay, in milliseconds, after which the last code may be accepted again. */
  const ResetDelay: int := 2000

  /**
   * `addToScanHistory`: the code goes in front, and when that makes the
   * history longer than five the oldest entry is dropped.
   */
  function PushHistory(history: seq<string>, code: string): (r: seq<string>)
    ensures |r| == if |history| < HistoryLimit then |history| + 1 else |history|
    ensures r[0] == code
    ensures r[1..] == history[..|r| - 1]
  {
    var grown := [code] + history;
    if |grown| > HistoryLimit then grown[..|grown| - 1] else grown
  }

  /** The reverse of a list. */
  function Reverse<T>(s: seq<T>): (r: seq<T>)
    ensures |r| == |s|
    ensures forall i :: 0 <= i < |s| ==> r[i] == s[|s| - 1 - i]
  {
    if s == [] then [] else [s[|s| - 1]] + Reverse(s[..|s| - 1])
  }

  /** The history after a series of accepted codes, starting from an empty one. */
  function HistoryOf(codes: seq<string>): seq<string> {
    if codes == [] then [] else PushHistory(HistoryOf(codes[..|codes| - 1]), codes[|codes| - 1])
  }

  function Min(a: int, b: int): int {
    if a < b then a else b
  }

  /** The history holds the last five codes accepted (or all of them, if fewer), newest first. */
  lemma {:induction false} HistoryIsNewestFive(codes: seq<string>)
    ensures HistoryOf(codes) == Reverse(codes[|codes| - Min(HistoryLimit, |codes|)..])
  {
    if codes != [] {
      var n := |codes| - 1;
      var front := codes[..n];
      HistoryIsNewestFive(front);
      var h := HistoryOf(front);
      var r := PushHistory(h, codes[n]);
      var want := Reverse(codes[|codes| - Min(HistoryLimit, |codes|)..]);
      assert |r| == |want|;
      forall i | 0 <= i < |r|
        ensures r[i] == want[i]
      {
        if i > 0 {
          assert r[i] == h[i - 1];
        }
      }
    }
  }

  class BarcodeScanner {
    /** Whether the page has the element the dialog is rendered into. */
    const hasContainer: bool
    /** Whether the Quagga library is loaded on the page. */
    const quaggaLoaded: bool
    var isOpen: bool
    var panelRendered: bool
    var cameraShown: bool
    var cameraScanner: CameraScanner?
    var currentBarcode: string
    var scanHistory: seq<string>
    var pendingResets: nat
    var delivered: seq<string>

    /** The camera scanner, if any, as a frame. */
    function CameraFrame(): set<CameraScanner>
      reads this
    {
      if cameraScanner == null then {} else {cameraScanner}
    }

    /**
     * What every handler keeps: the controls exist only inside an open
     * dialog, the camera panel only among the controls, and a camera
     * scanner exists exactly while the camera panel is shown.
     */
    predicate Valid()
      reads this
    {
      && (panelRendered ==> hasContainer && isOpen)
      && (cameraShown ==> panelRendered)
      && (cameraScanner != null <==> cameraShown)
      && |scanHistory| <= HistoryLimit
    }

    constructor (hasContainer: bool, quaggaLoaded: bool)
      ensures Valid()
      ensures this.hasContainer == hasContainer && this.quaggaLoaded == quaggaLoaded
      ensures !isOpen && !panelRendered && !cameraShown && cameraScanner == null
      ensures currentBarcode == "" && scanHistory == [] && pendingResets == 0 && delivered == []
    {
      this.hasContainer := hasContainer;
      this.quaggaLoaded := quaggaLoaded;
      isOpen := false;
      panelRendered := false;
      cameraShown := false;
      cameraScanner := null;
      currentBarcode := "";
      scanHistory := [];
      pendingResets := 0;
      delivered := [];
    }

    /** `openScanner`: the dialog opens, in manual-entry mode when it can be rendered. */
    method OpenScanner()
      requires Valid()
      modifies this`isOpen, this`panelRendered, this`cameraShown, this`cameraScanner, CameraFrame()`isScanning
      ensures Valid()
      ensures isOpen && cameraScanner == null && !cameraShown
      ensures panelRendered <==> hasContainer
      ensures old(cameraScanner) != null ==>
        (old(cameraScanner).isScanning <==> old(cameraScanner.isScanning) && !quaggaLoaded)
    {
      isOpen := true;
      if hasContainer {
        panelRendered := true;
        cameraShown := false;
        ShowManualEntry();
      }
    }

    /** `closeScanner`: the dialog closes, its camera is stopped and dropped and its controls are removed. */
    method CloseScanner()
      requires Valid()
      modifies this`isOpen, this`panelRendered, this`cameraShown, this`cameraScanner, CameraFrame()`isScanning
      ensures Valid()
      ensures !isOpen && !panelRendered && !cameraShown && cameraScanner == null
      ensures old(cameraScanner) != null ==>
        (old(cameraScanner).isScanning <==> old(cameraScanner.isScanning) && !quaggaLoaded)
    {
      isOpen := false;
      if cameraScanner != null {
        cameraScanner.Stop(quaggaLoaded);
        cameraScanner := null;
      }
      if hasContainer {
        panelRendered := false;
        cameraShown := false;
      }
    }

    /** `showManualEntry`: any camera is stopped and dropped; the manual panel is shown if the controls exist. */
    method ShowManualEntry()
      requires (panelRendered ==> hasContainer && isOpen) && (cameraShown ==> panelRendered) && |scanHistory| <= HistoryLimit
      modifies this`cameraScanner, this`cameraShown, CameraFrame()`isScanning
      ensures Valid()
      ensures cameraScanner == null && !cameraShown
      ensures old(cameraScanner) != null ==>
        (old(cameraScanner).isScanning <==> old(cameraScanner.isScanning) && !quaggaLoaded)
    {
      if cameraScanner != null {
        cameraScanner.Stop(quaggaLoaded);
        cameraScanner := null;
      }
      if panelRendered {
        cameraShown := false;
      }
    }

    /**
     * `showCameraScanner`: with the controls rendered the camera panel is
     * shown and, if there is no camera scanner yet, a new one is started;
     * without them nothing happens.
     */
    method ShowCameraScanner()
      requires Valid()
      modifies this`cameraShown, this`cameraScanner
      ensures Valid()
      ensures panelRendered ==> cameraShown
      ensures panelRendered && old(cameraScanner) == null ==>
        && fresh(cameraScanner)
        && !cameraScanner.isScanning
        && cameraScanner.errors == (if quaggaLoaded then [] else [PlainErrorName])
      ensures old(cameraScanner) != null ==> cameraScanner == old(cameraScanner)
      ensures !panelRendered ==> cameraShown == old(cameraShown) && cameraScanner == old(cameraScanner)
    {
      if panelRendered {
        cameraShown := true;
        if cameraScanner == null {
          InitializeCameraScanner();
        }
      }
    }

    /** `toggleScannerMode`: from the camera panel to manual entry, otherwise to the camera. */
    method ToggleScannerMode()
      requires Valid()
      modifies this`cameraShown, this`cameraScanner, CameraFrame()`isScanning
      ensures Valid()
      ensures old(cameraShown) ==> !cameraShown && cameraScanner == null
      ensures old(cameraShown) ==>
        (old(cameraScanner).isScanning <==> old(cameraScanner.isScanning) && !quaggaLoaded)
      ensures !old(cameraShown) ==> (cameraShown <==> panelRendered)
      ensures !old(cameraShown) && panelRendered ==>
        && fresh(cameraScanner)
        && !cameraScanner.isScanning
        && cameraScanner.errors == (if quaggaLoaded then [] else [PlainErrorName])
    {
      if panelRendered && cameraShown {
        ShowManualEntry();
      } else {
        ShowCameraScanner();
      }
    }

    /** `initializeCameraScanner`: a new camera scanner is made and started. */
    method InitializeCameraScanner()
      modifies this`cameraScanner
      ensures fresh(cameraScanner)
      ensures !cameraScanner.isScanning && cameraScanner.delivered == []
      ensures cameraScanner.errors == (if quaggaLoaded then [] else [PlainErrorName])
    {
      cameraScanner := new CameraScanner();
      var _ := cameraScanner.Start(quaggaLoaded);
    }

    /**
     * `handleManualBarcode`: an entry that is empty or only white space is
     * refused; any other is trimmed and handled like a scan.
     */
    method HandleManualBarcode(input: string) returns (accepted: bool)
      requires Valid()
      modifies this`currentBarcode, this`scanHistory, this`pendingResets, this`delivered
      ensures Valid()
      ensures accepted <==> Trim(input) != "" && Trim(input) != old(currentBarcode)
      ensures accepted ==>
        && currentBarcode == Trim(input)
        && scanHistory == PushHistory(old(scanHistory), Trim(input))
        && delivered == old(delivered) + [Trim(input)]
        && pendingResets == old(pendingResets) + 1
      ensures !accepted ==>
        && currentBarcode == old(currentBarcode) && scanHistory == old(scanHistory)
        && delivered == old(delivered) && pendingResets == old(pendingResets)
    {
      if input == "" || Trim(input) == "" {
        return false;
      }
      accepted := HandleBarcodeDetection(Trim(input));
    }

    /**
     * `handleBarcodeDetection`: the code that is current is ignored; any other
     * becomes current, goes in front of the history, is delivered, and a
     * reset of the current code is scheduled.
     */
    method HandleBarcodeDetection(code: string) returns (accepted: bool)
      requires Valid()
      modifies this`currentBarcode, this`scanHistory, this`pendingResets, this`delivered
      ensures Valid()
      ensures accepted <==> code != old(currentBarcode)
      ensures accepted ==>
        && currentBarcode == code
        && scanHistory == PushHistory(old(scanHistory), code)
        && delivered == old(delivered) + [code]
        && pendingResets == old(pendingResets) + 1
      ensures !accepted ==>
        && currentBarcode == old(currentBarcode) && scanHistory == old(scanHistory)
        && delivered == old(delivered) && pendingResets == old(pendingResets)
    {
      if currentBarcode == code {
        return false;
      }
      currentBarcode := code;
      scanHistory := PushHistory(scanHistory, code);
      delivered := delivered + [code];
      pendingResets := pendingResets + 1;
      return true;
    }

    /**
     * A scheduled reset fires `ResetDelay` milliseconds after its code was
     * accepted: it clears the current code, whichever code is current by then.
     */
    method ResetTimerFires()
      requires pendingResets > 0
      modifies this`currentBarcode, this`pendingResets
      ensures currentBarcode == "" && pendingResets == old(pendingResets) - 1
    {
      currentBarcode := "";
      pendingResets := pendingResets - 1;
    }

    /**
     * The camera scanner's `onBarcodeDetected` callback: a detection its
     * cooldown lets through is then handled like any other scan, so a code
     * reaches the page only when both guards let it through.
     */
    method OnCameraDetection(code: string, now: int) returns (accepted: bool)
      requires Valid() && cameraScanner != null
      modifies this`currentBarcode, this`scanHistory, this`pendingResets, this`delivered,
        cameraScanner`lastDetectedCode, cameraScanner`lastDetectionTime, cameraScanner`delivered
      ensures Valid()
      ensures accepted <==>
        Accepts(old(cameraScanner.Last()), cameraScanner.detectionCooldown, Detection(code, now))
        && code != old(currentBarcode)
      ensures cameraScanner.Last() ==
        if Accepts(old(cameraScanner.Last()), cameraScanner.detectionCooldown, Detection(code, now))
        then Detection(code, now) else old(cameraScanner.Last())
      ensures cameraScanner.delivered == old(cameraScanner.delivered) +
        if Accepts(old(cameraScanner.Last()), cameraScanner.detectionCooldown, Detection(code, now))
        then [code] else []
      ensures accepted ==>
        && currentBarcode == code
        && scanHistory == PushHistory(old(scanHistory), code)
        && delivered == old(delivered) + [code]
        && pendingResets == old(pendingResets) + 1
      ensures !accepted ==>
        && currentBarcode == old(currentBarcode) && scanHistory == old(scanHistory)
        && delivered == old(delivered) && pendingResets == old(pendingResets)
    {
      var passed := cameraScanner.OnBarcodeDetected(code, now);
      if passed {
        accepted := HandleBarcodeDetection(code);
      } else {
        accepted := false;
      }
    }
  }
}
