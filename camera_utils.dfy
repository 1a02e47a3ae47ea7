/**
 * Camera helpers of the React client (src/utils/cameraUtils.ts): asking for a
 * camera stream with a fallback, listing video inputs, choosing the rear
 * camera and stopping a stream's tracks. The browser's media calls are not
 * modelled; their outcomes are parameters.
 */
module CameraUtils {
  import opened StringUtil
  import opened Seqs
  import opened Wrappers

  /** `MediaDeviceInfo.kind`. */
  datatype DeviceKind = VideoInput | AudioInput | AudioOutput

  /** `MediaDeviceInfo`: what `enumerateDevices` reports of one device. */
  datatype MediaDevice = MediaDevice(deviceId: string, kind: DeviceKind, deviceLabel: string)

  datatype MediaTrack = MediaTrack(id: nat, kind: string)

  datatype MediaStream = MediaStream(id: nat, tracks: seq<MediaTrack>)

  /** The two `getUserMedia` requests, in the order they are made. */
  datatype VideoRequest = EnvironmentCamera | AnyCamera

  /** The requests made and the stream obtained (`None` is the `null` returned on failure). */
  datatype PermissionResult = PermissionResult(tried: seq<VideoRequest>, stream: Option<MediaStream>)

  /**
   * `requestCameraPermission`, given what `getUserMedia` yields for each
   * request (`None` when it rejects): the environment-facing camera first,
   * any camera only when that fails, and `null` only when both fail.
   */
  function RequestCameraPermission(environment: Option<MediaStream>, any: Option<MediaStream>): (r: PermissionResult)
    ensures |r.tried| >= 1 && r.tried[0] == EnvironmentCamera
    ensures r.tried == [EnvironmentCamera, AnyCamera] <==> environment.None?
    ensures environment.Some? ==> r == PermissionResult([EnvironmentCamera], environment)
    ensures r.stream.None? <==> environment.None? && any.None?
    ensures environment.None? ==> r.stream == any
  {
    if environment.Some? then PermissionResult([EnvironmentCamera], environment)
    else PermissionResult([EnvironmentCamera, AnyCamera], any)
  }

  predicate IsVideoInput(d: MediaDevice) {
    d.kind == VideoInput
  }

  /**
   * `getAvailableCameras`, given what `enumerateDevices` yields (an error when
   * it rejects): the video inputs in enumeration order, or none on error.
   */
  function GetAvailableCameras(enumerated: Result<seq<MediaDevice>, string>): (r: seq<MediaDevice>)
    ensures enumerated.Err? ==> r == []
    ensures forall i :: 0 <= i < |r| ==> r[i].kind == VideoInput
    ensures enumerated.Ok? ==> forall d :: d in r <==> d in enumerated.value && d.kind == VideoInput
    ensures enumerated.Ok? ==> SubsequenceOf(r, enumerated.value)
  {
    if enumerated.Err? then []
    else
      FilterIsSubsequence(enumerated.value, IsVideoInput);
      Filter(enumerated.value, IsVideoInput)
  }

  /** The label test of `selectBestCamera`. */
  predicate LooksRearFacing(d: MediaDevice) {
    var text := Lower(d.deviceLabel);
    Contains(text, "back") || Contains(text, "rear") || Contains(text, "environment")
  }

  /** The position of the first rear-facing camera, or `|cameras|` when there is none. */
  function FirstRearFacing(cameras: seq<MediaDevice>): (k: nat)
    ensures k <= |cameras|
    ensures k < |cameras| ==> LooksRearFacing(cameras[k])
    ensures forall j :: 0 <= j < k ==> !LooksRearFacing(cameras[j])
  {
    if cameras == [] then 0
    else if LooksRearFacing(cameras[0]) then 0
    else 1 + FirstRearFacing(cameras[1..])
  }

  /**
   * `selectBestCamera`: `null` for no cameras, else the first camera whose
   * label says back, rear or environment, else the first camera.
   */
  function SelectBestCamera(cameras: seq<MediaDevice>): (r: Option<string>)
    ensures r.None? <==> cameras == []
    ensures r.Some? ==> exists i :: 0 <= i < |cameras| && cameras[i].deviceId == r.value
    ensures FirstRearFacing(cameras) < |cameras| ==> r == Some(cameras[FirstRearFacing(cameras)].deviceId)
    ensures cameras != [] && FirstRearFacing(cameras) == |cameras| ==> r == Some(cameras[0].deviceId)
  {
    if cameras == [] then None
    else
      var k := FirstRearFacing(cameras);
      if k < |cameras| then Some(cameras[k].deviceId) else Some(cameras[0].deviceId)
  }

  /**
   * `stopStreamTracks`, given the ids of the tracks whose `stop` throws: the
   * `stop` calls made, in order, and the tracks that did stop. Nothing is
   * called for a `null` stream; a throwing track does not end the loop.
   */
  method StopStreamTracks(stream: Option<MediaStream>, throwing: set<nat>)
    returns (stopCalls: seq<MediaTrack>, stopped: seq<MediaTrack>)
    ensures stream.None? ==> stopCalls == [] && stopped == []
    ensures stream.Some? ==> stopCalls == stream.value.tracks
    ensures stream.Some? ==> stopped == Filter(stream.value.tracks, (t: MediaTrack) => t.id !in throwing)
  {
    stopCalls, stopped := [], [];
    if stream.None? {
      return;
    }
    var tracks := stream.value.tracks;
    var stops := (t: MediaTrack) => t.id !in throwing;
    var i := 0;
    while i < |tracks|
      invariant 0 <= i <= |tracks|
      invariant stopCalls == tracks[..i]
      invariant stopped == Filter(tracks[..i], stops)
    {
      FilterAppendOne(tracks[..i], tracks[i], stops);
      assert tracks[..i + 1] == tracks[..i] + [tracks[i]];
      stopCalls := stopCalls + [tracks[i]];
      if tracks[i].id !in throwing {
        stopped := stopped + [tracks[i]];
      }
      i := i + 1;
    }
    assert tracks[..i] == tracks;
  }
}
