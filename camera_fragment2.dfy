/**
 * CameraFragment2: the older camera fragment. onCreateView probes the
 * default camera once to work out the display orientation and the
 * parameters; acquire re-applies them to every device it opens, and
 * release snapshots the device's parameters for the next acquire. Every
 * driver failure in these steps is caught and logged.
 */
module Fragment2 {
  import opened Wrappers
  import opened Android
  import opened Orientation
  import opened Modes

  class CameraFragment2 {
    /** The fragment's AutoFocusCallback. */
    const autoFocusCallback: Callback
    var camera: Camera?
    var parameters: Option<Parameters>
    var defaultParameters: Option<Parameters>
    var cameraDegrees: int

    /** The handle the fragment holds is never one it has released. */
    ghost predicate Valid()
      reads this, camera
    {
      camera != null ==> !camera.released
    }

    constructor (autoFocusCallback: Callback)
      ensures Valid() && this.autoFocusCallback == autoFocusCallback
      ensures camera == null && parameters == None && defaultParameters == None && cameraDegrees == 0
    {
      this.autoFocusCallback := autoFocusCallback;
      camera := null;
      parameters := None;
      defaultParameters := None;
      cameraDegrees := 0;
    }

    /**
     * onCreateView's probe of Camera.open(), with `rotation` the display's
     * getRotation() and `info` what getCameraInfo(0) reports. When the open
     * throws, nothing is recorded. When it returns null, the orientation is
     * still computed before the null dereference ends the probe. A device
     * that opens gives the orientation, its parameters as the defaults and
     * the same with AUTO modes as the parameters; it is set to those
     * parameters and released again (`probe` is that device).
     */
    method OnCreateView(rotation: int, info: CameraInfo, outcome: OpenOutcome)
      returns (probe: Camera?)
      requires Valid()
      modifies this
      ensures Valid()
      ensures !outcome.Opened? ==> probe == null
      ensures outcome.Opened? ==>
        probe != null && fresh(probe) && probe.pristine == outcome.pristine &&
        probe.params == AutoModes(outcome.pristine) && probe.orientation == 0 && probe.released
      ensures outcome.Threw? ==> unchanged(this)
      ensures !outcome.Threw? ==>
        camera == null && cameraDegrees == Compensate(info, RotationDegrees(rotation))
      ensures outcome.ReturnedNull? ==>
        parameters == old(parameters) && defaultParameters == old(defaultParameters)
      ensures outcome.Opened? ==>
        defaultParameters == Some(outcome.pristine) && parameters == Some(AutoModes(outcome.pristine))
      ensures IsAngle(info.orientation) && !outcome.Threw? ==> IsAngle(cameraDegrees)
    {
      probe := null;
      var degrees := RotationDegrees(rotation);
      if outcome.Threw? {
        return;
      }
      if outcome.ReturnedNull? {
        camera := null;
        cameraDegrees := Compensate(info, degrees);
        return;
      }
      camera := new Camera.Open(outcome.pristine);
      cameraDegrees := Compensate(info, degrees);
      defaultParameters := Some(camera.params);
      var p := camera.params;
      parameters := Some(AutoModes(p));
      camera.SetParameters(parameters.value);
      camera.Release();
      probe := camera;
      camera := null;
    }

    /**
     * The state acquire leaves a device in that opened with `pristine`:
     * the stored orientation, then the stored parameters and an autofocus
     * request; with no parameters stored, setParameters(null) throws first.
     */
    function AcquiredState(pristine: Parameters): (s: CameraState)
      reads this
    {
      if parameters.Some? then
        CameraState(parameters.value, cameraDegrees, None, false, None, true, Some(autoFocusCallback), false)
      else
        CameraState(pristine, cameraDegrees, None, false, None, false, None, false)
    }

    /**
     * acquire: Camera.open() throwing leaves `camera` as it was; returning
     * null stores null. An opened device replaces whatever `camera` held and
     * gets the stored orientation and parameters, then an autofocus request;
     * with no parameters stored yet, setParameters(null) throws and ends
     * the attempt. Every failure is swallowed.
     */
    method Acquire(outcome: OpenOutcome)
      requires Valid()
      modifies this`camera
      ensures Valid()
      ensures outcome.Threw? ==> camera == old(camera)
      ensures outcome.ReturnedNull? ==> camera == null
      ensures outcome.Opened? ==>
        fresh(camera) && camera.pristine == outcome.pristine && camera.Snapshot() == AcquiredState(outcome.pristine)
    {
      if outcome.Threw? {
        return;
      }
      if outcome.ReturnedNull? {
        camera := null;
        return;
      }
      camera := new Camera.Open(outcome.pristine);
      camera.SetDisplayOrientation(cameraDegrees);
      if parameters.None? {
        return;
      }
      camera.SetParameters(parameters.value);
      camera.AutoFocus(Some(autoFocusCallback));
    }

    /**
     * release: with a device held, its current parameters are kept for the
     * next acquire, the defaults are restored and it is released. With no
     * defaults recorded (the probe failed), setParameters(null) raises a
     * NullPointerException that nothing catches (`npe`) and the device
     * stays held. Without a device nothing changes.
     */
    method Release() returns (npe: bool)
      requires Valid()
      modifies this, camera
      ensures Valid()
      ensures old(camera) == null ==> unchanged(this) && !npe
      ensures defaultParameters == old(defaultParameters) && cameraDegrees == old(cameraDegrees)
      ensures old(camera) != null ==> parameters == Some(old(camera.params))
      ensures old(camera) != null && old(defaultParameters).Some? ==>
        !npe && camera == null && old(camera).released &&
        old(camera).params == old(defaultParameters).value
      ensures old(camera) != null && old(defaultParameters).None? ==>
        npe && camera == old(camera) && camera.Snapshot() == old(camera.Snapshot())
    {
      npe := false;
      if camera != null {
        parameters := Some(camera.params);
        if defaultParameters.None? {
          return true;
        }
        camera.SetParameters(defaultParameters.value);
        camera.Release();
        camera := null;
      }
    }

    /** onActivityCreated: acquire. */
    method OnActivityCreated(outcome: OpenOutcome)
      requires Valid()
      modifies this`camera
      ensures Valid()
      ensures outcome.Threw? ==> camera == old(camera)
      ensures outcome.ReturnedNull? ==> camera == null
      ensures outcome.Opened? ==>
        fresh(camera) && camera.pristine == outcome.pristine && camera.Snapshot() == AcquiredState(outcome.pristine)
    {
      Acquire(outcome);
    }

    /** onSaveInstanceState: release. */
    method OnSaveInstanceState() returns (npe: bool)
      requires Valid()
      modifies this, camera
      ensures Valid()
      ensures old(camera) == null ==> unchanged(this) && !npe
      ensures defaultParameters == old(defaultParameters) && cameraDegrees == old(cameraDegrees)
      ensures old(camera) != null ==> parameters == Some(old(camera.params))
      ensures old(camera) != null && old(defaultParameters).Some? ==>
        !npe && camera == null && old(camera).released &&
        old(camera).params == old(defaultParameters).value
      ensures old(camera) != null && old(defaultParameters).None? ==>
        npe && camera == old(camera) && camera.Snapshot() == old(camera.Snapshot())
    {
      npe := Release();
    }

    /**
     * surfaceChanged: with no device held it first tries acquire. Then the
     * preview is stopped, bound to the holder and started again. A still
     * missing device (a null dereference) or an IOException from binding
     * ends the attempt; both are swallowed.
     */
    method SurfaceChanged(h: Holder, outcome: OpenOutcome, ioError: bool)
      requires Valid()
      modifies this`camera, camera
      ensures Valid()
      ensures old(camera) != null ==> camera == old(camera)
      ensures old(camera) == null && outcome.Opened? ==> fresh(camera)
      ensures old(camera) == null && !outcome.Opened? ==> camera == null
      ensures old(camera) != null ==>
        camera.Snapshot() == old(camera.Snapshot()).(
          display := if ioError then old(camera.display) else Some(h),
          previewing := !ioError,
          focusing := false)
      ensures old(camera) == null && outcome.Opened? ==>
        camera.pristine == outcome.pristine &&
        camera.Snapshot() == AcquiredState(outcome.pristine).(
          display := if ioError then None else Some(h),
          previewing := !ioError,
          focusing := false)
    {
      if camera == null {
        Acquire(outcome);
      }
      if camera == null {
        return;
      }
      camera.StopPreview();
      var ok := camera.SetPreviewDisplay(Some(h), ioError);
      if !ok {
        return;
      }
      camera.StartPreview();
    }
  }
}
