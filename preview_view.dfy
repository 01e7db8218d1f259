/**
 * CameraPreview: a SurfaceView that opens one camera, follows its surface's
 * lifecycle and picks a preview size when it is measured.
 */
module PreviewView {
  import opened Wrappers
  import opened Android
  import opened Orientation
  import opened PreviewSize

  /** The view's fields other than the camera handle and its id. */
  datatype ViewState = ViewState(
    holder: Option<Holder>,
    previewCallback: Option<Callback>,
    autoFocusCallback: Option<Callback>,
    supportedPreviewSizes: Option<seq<Size>>,
    previewSize: Option<Size>,
    degrees: int)

  class CameraPreview {
    /** What getHolder() returns: the view's own surface holder. */
    const viewHolder: Holder
    /** The holder this view is registered with as SurfaceHolder.Callback. */
    var holder: Option<Holder>
    var cameraId: int
    var camera: Camera?
    var previewCallback: Option<Callback>
    var autoFocusCallback: Option<Callback>
    var supportedPreviewSizes: Option<seq<Size>>
    var previewSize: Option<Size>
    var degrees: int

    /** The handle the view holds is never one it has released. */
    ghost predicate Valid()
      reads this, camera
    {
      camera != null ==> !camera.released
    }

    function State(): (s: ViewState)
      reads this
    {
      ViewState(holder, previewCallback, autoFocusCallback, supportedPreviewSizes, previewSize, degrees)
    }

    /** The state close() leaves: no camera, no sizes, no callbacks, no holder. */
    predicate IsClosed()
      reads this
    {
      camera == null && cameraId == -1 &&
      State() == ViewState(None, None, None, None, None, 0)
    }

    constructor (viewHolder: Holder)
      ensures Valid() && IsClosed() && this.viewHolder == viewHolder
    {
      this.viewHolder := viewHolder;
      holder := None;
      cameraId := -1;
      camera := null;
      previewCallback := None;
      autoFocusCallback := None;
      supportedPreviewSizes := None;
      previewSize := None;
      degrees := 0;
    }

    /**
     * open(cameraId, previewCb, autoFocusCb): the id is recorded before the
     * device is opened, so it sticks even when Camera.open throws (which
     * propagates to the caller, `thrown`). Only a device that did open
     * resets the per-session fields and registers the view with its holder.
     */
    method Open(id: int, previewCb: Option<Callback>, autoFocusCb: Option<Callback>, outcome: OpenOutcome)
      returns (thrown: bool)
      requires Valid()
      modifies this
      ensures Valid()
      ensures cameraId == id
      ensures thrown <==> outcome.Threw?
      ensures outcome.Threw? ==> camera == old(camera) && State() == old(State())
      ensures outcome.ReturnedNull? ==> camera == null && State() == old(State())
      ensures outcome.Opened? ==>
        fresh(camera) && camera.Snapshot() == CameraState(outcome.pristine, 0, None, false, None, false, None, false) &&
        State() == ViewState(Some(viewHolder), previewCb, autoFocusCb,
                             Some(outcome.pristine.supportedPreviewSizes), None, 0)
    {
      cameraId := id;
      if outcome.Threw? {
        return true;
      }
      thrown := false;
      if outcome.ReturnedNull? {
        camera := null;
      } else {
        camera := new Camera.Open(outcome.pristine);
        previewCallback := previewCb;
        autoFocusCallback := autoFocusCb;
        supportedPreviewSizes := None;
        supportedPreviewSizes := Some(camera.params.supportedPreviewSizes);
        previewSize := None;
        degrees := 0;
        holder := Some(viewHolder);
      }
    }

    /**
     * close(): releases the device, if any, and resets every field. Closing
     * a closed view changes nothing, so closing twice is closing once.
     */
    method Close()
      requires Valid()
      modifies this, camera
      ensures Valid() && IsClosed()
      ensures old(camera) != null ==> old(camera).released
      ensures old(IsClosed()) ==> unchanged(this)
    {
      holder := None;
      degrees := 0;
      previewSize := None;
      supportedPreviewSizes := None;
      autoFocusCallback := None;
      previewCallback := None;
      if camera != null {
        camera.Release();
        camera := null;
      }
      cameraId := -1;
    }

    /** getCameraDisplayOrientation(). */
    function GetCameraDisplayOrientation(): (d: int)
      reads this
    {
      degrees
    }

    /**
     * setCameraDisplayOrientation(activity): `rotation` is the display's
     * getRotation() and `info` what getCameraInfo reports for cameraId.
     * The angle is stored in the view, not passed to the device.
     */
    method SetCameraDisplayOrientation(rotation: int, info: CameraInfo)
      modifies this`degrees
      ensures degrees == Compensate(info, RotationDegrees(rotation))
      ensures IsAngle(info.orientation) ==> IsAngle(degrees)
    {
      degrees := Compensate(info, RotationDegrees(rotation));
      if IsAngle(info.orientation) {
        CompensateInRange(info, rotation);
      }
    }

    /**
     * onMeasure with the resolved width and height: the preview size is
     * chosen only once the camera's supported sizes are known; otherwise
     * the view measures itself as a plain SurfaceView (`handled` false).
     */
    method OnMeasure(width: int, height: int) returns (handled: bool)
      modifies this`previewSize
      ensures handled == supportedPreviewSizes.Some?
      ensures !handled ==> previewSize == old(previewSize)
      ensures handled ==> (previewSize.Some? <==> |supportedPreviewSizes.value| > 0)
      ensures handled && previewSize.Some? ==>
        exists k :: IsOptimal(supportedPreviewSizes.value, k, width, height) &&
                    supportedPreviewSizes.value[k] == previewSize.value
    {
      handled := supportedPreviewSizes.Some?;
      if handled {
        previewSize := GetOptimalPreviewSize(supportedPreviewSizes, width, height);
      }
    }

    /** surfaceCreated: binds the device to the holder; an IOException is logged. */
    method SurfaceCreated(h: Holder, ioError: bool)
      requires Valid()
      modifies camera
      ensures Valid()
      ensures camera != null ==>
        camera.Snapshot() == old(camera.Snapshot()).(display := if ioError then old(camera.display) else Some(h))
    {
      if camera != null {
        var _ := camera.SetPreviewDisplay(Some(h), ioError);
      }
    }

    /**
     * surfaceDestroyed: stops the preview and unbinds the surface; an
     * IOException from unbinding is logged. The device stays open.
     */
    method SurfaceDestroyed(ioError: bool)
      requires Valid()
      modifies camera
      ensures Valid()
      ensures camera != null ==>
        camera.Snapshot() == old(camera.Snapshot()).(previewing := false, focusing := false,
                                                       display := if ioError then old(camera.display) else None)
    {
      if camera != null {
        camera.StopPreview();
        var _ := camera.SetPreviewDisplay(None, ioError);
      }
    }

    /**
     * surfaceChanged, with the chosen preview size applied to the device.
     * The view receives surface events only while registered, so `holder`
     * is set; `surfaceExists` is whether its getSurface() is non-null. The
     * preview is stopped and restarted on the new surface with the view's
     * callbacks. A missing preview size (a null dereference) or an
     * IOException from binding ends the attempt, which is only logged.
     */
    method SurfaceChanged(h: Holder, surfaceExists: bool, ioError: bool)
      requires Valid() && holder.Some?
      modifies camera
      ensures Valid()
      ensures !surfaceExists && camera != null ==> camera.Snapshot() == old(camera.Snapshot())
      ensures surfaceExists && camera != null && previewSize.None? ==>
        camera.Snapshot() == old(camera.Snapshot()).(previewing := false, focusing := false)
      ensures surfaceExists && camera != null && previewSize.Some? ==>
        camera.params == old(camera.params).(previewSize := previewSize.value) &&
        camera.display == (if ioError then old(camera.display) else Some(h)) &&
        camera.previewing == !ioError && camera.focusing == !ioError &&
        camera.previewCallback == (if ioError then old(camera.previewCallback) else previewCallback) &&
        camera.focusCallback == (if ioError then old(camera.focusCallback) else autoFocusCallback) &&
        camera.orientation == old(camera.orientation) && !camera.released
    {
      if !surfaceExists {
        return;
      }
      if camera == null {
        return;
      }
      camera.StopPreview();
      if previewSize.None? {
        return;
      }
      var p := camera.params.(previewSize := previewSize.value);
      camera.SetParameters(p);
      var ok := camera.SetPreviewDisplay(Some(h), ioError);
      if !ok {
        return;
      }
      camera.SetPreviewCallback(previewCallback);
      camera.StartPreview();
      camera.AutoFocus(autoFocusCallback);
    }

    /**
     * surfaceChanged exactly as the source has it: the preview size is set
     * on the copy returned by getParameters() and that copy is never passed
     * to setParameters, so the device's own parameters never change.
     */
    method SurfaceChangedAsWritten(h: Holder, surfaceExists: bool, ioError: bool)
      requires Valid() && holder.Some?
      modifies camera
      ensures Valid()
      ensures camera != null ==> camera.params == old(camera.params)
      ensures !surfaceExists && camera != null ==> camera.Snapshot() == old(camera.Snapshot())
      ensures surfaceExists && camera != null && previewSize.None? ==>
        camera.Snapshot() == old(camera.Snapshot()).(previewing := false, focusing := false)
      ensures surfaceExists && camera != null && previewSize.Some? ==>
        camera.display == (if ioError then old(camera.display) else Some(h)) &&
        camera.previewing == !ioError && camera.focusing == !ioError &&
        camera.previewCallback == (if ioError then old(camera.previewCallback) else previewCallback) &&
        camera.focusCallback == (if ioError then old(camera.focusCallback) else autoFocusCallback) &&
        camera.orientation == old(camera.orientation) && !camera.released
    {
      if !surfaceExists {
        return;
      }
      if camera == null {
        return;
      }
      camera.StopPreview();
      if previewSize.None? {
        return;
      }
      var p := camera.params.(previewSize := previewSize.value);
      var ok := camera.SetPreviewDisplay(Some(h), ioError);
      if !ok {
        return;
      }
      camera.SetPreviewCallback(previewCallback);
      camera.StartPreview();
      camera.AutoFocus(autoFocusCallback);
    }
  }
}
