/**
 * CameraFragment: the scanner's camera session. It owns one camera at a
 * time, selected by cameraId (-1: none), configures it, keeps an autofocus
 * loop going and hands every preview frame to the zbar decoder, forwarding
 * each decoded symbol to its Callback.
 */
module Fragment {
  import opened Wrappers
  import opened Android
  import opened Orientation
  import opened Modes

  /** The zbar Image built from a preview frame. */
  datatype Image = Image(width: int, height: int, format: string, data: seq<bv8>)

  /** What ImageScanner.scanImage returns and the symbol set getResults() then yields. */
  datatype ScanResult = ScanResult(code: int, symbols: seq<string>)

  /** The Callback the host installs; it records every string it is given. */
  class Listener {
    var received: seq<string>

    constructor ()
      ensures received == []
    {
      received := [];
    }

    /** Callback.getData. */
    method GetData(data: string)
      modifies this
      ensures received == old(received) + [data]
    {
      received := received + [data];
    }
  }

  /** The integers of an android.os.Bundle, by key. */
  type Bundle = map<string, int>

  const CameraIdKey: string := "cameraId"

  /** Bundle.getInt(key, fallback). */
  function GetInt(b: Bundle, key: string, fallback: int): (v: int) {
    if key in b then b[key] else fallback
  }

  /** The cameraId after onActivityCreated: the saved one, -1 if it was not saved. */
  function RestoredCameraId(saved: Option<Bundle>, current: int): (id: int)
    ensures saved.None? ==> id == current
    ensures saved.Some? && CameraIdKey !in saved.value ==> id == -1
  {
    if saved.Some? then GetInt(saved.value, CameraIdKey, -1) else current
  }

  /** Whatever the fragment saved, recreation restores it. */
  lemma SaveRestoreRoundTrip(b: Bundle, id: int, current: int)
    ensures RestoredCameraId(Some(b[CameraIdKey := id]), current) == id
  {
  }

  /** The symbols a frame's scan forwards: all of them, when scanImage did not return 0. */
  function Forwarded(r: ScanResult): (s: seq<string>)
    ensures r.code == 0 ==> s == []
    ensures r.code != 0 ==> s == r.symbols
  {
    if r.code != 0 then r.symbols else []
  }

  class CameraFragment {
    const surfaceHolder: Holder
    /** The fragment's own PreviewCallback and AutoFocusCallback. */
    const previewCallback: Callback
    const autoFocusCallback: Callback
    /** The configured zbar ImageScanner. */
    const scanner: Image -> ScanResult

    var cameraId: int
    var camera: Camera?
    var defaultParameters: Option<Parameters>
    var parameters: Option<Parameters>
    /** doAutoFocus is posted on the handler and not yet run. */
    var retryPending: bool
    var callback: Listener?

    /**
     * A held device is live, its pristine parameters are saved as the
     * defaults, and it runs with those defaults set to AUTO where supported;
     * a pending autofocus retry always has a device to run against.
     */
    ghost predicate Valid()
      reads this, camera
    {
      (camera != null ==>
        !camera.released &&
        defaultParameters == Some(camera.pristine) &&
        parameters == Some(AutoModes(camera.pristine)) &&
        camera.params == AutoModes(camera.pristine)) &&
      (retryPending ==> camera != null)
    }

    /** onCreateView: the surface holder, no camera, no callback. */
    constructor OnCreateView(surfaceHolder: Holder, previewCallback: Callback, autoFocusCallback: Callback,
                             scanner: Image -> ScanResult)
      ensures Valid()
      ensures this.surfaceHolder == surfaceHolder && this.scanner == scanner
      ensures this.previewCallback == previewCallback && this.autoFocusCallback == autoFocusCallback
      ensures cameraId == -1 && camera == null && defaultParameters == None && parameters == None
      ensures !retryPending && callback == null
    {
      this.surfaceHolder := surfaceHolder;
      this.previewCallback := previewCallback;
      this.autoFocusCallback := autoFocusCallback;
      this.scanner := scanner;
      cameraId := -1;
      camera := null;
      defaultParameters := None;
      parameters := None;
      retryPending := false;
      callback := null;
    }

    /** onActivityCreated: restores the saved cameraId, -1 if absent. */
    method OnActivityCreated(saved: Option<Bundle>)
      requires Valid()
      modifies this`cameraId
      ensures Valid()
      ensures cameraId == RestoredCameraId(saved, old(cameraId))
    {
      if saved.Some? {
        cameraId := GetInt(saved.value, CameraIdKey, -1);
      }
    }

    /** onSaveInstanceState: stores the cameraId, and nothing else, in the bundle. */
    method OnSaveInstanceState(b: Bundle) returns (saved: Bundle)
      ensures saved == b[CameraIdKey := cameraId]
      ensures RestoredCameraId(Some(saved), -1) == cameraId
    {
      saved := b[CameraIdKey := cameraId];
    }

    method SetCallback(value: Listener?)
      modifies this`callback
      ensures callback == value
    {
      callback := value;
    }

    /**
     * setupParameters, on the device just opened: the display orientation
     * is compensated for `rotation` and the sensor described by `info`,
     * the device's parameters are saved as the defaults before anything
     * changes them, and the AUTO modes are applied where supported.
     */
    method SetupParameters(rotation: int, info: CameraInfo)
      requires camera != null && !camera.released
      modifies this`defaultParameters, this`parameters, camera
      ensures defaultParameters == Some(old(camera.params))
      ensures parameters == Some(AutoModes(old(camera.params)))
      ensures camera.Snapshot() == old(camera.Snapshot()).(
        params := AutoModes(old(camera.params)),
        orientation := Compensate(info, RotationDegrees(rotation)))
    {
      camera.SetDisplayOrientation(Compensate(info, RotationDegrees(rotation)));
      defaultParameters := Some(camera.params);
      var p := camera.params;
      parameters := Some(AutoModes(p));
      camera.SetParameters(parameters.value);
    }

    /**
     * acquire: only with a camera selected and none held. Camera.open
     * returning null is logged; its RuntimeException propagates (`thrown`).
     * An opened device is configured and bound to the surface; an
     * IOException from binding skips starting the preview, installing the
     * frame callback and starting autofocus.
     */
    method Acquire(outcome: OpenOutcome, rotation: int, info: CameraInfo, ioError: bool)
      returns (thrown: bool)
      requires Valid()
      modifies this
      ensures Valid()
      ensures thrown <==> (old(cameraId) >= 0 && old(camera) == null && outcome.Threw?)
      ensures old(cameraId) < 0 || old(camera) != null || !outcome.Opened? ==> unchanged(this)
      ensures cameraId == old(cameraId) && callback == old(callback) && retryPending == old(retryPending)
      ensures old(cameraId) >= 0 && old(camera) == null && outcome.Opened? ==>
        fresh(camera) && camera.pristine == outcome.pristine &&
        defaultParameters == Some(outcome.pristine) &&
        parameters == Some(AutoModes(outcome.pristine)) &&
        camera.Snapshot() == CameraState(
          AutoModes(outcome.pristine),
          Compensate(info, RotationDegrees(rotation)),
          if ioError then None else Some(surfaceHolder),
          !ioError,
          if ioError then None else Some(previewCallback),
          !ioError,
          if ioError then None else Some(autoFocusCallback),
          false)
    {
      thrown := false;
      if cameraId >= 0 {
        if camera == null {
          if outcome.Threw? {
            return true;
          }
          if outcome.Opened? {
            var c := new Camera.Open(outcome.pristine);
            camera := c;
            SetupParameters(rotation, info);
            var ok := camera.SetPreviewDisplay(Some(surfaceHolder), ioError);
            if ok {
              camera.StartPreview();
              camera.SetPreviewCallback(Some(previewCallback));
              camera.AutoFocus(Some(autoFocusCallback));
            }
          }
        }
      }
    }

    /**
     * release: with a device held, cancels the pending autofocus retry,
     * stops frame delivery and the preview, unbinds the surface (an
     * IOException there is logged), restores the saved defaults and
     * releases the device. Without a device it changes nothing.
     */
    method Release(ioError: bool)
      requires Valid()
      modifies this, camera
      ensures Valid()
      ensures old(camera) == null ==> unchanged(this)
      ensures camera == null && !retryPending
      ensures cameraId == old(cameraId) && callback == old(callback)
      ensures defaultParameters == old(defaultParameters) && parameters == old(parameters)
      ensures old(camera) != null ==>
        old(camera).released &&
        old(defaultParameters) == Some(old(camera).params) &&
        old(camera).params == old(camera).pristine &&
        !old(camera).previewing && old(camera).previewCallback == None &&
        old(camera).display == (if ioError then old(camera.display) else None)
    {
      if camera != null {
        retryPending := false;
        camera.SetPreviewCallback(None);
        camera.StopPreview();
        var _ := camera.SetPreviewDisplay(None, ioError);
        if defaultParameters.Some? {
          camera.SetParameters(defaultParameters.value);
        }
        camera.Release();
        camera := null;
      }
    }

    /**
     * setCameraId: a new value releases the current device, records the
     * value and acquires again (which does nothing for a negative value);
     * the same value changes nothing.
     */
    method SetCameraId(value: int, outcome: OpenOutcome, rotation: int, info: CameraInfo,
                       bindError: bool, unbindError: bool)
      returns (thrown: bool)
      requires Valid()
      modifies this, camera
      ensures Valid()
      ensures old(cameraId) == value ==> unchanged(this) && !thrown
      ensures old(cameraId) == value && camera != null ==> unchanged(camera)
      ensures old(cameraId) != value ==>
        cameraId == value && callback == old(callback) &&
        (old(camera) != null ==> old(camera).released) &&
        (value < 0 ==> camera == null && !thrown) &&
        (value >= 0 ==> thrown == outcome.Threw?) &&
        (old(camera) != null ==> old(camera).params == old(camera).pristine) &&
        (value >= 0 && outcome.Opened? ==>
          fresh(camera) && camera.pristine == outcome.pristine &&
          defaultParameters == Some(outcome.pristine) &&
          parameters == Some(AutoModes(outcome.pristine)) && !retryPending &&
          camera.Snapshot() == CameraState(
            AutoModes(outcome.pristine),
            Compensate(info, RotationDegrees(rotation)),
            if bindError then None else Some(surfaceHolder),
            !bindError,
            if bindError then None else Some(previewCallback),
            !bindError,
            if bindError then None else Some(autoFocusCallback),
            false)) &&
        (!(value >= 0 && outcome.Opened?) ==>
          camera == null && !retryPending &&
          defaultParameters == old(defaultParameters) && parameters == old(parameters))
    {
      thrown := false;
      if cameraId != value {
        Release(unbindError);
        cameraId := value;
        thrown := Acquire(outcome, rotation, info, bindError);
      }
    }

    /** onPause: releases the device. */
    method OnPause(ioError: bool)
      requires Valid()
      modifies this, camera
      ensures Valid()
      ensures old(camera) == null ==> unchanged(this)
      ensures camera == null && !retryPending
      ensures cameraId == old(cameraId) && callback == old(callback)
      ensures defaultParameters == old(defaultParameters) && parameters == old(parameters)
      ensures old(camera) != null ==>
        old(camera).released &&
        old(defaultParameters) == Some(old(camera).params) &&
        old(camera).params == old(camera).pristine &&
        !old(camera).previewing && old(camera).previewCallback == None &&
        old(camera).display == (if ioError then old(camera.display) else None)
    {
      Release(ioError);
    }

    /** onResume: acquires the device of the stored cameraId. */
    method OnResume(outcome: OpenOutcome, rotation: int, info: CameraInfo, ioError: bool)
      returns (thrown: bool)
      requires Valid()
      modifies this
      ensures Valid()
      ensures thrown <==> (old(cameraId) >= 0 && old(camera) == null && outcome.Threw?)
      ensures old(cameraId) < 0 || old(camera) != null || !outcome.Opened? ==> unchanged(this)
      ensures cameraId == old(cameraId) && callback == old(callback) && retryPending == old(retryPending)
      ensures old(cameraId) >= 0 && old(camera) == null && outcome.Opened? ==>
        fresh(camera) && camera.pristine == outcome.pristine &&
        defaultParameters == Some(outcome.pristine) &&
        parameters == Some(AutoModes(outcome.pristine)) &&
        camera.Snapshot() == CameraState(
          AutoModes(outcome.pristine),
          Compensate(info, RotationDegrees(rotation)),
          if ioError then None else Some(surfaceHolder),
          !ioError,
          if ioError then None else Some(previewCallback),
          !ioError,
          if ioError then None else Some(autoFocusCallback),
          false)
    {
      thrown := Acquire(outcome, rotation, info, ioError);
    }

    /**
     * surfaceChanged: with a device held, frame delivery and the preview
     * are stopped, the device is bound to the new surface and both are
     * started again, with autofocus. An IOException from binding ends the
     * attempt with the preview stopped and no frame callback (logged).
     */
    method SurfaceChanged(h: Holder, ioError: bool)
      requires Valid()
      modifies camera
      ensures Valid()
      ensures camera != null ==>
        camera.Snapshot() == old(camera.Snapshot()).(
          display := if ioError then old(camera.display) else Some(h),
          previewing := !ioError,
          previewCallback := if ioError then None else Some(previewCallback),
          focusing := !ioError,
          focusCallback := if ioError then old(camera.focusCallback) else Some(autoFocusCallback))
    {
      if camera != null {
        camera.SetPreviewCallback(None);
        camera.StopPreview();
        var ok := camera.SetPreviewDisplay(Some(h), ioError);
        if ok {
          camera.StartPreview();
          camera.SetPreviewCallback(Some(previewCallback));
          camera.AutoFocus(Some(autoFocusCallback));
        }
      }
    }

    /**
     * surfaceDestroyed: cancels the autofocus retry, stops frame delivery
     * and the preview. The device stays held.
     */
    method SurfaceDestroyed()
      requires Valid()
      modifies this`retryPending, camera
      ensures Valid()
      ensures camera != null ==>
        !retryPending && !camera.released &&
        camera.Snapshot() == old(camera.Snapshot()).(previewCallback := None, previewing := false, focusing := false)
    {
      if camera != null {
        retryPending := false;
        camera.SetPreviewCallback(None);
        camera.StopPreview();
      }
    }

    /**
     * autoFocusCallback.onAutoFocus: the driver reports the end of an
     * autofocus request on the held device, and a retry is posted.
     */
    method OnAutoFocus(success: bool)
      requires Valid() && camera != null && camera.focusing && camera.focusCallback == Some(autoFocusCallback)
      modifies this`retryPending, camera
      ensures Valid()
      ensures retryPending
      ensures camera.Snapshot() == old(camera.Snapshot()).(focusing := false)
    {
      camera.CompleteAutoFocus();
      retryPending := true;
    }

    /**
     * doAutoFocus.run, once the handler's delay has passed: a new autofocus
     * request. Valid() guarantees the device it dereferences is held.
     */
    method RunAutoFocusRetry()
      requires Valid() && retryPending
      modifies this`retryPending, camera
      ensures Valid()
      ensures !retryPending && camera != null
      ensures camera.Snapshot() == old(camera.Snapshot()).(focusing := true, focusCallback := Some(autoFocusCallback))
    {
      retryPending := false;
      camera.AutoFocus(Some(autoFocusCallback));
    }

    /**
     * previewCallback.onPreviewFrame: the frame, at the preview size of the
     * device delivering it, is scanned as a Y800 image; when scanImage does
     * not return 0 and a callback is set, the callback receives every
     * decoded symbol once, in the symbol set's order.
     */
    method OnPreviewFrame(data: seq<bv8>, cam: Camera)
      modifies callback
      ensures callback != null ==>
        callback.received ==
          old(callback.received) +
          Forwarded(scanner(Image(cam.params.previewSize.width, cam.params.previewSize.height, "Y800", data)))
    {
      var size := cam.params.previewSize;
      var barcode := Image(size.width, size.height, "Y800", data);
      var result := scanner(barcode);
      if result.code != 0 && callback != null {
        var syms := result.symbols;
        for i := 0 to |syms|
          invariant callback.received == old(callback.received) + syms[..i]
        {
          callback.GetData(syms[i]);
        }
      }
    }
  }
}
