/** The optional value used wherever the source holds a nullable reference. */
module Wrappers {
  datatype Option<+T> = None | Some(value: T)
}

/**
 * The parts of the legacy Android camera API that the barcode scanner uses,
 * modelled as abstract state. The driver itself is not modelled: whatever
 * the driver decides (whether a device opens, whether binding a surface
 * raises an IOException) is handed to the methods below as a parameter.
 */
module Android {
  import opened Wrappers

  /** Camera.Size: a preview resolution. */
  datatype Size = Size(width: int, height: int)

  /** Camera.CameraInfo.facing: CAMERA_FACING_BACK or CAMERA_FACING_FRONT. */
  datatype Facing = Back | Front

  /** Camera.CameraInfo: facing and mounting angle of the sensor in degrees. */
  datatype CameraInfo = CameraInfo(facing: Facing, orientation: int)

  /** A SurfaceHolder, identified only by its identity. */
  datatype Holder = Holder(id: int)

  /** A PreviewCallback or AutoFocusCallback object, identified only by its identity. */
  datatype Callback = Callback(id: int)

  /** Surface.ROTATION_0 .. Surface.ROTATION_270. */
  const Rotation0: int := 0
  const Rotation90: int := 1
  const Rotation180: int := 2
  const Rotation270: int := 3

  /** Camera.Parameters.FOCUS_MODE_AUTO and FLASH_MODE_AUTO. */
  const FocusModeAuto: string := "auto"
  const FlashModeAuto: string := "auto"

  /**
   * Camera.Parameters, restricted to what the scanner reads or writes.
   * The platform returns null from getSupportedFlashModes() when the
   * device has no flash setting, hence the Option.
   */
  datatype Parameters = Parameters(
    previewSize: Size,
    supportedPreviewSizes: seq<Size>,
    focusMode: string,
    supportedFocusModes: seq<string>,
    flashMode: string,
    supportedFlashModes: Option<seq<string>>)

  /**
   * What Camera.open gives back: a device whose parameters start as
   * `pristine`, null, or a RuntimeException.
   */
  datatype OpenOutcome = Opened(pristine: Parameters) | ReturnedNull | Threw

  /** Everything a Camera handle holds that its methods change. */
  datatype CameraState = CameraState(
    params: Parameters,
    orientation: int,
    display: Option<Holder>,
    previewing: bool,
    previewCallback: Option<Callback>,
    focusing: bool,
    focusCallback: Option<Callback>,
    released: bool)

  /** An open android.hardware.Camera handle. */
  class Camera {
    /** The parameters the device had when it was opened. */
    const pristine: Parameters
    var params: Parameters
    /** The value last passed to setDisplayOrientation. */
    var orientation: int
    /** The surface set by setPreviewDisplay, if any. */
    var display: Option<Holder>
    var previewing: bool
    var previewCallback: Option<Callback>
    /** An autofocus request is in flight, reporting to focusCallback. */
    var focusing: bool
    var focusCallback: Option<Callback>
    var released: bool

    function Snapshot(): (s: CameraState)
      reads this
    {
      CameraState(params, orientation, display, previewing, previewCallback, focusing, focusCallback, released)
    }

    /** Camera.open succeeding: a fresh handle in its pristine state. */
    constructor Open(p: Parameters)
      ensures pristine == p && params == p
      ensures orientation == 0 && display == None && !previewing
      ensures previewCallback == None && !focusing && focusCallback == None
      ensures !released
    {
      pristine := p;
      params := p;
      orientation := 0;
      display := None;
      previewing := false;
      previewCallback := None;
      focusing := false;
      focusCallback := None;
      released := false;
    }

    method SetParameters(p: Parameters)
      requires !released
      modifies this`params
      ensures params == p
    {
      params := p;
    }

    method SetDisplayOrientation(degrees: int)
      requires !released
      modifies this`orientation
      ensures orientation == degrees
    {
      orientation := degrees;
    }

    /**
     * setPreviewDisplay; `ioError` is the driver's decision to raise an
     * IOException, in which case the binding stays as it was.
     */
    method SetPreviewDisplay(h: Option<Holder>, ioError: bool) returns (ok: bool)
      requires !released
      modifies this`display
      ensures ok == !ioError
      ensures display == if ok then h else old(display)
    {
      ok := !ioError;
      if ok {
        display := h;
      }
    }

    method StartPreview()
      requires !released
      modifies this`previewing
      ensures previewing
    {
      previewing := true;
    }

    /** stopPreview; harmless when no preview is running. */
    method StopPreview()
      requires !released
      modifies this`previewing, this`focusing
      ensures !previewing && !focusing
    {
      previewing := false;
      focusing := false;
    }

    method SetPreviewCallback(cb: Option<Callback>)
      requires !released
      modifies this`previewCallback
      ensures previewCallback == cb
    {
      previewCallback := cb;
    }

    method AutoFocus(cb: Option<Callback>)
      requires !released
      modifies this`focusing, this`focusCallback
      ensures focusing && focusCallback == cb
    {
      focusing := true;
      focusCallback := cb;
    }

    /** The driver delivering the autofocus result to its callback. */
    method CompleteAutoFocus()
      requires !released
      modifies this`focusing
      ensures !focusing
    {
      focusing := false;
    }

    /** release: the handle is dead and delivers nothing more. */
    method Release()
      requires !released
      modifies this`released, this`previewing, this`focusing, this`previewCallback
      ensures released && !previewing && !focusing && previewCallback == None
    {
      released := true;
      previewing := false;
      focusing := false;
      previewCallback := None;
    }
  }
}
