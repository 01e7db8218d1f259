# Barcode scanner camera core, modelled in Dafny

The Android barcode scanner keeps a camera open while its fragment is in
the foreground and shows the camera's live preview on a surface. It passes
every preview frame to the zbar decoder and reports each decoded symbol to
a callback. This project models that camera core in Dafny and proves
properties of the model:

- `Android` (android.dfy): the parts of the legacy `android.hardware.Camera`
  API that the core uses. They are abstract state: `Size`, `Parameters`,
  `CameraInfo` and the `Camera` handle class. The handle records its
  parameters, display orientation, bound surface, preview and callbacks.
  Whatever the driver decides is an explicit parameter (`OpenOutcome` for
  `Camera.open`, `ioError` for `setPreviewDisplay`).
- `Orientation` (orientation.dfy): the display-orientation compensation,
  which the source writes out three times. It is one pure function with
  range, formula and characterisation lemmas. Java's truncating `%` is
  modelled explicitly.
- `Modes` (modes.dfy): focus mode AUTO and flash mode AUTO, each set only
  when the device supports it.
- `PreviewSize` (preview_size.dfy): `getOptimalPreviewSize`. Its two loops
  are a method, proved against a declarative definition of the optimal
  index. The definition covers the ratio filter, the nearest height, the
  fallback pass and the first-wins tie-break.
- `PreviewView` (preview_view.dfy): the `CameraPreview` view class.
- `Fragment` (camera_fragment.dfy): the `CameraFragment` session class, the
  callback it reports to, and the per-frame scan.
- `Fragment2` (camera_fragment2.dfy): the `CameraFragment2` variant. It
  carries parameters over from one release to the next acquire.

The model follows the code, including these behaviours a reader might not expect:
- `CameraFragment2.acquire` does not check whether a device is already held.
  A successful open replaces the held handle.
- `CameraFragment2.release` throws a NullPointerException if no defaults
  were ever captured.
- `getOptimalPreviewSize` returns null for a missing or empty list. It does
  not report a failure.
- The scanning core forwards every symbol of every frame; only the host's
  getData skips a payload equal to the text on screen.
- `CameraFragment.onActivityCreated` can restore `-1` while a device is
  held, because `setCameraId` may already have opened one. So the model
  does not claim that a held device never sits under the `-1` id.

## Model

| member | source | states |
|---|---|---|
| Orientation.RotationDegrees | app/src/main/java/diy/barcode/CameraPreview.java:102-116 | ROTATION_0..ROTATION_270 map to 90 times the constant; any other value leaves 0; the result is always 0, 90, 180 or 270 |
| Orientation.JavaRem360 | app/src/main/java/diy/barcode/CameraPreview.java:119-123 | Java's `% 360`: magnitude below 360, the dividend's sign, and a multiple of 360 away from the dividend |
| Orientation.Compensate | app/src/main/java/diy/barcode/CameraPreview.java:117-124 | front-facing: always in [0,360); back-facing: in [0,360) whenever o - d + 360 is not negative |
| Orientation.CompensateInRange | app/src/main/java/diy/barcode/CameraFragment.java:252-278 | for every display rotation and every mounting angle in [0,360), the orientation passed to setDisplayOrientation is in [0,360) |
| Orientation.CompensateFormula | app/src/main/java/diy/barcode/CameraFragment2.java:87-93 | with valid angles, back-facing gives (o - d + 360) mod 360 and front-facing gives (360 - (o + d) mod 360) mod 360 |
| Orientation.CompensateBackCharacterised | app/src/main/java/diy/barcode/CameraPreview.java:122-124 | back-facing: x is the result iff x + d is the mounting angle modulo 360, so the result is the only angle that undoes the rotation |
| Orientation.CompensateFrontCharacterised | app/src/main/java/diy/barcode/CameraPreview.java:118-121 | front-facing (mirrored): x is the result iff x + o + d is 0 modulo 360 |
| Modes.AutoModes | app/src/main/java/diy/barcode/CameraFragment.java:284-292 | focus becomes AUTO iff AUTO is a supported focus mode, flash becomes AUTO iff a supported flash mode; otherwise each mode and every other parameter stays as it was |
| Modes.AutoModesIdempotent | app/src/main/java/diy/barcode/CameraFragment2.java:99-107 | applying the AUTO set-up to its own result changes nothing |
| Modes.AutoModesAsWritten | app/src/main/java/diy/barcode/CameraFragment.java:290-292 | the set-up as written fails (NullPointerException) exactly when getSupportedFlashModes() is null, and agrees with AutoModes otherwise |
| Modes.AutoModesAsWrittenFailsWithoutFlash | app/src/main/java/diy/barcode/CameraFragment2.java:105-107 | some parameter set (no flash setting) makes the set-up as written fail |
| PreviewSize.GetOptimalPreviewSize | app/src/main/java/diy/barcode/CameraPreview.java:140-171 | null for a null list; for a list, a result iff it is non-empty; the result is the list's element at the unique optimal index: the first height-closest among ratio matches if any, else among all |
| PreviewSize.OptimalUnique | app/src/main/java/diy/barcode/CameraPreview.java:154-163 | at most one index is optimal, so the selection is deterministic and a tie is resolved in list order |
| PreviewSize.FirstClosestExists | app/src/main/java/diy/barcode/CameraPreview.java:150-158 | whenever some size in a prefix is a candidate, the prefix has a first height-closest candidate |
| PreviewSize.OptimalExists | app/src/main/java/diy/barcode/CameraPreview.java:160-168 | every non-empty list has an optimal index, because the fallback pass considers every size |
| PreviewSize.TieGoesToFirst | app/src/main/java/diy/barcode/CameraPreview.java:154 | two sizes that both match the ratio at equal height distance: the first is optimal and the second is not |
| PreviewSize.PortraitFallsBack | app/src/main/java/diy/barcode/CameraPreview.java:144-168 | 640x480, 1280x720, 1920x1080 for a 1080x1920 view: none matches the ratio and the fallback picks 1920x1080 |
| PreviewView.CameraPreview.constructor | app/src/main/java/diy/barcode/CameraPreview.java:27-35 | a new view holds no camera, id -1, no sizes, no callbacks, degrees 0 |
| PreviewView.CameraPreview.Open | app/src/main/java/diy/barcode/CameraPreview.java:55-75 | the id is recorded even if open throws; null stores no camera; an opened device resets previewSize and degrees, installs the callbacks and the supported sizes and registers the holder |
| PreviewView.CameraPreview.Close | app/src/main/java/diy/barcode/CameraPreview.java:77-92 | afterwards the view is closed (id -1, no camera, sizes/callbacks/holder null, degrees 0) and any device it held is released; closing a closed view changes nothing |
| PreviewView.CameraPreview.SetCameraDisplayOrientation | app/src/main/java/diy/barcode/CameraPreview.java:98-126 | degrees becomes the compensated angle for the display rotation and sensor, in [0,360) for a valid mounting angle |
| PreviewView.CameraPreview.OnMeasure | app/src/main/java/diy/barcode/CameraPreview.java:128-138 | previewSize changes only when supported sizes are known, and then becomes the optimal size for the measured width and height |
| PreviewView.CameraPreview.SurfaceCreated | app/src/main/java/diy/barcode/CameraPreview.java:173-182 | with a device, only its surface binding changes, and not when binding raises an IOException |
| PreviewView.CameraPreview.SurfaceDestroyed | app/src/main/java/diy/barcode/CameraPreview.java:184-194 | with a device, preview stops and the surface is unbound (kept on IOException); nothing else changes and the device stays open |
| PreviewView.CameraPreview.SurfaceChanged | app/src/main/java/diy/barcode/CameraPreview.java:196-231 | the corrected surfaceChanged: stops the preview and, given a preview size, applies it to the device, then rebinds and restarts with the view's callbacks unless binding fails |
| PreviewView.CameraPreview.SurfaceChangedAsWritten | app/src/main/java/diy/barcode/CameraPreview.java:215-226 | surfaceChanged as written: the same restart, but the device's parameters never change |
| Fragment.Listener.GetData | app/src/main/java/diy/barcode/CameraFragment.java:34-36 | the callback receives one more string, appended after those it had |
| Fragment.RestoredCameraId | app/src/main/java/diy/barcode/CameraFragment.java:123-125 | no saved state keeps the current id; saved state without the key gives -1 |
| Fragment.SaveRestoreRoundTrip | app/src/main/java/diy/barcode/CameraFragment.java:129-133 | the id saved by onSaveInstanceState is the id onActivityCreated restores |
| Fragment.Forwarded | app/src/main/java/diy/barcode/CameraFragment.java:70-76 | a scan result of 0 forwards nothing; otherwise every symbol in order |
| Fragment.CameraFragment.OnCreateView | app/src/main/java/diy/barcode/CameraFragment.java:98-117 | a new fragment: id -1, no camera, no defaults or parameters, no callback, no retry pending |
| Fragment.CameraFragment.OnActivityCreated | app/src/main/java/diy/barcode/CameraFragment.java:120-126 | cameraId becomes the restored id, nothing else changes |
| Fragment.CameraFragment.OnSaveInstanceState | app/src/main/java/diy/barcode/CameraFragment.java:129-133 | the bundle gains the cameraId under "cameraId", and restoring it gives the id back |
| Fragment.CameraFragment.SetCallback | app/src/main/java/diy/barcode/CameraFragment.java:199-201 | the callback becomes the given one |
| Fragment.CameraFragment.SetupParameters | app/src/main/java/diy/barcode/CameraFragment.java:250-296 | display orientation is the compensated angle; the defaults are the device's parameters from before any change; the device and `parameters` get the AUTO set-up; nothing else on the device changes |
| Fragment.CameraFragment.Acquire | app/src/main/java/diy/barcode/CameraFragment.java:203-227 | nothing changes for a negative id or a held device (no second open); open returning null changes nothing, throwing propagates; an opened device is configured, bound and, unless binding fails, previewing with frame callback and autofocus |
| Fragment.CameraFragment.Release | app/src/main/java/diy/barcode/CameraFragment.java:229-248 | no-op without a device; otherwise the retry is cancelled and the device is reset to its pristine defaults and released, ending unbound unless unbinding raises an IOException. Not previewing and no frame callback are facts about the released device's final state, which Camera.release also guarantees |
| Fragment.CameraFragment.SetCameraId | app/src/main/java/diy/barcode/CameraFragment.java:186-193 | the same id changes nothing; a new id releases the held device with its defaults restored and is recorded; for a non-negative id whose device opens, that device is configured, bound and, unless binding fails, previewing with frame callback and autofocus exactly as acquire leaves it; otherwise no device is held and `thrown` reports only a throwing open |
| Fragment.CameraFragment.OnPause | app/src/main/java/diy/barcode/CameraFragment.java:136-140 | no-op without a device; otherwise the retry is cancelled, preview and frame callback stopped, the pristine defaults re-applied and the device released; cameraId, callback, defaults and parameters stay as they were |
| Fragment.CameraFragment.OnResume | app/src/main/java/diy/barcode/CameraFragment.java:143-147 | acquire for the stored id: nothing changes for a negative id, a held device or an open that returns null or throws (`thrown` exactly for the throw); an opened device is configured, bound and, unless binding fails, previewing with frame callback and autofocus |
| Fragment.CameraFragment.SurfaceChanged | app/src/main/java/diy/barcode/CameraFragment.java:155-170 | no-op without a device; otherwise rebinds to the new surface and restarts preview, frame callback and autofocus, or stops with no frame callback when binding fails |
| Fragment.CameraFragment.SurfaceDestroyed | app/src/main/java/diy/barcode/CameraFragment.java:173-180 | with a device: the retry is cancelled, frame callback and preview stop, and the device stays held and live |
| Fragment.CameraFragment.OnAutoFocus | app/src/main/java/diy/barcode/CameraFragment.java:54-58 | the autofocus completion posts a retry |
| Fragment.CameraFragment.RunAutoFocusRetry | app/src/main/java/diy/barcode/CameraFragment.java:49-53 | the posted retry issues a new autofocus request on a device that is held (never a null dereference) |
| Fragment.CameraFragment.OnPreviewFrame | app/src/main/java/diy/barcode/CameraFragment.java:62-78 | the callback, if set, receives exactly the decoded symbols of the frame, in order, once each, and only when scanImage is non-zero |
| Fragment2.CameraFragment2.constructor | app/src/main/java/diy/barcode/CameraFragment2.java:29-46 | no camera and no parameters, orientation 0 |
| Fragment2.CameraFragment2.OnCreateView | app/src/main/java/diy/barcode/CameraFragment2.java:60-126 | a throwing open records nothing; otherwise no camera is held and cameraDegrees is the compensated angle, in [0,360) for a valid mounting angle; a device that opens leaves its parameters as defaults and the AUTO set-up as parameters, and that probe device itself is set to the AUTO set-up, never given an orientation, and released |
| Fragment2.CameraFragment2.Acquire | app/src/main/java/diy/barcode/CameraFragment2.java:140-151 | failures are swallowed: a throw keeps the held handle and null stores null; an opened device gets cameraDegrees, then the stored parameters and an autofocus request, or stops at the missing parameters |
| Fragment2.CameraFragment2.Release | app/src/main/java/diy/barcode/CameraFragment2.java:153-160 | no-op without a device; otherwise the device's parameters are snapshot first, then the defaults are restored and the device released, or with no defaults a NullPointerException leaves it held |
| Fragment2.CameraFragment2.OnActivityCreated | app/src/main/java/diy/barcode/CameraFragment2.java:129-132 | acquire: a throw keeps the held handle and null stores null; an opened device gets cameraDegrees, then the snapshot parameters and an autofocus request, or stops at the missing parameters |
| Fragment2.CameraFragment2.OnSaveInstanceState | app/src/main/java/diy/barcode/CameraFragment2.java:135-138 | release: no-op without a device; otherwise the device's parameters are snapshot, and then either the defaults are restored and the device released, or with no defaults a NullPointerException (`npe`) leaves it held and unchanged |
| Fragment2.CameraFragment2.SurfaceChanged | app/src/main/java/diy/barcode/CameraFragment2.java:170-193 | with no device it first tries acquire; a held device keeps its parameters, orientation and callbacks, its preview is stopped and, unless binding fails, rebound to the holder and restarted; an acquired device is in acquire's state, then rebound the same way; all failures are swallowed |

## Findings

| source | as written | input that shows it | evidently intended | confidence | as-written member | corrected member |
|---|---|---|---|---|---|---|
| app/src/main/java/diy/barcode/CameraFragment.java:290-291 | `flashModes.contains(...)` on the list from getSupportedFlashModes(), which the platform returns as null when the device has no flash setting (CameraFragment2.java:105-106 repeats it) | a camera whose supportedFlashModes is null, as most front cameras report: NullPointerException in setupParameters, uncaught in CameraFragment.acquire; in CameraFragment2 it aborts the probe before the device is released | treat a null list as "flash AUTO not supported" and leave the flash mode alone | not executed; medium-high (depends on the platform's documented null) | Modes.AutoModesAsWritten | Modes.AutoModes |
| app/src/main/java/diy/barcode/CameraPreview.java:217-223 | `parameters.setPreviewSize(...)` on the copy that getParameters() returns, which is never passed to setParameters | any surfaceChanged with a device and a preview size: the device's parameters, its preview size included, are unchanged | `camera.setParameters(parameters)` after setting the preview size, so the selected size reaches the device | not executed; high | PreviewView.CameraPreview.SurfaceChangedAsWritten | PreviewView.CameraPreview.SurfaceChanged |

## Left out

- Logging everywhere, and `CameraFragment.onCreate` and `surfaceCreated`, which only log.
- `CameraFragment2.surfaceCreated` and `surfaceDestroyed`: their bodies are empty.
- The zbar `ImageScanner`: its configuration and internals, and `System.loadLibrary`. These are native code. The scanner is a function-valued constant, `scanner: Image -> ScanResult`, fixed when the fragment is created.
- The timing of `Handler.postDelayed`. The model keeps only a flag that says a retry is pending, and that flag's cancellation. Threading of frame callbacks is also left out.
- The autofocus loop of `CameraFragment2` (CameraFragment2.java:33-44): its `handler` field is never assigned, so a completion report would dereference null. In this variant the model tracks only the autofocus request made by acquire.
- `CameraFragment2.save`: JPEG capture and file I/O.
- `MainActivity`: it is UI scaffolding. The `Callback` it implements is modelled as `Listener`, which records every string it receives.
- `newInstance`, the four `CameraPreview` constructors (kept as one) and the unused `Paint` field.
- The getters `getCameraId`, `getCallback` and `getCameraDisplayOrientation`. They return a field, so they carry no contract and have no row above.
- The window manager, `Camera.getCameraInfo` and `resolveSize`: their results are method parameters (`rotation`, `info`, the resolved width and height). What `getCameraInfo` does with an invalid id is not modelled.
- Fragment2.CameraFragment2.Acquire: the autofocus request at CameraFragment2.java:145 comes before any startPreview, and the platform accepts autoFocus only while previewing. The model records the request as in flight; a driver that rejects it would throw into the catch at line 147, which only logs.
- Driver failures other than these three: `Camera.open` returning null or throwing, and `setPreviewDisplay` raising an IOException. In particular, `setParameters` rejecting a parameter set and `startPreview` or `autoFocus` failing are not modelled; in `CameraFragment` they propagate out of acquire, release and the autofocus retry, but `surfaceChanged` catches them (CameraFragment.java:158-168); `CameraFragment2` catches them everywhere except in `release` (CameraFragment2.java:153-160), where a rejected `setParameters(defaultParameters)` propagates out of `release` and `onSaveInstanceState`. `getParameters()` is taken never to return null, so the null checks at CameraPreview.java:64 and 218 always pass.
- PreviewSize.GetOptimalPreviewSize: the double ratio and the 0.1 tolerance use exact rationals, so rounding at the tolerance boundary is not modelled. Division by zero is modelled with Java's infinity and NaN rules. `size.height - h` is unbounded, so 32-bit wrap-around of huge sizes is not modelled.
- Fragment.CameraFragment.SetupParameters: applies the corrected AUTO set-up (see Findings). For a device whose flash-mode list is null, the model leaves the flash mode alone; the source throws a NullPointerException at CameraFragment.java:291, before setParameters.
- Fragment.CameraFragment.Acquire: because SetupParameters uses the corrected set-up, `thrown` reports only a throwing Camera.open. In the source, the null-flash NullPointerException also propagates out of acquire and its callers Fragment.CameraFragment.SetCameraId and Fragment.CameraFragment.OnResume, leaving the opened device held but not previewing.
- Fragment.CameraFragment.SetCameraId: inherits the corrected AUTO set-up from acquire. For a new non-negative id whose device has a null flash-mode list, the contract says `thrown` is false and the device ends up previewing with the AUTO parameters. In the source, the NullPointerException at CameraFragment.java:291 propagates out of setCameraId (MainActivity.java:27 calls it with 0) and leaves the device held and oriented, but not previewing.
- Fragment.CameraFragment.OnResume: the same gap. For a device with a null flash-mode list, the source's NullPointerException propagates out of onResume and leaves the device held and oriented, but not previewing; the model reports no throw and a previewing device.
- Fragment2.CameraFragment2.OnCreateView: applies the corrected AUTO set-up. In the source, a null flash-mode list makes line 106 throw; the exception is caught, so the probe device is never given its parameters or released and stays in `camera`.
