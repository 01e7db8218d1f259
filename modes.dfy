/**
 * The focus and flash set-up shared by CameraFragment.setupParameters and
 * CameraFragment2.onCreateView: AUTO is chosen for each only where the
 * device lists it as supported.
 */
module Modes {
  import opened Wrappers
  import opened Android

  /** The device lists `mode` among its flash modes (a null list lists nothing). */
  predicate FlashSupported(p: Parameters, mode: string) {
    p.supportedFlashModes.Some? && mode in p.supportedFlashModes.value
  }

  /**
   * The parameters with focus mode AUTO if supported and flash mode AUTO if
   * supported; every other setting, and an unsupported mode, is left as it was.
   */
  function AutoModes(p: Parameters): (r: Parameters)
    ensures FocusModeAuto in p.supportedFocusModes ==> r.focusMode == FocusModeAuto
    ensures FocusModeAuto !in p.supportedFocusModes ==> r.focusMode == p.focusMode
    ensures FlashSupported(p, FlashModeAuto) ==> r.flashMode == FlashModeAuto
    ensures !FlashSupported(p, FlashModeAuto) ==> r.flashMode == p.flashMode
    ensures r.(focusMode := p.focusMode, flashMode := p.flashMode) == p
  {
    var q := if FocusModeAuto in p.supportedFocusModes then p.(focusMode := FocusModeAuto) else p;
    if FlashSupported(p, FlashModeAuto) then q.(flashMode := FlashModeAuto) else q
  }

  /** Configuring twice is configuring once. */
  lemma AutoModesIdempotent(p: Parameters)
    ensures AutoModes(AutoModes(p)) == AutoModes(p)
  {
  }

  /**
   * The set-up as the source writes it: it calls contains() on the list
   * returned by getSupportedFlashModes() without a null check, so a device
   * without a flash setting makes it raise a NullPointerException (None).
   */
  function AutoModesAsWritten(p: Parameters): (r: Option<Parameters>)
    ensures r.None? <==> p.supportedFlashModes.None?
    ensures r.Some? ==> r.value == AutoModes(p)
  {
    if p.supportedFlashModes.None? then None
    else Some(AutoModes(p))
  }

  /** A camera without a flash setting (typical of front cameras) shows the difference. */
  lemma AutoModesAsWrittenFailsWithoutFlash()
    ensures exists p: Parameters :: AutoModesAsWritten(p).None?
  {
    var p := Parameters(Size(640, 480), [Size(640, 480)], FocusModeAuto, [FocusModeAuto], "off", None);
    assert AutoModesAsWritten(p).None?;
  }
}
