/** The header of an open preset: pausing rotation around full screen, the Save button and the
    changes dot, the edit permission and when the header is shown. */
module MosaicItem {
  import opened Common
  import opened Forms
  import opened Sharing

  // ---------------------------------------------------------------------------------------------
  // Rotation around full screen

  /** The remembered flag (`isRotationBeforeFullScreen`) and the form's rotation flag. */
  datatype RotationMemory = RotationMemory(remembered: bool, enabled: bool)

  /** `onScreenRotationStopped` on a fullscreen-change signal: entering remembers the flag and
      stops rotation; leaving turns rotation back on when it was remembered as on. */
  function FullscreenChange(m: RotationMemory, inFullscreen: bool): (r: RotationMemory) {
    if inFullscreen then RotationMemory(m.enabled, false)
    else if m.remembered then m.(enabled := true)
    else m
  }

  /** Entering full screen always stops rotation and remembers whether it ran. */
  lemma EnterStopsRotation(m: RotationMemory)
    ensures !FullscreenChange(m, true).enabled
    ensures FullscreenChange(m, true).remembered == m.enabled
  {
  }

  /** Leaving full screen never turns rotation off, and turns it on exactly when remembered. */
  lemma ExitResumesRemembered(m: RotationMemory)
    ensures FullscreenChange(m, false).remembered == m.remembered
    ensures FullscreenChange(m, false).enabled <==> m.enabled || m.remembered
  {
  }

  /** One enter followed by one exit gives back the rotation flag held before entering. */
  lemma EnterExitRestores(m: RotationMemory)
    ensures FullscreenChange(FullscreenChange(m, true), false).enabled == m.enabled
  {
  }

  /** A second enter before the exit overwrites the remembered flag with false, so rotation that
      was running stays stopped after the exit: entering is not idempotent. */
  lemma DoubleEnterForgetsRotation(m: RotationMemory)
    requires m.enabled
    ensures FullscreenChange(FullscreenChange(m, true), false).enabled
    ensures !FullscreenChange(FullscreenChange(FullscreenChange(m, true), true), false).enabled
  {
  }

  class ItemHeader {
    const form: PresetForm
    var isRotationBeforeFullScreen: bool

    ghost function Memory(): (r: RotationMemory)
      reads this, form
    {
      RotationMemory(isRotationBeforeFullScreen, form.screenRotationEnabled)
    }

    /** The remembered flag starts as the current rotation flag. */
    constructor (form: PresetForm)
      ensures this.form == form
      ensures Memory() == RotationMemory(form.screenRotationEnabled, form.screenRotationEnabled)
    {
      this.form := form;
      isRotationBeforeFullScreen := form.screenRotationEnabled;
    }

    /** The fullscreen-change listener; `inFullscreen` stands for `document.fullscreenElement`. */
    method OnScreenRotationStopped(inFullscreen: bool)
      modifies this, form
      ensures Memory() == FullscreenChange(old(Memory()), inFullscreen)
      ensures form.rotationPeriod == old(form.rotationPeriod)
      ensures form.arbitraryRotationPeriod == old(form.arbitraryRotationPeriod)
    {
      if inFullscreen {
        isRotationBeforeFullScreen := form.screenRotationEnabled;
        form.screenRotationEnabled := false;
      } else if isRotationBeforeFullScreen {
        form.screenRotationEnabled := true;
      }
    }
  }

  /** Entering and leaving full screen through the listener restores the rotation flag. */
  method EnterExitThroughListener(h: ItemHeader)
    modifies h, h.form
    ensures h.form.screenRotationEnabled == old(h.form.screenRotationEnabled)
  {
    ghost var m := h.Memory();
    h.OnScreenRotationStopped(true);
    h.OnScreenRotationStopped(false);
    EnterExitRestores(m);
  }

  // ---------------------------------------------------------------------------------------------
  // Save enablement and the changes dot

  /** `hasChanges`: some field changed, or a custom filter is applied. */
  predicate HasChanges(changedFields: seq<string>, isCustomFilter: bool) {
    |changedFields| > 0 || isCustomFilter
  }

  /** `btnSaveEnable`, with JavaScript truthiness for the selected id and the name. */
  predicate SaveEnabled(selectedItemId: Option<string>, name: string, isValid: bool,
                        isCustomFilter: bool, changedFields: seq<string>) {
    StringTruthy(selectedItemId) && name != "" && isValid && (isCustomFilter || |changedFields| != 0)
  }

  /** Save is enabled exactly for a selected, named, valid preset that has changes, so an enabled
      Save always comes with the changes dot. */
  lemma SaveEnabledIffReadyWithChanges(selectedItemId: Option<string>, name: string, isValid: bool,
                                       isCustomFilter: bool, changedFields: seq<string>)
    ensures SaveEnabled(selectedItemId, name, isValid, isCustomFilter, changedFields) <==>
      && selectedItemId.Some? && selectedItemId.value != "" && name != "" && isValid
      && HasChanges(changedFields, isCustomFilter)
    ensures SaveEnabled(selectedItemId, name, isValid, isCustomFilter, changedFields) ==>
      HasChanges(changedFields, isCustomFilter)
  {
  }

  /** The share button of the header needs a selected preset and the edit permission. */
  predicate ShareButtonShown(selectedItemId: Option<string>, shareMode: Option<ShareMode>) {
    StringTruthy(selectedItemId) && CanEdit(shareMode)
  }

  lemma ShareButtonHiddenForViewers(selectedItemId: Option<string>)
    ensures !ShareButtonShown(selectedItemId, Some(View))
    ensures ShareButtonShown(selectedItemId, Some(Edit)) <==> StringTruthy(selectedItemId)
  {
  }

  // ---------------------------------------------------------------------------------------------
  // Header visibility

  /** The item header is shown outside full screen, or in full screen when pinned. */
  predicate HeaderShown(fullScreenMode: bool, pinHeader: bool) {
    !fullScreenMode || pinHeader
  }

  /** The over-header of the window is shown in full screen when the header is not pinned. */
  predicate OverHeaderShown(fullScreenMode: bool, pinHeader: bool) {
    fullScreenMode && !pinHeader
  }

  /** Exactly one of the two headers is shown. */
  lemma HeadersComplement(fullScreenMode: bool, pinHeader: bool)
    ensures HeaderShown(fullScreenMode, pinHeader) <==> !OverHeaderShown(fullScreenMode, pinHeader)
  {
  }
}
