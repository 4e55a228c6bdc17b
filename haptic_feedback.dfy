/**
 * HapticFeedbackType.kt and HapticFeedbackManager.kt: the feedback kinds, the
 * disabled and the real manager, and the table that turns a kind, the API
 * level and the vibrator's abilities into one platform action. The action is
 * returned instead of being performed.
 */
module HapticFeedback {
  import BuildVersion

  datatype HapticFeedbackType = TabClick | Navigation | ScrollToTop | Action | RefreshThreshold | Selection

  /** The vibrator service the manager looked up when it was created, if there is one. */
  datatype VibratorInfo = NoVibrator | Vibrator(supportsThud: bool)

  datatype PredefinedEffect = EffectTick | EffectClick | EffectHeavyClick

  /** Compose's own `HapticFeedbackType`s the fallbacks use. */
  datatype ComposeFeedback = LongPress | TextHandleMove

  datatype PlatformAction =
    | NoAction
    | VibratePredefined(effect: PredefinedEffect)
    | VibrateThud
    | PerformFeedback(feedback: ComposeFeedback)

  function PlayPredefined(effect: PredefinedEffect, sdkInt: int, vibrator: VibratorInfo): PlatformAction {
    if sdkInt >= BuildVersion.Q && vibrator.Vibrator? then VibratePredefined(effect) else NoAction
  }

  function PlayPrimitiveThud(sdkInt: int, vibrator: VibratorInfo): PlatformAction {
    if sdkInt >= BuildVersion.R && vibrator.Vibrator? && vibrator.supportsThud then VibrateThud
    else PerformFeedback(LongPress)
  }

  function PlayThud(sdkInt: int, vibrator: VibratorInfo): PlatformAction {
    if sdkInt >= BuildVersion.S then PlayPrimitiveThud(sdkInt, vibrator) else PerformFeedback(LongPress)
  }

  function PlayTick(sdkInt: int, vibrator: VibratorInfo): PlatformAction {
    if sdkInt >= BuildVersion.Q then PlayPredefined(EffectTick, sdkInt, vibrator) else PerformFeedback(TextHandleMove)
  }

  function PlayClick(sdkInt: int, vibrator: VibratorInfo): PlatformAction {
    if sdkInt >= BuildVersion.Q then PlayPredefined(EffectClick, sdkInt, vibrator) else PerformFeedback(LongPress)
  }

  function PlayHeavyClick(sdkInt: int, vibrator: VibratorInfo): PlatformAction {
    if sdkInt >= BuildVersion.Q then PlayPredefined(EffectHeavyClick, sdkInt, vibrator) else PerformFeedback(LongPress)
  }

  /** The predefined effect a non-tab kind asks for. */
  function EffectFor(kind: HapticFeedbackType): PredefinedEffect
    requires kind != TabClick
  {
    match kind
    case Navigation => EffectTick
    case Selection => EffectTick
    case ScrollToTop => EffectClick
    case Action => EffectClick
    case RefreshThreshold => EffectHeavyClick
  }

  /**
   * The action of an enabled real manager. A tab click plays the THUD
   * primitive only from Android 12 on with a vibrator that supports it, and a
   * long press otherwise. Every other kind plays its predefined effect from
   * Android 10 on (nothing at all without a vibrator) and a Compose fallback
   * before: a text-handle move for ticks, a long press for the rest.
   */
  function Dispatch(kind: HapticFeedbackType, sdkInt: int, vibrator: VibratorInfo): (action: PlatformAction)
    ensures kind == TabClick ==>
      action == if sdkInt >= BuildVersion.S && vibrator == Vibrator(true) then VibrateThud else PerformFeedback(LongPress)
    ensures kind != TabClick && sdkInt >= BuildVersion.Q ==>
      action == if vibrator.Vibrator? then VibratePredefined(EffectFor(kind)) else NoAction
    ensures kind != TabClick && sdkInt < BuildVersion.Q ==>
      action == PerformFeedback(if EffectFor(kind) == EffectTick then TextHandleMove else LongPress)
    ensures action.VibratePredefined? || action == VibrateThud ==> vibrator.Vibrator?
  {
    match kind
    case TabClick => PlayThud(sdkInt, vibrator)
    case Navigation => PlayTick(sdkInt, vibrator)
    case ScrollToTop => PlayClick(sdkInt, vibrator)
    case Action => PlayClick(sdkInt, vibrator)
    case RefreshThreshold => PlayHeavyClick(sdkInt, vibrator)
    case Selection => PlayTick(sdkInt, vibrator)
  }

  class RealHapticFeedbackManager {
    const sdkInt: int
    const vibrator: VibratorInfo
    var enabled: bool

    constructor (sdkInt: int, vibrator: VibratorInfo)
      ensures this.sdkInt == sdkInt && this.vibrator == vibrator && enabled
    {
      this.sdkInt := sdkInt;
      this.vibrator := vibrator;
      enabled := true;
    }

    /** Nothing happens while disabled. */
    method PerformHaptic(kind: HapticFeedbackType) returns (action: PlatformAction)
      ensures action == if enabled then Dispatch(kind, sdkInt, vibrator) else NoAction
    {
      if !enabled {
        return NoAction;
      }
      action := Dispatch(kind, sdkInt, vibrator);
    }

    method SetEnabled(enabled: bool)
      modifies this
      ensures this.enabled == enabled
    {
      this.enabled := enabled;
    }

    function IsEnabled(): bool
      reads this
    {
      enabled
    }
  }

  /** The `HapticFeedbackManager` interface: the stateless disabled object, or a real manager. */
  datatype HapticFeedbackManager = Disabled | Real(manager: RealHapticFeedbackManager)


  method PerformHaptic(m: HapticFeedbackManager, kind: HapticFeedbackType) returns (action: PlatformAction)
    ensures m.Disabled? ==> action == NoAction
    ensures m.Real? ==> action == if m.manager.enabled then Dispatch(kind, m.manager.sdkInt, m.manager.vibrator) else NoAction
  {
    match m {
      case Disabled => action := NoAction;
      case Real(manager) => action := manager.PerformHaptic(kind);
    }
  }

  /** The disabled manager ignores the call. */
  method SetEnabled(m: HapticFeedbackManager, enabled: bool)
    modifies if m.Real? then {m.manager} else {}
    ensures m.Real? ==> m.manager.enabled == enabled
  {
    match m {
      case Disabled =>
      case Real(manager) => manager.SetEnabled(enabled);
    }
  }

  function IsEnabled(m: HapticFeedbackManager): (enabled: bool)
    reads if m.Real? then {m.manager} else {}
    ensures m.Disabled? ==> !enabled
    ensures m.Real? ==> enabled == m.manager.enabled
  {
    match m
    case Disabled => false
    case Real(manager) => manager.IsEnabled()
  }

  /** What `LocalHapticFeedbackManager` provides outside `WithHapticFeedbackManager`: a manager that is never enabled. */
  function LocalHapticFeedbackManagerDefault(): (m: HapticFeedbackManager)
    ensures m.Disabled? && !IsEnabled(m)
  {
    Disabled
  }

  /**
   * The composable `WithHapticFeedbackManager` and the manager it remembers.
   * The manager is created once, with the `enabled` of the first composition;
   * the `remember` is keyed on the view's haptic handle and context only.
   */
  class HapticHost {
    var manager: RealHapticFeedbackManager

    constructor (enabled: bool, sdkInt: int, vibrator: VibratorInfo)
      ensures fresh(manager) && manager.enabled == enabled
      ensures manager.sdkInt == sdkInt && manager.vibrator == vibrator
    {
      var created := new RealHapticFeedbackManager(sdkInt, vibrator);
      created.SetEnabled(enabled);
      manager := created;
    }

    function Provided(): HapticFeedbackManager
      reads this
    {
      Real(manager)
    }

    /** As written: recomposing with a new `enabled` returns the remembered manager and leaves its flag alone. */
    method Recompose(enabled: bool)
      ensures manager == old(manager) && manager.enabled == old(manager.enabled)
    {
    }

    /** As evidently intended: the flag follows `enabled` on every composition. */
    method RecomposeSyncingFlag(enabled: bool)
      modifies manager
      ensures manager == old(manager) && manager.enabled == enabled
      ensures IsEnabled(Provided()) == enabled
    {
      manager.SetEnabled(enabled);
    }
  }

  /**
   * The input that shows the difference: composed enabled, then recomposed
   * disabled, a tab click on Android 12 with a THUD-capable vibrator still
   * vibrates; with the flag kept in sync it does nothing.
   */
  method DisablingAfterCreation(sdkInt: int) returns (asWritten: PlatformAction, synced: PlatformAction)
    requires sdkInt >= BuildVersion.S
    ensures asWritten == VibrateThud
    ensures synced == NoAction
  {
    var host := new HapticHost(true, sdkInt, Vibrator(true));
    host.Recompose(false);
    asWritten := PerformHaptic(host.Provided(), TabClick);

    var fixedHost := new HapticHost(true, sdkInt, Vibrator(true));
    fixedHost.RecomposeSyncingFlag(false);
    synced := PerformHaptic(fixedHost.Provided(), TabClick);
  }
}
