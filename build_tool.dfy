/**
 * The launcher window (`BuildToolWindow`): the mapping between build targets
 * and platform names, the first-run default configuration, and what happens
 * when a platform button is clicked.
 */
module BuildTool {
  import opened Wrappers
  import opened BuildTargets
  import opened SettingsData

  /** The platform names the launcher knows how to switch to, in the order of its `switch`. */
  const SupportedNames: seq<string> :=
    ["Android", "iOS", "tvOS", "WebGL", "Standalone", "PS4", "PS5", "XboxOne"]

  /** A target the launcher has its own name for. */
  predicate IsSupportedTarget(t: BuildTarget) {
    !t.NoTarget? && !t.Other?
  }

  /**
   * `GetCurrentPlatformName`: the four desktop targets collapse to "Standalone";
   * every other target, listed or not, is named by its `ToString()`.
   */
  function CurrentPlatformName(active: BuildTarget): (name: string)
    ensures IsStandalone(active) ==> name == "Standalone"
    ensures !IsStandalone(active) ==> name == TargetName(active)
    ensures IsSupportedTarget(active) ==> name in SupportedNames
  {
    match active
    case Android => "Android"
    case iOS => "iOS"
    case tvOS => "tvOS"
    case WebGL => "WebGL"
    case StandaloneWindows => "Standalone"
    case StandaloneWindows64 => "Standalone"
    case StandaloneOSX => "Standalone"
    case StandaloneLinux64 => "Standalone"
    case PS4 => "PS4"
    case PS5 => "PS5"
    case XboxOne => "XboxOne"
    case _ => TargetName(active)
  }

  /** The name-to-target `switch` of `HandlePlatformClick`; `None` is its `default` branch. */
  function TargetForName(platform: string): (t: Option<BuildTarget>)
    ensures t.Some? <==> platform in SupportedNames
    ensures t.Some? ==> IsSupportedTarget(t.value)
  {
    if platform == "Android" then Some(Android)
    else if platform == "iOS" then Some(iOS)
    else if platform == "tvOS" then Some(tvOS)
    else if platform == "WebGL" then Some(WebGL)
    else if platform == "Standalone" then Some(StandaloneWindows64)
    else if platform == "PS4" then Some(PS4)
    else if platform == "PS5" then Some(PS5)
    else if platform == "XboxOne" then Some(XboxOne)
    else None
  }

  /** Every supported name maps to a target whose name is that name again. */
  lemma NameTargetRoundTrip(platform: string)
    requires platform in SupportedNames
    ensures TargetForName(platform).Some?
    ensures CurrentPlatformName(TargetForName(platform).value) == platform
  {
  }

  /**
   * Naming a target and mapping the name back: supported targets come back as
   * themselves, except that every desktop target comes back as StandaloneWindows64;
   * unsupported targets are rejected.
   */
  lemma TargetNameRoundTrip(t: BuildTarget)
    requires WellFormed(t)
    ensures !IsSupportedTarget(t) ==> TargetForName(CurrentPlatformName(t)) == None
    ensures IsSupportedTarget(t) && !IsStandalone(t) ==> TargetForName(CurrentPlatformName(t)) == Some(t)
    ensures IsStandalone(t) ==> TargetForName(CurrentPlatformName(t)) == Some(StandaloneWindows64)
  {
  }

  /** `LoadGlobalSettings` when no settings file exists: no symbols, and the current platform alone. */
  function DefaultGlobalSettings(active: BuildTarget): (s: GlobalBuildSettingsData)
    ensures s.scriptingSymbols == []
    ensures |s.targetPlatforms| == 1 && s.targetPlatforms[0] == CurrentPlatformName(active)
  {
    GlobalBuildSettingsData([], [CurrentPlatformName(active)])
  }

  /** The settings `LoadGlobalSettings` ends up with: the file's contents, or the default. */
  function LoadedGlobalSettings(active: BuildTarget, settingsFile: Option<GlobalBuildSettingsData>): (s: GlobalBuildSettingsData)
    ensures settingsFile.Some? ==> s == settingsFile.value
    ensures settingsFile.None? ==> s.scriptingSymbols == [] && s.targetPlatforms == [CurrentPlatformName(active)]
  {
    settingsFile.GetOr(DefaultGlobalSettings(active))
  }

  /** How a click on a platform button ends. */
  datatype ClickOutcome =
    | UnsupportedPlatform          // a warning is logged; nothing else happens
    | SwitchDeclined               // the dialog was shown and cancelled
    | OpenPlatformWindow(platform: string)

  /**
   * The observable effects of one click: its outcome, whether the
   * "Switch Platform?" dialog was shown, the target switch requested from the
   * editor (if any) and the active target afterwards.
   */
  datatype ClickResult = ClickResult(
    outcome: ClickOutcome,
    dialogShown: bool,
    switchRequested: Option<BuildTarget>,
    active: BuildTarget)

  /**
   * `HandlePlatformClick`. The editor's active target, the user's answer to the
   * dialog and whether `SwitchActiveBuildTarget` succeeds are inputs. The answer
   * is only consulted when the dialog is shown, and the switch's result is
   * ignored: the platform window opens after an accepted switch whether or not
   * the switch took effect.
   */
  function HandlePlatformClick(active: BuildTarget, platform: string, userAccepts: bool, switchSucceeds: bool): (r: ClickResult)
    ensures r.outcome.UnsupportedPlatform? <==> platform !in SupportedNames
    ensures r.outcome.UnsupportedPlatform? ==> !r.dialogShown && r.switchRequested == None
    ensures r.dialogShown <==> platform in SupportedNames && TargetForName(platform).value != active
    ensures r.outcome.SwitchDeclined? <==> r.dialogShown && !userAccepts
    ensures r.switchRequested.Some? <==> r.dialogShown && userAccepts
    ensures r.switchRequested.Some? ==> r.switchRequested == TargetForName(platform)
    ensures r.active == if r.switchRequested.Some? && switchSucceeds then r.switchRequested.value else active
    ensures r.outcome.OpenPlatformWindow? <==> platform in SupportedNames && !r.outcome.SwitchDeclined?
    ensures r.outcome.OpenPlatformWindow? ==> r.outcome.platform == platform
    ensures r.outcome.OpenPlatformWindow? && (switchSucceeds || !r.dialogShown) ==> Some(r.active) == TargetForName(platform)
  {
    match TargetForName(platform)
    case None => ClickResult(UnsupportedPlatform, false, None, active)
    case Some(target) =>
      if active != target then
        if userAccepts then
          ClickResult(OpenPlatformWindow(platform), true, Some(target), if switchSucceeds then target else active)
        else ClickResult(SwitchDeclined, true, None, active)
      else ClickResult(OpenPlatformWindow(platform), false, None, active)
  }

  /** A click on the platform that is already active opens its window straight away. */
  lemma ClickOnActivePlatformSkipsDialog(active: BuildTarget, userAccepts: bool, switchSucceeds: bool)
    requires IsSupportedTarget(active) && !IsStandalone(active)
    ensures HandlePlatformClick(active, CurrentPlatformName(active), userAccepts, switchSucceeds)
      == ClickResult(OpenPlatformWindow(CurrentPlatformName(active)), false, None, active)
  {
    TargetNameRoundTrip(active);
  }

  /**
   * On a desktop target other than 64-bit Windows, clicking "Standalone" asks
   * to switch, because "Standalone" maps to StandaloneWindows64. Accepting
   * requests that switch and opens the window even when the switch fails.
   */
  lemma StandaloneClickAsksOffWindows64(active: BuildTarget, userAccepts: bool, switchSucceeds: bool)
    requires IsStandalone(active) && active != StandaloneWindows64
    ensures HandlePlatformClick(active, "Standalone", userAccepts, switchSucceeds).dialogShown
    ensures userAccepts ==>
      HandlePlatformClick(active, "Standalone", userAccepts, switchSucceeds).switchRequested == Some(StandaloneWindows64) &&
      HandlePlatformClick(active, "Standalone", userAccepts, switchSucceeds).outcome == OpenPlatformWindow("Standalone") &&
      HandlePlatformClick(active, "Standalone", userAccepts, switchSucceeds).active ==
        (if switchSucceeds then StandaloneWindows64 else active)
    ensures !userAccepts ==> HandlePlatformClick(active, "Standalone", userAccepts, switchSucceeds).outcome == SwitchDeclined
  {
  }

  /**
   * On first run, the platform the launcher lists opens without a dialog when
   * the editor is on a supported non-desktop target or on StandaloneWindows64.
   * On the other three desktop targets it prompts instead
   * (`FirstRunStandaloneAsksOnOtherDesktops`).
   */
  lemma FirstRunPlatformOpensDirectly(active: BuildTarget, platform: string, userAccepts: bool, switchSucceeds: bool)
    requires IsSupportedTarget(active) && (IsStandalone(active) ==> active == StandaloneWindows64)
    requires platform in LoadedGlobalSettings(active, None).targetPlatforms
    ensures HandlePlatformClick(active, platform, userAccepts, switchSucceeds).outcome == OpenPlatformWindow(platform)
    ensures !HandlePlatformClick(active, platform, userAccepts, switchSucceeds).dialogShown
  {
    TargetNameRoundTrip(active);
  }

  /**
   * On first run on a desktop target other than 64-bit Windows, the launcher
   * lists "Standalone", and clicking it offers to switch to StandaloneWindows64.
   */
  lemma FirstRunStandaloneAsksOnOtherDesktops(active: BuildTarget, userAccepts: bool, switchSucceeds: bool)
    requires IsStandalone(active) && active != StandaloneWindows64
    ensures LoadedGlobalSettings(active, None).targetPlatforms == ["Standalone"]
    ensures HandlePlatformClick(active, "Standalone", userAccepts, switchSucceeds).dialogShown
  {
    StandaloneClickAsksOffWindows64(active, userAccepts, switchSucceeds);
  }

  /** The launcher window; `globalSettings` is `None` until `OnEnable` loads it. */
  class BuildToolWindow {
    var globalSettings: Option<GlobalBuildSettingsData>

    constructor ()
      ensures globalSettings == None
    {
      globalSettings := None;
    }

    /**
     * `LoadGlobalSettings`. `settingsFile` is the parsed settings file, `None`
     * when it does not exist. Returns the document written back to disk
     * (`SaveGlobalSettings`), which happens only when the default was created.
     */
    method LoadGlobalSettings(active: BuildTarget, settingsFile: Option<GlobalBuildSettingsData>)
      returns (saved: Option<GlobalBuildSettingsData>)
      modifies this
      ensures globalSettings == Some(LoadedGlobalSettings(active, settingsFile))
      ensures saved == if settingsFile.None? then globalSettings else None
    {
      if settingsFile.Some? {
        globalSettings := settingsFile;
        saved := None;
      } else {
        globalSettings := Some(DefaultGlobalSettings(active));
        saved := globalSettings;
      }
    }
  }
}
