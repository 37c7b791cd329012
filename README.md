# Custom Build Tool — a Dafny model of its list and lookup logic

The custom build tool is a Unity Editor plugin with three windows:

- **Launcher** (`BuildToolWindow`): shows one button per configured platform. A click may switch the editor's active build target after asking the user. Then it opens that platform's window.
- **Settings editor** (`GlobalBuildSettings`): edits the global document. The document holds the scripting-define symbols and the opted-in platforms.
- **Platform window** (`PlatformBuildWindow`): keeps one toggle per global symbol for a (platform, mode) pair. It reconciles its toggle list with the global symbols on load. It builds the `;`-separated define string from the enabled symbols.

The model has one module per source file, plus small shared modules:

- `Wrappers`: the `Option` type.
- `BuildTargets`: the part of Unity's `BuildTarget` enumeration the tool names, with its `ToString()`.
- `SettingsData`: the `GlobalBuildSettingsData` document.
- `BuildTool`: `BuildToolWindow.cs`. The target/name mapping, the first-run default and the click decision are functions. The window's `globalSettings` field is a class field.
- `GlobalSettings`: `GlobalBuildSettings.cs`. The LINQ platform list and the `List` operations are functions with lemmas. The window is a class whose button handlers reassign its `settings` field.
- `PlatformBuild`: `PlatformBuildWindow.cs`. `PlatformBuildData` is a class with two parallel lists. The window's sync and define-string building are methods with loops. Each method is proved against specification functions, and lemmas prove what those functions promise.

Things outside the model become parameters:

- the editor's active build target;
- the user's answer to the switch dialog;
- whether the editor's switch of the active target succeeds (the code ignores that result);
- the parsed contents of a settings file (`None` when the file does not exist).

The requested target switch and the define string handed to the host become outputs.

Three facts about the code shape the model:

- The platform document is two parallel lists (`symbols`, `enabled`), stored in a `.txt` file.
- The platform window does not read the host's define symbols on load.
- The global symbol list may hold duplicates, because "Add Symbol" always appends `""`. Only the platform list behaves as a set.

The global document (`GlobalBuildSettingsData`, GlobalBuildSettings.cs:8-12) is the datatype `SettingsData.GlobalBuildSettingsData`. Its two lists start empty, as the constant `SettingsData.EmptySettings`.

## Model

| member | source | states |
|---|---|---|
| BuildTargets.TargetName | custom-build-tool/Assets/Editor/CustomBuildTool/GlobalBuildSettings.cs:35 | `ToString()` of a target: an unlisted target prints its own identifier, a listed one prints one of the listed identifiers |
| BuildTool.CurrentPlatformName | custom-build-tool/Assets/Editor/CustomBuildTool/BuildToolWindow.cs:45-63 | the four desktop targets all map to "Standalone"; every other target maps to its `ToString()`; every supported target maps to one of the eight supported names |
| BuildTool.TargetForName | custom-build-tool/Assets/Editor/CustomBuildTool/BuildToolWindow.cs:94-109 | a name maps to a target exactly when it is one of the eight supported names, and the target is then a supported one |
| BuildTool.NameTargetRoundTrip | custom-build-tool/Assets/Editor/CustomBuildTool/BuildToolWindow.cs:47-105 | for each supported name, mapping to a target and naming it again gives the same name ("Standalone" goes through StandaloneWindows64) |
| BuildTool.TargetNameRoundTrip | custom-build-tool/Assets/Editor/CustomBuildTool/BuildToolWindow.cs:47-109 | naming a target and mapping the name back: supported non-desktop targets return as themselves, desktop targets return as StandaloneWindows64, and other targets are rejected as unsupported |
| BuildTool.DefaultGlobalSettings | custom-build-tool/Assets/Editor/CustomBuildTool/BuildToolWindow.cs:29-35 | the first-run config has no symbols and exactly one platform, the current platform name |
| BuildTool.LoadedGlobalSettings | custom-build-tool/Assets/Editor/CustomBuildTool/BuildToolWindow.cs:22-37 | the loaded config is the file's content when the file exists; otherwise it is the empty-symbol, current-platform default |
| BuildTool.HandlePlatformClick | custom-build-tool/Assets/Editor/CustomBuildTool/BuildToolWindow.cs:92-133 | an unsupported name aborts with no dialog and no switch; the dialog is shown exactly when the mapped target differs from the active one; declining aborts with the target unchanged; accepting requests a switch to the mapped target, and the target changes only if that switch succeeds; the window opens for every supported name that was not declined, even when the switch failed; when no dialog was shown or the switch succeeded, the open window's platform is the active target's |
| BuildTool.ClickOnActivePlatformSkipsDialog | custom-build-tool/Assets/Editor/CustomBuildTool/BuildToolWindow.cs:111-132 | clicking the platform of the already active (non-desktop) target opens its window with no dialog and no switch |
| BuildTool.StandaloneClickAsksOffWindows64 | custom-build-tool/Assets/Editor/CustomBuildTool/BuildToolWindow.cs:102-132 | on a desktop target other than 64-bit Windows, clicking "Standalone" shows the dialog; accepting requests StandaloneWindows64 and opens the window, and the target becomes StandaloneWindows64 only if the switch succeeds; declining aborts |
| BuildTool.FirstRunPlatformOpensDirectly | custom-build-tool/Assets/Editor/CustomBuildTool/BuildToolWindow.cs:29-35 | on a supported non-desktop target, or on StandaloneWindows64, the platform seeded on first run opens without a dialog when clicked (for the other three desktop targets see `BuildTool.FirstRunStandaloneAsksOnOtherDesktops`) |
| BuildTool.FirstRunStandaloneAsksOnOtherDesktops | custom-build-tool/Assets/Editor/CustomBuildTool/BuildToolWindow.cs:29-118 | on StandaloneWindows, StandaloneOSX or StandaloneLinux64, the first-run platform is "Standalone", and clicking it shows the dialog offering to switch to StandaloneWindows64 |
| BuildTool.BuildToolWindow.constructor | custom-build-tool/Assets/Editor/CustomBuildTool/BuildToolWindow.cs:8 | a new launcher has no settings loaded yet |
| BuildTool.BuildToolWindow.LoadGlobalSettings | custom-build-tool/Assets/Editor/CustomBuildTool/BuildToolWindow.cs:22-37 | the field holds the loaded config; the default is written back exactly when no file existed |
| GlobalSettings.IndexOf | custom-build-tool/Assets/Editor/CustomBuildTool/GlobalBuildSettings.cs:66 | -1 exactly when the value is absent; otherwise the first index that holds it |
| GlobalSettings.RemoveAt | custom-build-tool/Assets/Editor/CustomBuildTool/GlobalBuildSettings.cs:50 | removing at `i` leaves one entry fewer, and the same entries except one copy of the removed one |
| GlobalSettings.RemoveAtShifts | custom-build-tool/Assets/Editor/CustomBuildTool/GlobalBuildSettings.cs:50 | removing at `i` shortens the list by one; entries before `i` stay, and later entries move down one place in order |
| GlobalSettings.RemoveFirst | custom-build-tool/Assets/Editor/CustomBuildTool/GlobalBuildSettings.cs:66 | `List.Remove` shortens the list by one exactly when the value is present, and then removes one copy of it |
| GlobalSettings.RemoveFirstProperties | custom-build-tool/Assets/Editor/CustomBuildTool/GlobalBuildSettings.cs:65-66 | removing a platform deletes only its first occurrence and keeps the rest in order; it changes nothing when the platform is absent; a duplicate-free list stays duplicate-free and loses the platform |
| GlobalSettings.AddIfAbsent | custom-build-tool/Assets/Editor/CustomBuildTool/GlobalBuildSettings.cs:73-75 | the old list is kept as a prefix, the value ends up listed, and the list grows only when the value was absent |
| GlobalSettings.AddIfAbsentProperties | custom-build-tool/Assets/Editor/CustomBuildTool/GlobalBuildSettings.cs:72-76 | adding a present platform is a no-op; otherwise it goes at the end; the members are the old ones plus the new one; a duplicate-free list stays duplicate-free |
| GlobalSettings.NonEmpty | custom-build-tool/Assets/Editor/CustomBuildTool/GlobalBuildSettings.cs:105 | the filtered list holds no empty name and is no longer than the input |
| GlobalSettings.NonEmptyProperties | custom-build-tool/Assets/Editor/CustomBuildTool/GlobalBuildSettings.cs:105 | the filter keeps exactly the non-empty names, and changes nothing when no name is empty |
| GlobalSettings.Distinct | custom-build-tool/Assets/Editor/CustomBuildTool/GlobalBuildSettings.cs:106 | the de-duplicated list is no longer than the input and holds only input values |
| GlobalSettings.DistinctProperties | custom-build-tool/Assets/Editor/CustomBuildTool/GlobalBuildSettings.cs:106 | de-duplication keeps the same names, repeats none, and changes nothing on a duplicate-free list |
| GlobalSettings.DeclaredPlatformsDistinct | custom-build-tool/Assets/Editor/CustomBuildTool/GlobalBuildSettings.cs:91-101 | the eight declared names are pairwise different and non-empty |
| GlobalSettings.Cleaned | custom-build-tool/Assets/Editor/CustomBuildTool/GlobalBuildSettings.cs:104-107 | the `Where`/`Distinct` pipeline on any list gives no empty name and no duplicate, and keeps exactly the non-empty names |
| GlobalSettings.InstalledPlatforms | custom-build-tool/Assets/Editor/CustomBuildTool/GlobalBuildSettings.cs:88-108 | `GetInstalledPlatforms` has no empty name and no duplicate, and holds exactly the non-empty declared names |
| GlobalSettings.InstalledPlatformsFixed | custom-build-tool/Assets/Editor/CustomBuildTool/GlobalBuildSettings.cs:88-108 | the installed platforms are the eight declared names in declaration order, with no empty name and no duplicate; they are exactly the names the launcher can open |
| GlobalSettings.SeededPlatformsAsWritten | custom-build-tool/Assets/Editor/CustomBuildTool/GlobalBuildSettings.cs:34-38 | seeding happens only on an empty list, and adds the active target's `ToString()` only when that name is an installed platform; otherwise the list is unchanged |
| GlobalSettings.SeedingAsWrittenMissesStandalone | custom-build-tool/Assets/Editor/CustomBuildTool/GlobalBuildSettings.cs:34-38 | as written, an editor on StandaloneWindows64 seeds nothing, while the launcher seeds "Standalone" for it |
| GlobalSettings.SeededPlatforms | custom-build-tool/Assets/Editor/CustomBuildTool/GlobalBuildSettings.cs:33-38 | a non-empty platform list is left as it is |
| GlobalSettings.SeedingAgreesWithLauncher | custom-build-tool/Assets/Editor/CustomBuildTool/GlobalBuildSettings.cs:33-38 | corrected seeding selects the launcher's first-run platform for every supported target, and nothing for other targets |
| GlobalSettings.SeedingKeepsNoDuplicates | custom-build-tool/Assets/Editor/CustomBuildTool/GlobalBuildSettings.cs:34-38 | seeding never introduces a duplicate platform |
| GlobalSettings.GlobalBuildSettings.constructor | custom-build-tool/Assets/Editor/CustomBuildTool/GlobalBuildSettings.cs:15-19 | a new editor starts with empty settings |
| GlobalSettings.GlobalBuildSettings.OnEnable | custom-build-tool/Assets/Editor/CustomBuildTool/GlobalBuildSettings.cs:24-39 | the file's settings replace the current ones when the file exists; the available platforms become the installed list; the platform list is seeded (corrected, see Findings) |
| GlobalSettings.GlobalBuildSettings.EditSymbol | custom-build-tool/Assets/Editor/CustomBuildTool/GlobalBuildSettings.cs:48 | only symbol `i` changes, to the typed text |
| GlobalSettings.GlobalBuildSettings.RemoveSymbolAt | custom-build-tool/Assets/Editor/CustomBuildTool/GlobalBuildSettings.cs:49-52 | symbol `i` is removed; the list shortens by one; nothing else changes |
| GlobalSettings.GlobalBuildSettings.AddSymbol | custom-build-tool/Assets/Editor/CustomBuildTool/GlobalBuildSettings.cs:57 | an empty symbol is always appended, with no de-duplication |
| GlobalSettings.GlobalBuildSettings.RemovePlatform | custom-build-tool/Assets/Editor/CustomBuildTool/GlobalBuildSettings.cs:62-68 | the first occurrence of the platform is removed; a duplicate-free list stays duplicate-free and no longer holds it |
| GlobalSettings.GlobalBuildSettings.SelectPlatform | custom-build-tool/Assets/Editor/CustomBuildTool/GlobalBuildSettings.cs:71 | the popup sets the selected index and nothing else |
| GlobalSettings.GlobalBuildSettings.AddSelectedPlatform | custom-build-tool/Assets/Editor/CustomBuildTool/GlobalBuildSettings.cs:72-76 | the selected platform is appended unless already listed; a duplicate-free list stays duplicate-free |
| PlatformBuild.Lower | custom-build-tool/Assets/Editor/CustomBuildTool/PlatformBuildWindow.cs:21-22 | lowering keeps the length and lowers each character on its own |
| PlatformBuild.LowerIsNormal | custom-build-tool/Assets/Editor/CustomBuildTool/PlatformBuildWindow.cs:21-22 | a lowered name has no upper-case letter, and lowering it again changes nothing |
| PlatformBuild.SettingsFilePath | custom-build-tool/Assets/Editor/CustomBuildTool/PlatformBuildWindow.cs:32 | the settings path starts with the PlatformSettings directory, ends in ".txt", and is as long as the directory, platform, '-', mode and extension together |
| PlatformBuild.SettingsFilePathInjective | custom-build-tool/Assets/Editor/CustomBuildTool/PlatformBuildWindow.cs:32 | distinct (platform, mode) pairs get distinct files when platform names contain no '-' |
| PlatformBuild.MissingMembers | custom-build-tool/Assets/Editor/CustomBuildTool/PlatformBuildWindow.cs:85-90 | the appended symbols are exactly the global symbols not already listed, each appended once |
| PlatformBuild.KeptMembers | custom-build-tool/Assets/Editor/CustomBuildTool/PlatformBuildWindow.cs:93-98 | the removal loop keeps exactly the listed symbols that are global, and never grows the list |
| PlatformBuild.SyncInTwoPhases | custom-build-tool/Assets/Editor/CustomBuildTool/PlatformBuildWindow.cs:83-98 | appending the missing symbols as disabled and then dropping the stale ones gives the retained entries in their old order with their toggles, followed by the new symbols in global order, all off |
| PlatformBuild.SyncedSymbols | custom-build-tool/Assets/Editor/CustomBuildTool/PlatformBuildWindow.cs:83-98 | the reference result of the sync (retained entries in old order, then the missing global symbols in global order) lists a symbol exactly when it is a global symbol |
| PlatformBuild.SyncedFlags | custom-build-tool/Assets/Editor/CustomBuildTool/PlatformBuildWindow.cs:83-98 | the reference toggles after sync (retained toggles, then `false` for each new symbol) are exactly as many as the synced symbols |
| PlatformBuild.SyncPreservesToggles | custom-build-tool/Assets/Editor/CustomBuildTool/PlatformBuildWindow.cs:83-98 | read as a symbol-to-toggle map: a retained global symbol keeps its toggle, a new global symbol is off, and a non-global symbol is gone |
| PlatformBuild.SyncIdempotent | custom-build-tool/Assets/Editor/CustomBuildTool/PlatformBuildWindow.cs:83-98 | syncing again with the same global list changes neither list |
| PlatformBuild.SyncExample | custom-build-tool/Assets/Editor/CustomBuildTool/PlatformBuildWindow.cs:83-98 | global ["B","C"] against platform entries A on and B off gives ["B","C"], both off |
| PlatformBuild.EnabledSymbols | custom-build-tool/Assets/Editor/CustomBuildTool/PlatformBuildWindow.cs:73-75 | the collected symbols are no more than the listed ones and are all listed symbols |
| PlatformBuild.EnabledSymbolsMembers | custom-build-tool/Assets/Editor/CustomBuildTool/PlatformBuildWindow.cs:73-75 | a symbol is collected exactly when some entry for it is on; with every toggle off, nothing is collected |
| PlatformBuild.Join | custom-build-tool/Assets/Editor/CustomBuildTool/PlatformBuildWindow.cs:79 | joining no symbols gives ""; otherwise the string starts with the first symbol |
| PlatformBuild.SplitJoin | custom-build-tool/Assets/Editor/CustomBuildTool/PlatformBuildWindow.cs:79 | the define string splits on ';' back into the joined symbols when there is at least one and none contains ';' |
| PlatformBuild.JoinSplit | custom-build-tool/Assets/Editor/CustomBuildTool/PlatformBuildWindow.cs:79 | joining the ';'-pieces of any string gives that string back |
| PlatformBuild.NothingEnabledMeansNoDefines | custom-build-tool/Assets/Editor/CustomBuildTool/PlatformBuildWindow.cs:72-80 | with every toggle off, the define string is empty |
| PlatformBuild.DefinesAreGlobalSymbols | custom-build-tool/Assets/Editor/CustomBuildTool/PlatformBuildWindow.cs:72-98 | after sync, every symbol in the define string is a global symbol |
| PlatformBuild.PlatformBuildData.constructor | custom-build-tool/Assets/Editor/CustomBuildTool/PlatformBuildWindow.cs:7-10 | the document holds the given parallel lists |
| PlatformBuild.PlatformBuildWindow.Open | custom-build-tool/Assets/Editor/CustomBuildTool/PlatformBuildWindow.cs:19-24 | platform and mode are stored lowered; the path and lists are those `Init` sets up |
| PlatformBuild.PlatformBuildWindow.Init | custom-build-tool/Assets/Editor/CustomBuildTool/PlatformBuildWindow.cs:26-41 | the global document is the file's or empty; the path is built from platform and mode; the lists are the file's (or empty) reconciled against the global symbols |
| PlatformBuild.PlatformBuildWindow.SyncSymbolsWithGlobal | custom-build-tool/Assets/Editor/CustomBuildTool/PlatformBuildWindow.cs:83-98 | in place, the lists become the reconciled lists of the specification, and stay parallel |
| PlatformBuild.PlatformBuildWindow.AddMissingSymbols | custom-build-tool/Assets/Editor/CustomBuildTool/PlatformBuildWindow.cs:84-90 | each missing global symbol is appended, in global order, with a `false` toggle at the same index |
| PlatformBuild.PlatformBuildWindow.RemoveStaleSymbols | custom-build-tool/Assets/Editor/CustomBuildTool/PlatformBuildWindow.cs:92-98 | each entry whose symbol is not global is removed from both lists at the same index; the rest keep their order |
| PlatformBuild.PlatformBuildWindow.SetEnabled | custom-build-tool/Assets/Editor/CustomBuildTool/PlatformBuildWindow.cs:52-54 | only toggle `i` changes |
| PlatformBuild.PlatformBuildWindow.ApplySymbols | custom-build-tool/Assets/Editor/CustomBuildTool/PlatformBuildWindow.cs:72-81 | the define string is the ';'-join, in list order, of the symbols whose toggle is on |

## Findings

| source | as written | input that shows it | evidently intended | confidence | as-written member | corrected member |
|---|---|---|---|---|---|---|
| custom-build-tool/Assets/Editor/CustomBuildTool/GlobalBuildSettings.cs:35-37 | first-time seeding looks up `activeBuildTarget.ToString()` among the installed platform names | active target StandaloneWindows64 (or any desktop target), empty platform list: nothing is seeded, while the launcher seeds "Standalone" | seed with the launcher's platform name for the active target (`GetCurrentPlatformName`), so desktop editors get "Standalone" | medium; not executed | GlobalSettings.SeedingAsWrittenMissesStandalone | GlobalSettings.SeedingAgreesWithLauncher |

`GlobalSettings.GlobalBuildSettings.OnEnable` uses the corrected seeding (`GlobalSettings.SeededPlatforms`). `GlobalSettings.SeededPlatformsAsWritten` keeps the code's version.

## Left out

- GUI rendering (`OnGUI` layout, scroll views, labels, menu items, `ShowWindow`): each button press or field edit is a method call instead. The launcher's "no platforms selected" message is left out for the same reason.
- File I/O and JSON (`File.Exists`, `ReadAllText`, `WriteAllText`, `Directory.CreateDirectory`, `JsonUtility`): a file's parsed contents are an `Option` input. The `Save` methods of the settings editor and the platform window are not modelled, including the save at the end of the sync. Whatever they would write is the field's value at that point. `LoadGlobalSettings` returns the document that `SaveGlobalSettings` writes.
- Unity editor services:
  - the dialog answer is the `userAccepts` input;
  - the target switch is the `switchRequested` output, and its success is the `switchSucceeds` input;
  - the warning for an unsupported name is the `UnsupportedPlatform` outcome;
  - `GetBuildTargetGroup` and `SetScriptingDefineSymbolsForGroup` are left out, and `ApplySymbols` returns the string it would hand over;
  - `Debug.Log` messages and `AssetDatabase.Refresh` are dropped.
- The "Build" button: it only applies symbols and logs, and no build pipeline is modelled.
- PlatformBuild.Lower: covers ASCII letters only, because `ToLower` is culture-sensitive.
- The launcher-to-platform-window call: it passes only the platform, so the mode is unknown. The click ends at `OpenPlatformWindow(platform)`.
- PlatformBuild.PlatformBuildWindow.Open: always creates a fresh window. Reuse of an already open window by `GetWindow` is not modelled.
- PlatformBuild.PlatformBuildWindow.Init: requires a platform file whose two lists have equal length, so both unequal cases are left out. When `symbols` is the longer list, the code fails with an index error in `RemoveAt` or the toggle loop. When `enabled` is the longer list, nothing fails, but toggles are paired with the wrong symbols. For example, symbols `[]`, enabled `[true]` and global `["A"]` give "A" switched on.
- Null references: `null` strings, lists and settings do not occur in the model. This affects the null checks in the launcher's and the platform window's `OnGUI`, and the null half of `IsNullOrEmpty`.
