/**
 * The settings editor window (`GlobalBuildSettings`): the fixed list of
 * installable platforms, first-time seeding of the platform list, and the
 * button handlers that edit the symbol and platform lists.
 */
module GlobalSettings {
  import opened Wrappers
  import opened BuildTargets
  import opened SettingsData
  import BuildTool

  // ----- generic list operations (System.Collections.Generic.List / LINQ) -----

  /** `List.IndexOf`: the first index holding `x`, or -1. */
  function IndexOf<T(==)>(xs: seq<T>, x: T): (r: int)
    ensures -1 <= r
    ensures r == -1 <==> x !in xs
    ensures 0 <= r ==> r < |xs| && xs[r] == x && x !in xs[..r]
  {
    if xs == [] then -1
    else if xs[0] == x then 0
    else
      var k := IndexOf(xs[1..], x);
      if k == -1 then -1
      else
        assert xs[..k + 1] == [xs[0]] + xs[1..][..k];
        k + 1
  }

  /** `List.RemoveAt(i)`. */
  function RemoveAt<T>(xs: seq<T>, i: nat): (r: seq<T>)
    requires i < |xs|
    ensures |r| == |xs| - 1
    ensures multiset(r) + multiset{xs[i]} == multiset(xs)
  {
    assert xs == xs[..i] + [xs[i]] + xs[i + 1..];
    xs[..i] + xs[i + 1..]
  }

  /** Removing at `i` shortens the list by one and shifts the later entries down, in order. */
  lemma RemoveAtShifts<T>(xs: seq<T>, i: nat)
    requires i < |xs|
    ensures |RemoveAt(xs, i)| == |xs| - 1
    ensures forall k :: 0 <= k < i ==> RemoveAt(xs, i)[k] == xs[k]
    ensures forall k :: i <= k < |xs| - 1 ==> RemoveAt(xs, i)[k] == xs[k + 1]
  {
  }

  /** `List.Remove(x)`: drops the first occurrence of `x`, if any. */
  function RemoveFirst<T(==)>(xs: seq<T>, x: T): (r: seq<T>)
    ensures |r| == if x in xs then |xs| - 1 else |xs|
    ensures x in xs ==> multiset(r) + multiset{x} == multiset(xs)
  {
    var i := IndexOf(xs, x);
    if i < 0 then xs else RemoveAt(xs, i)
  }

  /**
   * Removing a platform deletes exactly its first occurrence, keeps the rest in
   * order, and keeps a duplicate-free list duplicate-free and without `x`.
   */
  lemma {:induction false} RemoveFirstProperties<T>(xs: seq<T>, x: T)
    ensures x !in xs ==> RemoveFirst(xs, x) == xs
    ensures x in xs ==> exists k :: 0 <= k < |xs| && xs[k] == x && x !in xs[..k] &&
                                   RemoveFirst(xs, x) == xs[..k] + xs[k + 1..]
    ensures NoDuplicates(xs) ==> NoDuplicates(RemoveFirst(xs, x)) && x !in RemoveFirst(xs, x)
  {
    var i := IndexOf(xs, x);
    if 0 <= i {
      assert xs[i] == x && x !in xs[..i] && RemoveFirst(xs, x) == xs[..i] + xs[i + 1..];
    }
    if 0 <= i && NoDuplicates(xs) {
      var r := RemoveFirst(xs, x);
      RemoveAtShifts(xs, i);
      forall a, b | 0 <= a < b < |r| ensures r[a] != r[b] {
        var a' := if a < i then a else a + 1;
        var b' := if b < i then b else b + 1;
        assert r[a] == xs[a'] && r[b] == xs[b'] && a' < b';
      }
      forall k | 0 <= k < |r| ensures r[k] != x {
        var k' := if k < i then k else k + 1;
        assert r[k] == xs[k'] && k' != i;
      }
    }
  }

  /** The "Add Selected Platform" rule: append `x` unless it is already there. */
  function AddIfAbsent<T(==)>(xs: seq<T>, x: T): (r: seq<T>)
    ensures xs <= r && x in r
    ensures |r| == if x in xs then |xs| else |xs| + 1
  {
    if x in xs then xs else xs + [x]
  }

  /** Adding a present entry is a no-op; otherwise it lands at the end, and duplicates never appear. */
  lemma AddIfAbsentProperties<T>(xs: seq<T>, x: T)
    ensures x in xs ==> AddIfAbsent(xs, x) == xs
    ensures x !in xs ==> AddIfAbsent(xs, x) == xs + [x]
    ensures x in AddIfAbsent(xs, x)
    ensures forall y :: y in AddIfAbsent(xs, x) <==> y in xs || y == x
    ensures NoDuplicates(xs) ==> NoDuplicates(AddIfAbsent(xs, x))
  {
  }

  /** LINQ `Where(p => !string.IsNullOrEmpty(p))`. */
  function NonEmpty(xs: seq<string>): (r: seq<string>)
    ensures "" !in r
    ensures |r| <= |xs|
  {
    if xs == [] then []
    else (if xs[0] != "" then [xs[0]] else []) + NonEmpty(xs[1..])
  }

  /** The filter keeps exactly the non-empty entries, and is the identity on a list that has none. */
  lemma {:induction false} NonEmptyProperties(xs: seq<string>)
    ensures forall y :: y in NonEmpty(xs) <==> y in xs && y != ""
    ensures "" !in xs ==> NonEmpty(xs) == xs
  {
    if xs != [] {
      NonEmptyProperties(xs[1..]);
      assert xs == [xs[0]] + xs[1..];
    }
  }

  /** LINQ `Distinct()`: keeps the first occurrence of each value, in order. */
  function Distinct<T(==)>(xs: seq<T>): (r: seq<T>)
    ensures |r| <= |xs|
    ensures forall y :: y in r ==> y in xs
  {
    if xs == [] then []
    else
      var d := Distinct(xs[..|xs| - 1]);
      if xs[|xs| - 1] in d then d else d + [xs[|xs| - 1]]
  }

  /** `Distinct` keeps the same values, never repeats one, and leaves a duplicate-free list as it is. */
  lemma {:induction false} DistinctProperties<T>(xs: seq<T>)
    ensures forall y :: y in Distinct(xs) <==> y in xs
    ensures NoDuplicates(Distinct(xs))
    ensures NoDuplicates(xs) ==> Distinct(xs) == xs
  {
    if xs != [] {
      var init := xs[..|xs| - 1];
      DistinctProperties(init);
      assert xs == init + [xs[|xs| - 1]];
      if NoDuplicates(xs) {
        assert NoDuplicates(init);
        assert xs[|xs| - 1] !in init;
      }
    }
  }

  // ----- the settings editor -----

  /** The hand-written list in `GetInstalledPlatforms`, in declaration order. */
  const DeclaredPlatforms: seq<string> :=
    ["Android", "iOS", "tvOS", "Standalone", "WebGL", "PS4", "PS5", "XboxOne"]

  /** The LINQ pipeline of `GetInstalledPlatforms` on any list of names. */
  function Cleaned(names: seq<string>): (r: seq<string>)
    ensures "" !in r && NoDuplicates(r)
    ensures forall p :: p in r <==> p in names && p != ""
  {
    var filtered := NonEmpty(names);
    NonEmptyProperties(names);
    DistinctProperties(filtered);
    Distinct(filtered)
  }

  /** `GetInstalledPlatforms`: the declared list, filtered of empty names and de-duplicated. */
  function InstalledPlatforms(): (r: seq<string>)
    ensures "" !in r && NoDuplicates(r)
    ensures forall p :: p in r <==> p in DeclaredPlatforms && p != ""
  {
    Cleaned(DeclaredPlatforms)
  }

  /**
   * The filter and de-duplication change nothing: the installed platforms are
   * the eight declared names in order, none empty, none repeated, and they are
   * exactly the names the launcher can open.
   */
  lemma InstalledPlatformsFixed()
    ensures InstalledPlatforms() == DeclaredPlatforms
    ensures "" !in InstalledPlatforms() && NoDuplicates(InstalledPlatforms())
    ensures forall p :: p in InstalledPlatforms() <==> p in BuildTool.SupportedNames
  {
    DeclaredPlatformsDistinct();
    NonEmptyProperties(DeclaredPlatforms);
    DistinctProperties(DeclaredPlatforms);
  }

  /** The eight declared names are pairwise different and none is empty. */
  lemma DeclaredPlatformsDistinct()
    ensures "" !in DeclaredPlatforms
    ensures NoDuplicates(DeclaredPlatforms)
  {
  }

  /**
   * First-time seeding as the source writes it: when no platform is selected,
   * add the active target's `ToString()` if it is an installed platform.
   */
  function SeededPlatformsAsWritten(platforms: seq<string>, active: BuildTarget, available: seq<string>): (r: seq<string>)
    ensures |platforms| > 0 ==> r == platforms
    ensures |platforms| == 0 && TargetName(active) in available ==> r == [TargetName(active)]
    ensures |platforms| == 0 && TargetName(active) !in available ==> r == []
  {
    if |platforms| == 0 && TargetName(active) in available then [TargetName(active)] else platforms
  }

  /**
   * As written, a desktop editor is never seeded: "StandaloneWindows64" is not an
   * installed platform name, while the launcher seeds "Standalone" for the same editor.
   */
  lemma SeedingAsWrittenMissesStandalone()
    ensures SeededPlatformsAsWritten([], StandaloneWindows64, InstalledPlatforms()) == []
    ensures BuildTool.LoadedGlobalSettings(StandaloneWindows64, None).targetPlatforms == ["Standalone"]
  {
    InstalledPlatformsFixed();
  }

  /** First-time seeding using the launcher's platform name for the active target. */
  function SeededPlatforms(platforms: seq<string>, active: BuildTarget, available: seq<string>): (r: seq<string>)
    ensures |platforms| > 0 ==> r == platforms
  {
    var name := BuildTool.CurrentPlatformName(active);
    if |platforms| == 0 && name in available then [name] else platforms
  }

  /**
   * With the corrected seeding, a first run selects the same single platform the
   * launcher would seed whenever the editor is on a supported target, and nothing otherwise.
   */
  lemma SeedingAgreesWithLauncher(active: BuildTarget)
    requires WellFormed(active)
    ensures BuildTool.IsSupportedTarget(active) ==>
      SeededPlatforms([], active, InstalledPlatforms()) == BuildTool.LoadedGlobalSettings(active, None).targetPlatforms
    ensures !BuildTool.IsSupportedTarget(active) ==> SeededPlatforms([], active, InstalledPlatforms()) == []
  {
    InstalledPlatformsFixed();
    BuildTool.TargetNameRoundTrip(active);
  }

  /** Seeding never introduces a duplicate. */
  lemma SeedingKeepsNoDuplicates(platforms: seq<string>, active: BuildTarget, available: seq<string>)
    requires NoDuplicates(platforms)
    ensures NoDuplicates(SeededPlatforms(platforms, active, available))
  {
  }

  /** The settings editor window and the state its buttons edit. */
  class GlobalBuildSettings {
    var settings: GlobalBuildSettingsData
    var selectedPlatformIndex: int
    var availablePlatforms: seq<string>

    constructor ()
      ensures settings == EmptySettings && selectedPlatformIndex == 0 && availablePlatforms == []
    {
      settings := EmptySettings;
      selectedPlatformIndex := 0;
      availablePlatforms := [];
    }

    /**
     * `OnEnable`. `settingsFile` is the parsed settings file (`None` when it does
     * not exist, in which case the current settings are kept); `active` is the
     * editor's active build target.
     */
    method OnEnable(active: BuildTarget, settingsFile: Option<GlobalBuildSettingsData>)
      modifies this
      ensures availablePlatforms == InstalledPlatforms()
      ensures selectedPlatformIndex == old(selectedPlatformIndex)
      ensures settings.scriptingSymbols == settingsFile.GetOr(old(settings)).scriptingSymbols
      ensures settings.targetPlatforms ==
        SeededPlatforms(settingsFile.GetOr(old(settings)).targetPlatforms, active, availablePlatforms)
    {
      if settingsFile.Some? {
        settings := settingsFile.value;
      }
      availablePlatforms := InstalledPlatforms();
      if |settings.targetPlatforms| == 0 {
        var name := BuildTool.CurrentPlatformName(active);
        if name in availablePlatforms {
          settings := settings.(targetPlatforms := settings.targetPlatforms + [name]);
        }
      }
    }

    /** The text field of symbol `i`. */
    method EditSymbol(i: nat, text: string)
      requires i < |settings.scriptingSymbols|
      modifies this
      ensures settings == old(settings).(scriptingSymbols := old(settings.scriptingSymbols)[i := text])
      ensures unchanged(this`availablePlatforms) && unchanged(this`selectedPlatformIndex)
    {
      settings := settings.(scriptingSymbols := settings.scriptingSymbols[i := text]);
    }

    /** The "X" button beside symbol `i`. */
    method RemoveSymbolAt(i: nat)
      requires i < |settings.scriptingSymbols|
      modifies this
      ensures settings == old(settings).(scriptingSymbols := RemoveAt(old(settings.scriptingSymbols), i))
      ensures |settings.scriptingSymbols| == |old(settings.scriptingSymbols)| - 1
      ensures unchanged(this`availablePlatforms) && unchanged(this`selectedPlatformIndex)
    {
      settings := settings.(scriptingSymbols := RemoveAt(settings.scriptingSymbols, i));
    }

    /** "+ Add Symbol": always appends an empty symbol, with no de-duplication. */
    method AddSymbol()
      modifies this
      ensures settings == old(settings).(scriptingSymbols := old(settings.scriptingSymbols) + [""])
      ensures unchanged(this`availablePlatforms) && unchanged(this`selectedPlatformIndex)
    {
      settings := settings.(scriptingSymbols := settings.scriptingSymbols + [""]);
    }

    /** The "Remove" button beside a listed platform. */
    method RemovePlatform(platform: string)
      modifies this
      ensures settings == old(settings).(targetPlatforms := RemoveFirst(old(settings.targetPlatforms), platform))
      ensures NoDuplicates(old(settings.targetPlatforms)) ==>
        NoDuplicates(settings.targetPlatforms) && platform !in settings.targetPlatforms
      ensures unchanged(this`availablePlatforms) && unchanged(this`selectedPlatformIndex)
    {
      RemoveFirstProperties(settings.targetPlatforms, platform);
      settings := settings.(targetPlatforms := RemoveFirst(settings.targetPlatforms, platform));
    }

    /** The "Add Platform" popup. */
    method SelectPlatform(index: nat)
      requires index < |availablePlatforms|
      modifies this
      ensures selectedPlatformIndex == index
      ensures unchanged(this`settings) && unchanged(this`availablePlatforms)
    {
      selectedPlatformIndex := index;
    }

    /** "Add Selected Platform": appends the popup's choice unless it is already listed. */
    method AddSelectedPlatform()
      requires 0 <= selectedPlatformIndex < |availablePlatforms|
      modifies this
      ensures unchanged(this`availablePlatforms) && unchanged(this`selectedPlatformIndex)
      ensures settings == old(settings).(targetPlatforms :=
        AddIfAbsent(old(settings.targetPlatforms), availablePlatforms[selectedPlatformIndex]))
      ensures NoDuplicates(old(settings.targetPlatforms)) ==> NoDuplicates(settings.targetPlatforms)
    {
      var selected := availablePlatforms[selectedPlatformIndex];
      AddIfAbsentProperties(settings.targetPlatforms, selected);
      if selected !in settings.targetPlatforms {
        settings := settings.(targetPlatforms := settings.targetPlatforms + [selected]);
      }
    }
  }
}
