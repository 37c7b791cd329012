/** The global settings document shared by the launcher, the settings editor and the platform window. */
module SettingsData {

  /** `GlobalBuildSettingsData`: the scripting-define symbols and the opted-in platform names. */
  datatype GlobalBuildSettingsData = GlobalBuildSettingsData(
    scriptingSymbols: seq<string>,
    targetPlatforms: seq<string>)

  /** `new GlobalBuildSettingsData()`: both lists empty. */
  const EmptySettings := GlobalBuildSettingsData([], [])

  /** No value occurs twice. */
  predicate NoDuplicates<T(==)>(xs: seq<T>) {
    forall i, j :: 0 <= i < j < |xs| ==> xs[i] != xs[j]
  }
}
