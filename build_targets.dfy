/**
 * The part of Unity's `BuildTarget` enumeration that the build tool names
 * explicitly. Every other enumerator is `Other(identifier)`.
 */
module BuildTargets {

  datatype BuildTarget =
    | Android
    | iOS
    | tvOS
    | WebGL
    | StandaloneWindows
    | StandaloneWindows64
    | StandaloneOSX
    | StandaloneLinux64
    | PS4
    | PS5
    | XboxOne
    | NoTarget
    | Other(identifier: string)

  /** The identifiers of the enumerators listed above. */
  const ListedIdentifiers: seq<string> :=
    ["Android", "iOS", "tvOS", "WebGL", "StandaloneWindows", "StandaloneWindows64",
     "StandaloneOSX", "StandaloneLinux64", "PS4", "PS5", "XboxOne", "NoTarget"]

  /**
   * An `Other` value stands for an enumerator that is not listed, so its
   * identifier is none of the listed ones. Unity has no `BuildTarget` called
   * "Standalone" (that name belongs to `BuildTargetGroup`), so it is excluded too.
   */
  predicate WellFormed(t: BuildTarget) {
    t.Other? ==> t.identifier !in ListedIdentifiers && t.identifier != "Standalone"
  }

  /** One of the four desktop player targets. */
  predicate IsStandalone(t: BuildTarget) {
    t.StandaloneWindows? || t.StandaloneWindows64? || t.StandaloneOSX? || t.StandaloneLinux64?
  }

  /** `BuildTarget.ToString()`: the enumerator's identifier. */
  function TargetName(t: BuildTarget): (name: string)
    ensures t.Other? ==> name == t.identifier
    ensures !t.Other? ==> name in ListedIdentifiers
  {
    match t
    case Android => "Android"
    case iOS => "iOS"
    case tvOS => "tvOS"
    case WebGL => "WebGL"
    case StandaloneWindows => "StandaloneWindows"
    case StandaloneWindows64 => "StandaloneWindows64"
    case StandaloneOSX => "StandaloneOSX"
    case StandaloneLinux64 => "StandaloneLinux64"
    case PS4 => "PS4"
    case PS5 => "PS5"
    case XboxOne => "XboxOne"
    case NoTarget => "NoTarget"
    case Other(identifier) => identifier
  }
}
