/**
 * The per-platform window (`PlatformBuildWindow`): the parallel symbol and
 * toggle lists of one (platform, mode) pair, their reconciliation against the
 * global symbol list, and the define string built from the enabled symbols.
 */
module PlatformBuild {
  import opened Wrappers
  import opened SettingsData

  // ----- window setup: names and the settings path -----

  predicate IsUpperAscii(c: char) {
    'A' <= c <= 'Z'
  }

  /** `char.ToLower` on ASCII letters; every other character is left as it is. */
  function LowerChar(c: char): (d: char)
  {
    if IsUpperAscii(c) then (c as int + 32) as char else c
  }

  /** `string.ToLower()`, for ASCII. */
  function Lower(s: string): (r: string)
    ensures |r| == |s|
    ensures forall i :: 0 <= i < |s| ==> r[i] == LowerChar(s[i])
  {
    if s == [] then [] else [LowerChar(s[0])] + Lower(s[1..])
  }

  /** A lowered name has no upper-case letter left, and lowering it again changes nothing. */
  lemma LowerIsNormal(s: string)
    ensures forall i :: 0 <= i < |s| ==> !IsUpperAscii(Lower(s)[i])
    ensures Lower(Lower(s)) == Lower(s)
  {
  }

  /** Where a platform's settings are stored. */
  const PlatformSettingsDirectory := "Assets/Editor/CustomBuildTool/PlatformSettings/"

  /** The settings file of a (platform, mode) pair, as `Init` builds it. */
  function SettingsFilePath(platform: string, mode: string): (path: string)
    ensures PlatformSettingsDirectory <= path
    ensures |path| == |PlatformSettingsDirectory| + |platform| + 1 + |mode| + 4
    ensures path[|path| - 4..] == ".txt"
  {
    PlatformSettingsDirectory + platform + "-" + mode + ".txt"
  }

  /** In `p + [sep] + m` with `sep` not in `p`, the first `sep` sits at index `|p|`. */
  lemma FirstSeparator(p: string, m: string, sep: char)
    requires sep !in p
    ensures (p + [sep] + m)[|p|] == sep
    ensures forall k :: 0 <= k < |p| ==> (p + [sep] + m)[k] != sep
  {
  }

  /** Around a separator, a prefix free of that separator is determined by the whole. */
  lemma SplitAtFirst(p1: string, m1: string, p2: string, m2: string, sep: char)
    requires sep !in p1 && sep !in p2
    requires p1 + [sep] + m1 == p2 + [sep] + m2
    ensures p1 == p2 && m1 == m2
  {
    var w1, w2 := p1 + [sep] + m1, p2 + [sep] + m2;
    FirstSeparator(p1, m1, sep);
    FirstSeparator(p2, m2, sep);
    assert p1 == w1[..|p1|] && p2 == w2[..|p2|];
    assert m1 == w1[|p1| + 1..] && m2 == w2[|p2| + 1..];
  }

  /**
   * Distinct (platform, mode) pairs get distinct files, as long as platform
   * names contain no '-' (true of every installed platform name).
   */
  lemma SettingsFilePathInjective(p1: string, m1: string, p2: string, m2: string)
    requires '-' !in p1 && '-' !in p2
    requires SettingsFilePath(p1, m1) == SettingsFilePath(p2, m2)
    ensures p1 == p2 && m1 == m2
  {
    var d := PlatformSettingsDirectory;
    var w1, w2 := SettingsFilePath(p1, m1), SettingsFilePath(p2, m2);
    var core1, core2 := p1 + "-" + m1, p2 + "-" + m2;
    assert w1 == d + core1 + ".txt";
    assert w2 == d + core2 + ".txt";
    assert core1 == w1[|d|..|w1| - 4];
    assert core2 == w2[|d|..|w2| - 4];
    SplitAtFirst(p1, m1, p2, m2, '-');
  }

  // ----- reconciliation of the parallel lists with the global symbols -----

  /** `false`, `n` times. */
  function Falses(n: nat): (r: seq<bool>)
    ensures |r| == n
    ensures forall i :: 0 <= i < n ==> !r[i]
  {
    if n == 0 then [] else Falses(n - 1) + [false]
  }

  /**
   * The global symbols missing from `symbols`, each once, in the order of their
   * first occurrence in `global`: what the first loop of the sync appends.
   */
  function Missing(symbols: seq<string>, global: seq<string>): (m: seq<string>)
  {
    if global == [] then []
    else
      var m := Missing(symbols, global[..|global| - 1]);
      var sym := global[|global| - 1];
      if sym in symbols || sym in m then m else m + [sym]
  }

  /** The symbols of `symbols` that the global list still holds, in their order. */
  function Kept(symbols: seq<string>, global: seq<string>): (k: seq<string>)
  {
    if symbols == [] then []
    else (if symbols[0] in global then [symbols[0]] else []) + Kept(symbols[1..], global)
  }

  /** The toggles paired with the entries that `Kept` keeps. */
  function KeptFlags(symbols: seq<string>, enabled: seq<bool>, global: seq<string>): (k: seq<bool>)
    requires |symbols| == |enabled|
    ensures |k| == |Kept(symbols, global)|
  {
    if symbols == [] then []
    else (if symbols[0] in global then [enabled[0]] else []) + KeptFlags(symbols[1..], enabled[1..], global)
  }

  /**
   * The symbol list after reconciliation: the retained entries in their old
   * order, then the missing global symbols in global order.
   */
  function SyncedSymbols(symbols: seq<string>, global: seq<string>): (r: seq<string>)
    ensures forall x :: x in r <==> x in global
  {
    MissingMembers(symbols, global);
    KeptMembers(symbols, global);
    Kept(symbols, global) + Missing(symbols, global)
  }

  /** The toggles after reconciliation: the retained entries keep theirs; new entries are off. */
  function SyncedFlags(symbols: seq<string>, enabled: seq<bool>, global: seq<string>): (r: seq<bool>)
    requires |symbols| == |enabled|
    ensures |r| == |SyncedSymbols(symbols, global)|
  {
    KeptFlags(symbols, enabled, global) + Falses(|Missing(symbols, global)|)
  }

  lemma {:induction false} MissingMembers(symbols: seq<string>, global: seq<string>)
    ensures forall x :: x in Missing(symbols, global) <==> x in global && x !in symbols
    ensures NoDuplicates(Missing(symbols, global))
  {
    if global != [] {
      var init := global[..|global| - 1];
      MissingMembers(symbols, init);
      assert global == init + [global[|global| - 1]];
    }
  }

  lemma {:induction false} KeptMembers(symbols: seq<string>, global: seq<string>)
    ensures forall x :: x in Kept(symbols, global) <==> x in symbols && x in global
    ensures |Kept(symbols, global)| <= |symbols|
  {
    if symbols != [] {
      KeptMembers(symbols[1..], global);
      assert symbols == [symbols[0]] + symbols[1..];
    }
  }

  /** Filtering a list whose every entry is global keeps all of it, toggles included. */
  lemma {:induction false} KeptAll(symbols: seq<string>, enabled: seq<bool>, global: seq<string>)
    requires |symbols| == |enabled|
    requires forall x :: x in symbols ==> x in global
    ensures Kept(symbols, global) == symbols
    ensures KeptFlags(symbols, enabled, global) == enabled
  {
    if symbols != [] {
      KeptAll(symbols[1..], enabled[1..], global);
      assert symbols == [symbols[0]] + symbols[1..];
      assert enabled == [enabled[0]] + enabled[1..];
    }
  }

  /** The filter distributes over concatenation. */
  lemma {:induction false} KeptAppend(a: seq<string>, ea: seq<bool>, b: seq<string>, eb: seq<bool>, global: seq<string>)
    requires |a| == |ea| && |b| == |eb|
    ensures Kept(a + b, global) == Kept(a, global) + Kept(b, global)
    ensures KeptFlags(a + b, ea + eb, global) == KeptFlags(a, ea, global) + KeptFlags(b, eb, global)
  {
    if a != [] {
      KeptAppend(a[1..], ea[1..], b, eb, global);
      assert (a + b)[1..] == a[1..] + b;
      assert (ea + eb)[1..] == ea[1..] + eb;
    } else {
      assert a + b == b && ea + eb == eb;
    }
  }

  /** Nothing is missing once every global symbol is present. */
  lemma {:induction false} MissingNone(symbols: seq<string>, global: seq<string>)
    requires forall x :: x in global ==> x in symbols
    ensures Missing(symbols, global) == []
  {
    if global != [] {
      var init := global[..|global| - 1];
      assert forall x :: x in init ==> x in global;
      MissingNone(symbols, init);
    }
  }

  /**
   * The two phases as the source runs them: first append what is missing (as
   * disabled), then drop what is stale. This is the declarative form above.
   */
  lemma SyncInTwoPhases(symbols: seq<string>, enabled: seq<bool>, global: seq<string>)
    requires |symbols| == |enabled|
    ensures Kept(symbols + Missing(symbols, global), global) == SyncedSymbols(symbols, global)
    ensures KeptFlags(symbols + Missing(symbols, global), enabled + Falses(|Missing(symbols, global)|), global)
         == SyncedFlags(symbols, enabled, global)
  {
    var m := Missing(symbols, global);
    MissingMembers(symbols, global);
    KeptAppend(symbols, enabled, m, Falses(|m|), global);
    KeptAll(m, Falses(|m|), global);
  }

  /** Reconciling a second time with the same global list changes nothing. */
  lemma SyncIdempotent(symbols: seq<string>, enabled: seq<bool>, global: seq<string>)
    requires |symbols| == |enabled|
    ensures SyncedSymbols(SyncedSymbols(symbols, global), global) == SyncedSymbols(symbols, global)
    ensures SyncedFlags(SyncedSymbols(symbols, global), SyncedFlags(symbols, enabled, global), global)
         == SyncedFlags(symbols, enabled, global)
  {
    var s, e := SyncedSymbols(symbols, global), SyncedFlags(symbols, enabled, global);
    KeptAll(s, e, global);
    MissingNone(s, global);
    assert Falses(0) == [];
  }

  /**
   * The toggle of `x` in a pair of parallel lists, read at its first
   * occurrence: the symbol-to-boolean mapping the lists stand for.
   */
  function StateOf(symbols: seq<string>, enabled: seq<bool>, x: string): (v: Option<bool>)
    requires |symbols| == |enabled|
    ensures v.None? <==> x !in symbols
  {
    if symbols == [] then None
    else if symbols[0] == x then Some(enabled[0])
    else StateOf(symbols[1..], enabled[1..], x)
  }

  lemma {:induction false} StateOfAppend(a: seq<string>, ea: seq<bool>, b: seq<string>, eb: seq<bool>, x: string)
    requires |a| == |ea| && |b| == |eb|
    ensures StateOf(a + b, ea + eb, x) == if x in a then StateOf(a, ea, x) else StateOf(b, eb, x)
  {
    if a != [] {
      StateOfAppend(a[1..], ea[1..], b, eb, x);
      assert (a + b)[1..] == a[1..] + b;
      assert (ea + eb)[1..] == ea[1..] + eb;
      assert x in a <==> a[0] == x || x in a[1..];
    } else {
      assert a + b == b && ea + eb == eb;
    }
  }

  lemma {:induction false} StateOfKept(symbols: seq<string>, enabled: seq<bool>, global: seq<string>, x: string)
    requires |symbols| == |enabled|
    requires x in global
    ensures StateOf(Kept(symbols, global), KeptFlags(symbols, enabled, global), x) == StateOf(symbols, enabled, x)
  {
    if symbols != [] {
      var rest, restFlags := symbols[1..], enabled[1..];
      StateOfKept(rest, restFlags, global, x);
      var k, f := Kept(rest, global), KeptFlags(rest, restFlags, global);
      if symbols[0] in global {
        assert Kept(symbols, global) == [symbols[0]] + k;
        assert KeptFlags(symbols, enabled, global) == [enabled[0]] + f;
        assert ([symbols[0]] + k)[1..] == k;
        assert ([enabled[0]] + f)[1..] == f;
      } else {
        assert Kept(symbols, global) == k;
        assert KeptFlags(symbols, enabled, global) == f;
      }
    }
  }

  lemma {:induction false} StateOfFalses(symbols: seq<string>, x: string)
    requires x in symbols
    ensures StateOf(symbols, Falses(|symbols|), x) == Some(false)
  {
    var f := Falses(|symbols|);
    if symbols[0] != x {
      assert Falses(|symbols| - 1) == f[1..];
      StateOfFalses(symbols[1..], x);
    }
  }

  /**
   * Reconciliation read as a symbol-to-toggle mapping: a global symbol that was
   * present keeps its toggle, a new global symbol is off, and a symbol the
   * global list no longer holds is gone.
   */
  lemma SyncPreservesToggles(symbols: seq<string>, enabled: seq<bool>, global: seq<string>, x: string)
    requires |symbols| == |enabled|
    ensures x in global && x in symbols ==>
      StateOf(SyncedSymbols(symbols, global), SyncedFlags(symbols, enabled, global), x) == StateOf(symbols, enabled, x)
    ensures x in global && x !in symbols ==>
      StateOf(SyncedSymbols(symbols, global), SyncedFlags(symbols, enabled, global), x) == Some(false)
    ensures x !in global ==>
      StateOf(SyncedSymbols(symbols, global), SyncedFlags(symbols, enabled, global), x) == None
  {
    var k, f := Kept(symbols, global), KeptFlags(symbols, enabled, global);
    var m := Missing(symbols, global);
    KeptMembers(symbols, global);
    MissingMembers(symbols, global);
    StateOfAppend(k, f, m, Falses(|m|), x);
    if x in global {
      if x in symbols {
        StateOfKept(symbols, enabled, global, x);
      } else {
        StateOfFalses(m, x);
      }
    }
  }

  /**
   * The worked case: global symbols change from ["A", "B"] to ["B", "C"] while
   * the platform has A on and B off. "A" is dropped, "B" stays off, "C" is added off.
   */
  lemma SyncExample()
    ensures SyncedSymbols(["A", "B"], ["B", "C"]) == ["B", "C"]
    ensures SyncedFlags(["A", "B"], [true, false], ["B", "C"]) == [false, false]
  {
    var g := ["B", "C"];
    assert g[..1] == ["B"] && g[..1][..0] == [];
    assert Kept(["A", "B"], g) == ["B"] by {
      assert ["A", "B"][1..] == ["B"];
      assert ["B"][1..] == [];
    }
    assert KeptFlags(["A", "B"], [true, false], g) == [false] by {
      assert ["A", "B"][1..] == ["B"] && [true, false][1..] == [false];
      assert ["B"][1..] == [] && [false][1..] == [];
    }
  }

  /** One step of the backward removal loop, in terms of the filter on the suffix. */
  lemma KeptStep(s: seq<string>, e: seq<bool>, global: seq<string>, i: nat)
    requires |s| == |e| && i < |s|
    ensures (s[..i + 1] + Kept(s[i + 1..], global))[i] == s[i]
    ensures s[i] in global ==>
      s[..i + 1] + Kept(s[i + 1..], global) == s[..i] + Kept(s[i..], global) &&
      e[..i + 1] + KeptFlags(s[i + 1..], e[i + 1..], global) == e[..i] + KeptFlags(s[i..], e[i..], global)
    ensures s[i] !in global ==>
      (s[..i + 1] + Kept(s[i + 1..], global))[..i] + (s[..i + 1] + Kept(s[i + 1..], global))[i + 1..]
        == s[..i] + Kept(s[i..], global) &&
      (e[..i + 1] + KeptFlags(s[i + 1..], e[i + 1..], global))[..i] + (e[..i + 1] + KeptFlags(s[i + 1..], e[i + 1..], global))[i + 1..]
        == e[..i] + KeptFlags(s[i..], e[i..], global)
  {
    assert s[i..][1..] == s[i + 1..];
    assert e[i..][1..] == e[i + 1..];
    assert s[..i + 1] == s[..i] + [s[i]];
    assert e[..i + 1] == e[..i] + [e[i]];
  }

  // ----- the define string -----

  /** The symbols whose toggle is on, in list order (the `activeSymbols` of `ApplySymbols`). */
  function EnabledSymbols(symbols: seq<string>, enabled: seq<bool>): (r: seq<string>)
    requires |symbols| == |enabled|
    ensures |r| <= |symbols|
    ensures forall x :: x in r ==> x in symbols
  {
    if symbols == [] then []
    else
      var n := |symbols| - 1;
      EnabledSymbols(symbols[..n], enabled[..n]) + (if enabled[n] then [symbols[n]] else [])
  }

  /** A symbol is in the define list exactly when some entry for it is switched on; none on gives none. */
  lemma {:induction false} EnabledSymbolsMembers(symbols: seq<string>, enabled: seq<bool>)
    requires |symbols| == |enabled|
    ensures forall x :: x in EnabledSymbols(symbols, enabled) <==>
      exists i :: 0 <= i < |symbols| && symbols[i] == x && enabled[i]
    ensures (forall i :: 0 <= i < |enabled| ==> !enabled[i]) ==> EnabledSymbols(symbols, enabled) == []
  {
    if symbols != [] {
      var n := |symbols| - 1;
      EnabledSymbolsMembers(symbols[..n], enabled[..n]);
      forall x ensures x in EnabledSymbols(symbols, enabled) <==>
        exists i :: 0 <= i < |symbols| && symbols[i] == x && enabled[i]
      {
        if x in EnabledSymbols(symbols[..n], enabled[..n]) {
          var i :| 0 <= i < n && symbols[..n][i] == x && enabled[..n][i];
          assert symbols[i] == x && enabled[i];
        }
        if exists i :: 0 <= i < |symbols| && symbols[i] == x && enabled[i] {
          var i :| 0 <= i < |symbols| && symbols[i] == x && enabled[i];
          if i < n {
            assert symbols[..n][i] == x && enabled[..n][i];
          }
        }
      }
    }
  }

  /** `string.Join(";", items)`. */
  function Join(items: seq<string>): (s: string)
    ensures items == [] ==> s == ""
    ensures items != [] ==> items[0] <= s
  {
    if items == [] then ""
    else if |items| == 1 then items[0]
    else items[0] + ";" + Join(items[1..])
  }

  /** How the host reads a define string back: the pieces between the ';' separators. */
  function Split(s: string): (pieces: seq<string>)
    ensures |pieces| >= 1
  {
    if s == [] then [""]
    else
      var rest := Split(s[1..]);
      if s[0] == ';' then [""] + rest
      else [[s[0]] + rest[0]] + rest[1..]
  }

  /** Splitting a piece free of ';' followed by a separator and more text. */
  lemma {:induction false} SplitPiece(piece: string, tail: string)
    requires ';' !in piece
    ensures Split(piece + ";" + tail) == [piece] + Split(tail)
    ensures Split(piece) == [piece]
  {
    if piece == [] {
      assert ([] + ";" + tail)[1..] == tail;
    } else {
      SplitPiece(piece[1..], tail);
      assert (piece + ";" + tail)[1..] == piece[1..] + ";" + tail;
      assert [piece[0]] + piece[1..] == piece;
    }
  }

  /** A define string splits back into the symbols it joined, when none of them holds a ';'. */
  lemma {:induction false} SplitJoin(items: seq<string>)
    requires items != []
    requires forall i :: 0 <= i < |items| ==> ';' !in items[i]
    ensures Split(Join(items)) == items
  {
    if |items| == 1 {
      SplitPiece(items[0], "");
    } else {
      SplitJoin(items[1..]);
      SplitPiece(items[0], Join(items[1..]));
    }
  }

  /** Joining the pieces of any string gives that string back. */
  lemma {:induction false} JoinSplit(s: string)
    ensures Join(Split(s)) == s
  {
    if s != [] {
      var rest := Split(s[1..]);
      JoinSplit(s[1..]);
      if s[0] == ';' {
        assert ([""] + rest)[1..] == rest;
      } else {
        var head := [[s[0]] + rest[0]] + rest[1..];
        if |rest| > 1 {
          assert head[1..] == rest[1..];
        }
      }
    }
  }

  // ----- the window -----

  /** `PlatformBuildData`: symbol names and their toggles, kept as two parallel lists. */
  class PlatformBuildData {
    var symbols: seq<string>
    var enabled: seq<bool>

    constructor (symbols: seq<string>, enabled: seq<bool>)
      ensures this.symbols == symbols && this.enabled == enabled
    {
      this.symbols := symbols;
      this.enabled := enabled;
    }
  }

  /** One (platform, mode) window. */
  class PlatformBuildWindow {
    var platform: string
    var mode: string
    var data: PlatformBuildData
    var global: GlobalBuildSettingsData
    var filePath: string

    /** The two lists stay parallel. */
    ghost predicate Valid()
      reads this, data
    {
      |data.symbols| == |data.enabled|
    }

    /**
     * `Open(platform, mode)` followed by `Init`. `globalFile` and `platformFile`
     * are the parsed settings files, `None` when a file does not exist.
     */
    constructor Open(platform: string, mode: string,
                     globalFile: Option<GlobalBuildSettingsData>,
                     platformFile: Option<(seq<string>, seq<bool>)>)
      requires platformFile.Some? ==> |platformFile.value.0| == |platformFile.value.1|
      ensures Valid()
      ensures this.platform == Lower(platform) && this.mode == Lower(mode)
      ensures filePath == SettingsFilePath(Lower(platform), Lower(mode))
      ensures global == globalFile.GetOr(EmptySettings)
      ensures var (s, e) := platformFile.GetOr(([], []));
        data.symbols == SyncedSymbols(s, global.scriptingSymbols) &&
        data.enabled == SyncedFlags(s, e, global.scriptingSymbols)
    {
      this.platform := Lower(platform);
      this.mode := Lower(mode);
      data := new PlatformBuildData([], []);
      global := EmptySettings;
      filePath := "";
      new;
      Init(globalFile, platformFile);
    }

    /** `Init`: load both documents, then reconcile the platform's lists with the global symbols. */
    method Init(globalFile: Option<GlobalBuildSettingsData>, platformFile: Option<(seq<string>, seq<bool>)>)
      requires platformFile.Some? ==> |platformFile.value.0| == |platformFile.value.1|
      modifies this
      ensures Valid() && fresh(data)
      ensures platform == old(platform) && mode == old(mode)
      ensures filePath == SettingsFilePath(platform, mode)
      ensures global == globalFile.GetOr(EmptySettings)
      ensures var (s, e) := platformFile.GetOr(([], []));
        data.symbols == SyncedSymbols(s, global.scriptingSymbols) &&
        data.enabled == SyncedFlags(s, e, global.scriptingSymbols)
    {
      global := globalFile.GetOr(EmptySettings);
      filePath := SettingsFilePath(platform, mode);
      if platformFile.Some? {
        data := new PlatformBuildData(platformFile.value.0, platformFile.value.1);
      } else {
        data := new PlatformBuildData([], []);
      }
      SyncSymbolsWithGlobal();
    }

    /**
     * `SyncSymbolsWithGlobal`: append every missing global symbol as disabled,
     * then walk the lists backwards removing, at the same index in both, every
     * symbol the global list no longer holds.
     */
    method SyncSymbolsWithGlobal()
      requires Valid()
      modifies data
      ensures Valid()
      ensures data.symbols == SyncedSymbols(old(data.symbols), global.scriptingSymbols)
      ensures data.enabled == SyncedFlags(old(data.symbols), old(data.enabled), global.scriptingSymbols)
    {
      ghost var s0, e0 := data.symbols, data.enabled;
      AddMissingSymbols();
      RemoveStaleSymbols();
      SyncInTwoPhases(s0, e0, global.scriptingSymbols);
    }

    /** First half of the sync: each global symbol not yet listed is appended, disabled. */
    method AddMissingSymbols()
      requires Valid()
      modifies data
      ensures Valid()
      ensures data.symbols == old(data.symbols) + Missing(old(data.symbols), global.scriptingSymbols)
      ensures data.enabled == old(data.enabled) + Falses(|Missing(old(data.symbols), global.scriptingSymbols)|)
    {
      var g := global.scriptingSymbols;
      ghost var s0, e0 := data.symbols, data.enabled;
      var n := 0;
      while n < |g|
        invariant n <= |g|
        invariant data.symbols == s0 + Missing(s0, g[..n])
        invariant data.enabled == e0 + Falses(|Missing(s0, g[..n])|)
      {
        var sym := g[n];
        assert g[..n + 1][..n] == g[..n];
        if sym !in data.symbols {
          data.symbols := data.symbols + [sym];
          data.enabled := data.enabled + [false];
        }
        n := n + 1;
      }
      assert g[..|g|] == g;
    }

    /** Second half of the sync: from the end, each entry whose symbol is not global is removed from both lists. */
    method RemoveStaleSymbols()
      requires Valid()
      modifies data
      ensures Valid()
      ensures data.symbols == Kept(old(data.symbols), global.scriptingSymbols)
      ensures data.enabled == KeptFlags(old(data.symbols), old(data.enabled), global.scriptingSymbols)
    {
      var g := global.scriptingSymbols;
      ghost var s1, e1 := data.symbols, data.enabled;
      var i := |data.symbols| - 1;
      while i >= 0
        invariant -1 <= i < |s1|
        invariant data.symbols == s1[..i + 1] + Kept(s1[i + 1..], g)
        invariant data.enabled == e1[..i + 1] + KeptFlags(s1[i + 1..], e1[i + 1..], g)
      {
        KeptStep(s1, e1, g, i);
        if data.symbols[i] !in g {
          data.symbols := data.symbols[..i] + data.symbols[i + 1..];
          data.enabled := data.enabled[..i] + data.enabled[i + 1..];
        }
        i := i - 1;
      }
      assert s1[..0] == [] && e1[..0] == [];
      assert s1[0..] == s1 && e1[0..] == e1;
    }

    /** The toggle beside symbol `i`. */
    method SetEnabled(i: nat, on: bool)
      requires Valid() && i < |data.enabled|
      modifies data
      ensures Valid()
      ensures data.symbols == old(data.symbols)
      ensures data.enabled == old(data.enabled)[i := on]
    {
      data.enabled := data.enabled[i := on];
    }

    /**
     * `ApplySymbols`: the define string handed to the host for the active
     * target's group, the enabled symbols joined with ';'.
     */
    method ApplySymbols() returns (defines: string)
      requires Valid()
      ensures defines == Join(EnabledSymbols(data.symbols, data.enabled))
    {
      var activeSymbols: seq<string> := [];
      for i := 0 to |data.symbols|
        invariant activeSymbols == EnabledSymbols(data.symbols[..i], data.enabled[..i])
      {
        assert data.symbols[..i + 1][..i] == data.symbols[..i];
        assert data.enabled[..i + 1][..i] == data.enabled[..i];
        if data.enabled[i] {
          activeSymbols := activeSymbols + [data.symbols[i]];
        }
      }
      assert data.symbols[..|data.symbols|] == data.symbols;
      assert data.enabled[..|data.enabled|] == data.enabled;
      defines := Join(activeSymbols);
    }
  }

  /** With every toggle off, the define string is empty. */
  lemma NothingEnabledMeansNoDefines(symbols: seq<string>, enabled: seq<bool>)
    requires |symbols| == |enabled|
    requires forall i :: 0 <= i < |enabled| ==> !enabled[i]
    ensures Join(EnabledSymbols(symbols, enabled)) == ""
  {
    EnabledSymbolsMembers(symbols, enabled);
  }

  /** After reconciliation, only global symbols can reach the define string. */
  lemma DefinesAreGlobalSymbols(symbols: seq<string>, enabled: seq<bool>, global: seq<string>, x: string)
    requires |symbols| == |enabled|
    requires x in EnabledSymbols(SyncedSymbols(symbols, global), SyncedFlags(symbols, enabled, global))
    ensures x in global
  {
    EnabledSymbolsMembers(SyncedSymbols(symbols, global), SyncedFlags(symbols, enabled, global));
  }
}
