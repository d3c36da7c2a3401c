/**
 * `createLayoutAndComponents` and `createChakraTheme` of the React track: make
 * sure the layout and component directories exist and, for Chakra UI only, write
 * the theme module.
 */
module ReactLayoutAndComponents {
  import opened Config
  import opened Content
  import opened FileSystem
  import opened Pipeline

  /** `path.join(srcDir, 'theme')`. */
  function ThemeDir(srcDir: Path): Path
  {
    srcDir + ["theme"]
  }

  /** The theme module: one text, with the `ThemeConfig` type only under TypeScript. */
  function ThemeModule(o: Options): Content
  {
    Source("react/theme/index", Shared, if IsTS(o) then [ThemeConfigType] else [])
  }

  /** The calls `createChakraTheme(srcDir, options)` makes, in order. */
  function ThemeOps(srcDir: Path, o: Options): seq<Op>
  {
    [ Mkdir(ThemeDir(srcDir)), Write(ThemeDir(srcDir), FileName("index", ScriptExt(o)), ThemeModule(o)) ]
  }

  /** The directories `createLayoutAndComponents` ensures, in order. */
  function EnsuredDirs(srcDir: Path): seq<Path>
  {
    [ srcDir + ["layouts"], srcDir + ["components"], srcDir + ["components", "common"],
      srcDir + ["components", "layout"], srcDir + ["context"] ]
  }

  /** The five `ensureDir` calls. */
  function EnsureDirOps(srcDir: Path): seq<Op>
  {
    var dirs := EnsuredDirs(srcDir);
    [ Mkdir(dirs[0]), Mkdir(dirs[1]), Mkdir(dirs[2]), Mkdir(dirs[3]), Mkdir(dirs[4]) ]
  }

  /** The calls inside the `try` of `createLayoutAndComponents(srcDir, options)`, in order. */
  function LayoutAndComponentOps(srcDir: Path, o: Options): seq<Op>
  {
    EnsureDirOps(srcDir) + (if o.uiFramework == ChakraUI then ThemeOps(srcDir, o) else [])
  }

  /** The `catch` logs and rethrows. */
  method CreateChakraTheme(fs: FileSystem, srcDir: Path, o: Options) returns (out: Outcome)
    modifies fs
    ensures Run(out, fs.Snapshot()) == RunOps(old(fs.Snapshot()), ThemeOps(srcDir, o))
  {
    ghost var rest := ThemeOps(srcDir, o);
    ghost var d := fs.Snapshot();
    var isTS := IsTS(o);
    var fileExt := ScriptExt(o);

    var themeDir := srcDir + ["theme"];
    out := fs.MakeDirectory(themeDir);
    if out.Thrown? { Stop(d, rest, Run(out, fs.Snapshot())); return; }
    Continue(d, rest, fs.Snapshot());
    rest, d := rest[1..], fs.Snapshot();

    var themeContent := Source("react/theme/index", Shared, if isTS then [ThemeConfigType] else []);
    out := fs.WriteFile(themeDir, FileName("index", fileExt), themeContent);
    Last(d, rest, Run(out, fs.Snapshot()));
  }

  /** The `ensureDir` calls at the head of the `try` block of `createLayoutAndComponents`. */
  method EnsureLayoutDirectories(fs: FileSystem, srcDir: Path) returns (out: Outcome)
    modifies fs
    ensures Run(out, fs.Snapshot()) == RunOps(old(fs.Snapshot()), EnsureDirOps(srcDir))
  {
    ghost var rest := EnsureDirOps(srcDir);
    ghost var d := fs.Snapshot();
    out := fs.MakeDirectory(srcDir + ["layouts"]);
    if out.Thrown? { Stop(d, rest, Run(out, fs.Snapshot())); return; }
    Continue(d, rest, fs.Snapshot());
    rest, d := rest[1..], fs.Snapshot();

    out := fs.MakeDirectory(srcDir + ["components"]);
    if out.Thrown? { Stop(d, rest, Run(out, fs.Snapshot())); return; }
    Continue(d, rest, fs.Snapshot());
    rest, d := rest[1..], fs.Snapshot();

    out := fs.MakeDirectory(srcDir + ["components", "common"]);
    if out.Thrown? { Stop(d, rest, Run(out, fs.Snapshot())); return; }
    Continue(d, rest, fs.Snapshot());
    rest, d := rest[1..], fs.Snapshot();

    out := fs.MakeDirectory(srcDir + ["components", "layout"]);
    if out.Thrown? { Stop(d, rest, Run(out, fs.Snapshot())); return; }
    Continue(d, rest, fs.Snapshot());
    rest, d := rest[1..], fs.Snapshot();

    out := fs.MakeDirectory(srcDir + ["context"]);
    Last(d, rest, Run(out, fs.Snapshot()));
  }

  /** The `catch` logs and rethrows; `isAntd`, `useUI` and `fileExt` are computed and unused. */
  method CreateLayoutAndComponents(fs: FileSystem, srcDir: Path, o: Options) returns (out: Outcome)
    modifies fs
    ensures Run(out, fs.Snapshot()) == RunOps(old(fs.Snapshot()), LayoutAndComponentOps(srcDir, o))
  {
    var isChakra := o.uiFramework == ChakraUI;
    RunOpsAppend(fs.Snapshot(), EnsureDirOps(srcDir), if isChakra then ThemeOps(srcDir, o) else []);
    out := EnsureLayoutDirectories(fs, srcDir);
    if out.Thrown? { return; }
    if isChakra {
      out := CreateChakraTheme(fs, srcDir, o);
    }
  }

  /** Exactly one file, `theme/index.ts` or `theme/index.js`, and only for Chakra UI. */
  lemma ThemeOnlyForChakra(srcDir: Path, o: Options)
    ensures o.uiFramework == ChakraUI ==>
              Writes(LayoutAndComponentOps(srcDir, o)) == [Join(ThemeDir(srcDir), FileName("index", ScriptExt(o)))]
    ensures o.uiFramework != ChakraUI ==> Writes(LayoutAndComponentOps(srcDir, o)) == []
  {
    var ensure := EnsureDirOps(srcDir);
    assert ensure[5..] == [];
    assert Writes(ensure[1..]) == Writes(ensure[2..]) == Writes(ensure[3..]) == Writes(ensure[4..]) == [];
    assert Writes(ensure) == [];
    var theme := ThemeOps(srcDir, o);
    assert theme[2..] == [];
    assert Writes(theme[1..]) == [Join(ThemeDir(srcDir), FileName("index", ScriptExt(o)))];
    WritesAppend(ensure, if o.uiFramework == ChakraUI then theme else []);
  }

  /** The theme carries the `ThemeConfig` type exactly when TypeScript is chosen. */
  lemma ThemeTyping(o: Options)
    ensures ThemeConfigType in ThemeModule(o).marks <==> IsTS(o)
  {
  }

  /** The theme step creates its own directory first. */
  lemma ThemeReady(dirs: set<Path>, srcDir: Path, o: Options)
    ensures Ready(dirs, ThemeOps(srcDir, o))
  {
    ReadyWhenPlaced(dirs + Prefixes(ThemeDir(srcDir)), ThemeOps(srcDir, o)[1..]);
  }

  /** Every call creates its own directory, so the step is ready from anywhere. */
  lemma LayoutAndComponentReady(dirs: set<Path>, srcDir: Path, o: Options)
    ensures Ready(dirs, LayoutAndComponentOps(srcDir, o))
  {
    var ensure := EnsureDirOps(srcDir);
    ReadyWhenPlaced(dirs, ensure);
    if o.uiFramework == ChakraUI {
      ThemeReady(dirs, srcDir, o);
      ReadyAppend(dirs, ensure, ThemeOps(srcDir, o));
    } else {
      assert LayoutAndComponentOps(srcDir, o) == ensure;
    }
  }

  /** After a completed run the five directories exist, whatever the UI framework. */
  lemma EnsuredDirsExist(d: Disk, srcDir: Path, o: Options)
    requires RunOps(d, LayoutAndComponentOps(srcDir, o)).outcome.Normal?
    ensures forall i :: 0 <= i < 5 ==> EnsuredDirs(srcDir)[i] in RunOps(d, LayoutAndComponentOps(srcDir, o)).disk.dirs
  {
    var ds := EnsuredDirs(srcDir);
    var tail := if o.uiFramework == ChakraUI then ThemeOps(srcDir, o) else [];
    assert EnsureDirOps(srcDir) == MkdirAll(ds);
    BatchDirsRemain(d, ds, tail);
  }

}
