/**
 * `generateProject(targetDir, options)`: record the target directory in the
 * options, run the assembler of the chosen framework (the React one with a
 * derived `language`), ignore the status it resolves with, and finally write the
 * generic `README.md`.
 */
module Generator {
  import opened Config
  import opened Content
  import opened FileSystem
  import opened Pipeline
  import opened VueProject
  import opened ReactProject

  /** `{ ...options, projectPath: targetDir }`. */
  function Normalise(o: Options, targetDir: Path): (n: Options)
    ensures n.projectPath == Some(targetDir)
    ensures n.(projectPath := o.projectPath) == o
  {
    o.(projectPath := Some(targetDir))
  }

  /** `{ ...options, language: features.includes('typescript') ? 'TypeScript' : 'JavaScript' }`. */
  function ReactOptions(n: Options): (r: Options)
    ensures r.language.Some?
    ensures IsTS(r) <==> TypeScriptFeature in n.features
    ensures r.(language := n.language) == n
  {
    n.(language := Some(if TypeScriptFeature in n.features then TypeScript else JavaScript))
  }

  // ---------------------------------------------------------------------------
  // generateReadme

  /** The values `generateReadme` interpolates into its template. */
  function ReadmeOf(o: Options): ReadmeDoc
  {
    var frameworkName := FrameworkName(o.framework);
    var uiName := UiLabel(o.uiFramework);
    var testingName := TestLabel(o.unitTest);
    var ts := TypeScriptFeature in o.features;
    ReadmeDoc(
      o.projectName,
      frameworkName,
      uiName,
      testingName,
      FeatureList(o.features),
      "App." + (if ts then "tsx" else "jsx"),
      "main." + (if ts then "ts" else "js"),
      if ts then "tsconfig.json" else "",
      UnitTestName(o.unitTest) != NoUnitTestChoice,
      if frameworkName == "Vue 3" then "Vue Router" else "React Router",
      if frameworkName == "Vue 3" then "Pinia" else "Redux Toolkit",
      if uiName != NoneLabel then "集成" + uiName + "组件库" else "无UI框架依赖")
  }

  /** The one call `generateReadme(targetDir, options)` makes. */
  function ReadmeOp(targetDir: Path, o: Options): Op
  {
    Write(targetDir, FileName("README", "md"), Readme(ReadmeOf(o)))
  }

  /** `generateReadme(targetDir, options)`: one write of the document `ReadmeOf` describes. */
  method GenerateReadme(fs: FileSystem, targetDir: Path, o: Options) returns (out: Outcome)
    modifies fs
    ensures Run(out, fs.Snapshot()) == Apply(old(fs.Snapshot()), ReadmeOp(targetDir, o))
  {
    out := fs.WriteFile(targetDir, FileName("README", "md"), Readme(ReadmeOf(o)));
  }

  /**
   * The labels: `无` exactly when nothing was chosen, the test section exactly when
   * a test framework was chosen, Vue Router and Pinia exactly for Vue 3, and the
   * file names of the tree from the `typescript` feature.
   */
  lemma ReadmeLabels(o: Options)
    ensures ReadmeOf(o).uiLabel == NoneLabel <==> o.uiFramework == NoUiFramework
    ensures o.uiFramework != NoUiFramework ==> ReadmeOf(o).uiLabel == UiFrameworkName(o.uiFramework)
    ensures ReadmeOf(o).testLabel == NoneLabel <==> o.unitTest == NoUnitTest
    ensures o.unitTest != NoUnitTest ==> ReadmeOf(o).testLabel == UnitTestName(o.unitTest)
    ensures ReadmeOf(o).hasTestSection <==> o.unitTest != NoUnitTest
    ensures ReadmeOf(o).routerLabel == "Vue Router" <==> o.framework == Vue3
    ensures ReadmeOf(o).routerLabel == "React Router" <==> o.framework != Vue3
    ensures ReadmeOf(o).stateLabel == "Pinia" <==> o.framework == Vue3
    ensures ReadmeOf(o).stateLabel == "Redux Toolkit" <==> o.framework != Vue3
    ensures ReadmeOf(o).uiComponentsLabel == "无UI框架依赖" <==> o.uiFramework == NoUiFramework
    ensures ReadmeOf(o).mainFile == "main.ts" <==> TypeScriptFeature in o.features
    ensures ReadmeOf(o).tsconfigEntry == "tsconfig.json" <==> TypeScriptFeature in o.features
    ensures ReadmeOf(o).featureList == "" <==> o.features == []
    ensures forall p: Options :: ReadmeOf(p).featureList == ReadmeOf(o).featureList ==> p.features == o.features
  {
    forall p: Options | ReadmeOf(p).featureList == ReadmeOf(o).featureList
      ensures p.features == o.features
    {
      FeatureListInjective(p.features, o.features);
    }
    var u := o.uiFramework;
    assert UiFrameworkName(u) == NoUiChoice <==> u == NoUiFramework;
    assert UiFrameworkName(u) != NoneLabel;
    assert UnitTestName(o.unitTest) == NoUnitTestChoice <==> o.unitTest == NoUnitTest;
    assert UnitTestName(o.unitTest) != NoneLabel;
    if u != NoUiFramework {
      assert ("集成" + UiFrameworkName(u) + "组件库")[0] != "无UI框架依赖"[0];
    }
    assert ("main." + "js")[5] != "main.ts"[5];
  }

  // ---------------------------------------------------------------------------
  // generateProject

  /**
   * The assembler `generateProject` awaits, as the value it leaves: the Vue one for
   * `'Vue 3'`, the React one for `'React'`, none for any other framework string.
   */
  function Dispatch(d: Disk, targetDir: Path, o: Options, reactPackageFault: Option<string>): (a: Option<Assembly>)
    ensures a.Some? <==> o.framework == Vue3 || o.framework == React
    ensures o.framework == Vue3 ==> a == Some(VueAssembly(d, Normalise(o, targetDir)))
    ensures o.framework == React ==> a == Some(ReactAssembly(d, ReactOptions(Normalise(o, targetDir)), reactPackageFault))
  {
    var n := Normalise(o, targetDir);
    if FrameworkName(n.framework) == "Vue 3" then Some(VueAssembly(d, n))
    else if FrameworkName(n.framework) == "React" then Some(ReactAssembly(d, ReactOptions(n), reactPackageFault))
    else None
  }

  /**
   * What `generateProject(targetDir, options)` does: a rejected assembler call
   * rejects it before the README; otherwise the assembler's status is dropped and
   * the README is written.
   */
  function Generate(d: Disk, targetDir: Path, o: Options, reactPackageFault: Option<string>): Run
  {
    var a := Dispatch(d, targetDir, o, reactPackageFault);
    if a.Some? && a.value.settled.Rejected? then Run(Thrown(a.value.settled.error), a.value.disk)
    else
      var before := if a.Some? then a.value.disk else d;
      Apply(before, ReadmeOp(targetDir, Normalise(o, targetDir)))
  }

  /** The `if`/`else if` of `generateProject`: at most one assembler is awaited. */
  method RunAssembler(fs: FileSystem, targetDir: Path, o: Options, reactPackageFault: Option<string>)
    returns (settled: Option<Settled>)
    modifies fs
    ensures var a := Dispatch(old(fs.Snapshot()), targetDir, o, reactPackageFault);
      && settled == (if a.Some? then Some(a.value.settled) else None)
      && fs.Snapshot() == (if a.Some? then a.value.disk else old(fs.Snapshot()))
  {
    var options := Normalise(o, targetDir);
    if FrameworkName(options.framework) == "Vue 3" {
      var res := CreateVueProject(fs, options);
      settled := Some(res);
    } else if FrameworkName(options.framework) == "React" {
      var res := CreateReactProject(fs, ReactOptions(options), reactPackageFault);
      settled := Some(res);
    } else {
      settled := None;
    }
  }

  /**
   * `generateProject`. The React `createPackageJson` is not part of this model;
   * `reactPackageFault` says whether it fails.
   */
  method GenerateProject(fs: FileSystem, targetDir: Path, o: Options, reactPackageFault: Option<string>)
    returns (out: Outcome)
    modifies fs
    ensures Run(out, fs.Snapshot()) == Generate(old(fs.Snapshot()), targetDir, o, reactPackageFault)
  {
    var settled := RunAssembler(fs, targetDir, o, reactPackageFault);
    if settled.Some? && settled.value.Rejected? {
      return Thrown(settled.value.error);
    }
    out := GenerateReadme(fs, targetDir, Normalise(o, targetDir));
  }

  /**
   * The assembler's `{ success, message }` is discarded: a step that failed inside
   * the `try` does not make `generateProject` fail; only the README write can.
   */
  lemma StatusIsDiscarded(d: Disk, targetDir: Path, o: Options, reactPackageFault: Option<string>)
    requires Dispatch(d, targetDir, o, reactPackageFault).Some?
    requires Dispatch(d, targetDir, o, reactPackageFault).value.settled.Resolved?
    ensures var a := Dispatch(d, targetDir, o, reactPackageFault).value;
      Generate(d, targetDir, o, reactPackageFault) == Apply(a.disk, ReadmeOp(targetDir, Normalise(o, targetDir)))
  {
  }

  /** A rejected directory batch rejects `generateProject` too, and no README is written. */
  lemma RejectionSkipsReadme(d: Disk, targetDir: Path, o: Options, reactPackageFault: Option<string>)
    requires Dispatch(d, targetDir, o, reactPackageFault).Some?
    requires Dispatch(d, targetDir, o, reactPackageFault).value.settled.Rejected?
    ensures Generate(d, targetDir, o, reactPackageFault).outcome.Thrown?
    ensures Generate(d, targetDir, o, reactPackageFault).disk == Dispatch(d, targetDir, o, reactPackageFault).value.disk
  {
  }

  /**
   * When `generateProject` resolves, `targetDir/README.md` holds the generic README,
   * whatever an earlier step wrote there, and it was the last file written.
   */
  lemma ReadmeWrittenLast(d: Disk, targetDir: Path, o: Options, reactPackageFault: Option<string>)
    requires Generate(d, targetDir, o, reactPackageFault).outcome.Normal?
    ensures var r := Generate(d, targetDir, o, reactPackageFault);
      var p := Join(targetDir, FileName("README", "md"));
      && p in r.disk.files && r.disk.files[p] == Readme(ReadmeOf(Normalise(o, targetDir)))
      && |r.disk.log| > 0 && r.disk.log[|r.disk.log| - 1] == p
  {
  }

  /**
   * For any other framework string no assembler runs: with the target directory in
   * place (the command line creates it first) only the README is written.
   */
  lemma UnlistedWritesOnlyReadme(d: Disk, targetDir: Path, o: Options, reactPackageFault: Option<string>)
    requires o.framework.Unlisted?
    requires targetDir in d.dirs && Join(targetDir, FileName("README", "md")) !in d.faults
    ensures var r := Generate(d, targetDir, o, reactPackageFault);
      && r.outcome.Normal?
      && r.disk.log == d.log + [Join(targetDir, FileName("README", "md"))]
      && r.disk.files == d.files[Join(targetDir, FileName("README", "md")) := Readme(ReadmeOf(Normalise(o, targetDir)))]
  {
    var p := Join(targetDir, FileName("README", "md"));
    assert Parent(p) == targetDir;
  }

  /**
   * Options as the command line builds them, from the prompts and an optional
   * `[name]` argument, carry no `language`, so on the Vue track
   * `isTS` is always false and no step writes TypeScript, even when the `typescript`
   * feature is ticked; the README then still lists `main.ts` and `tsconfig.json`.
   */
  lemma VueNeverTypeScript(targetDir: Path, o: Options)
    requires FromPrompts(o) && o.framework == Vue3
    ensures !IsTS(Normalise(o, targetDir))
    ensures forall i :: 0 <= i < |VueSteps(Normalise(o, targetDir))| ==> NoTypeScript(VueSteps(Normalise(o, targetDir))[i].ops)
    ensures TypeScriptFeature in o.features ==> ReadmeOf(Normalise(o, targetDir)).mainFile == "main.ts"
  {
    VueWithoutTypeScript(Normalise(o, targetDir));
    ReadmeLabels(Normalise(o, targetDir));
  }

  /** On the React track the language follows the `typescript` feature exactly. */
  lemma ReactLanguageFollowsFeature(targetDir: Path, o: Options)
    ensures IsTS(ReactOptions(Normalise(o, targetDir))) <==> TypeScriptFeature in o.features
    ensures ReactOptions(Normalise(o, targetDir)).projectPath == Some(targetDir)
  {
  }
}
