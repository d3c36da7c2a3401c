/**
 * `createPackageJson` of the Vue track and the helpers it awaits: the manifest,
 * whose dependency tables and scripts are built by mutating objects under
 * conditions, then the Vite configuration, `.gitignore`, the TypeScript
 * configuration (TypeScript only), a README, the public files and the `.env` files.
 */
module VuePackage {
  import opened Config
  import opened Content
  import opened FileSystem
  import opened Pipeline

  // ---------------------------------------------------------------------------
  // The package name

  /** JavaScript's `\s`: the white-space and line-terminator code points. */
  predicate IsSpace(c: char)
  {
    || c == '\t' || c == '\n' || c == '\U{B}' || c == '\U{C}' || c == '\r' || c == ' '
    || c == '\U{A0}' || c == '\U{1680}' || ('\U{2000}' <= c <= '\U{200A}')
    || c == '\U{2028}' || c == '\U{2029}' || c == '\U{202F}' || c == '\U{205F}' || c == '\U{3000}' || c == '\U{FEFF}'
  }

  /** `toLowerCase` on one character, for the ASCII letters. */
  function Lower(c: char): (l: char)
    ensures IsSpace(l) <==> IsSpace(c)
    ensures !('A' <= l <= 'Z')
  {
    if 'A' <= c <= 'Z' then (c as int + 32) as char else c
  }

  function LowerCase(s: string): string
  {
    seq(|s|, i requires 0 <= i < |s| => Lower(s[i]))
  }

  /** What is left of `s` once its leading run of white space is dropped. */
  function SkipSpaces(s: string): (r: string)
    ensures |r| <= |s| && r == s[|s| - |r|..]
    ensures forall i :: 0 <= i < |s| - |r| ==> IsSpace(s[i])
    ensures r == [] || !IsSpace(r[0])
    decreases |s|
  {
    if s != [] && IsSpace(s[0]) then SkipSpaces(s[1..]) else s
  }

  /** `s.replace(/\s+/g, '-')`. */
  function Hyphenate(s: string): string
    decreases |s|
  {
    if s == [] then []
    else if IsSpace(s[0]) then "-" + Hyphenate(SkipSpaces(s))
    else [s[0]] + Hyphenate(s[1..])
  }

  /** `options.projectName.toLowerCase().replace(/\s+/g, '-')`. */
  function PackageName(projectName: string): string
  {
    Hyphenate(LowerCase(projectName))
  }

  /** Every character of the result is a hyphen or a character of the input. */
  lemma {:induction false} HyphenateDrawsFrom(s: string)
    ensures forall i :: 0 <= i < |Hyphenate(s)| ==> Hyphenate(s)[i] == '-' || Hyphenate(s)[i] in s
    decreases |s|
  {
    if s != [] {
      if IsSpace(s[0]) {
        var r := SkipSpaces(s);
        HyphenateDrawsFrom(r);
        assert forall c :: c in r ==> c in s;
      } else {
        HyphenateDrawsFrom(s[1..]);
      }
    }
  }

  /** The result holds no white space. */
  lemma {:induction false} HyphenateHasNoSpace(s: string)
    ensures forall i :: 0 <= i < |Hyphenate(s)| ==> !IsSpace(Hyphenate(s)[i])
    decreases |s|
  {
    if s != [] {
      if IsSpace(s[0]) {
        HyphenateHasNoSpace(SkipSpaces(s));
      } else {
        HyphenateHasNoSpace(s[1..]);
      }
    }
  }

  /** A string without white space is left as it is. */
  lemma {:induction false} HyphenateKeepsWords(s: string)
    requires forall i :: 0 <= i < |s| ==> !IsSpace(s[i])
    ensures Hyphenate(s) == s
    decreases |s|
  {
    if s != [] {
      HyphenateKeepsWords(s[1..]);
    }
  }

  /** A maximal run of white space, however long, becomes a single hyphen. */
  lemma {:induction false} HyphenateCollapsesRun(w: string, rest: string)
    requires w != [] && forall i :: 0 <= i < |w| ==> IsSpace(w[i])
    requires rest == [] || !IsSpace(rest[0])
    ensures Hyphenate(w + rest) == "-" + Hyphenate(rest)
  {
    SkipsRun(w, rest);
  }

  lemma {:induction false} SkipsRun(w: string, rest: string)
    requires forall i :: 0 <= i < |w| ==> IsSpace(w[i])
    requires rest == [] || !IsSpace(rest[0])
    ensures SkipSpaces(w + rest) == rest
    decreases |w|
  {
    if w == [] {
      assert w + rest == rest;
    } else {
      assert (w + rest)[1..] == w[1..] + rest;
      SkipsRun(w[1..], rest);
    }
  }

  /** The package name holds no white space. */
  lemma PackageNameHasNoSpace(projectName: string)
    ensures forall i :: 0 <= i < |PackageName(projectName)| ==> !IsSpace(PackageName(projectName)[i])
  {
    HyphenateHasNoSpace(LowerCase(projectName));
  }

  /** Deriving the package name from a package name changes nothing. */
  lemma PackageNameIdempotent(projectName: string)
    ensures PackageName(PackageName(projectName)) == PackageName(projectName)
  {
    var lowered := LowerCase(projectName);
    var name := Hyphenate(lowered);
    HyphenateDrawsFrom(lowered);
    HyphenateHasNoSpace(lowered);
    assert LowerCase(name) == name by {
      forall i | 0 <= i < |name|
        ensures Lower(name[i]) == name[i]
      {
        if name[i] != '-' {
          var j :| 0 <= j < |lowered| && lowered[j] == name[i];
        }
      }
    }
    HyphenateKeepsWords(name);
  }

  /** A name the prompt accepts has no white space, so it is only lower-cased. */
  lemma ValidNameIsOnlyLowered(projectName: string)
    requires ValidProjectName(projectName)
    ensures PackageName(projectName) == LowerCase(projectName)
  {
    HyphenateKeepsWords(LowerCase(projectName));
  }

  // ---------------------------------------------------------------------------
  // The manifest

  /** The version range the manifest gives each package it can list. */
  function Version(p: Package): string
  {
    match p
    case VuePkg => "^3.3.4"
    case VueRouterPkg => "^4.2.4"
    case PiniaPkg => "^2.1.6"
    case AxiosPkg => "^1.5.0"
    case ElementPlusPkg => "^2.3.7"
    case ElementPlusIconsPkg => "^2.1.0"
    case AntDesignVuePkg => "^4.0.0"
    case AntDesignIconsPkg => "^7.0.0"
    case VitePkg => "^4.4.9"
    case VitePluginVuePkg => "^4.3.4"
    case MockjsPkg => "^1.1.0"
    case TypeScriptPkg => "^5.2.2"
    case VueTscPkg => "^1.8.11"
    case JestPkg => "^29.6.2"
    case VueTestUtilsPkg => "^2.4.1"
    case BabelPresetEnvPkg => "^7.22.10"
    case TsJestPkg => "^29.1.1"
    case BabelPresetTypeScriptPkg => "^7.22.5"
    case VitestPkg => "^0.34.3"
    case JsdomPkg => "^22.1.0"
  }

  /** Which packages go into `dependencies`. */
  predicate IsDependency(o: Options, p: Package)
  {
    || p in {VuePkg, VueRouterPkg, PiniaPkg, AxiosPkg}
    || (o.uiFramework == ElementPlus && p in {ElementPlusPkg, ElementPlusIconsPkg})
    || (o.uiFramework == AntDesignVue && p in {AntDesignVuePkg, AntDesignIconsPkg})
  }

  /** Which packages go into `devDependencies`. */
  predicate IsDevDependency(o: Options, p: Package)
  {
    || p in {VitePkg, VitePluginVuePkg, MockjsPkg}
    || (IsTS(o) && p in {TypeScriptPkg, VueTscPkg})
    || (o.unitTest == Jest && p in {JestPkg, VueTestUtilsPkg, BabelPresetEnvPkg})
    || (o.unitTest == Jest && IsTS(o) && p in {TsJestPkg, BabelPresetTypeScriptPkg})
    || (o.unitTest == Vitest && p in {VitestPkg, VueTestUtilsPkg, JsdomPkg})
  }

  function Dependencies(o: Options): map<Package, string>
  {
    map p: Package | IsDependency(o, p) :: Version(p)
  }

  function DevDependencies(o: Options): map<Package, string>
  {
    map p: Package | IsDevDependency(o, p) :: Version(p)
  }

  /** The command the manifest gives a script, if it lists it. */
  function ScriptCommand(o: Options, s: Script): Option<string>
  {
    match s
    case DevScript => Some("vite --mode development")
    case FatScript => Some("vite --mode fat")
    case BuildScript => Some(if IsTS(o) then "vue-tsc && vite build" else "vite build")
    case BuildFatScript => Some("vite build --mode fat")
    case BuildProdScript => Some("vite build --mode production")
    case PreviewScript => Some("vite preview")
    case TypecheckScript => if IsTS(o) then Some("vue-tsc --noEmit") else None
    case TestScript =>
      if o.unitTest == Jest then Some("jest") else if o.unitTest == Vitest then Some("vitest run") else None
    case TestWatchScript => if o.unitTest == Vitest then Some("vitest") else None
  }

  const BaseScripts: set<Script> := {DevScript, FatScript, BuildScript, BuildFatScript, BuildProdScript, PreviewScript}

  function Scripts(o: Options): map<Script, string>
  {
    map s: Script | ScriptCommand(o, s).Some? :: ScriptCommand(o, s).value
  }

  /** The `package.json` object `createPackageJson` serialises. */
  function ManifestOf(o: Options): Manifest
  {
    Manifest(PackageName(o.projectName), "0.1.0", true, Scripts(o), Dependencies(o), DevDependencies(o))
  }

  /** Two maps with the same keys and the same value at each key are equal. */
  lemma SameKeysSameMap<K, V>(m: map<K, V>, n: map<K, V>)
    requires forall k :: k in m <==> k in n
    requires forall k :: k in m ==> m[k] == n[k]
    ensures m == n
  {
  }

  /** The base dependencies, then the UI framework's pair. */
  method BuildDependencies(o: Options) returns (dependencies: map<Package, string>)
    ensures forall p :: p in dependencies <==> IsDependency(o, p)
    ensures forall p :: p in dependencies ==> dependencies[p] == Version(p)
  {
    var isElementPlus := o.uiFramework == ElementPlus;
    var isAntDesignVue := o.uiFramework == AntDesignVue;
    dependencies := map[VuePkg := "^3.3.4", VueRouterPkg := "^4.2.4", PiniaPkg := "^2.1.6", AxiosPkg := "^1.5.0"];
    if isElementPlus {
      dependencies := dependencies[ElementPlusPkg := "^2.3.7"];
      dependencies := dependencies[ElementPlusIconsPkg := "^2.1.0"];
    } else if isAntDesignVue {
      dependencies := dependencies[AntDesignVuePkg := "^4.0.0"];
      dependencies := dependencies[AntDesignIconsPkg := "^7.0.0"];
    }
  }

  /** The base development dependencies, then TypeScript's, then the test runner's. */
  method BuildDevDependencies(o: Options) returns (devDependencies: map<Package, string>)
    ensures forall p :: p in devDependencies <==> IsDevDependency(o, p)
    ensures forall p :: p in devDependencies ==> devDependencies[p] == Version(p)
  {
    var isTS := IsTS(o);
    devDependencies := map[VitePkg := "^4.4.9", VitePluginVuePkg := "^4.3.4", MockjsPkg := "^1.1.0"];
    if isTS {
      devDependencies := devDependencies[TypeScriptPkg := "^5.2.2"];
      devDependencies := devDependencies[VueTscPkg := "^1.8.11"];
    }
    if o.unitTest == Jest {
      devDependencies := devDependencies[JestPkg := "^29.6.2"];
      devDependencies := devDependencies[VueTestUtilsPkg := "^2.4.1"];
      devDependencies := devDependencies[BabelPresetEnvPkg := "^7.22.10"];
      if isTS {
        devDependencies := devDependencies[TsJestPkg := "^29.1.1"];
        devDependencies := devDependencies[BabelPresetTypeScriptPkg := "^7.22.5"];
      }
    }
    if o.unitTest == Vitest {
      devDependencies := devDependencies[VitestPkg := "^0.34.3"];
      devDependencies := devDependencies[VueTestUtilsPkg := "^2.4.1"];
      devDependencies := devDependencies[JsdomPkg := "^22.1.0"];
    }
  }

  /** The six base scripts, then TypeScript's, then the test runner's. */
  method BuildScripts(o: Options) returns (scripts: map<Script, string>)
    ensures forall s :: s in scripts <==> ScriptCommand(o, s).Some?
    ensures forall s :: s in scripts ==> scripts[s] == ScriptCommand(o, s).value
  {
    var isTS := IsTS(o);
    scripts := map[
      DevScript := "vite --mode development", FatScript := "vite --mode fat", BuildScript := "vite build",
      BuildFatScript := "vite build --mode fat", BuildProdScript := "vite build --mode production",
      PreviewScript := "vite preview"];
    if isTS {
      scripts := scripts[BuildScript := if isTS then "vue-tsc && vite build" else "vite build"];
      scripts := scripts[TypecheckScript := "vue-tsc --noEmit"];
    }
    if o.unitTest == Jest {
      scripts := scripts[TestScript := "jest"];
    } else if o.unitTest == Vitest {
      scripts := scripts[TestScript := "vitest run"];
      scripts := scripts[TestWatchScript := "vitest"];
    }
  }

  /** The object `createPackageJson` builds before writing it. */
  method BuildManifest(o: Options) returns (m: Manifest)
    ensures m == ManifestOf(o)
  {
    var dependencies := BuildDependencies(o);
    var devDependencies := BuildDevDependencies(o);
    var scripts := BuildScripts(o);
    SameKeysSameMap(dependencies, Dependencies(o));
    SameKeysSameMap(devDependencies, DevDependencies(o));
    SameKeysSameMap(scripts, Scripts(o));
    m := Manifest(PackageName(o.projectName), "0.1.0", true, scripts, dependencies, devDependencies);
  }

  /**
   * The Vue core is always there; each UI framework's pair is there exactly when
   * it is chosen, so never both; nothing else is listed.
   */
  lemma DependencyRules(o: Options)
    ensures forall p :: p in {VuePkg, VueRouterPkg, PiniaPkg, AxiosPkg} ==> p in Dependencies(o)
    ensures ElementPlusPkg in Dependencies(o) <==> o.uiFramework == ElementPlus
    ensures ElementPlusIconsPkg in Dependencies(o) <==> o.uiFramework == ElementPlus
    ensures AntDesignVuePkg in Dependencies(o) <==> o.uiFramework == AntDesignVue
    ensures AntDesignIconsPkg in Dependencies(o) <==> o.uiFramework == AntDesignVue
    ensures !(ElementPlusPkg in Dependencies(o) && AntDesignVuePkg in Dependencies(o))
    ensures forall p :: p in Dependencies(o) ==> Dependencies(o)[p] == Version(p) && IsDependency(o, p)
  {
  }

  /**
   * The build tooling is always there; the TypeScript pair exactly under
   * TypeScript; Jest's three exactly for Jest, and its TypeScript pair only for
   * Jest with TypeScript; Vitest's three exactly for Vitest.
   */
  lemma DevDependencyRules(o: Options)
    ensures forall p :: p in {VitePkg, VitePluginVuePkg, MockjsPkg} ==> p in DevDependencies(o)
    ensures TypeScriptPkg in DevDependencies(o) <==> IsTS(o)
    ensures VueTscPkg in DevDependencies(o) <==> IsTS(o)
    ensures JestPkg in DevDependencies(o) <==> o.unitTest == Jest
    ensures BabelPresetEnvPkg in DevDependencies(o) <==> o.unitTest == Jest
    ensures TsJestPkg in DevDependencies(o) <==> o.unitTest == Jest && IsTS(o)
    ensures BabelPresetTypeScriptPkg in DevDependencies(o) <==> o.unitTest == Jest && IsTS(o)
    ensures VitestPkg in DevDependencies(o) <==> o.unitTest == Vitest
    ensures JsdomPkg in DevDependencies(o) <==> o.unitTest == Vitest
    ensures VueTestUtilsPkg in DevDependencies(o) <==> o.unitTest in {Jest, Vitest}
    ensures forall p :: p in DevDependencies(o) ==> p !in Dependencies(o)
  {
  }

  /**
   * The six base scripts are always there; `build` runs `vue-tsc` first and
   * `typecheck` exists exactly under TypeScript; `test` is `jest` for Jest and
   * `vitest run` for Vitest, which alone adds `test:watch`.
   */
  lemma ScriptRules(o: Options)
    ensures forall s :: s in BaseScripts ==> s in Scripts(o)
    ensures Scripts(o)[BuildScript] == if IsTS(o) then "vue-tsc && vite build" else "vite build"
    ensures TypecheckScript in Scripts(o) <==> IsTS(o)
    ensures TestScript in Scripts(o) <==> o.unitTest in {Jest, Vitest}
    ensures o.unitTest == Jest ==> Scripts(o)[TestScript] == "jest"
    ensures o.unitTest == Vitest ==> Scripts(o)[TestScript] == "vitest run" && Scripts(o)[TestWatchScript] == "vitest"
    ensures TestWatchScript in Scripts(o) <==> o.unitTest == Vitest
  {
  }

  // ---------------------------------------------------------------------------
  // The files

  /** Where `createPublicFiles` copies the Vite logo from. */
  const ViteLogo: string := "node_modules/vite/dist/client/vite.svg"

  /** `path.join(projectPath, 'public')`. */
  function PublicDir(projectPath: Path): Path
  {
    projectPath + ["public"]
  }

  function ManifestOps(projectPath: Path, o: Options): seq<Op>
  {
    [ Write(projectPath, FileName("package", "json"), PackageJson(ManifestOf(o))) ]
  }

  /** `createViteConfig`: both branches hold one text; only the extension differs. */
  function ViteConfigOps(projectPath: Path, o: Options): seq<Op>
  {
    [ Write(projectPath, FileName("vite.config", ScriptExt(o)), Source("vue/vite.config", Shared, [])) ]
  }

  function GitignoreOps(projectPath: Path): seq<Op>
  {
    [ Write(projectPath, FileName("", "gitignore"), Source("vue/gitignore", Shared, [])) ]
  }

  function TsConfigOps(projectPath: Path): seq<Op>
  {
    [ Write(projectPath, FileName("tsconfig", "json"), Source("vue/tsconfig", Shared, [])),
      Write(projectPath, FileName("tsconfig.node", "json"), Source("vue/tsconfig.node", Shared, [])) ]
  }

  /** `createTsConfig` is awaited only under TypeScript. */
  function TsConfigStepOps(projectPath: Path, o: Options): seq<Op>
  {
    if IsTS(o) then TsConfigOps(projectPath) else []
  }

  /**
   * The lines `createReadme` fills in: the title, the UI, test and feature lines,
   * the test section only when a test tool was chosen, and the UI-components line.
   */
  function ReadmeMarks(o: Options): seq<Mark>
  {
    [ Title(o.projectName), UiLine(UiLabel(o.uiFramework)), TestLine(TestLabel(o.unitTest)),
      FeaturesLine(FeatureList(o.features)) ]
    + (if UnitTestName(o.unitTest) != NoUnitTestChoice then [TestSection] else [])
    + [ UiComponentsLine(
          if UiFrameworkName(o.uiFramework) != NoUiChoice then "集成 " + UiFrameworkName(o.uiFramework) + " 组件库"
          else "无UI框架依赖") ]
  }

  /** `createReadme`: a README describing the project; its tree lists `main.ts` or `main.js`. */
  function ReadmeOps(projectPath: Path, o: Options): seq<Op>
  {
    [ Write(projectPath, FileName("README", "md"), Source("vue/README", ForLang(LangOf(o)), ReadmeMarks(o))) ]
  }

  /** `createPublicFiles`: the `public` directory, `index.html`, then the logo or a placeholder. */
  function PublicOps(projectPath: Path, o: Options): seq<Op>
  {
    [ Mkdir(PublicDir(projectPath)),
      Write(projectPath, FileName("index", "html"),
        Source("vue/index.html", Shared, [Title(o.projectName), EntryScript("main." + ScriptExt(o))])),
      CopyOrWrite(PublicDir(projectPath), FileName("vite", "svg"), ViteLogo, Source("vue/vite.svg", Shared, [])) ]
  }

  /** `createEnvFiles`: only the development file turns the mock server on. */
  function EnvOps(projectPath: Path, o: Options): seq<Op>
  {
    [ Write(projectPath, FileName("", "env"), Source("vue/env", Shared, [Title(o.projectName)])),
      Write(projectPath, FileName(".env", "development"), Source("vue/env.development", Shared, [MockFlag(true)])),
      Write(projectPath, FileName(".env", "fat"), Source("vue/env.fat", Shared, [MockFlag(false)])),
      Write(projectPath, FileName(".env", "production"), Source("vue/env.production", Shared, [MockFlag(false)])) ]
  }

  /** The calls `createPackageJson(projectPath, options)` makes, helper by helper. */
  function PackageOps(projectPath: Path, o: Options): seq<Op>
  {
    ManifestOps(projectPath, o)
    + (ViteConfigOps(projectPath, o)
    + (GitignoreOps(projectPath)
    + (TsConfigStepOps(projectPath, o)
    + (ReadmeOps(projectPath, o)
    + (PublicOps(projectPath, o)
    + EnvOps(projectPath, o))))))
  }

  method CreateViteConfig(fs: FileSystem, projectPath: Path, o: Options) returns (out: Outcome)
    modifies fs
    ensures Run(out, fs.Snapshot()) == RunOps(old(fs.Snapshot()), ViteConfigOps(projectPath, o))
  {
    var isTS := IsTS(o);
    var fileExt := if isTS then "ts" else "js";
    var viteConfigContent := Empty;
    if isTS {
      viteConfigContent := Source("vue/vite.config", Shared, []);
    } else {
      viteConfigContent := Source("vue/vite.config", Shared, []);
    }
    out := fs.WriteFile(projectPath, FileName("vite.config", fileExt), viteConfigContent);
    assert ViteConfigOps(projectPath, o)[1..] == [];
  }

  method CreateGitignore(fs: FileSystem, projectPath: Path) returns (out: Outcome)
    modifies fs
    ensures Run(out, fs.Snapshot()) == RunOps(old(fs.Snapshot()), GitignoreOps(projectPath))
  {
    out := fs.WriteFile(projectPath, FileName("", "gitignore"), Source("vue/gitignore", Shared, []));
    assert GitignoreOps(projectPath)[1..] == [];
  }

  method CreateTsConfig(fs: FileSystem, projectPath: Path) returns (out: Outcome)
    modifies fs
    ensures Run(out, fs.Snapshot()) == RunOps(old(fs.Snapshot()), TsConfigOps(projectPath))
  {
    ghost var rest := TsConfigOps(projectPath);
    ghost var d := fs.Snapshot();
    out := fs.WriteFile(projectPath, FileName("tsconfig", "json"), Source("vue/tsconfig", Shared, []));
    if out.Thrown? { Stop(d, rest, Run(out, fs.Snapshot())); return; }
    Continue(d, rest, fs.Snapshot());
    rest, d := rest[1..], fs.Snapshot();

    out := fs.WriteFile(projectPath, FileName("tsconfig.node", "json"), Source("vue/tsconfig.node", Shared, []));
    Last(d, rest, Run(out, fs.Snapshot()));
  }

  method CreateReadme(fs: FileSystem, projectPath: Path, o: Options) returns (out: Outcome)
    modifies fs
    ensures Run(out, fs.Snapshot()) == RunOps(old(fs.Snapshot()), ReadmeOps(projectPath, o))
  {
    var uiName := UiFrameworkName(o.uiFramework);
    var section := if UnitTestName(o.unitTest) != NoUnitTestChoice then [TestSection] else [];
    var uiComponents := if uiName != NoUiChoice then "集成 " + uiName + " 组件库" else "无UI框架依赖";
    var readmeContent := Source("vue/README", ForLang(LangOf(o)),
      [ Title(o.projectName), UiLine(UiLabel(o.uiFramework)), TestLine(TestLabel(o.unitTest)),
        FeaturesLine(FeatureList(o.features)) ] + section + [UiComponentsLine(uiComponents)]);
    out := fs.WriteFile(projectPath, FileName("README", "md"), readmeContent);
    assert ReadmeOps(projectPath, o)[1..] == [];
  }

  /**
   * The README follows the options: `无` exactly when no UI library or test tool was
   * chosen, the test section exactly when a test tool was, and the chosen names otherwise.
   */
  lemma ReadmeFollowsOptions(projectPath: Path, o: Options)
    ensures var m := ReadmeOps(projectPath, o)[0].content.marks;
      && Title(o.projectName) in m
      && (UiLine(NoneLabel) in m <==> o.uiFramework == NoUiFramework)
      && (o.uiFramework != NoUiFramework ==> UiLine(UiFrameworkName(o.uiFramework)) in m)
      && (TestLine(NoneLabel) in m <==> o.unitTest == NoUnitTest)
      && (o.unitTest != NoUnitTest ==> TestLine(UnitTestName(o.unitTest)) in m)
      && (FeaturesLine("") in m <==> o.features == [])
      && (TestSection in m <==> o.unitTest != NoUnitTest)
      && (UiComponentsLine("无UI框架依赖") in m <==> o.uiFramework == NoUiFramework)
  {
    var u, t := o.uiFramework, o.unitTest;
    var m := ReadmeMarks(o);
    assert ReadmeOps(projectPath, o)[0].content.marks == m;
    LabelsFollowChoice(u, t);
    var components := m[|m| - 1].text;
    assert m[|m| - 1] == UiComponentsLine(components);
    assert components == "无UI框架依赖" <==> u == NoUiFramework by {
      if u != NoUiFramework {
        assert components[0] != "无UI框架依赖"[0];
      }
    }
    assert Title(o.projectName) in m;
    assert UiLine(NoneLabel) in m <==> u == NoUiFramework;
    assert TestLine(NoneLabel) in m <==> t == NoUnitTest;
    assert FeaturesLine("") in m <==> o.features == [];
    assert TestSection in m <==> t != NoUnitTest;
    assert UiComponentsLine("无UI框架依赖") in m <==> u == NoUiFramework;
  }

  /** `无` stands for no choice, and a real choice prints its own name. */
  lemma LabelsFollowChoice(u: UiFramework, t: UnitTest)
    ensures UiLabel(u) == NoneLabel <==> u == NoUiFramework
    ensures u != NoUiFramework ==> UiLabel(u) == UiFrameworkName(u)
    ensures TestLabel(t) == NoneLabel <==> t == NoUnitTest
    ensures t != NoUnitTest ==> TestLabel(t) == UnitTestName(t)
    ensures UiFrameworkName(u) == NoUiChoice <==> u == NoUiFramework
    ensures UnitTestName(t) == NoUnitTestChoice <==> t == NoUnitTest
  {
    assert UiFrameworkName(u) != NoneLabel;
    assert UnitTestName(t) != NoneLabel;
  }

  /** Two configurations whose READMEs agree chose the same name, UI library, test tool and features. */
  lemma ReadmeDistinguishes(projectPath: Path, o: Options, p: Options)
    requires ReadmeOps(projectPath, o) == ReadmeOps(projectPath, p)
    ensures o.projectName == p.projectName && o.uiFramework == p.uiFramework
    ensures o.unitTest == p.unitTest && o.features == p.features
  {
    var m, n := ReadmeMarks(o), ReadmeMarks(p);
    assert m == n;
    assert m[0] == Title(o.projectName) && n[0] == Title(p.projectName);
    assert m[1] == UiLine(UiLabel(o.uiFramework)) && n[1] == UiLine(UiLabel(p.uiFramework));
    assert m[2] == TestLine(TestLabel(o.unitTest)) && n[2] == TestLine(TestLabel(p.unitTest));
    assert m[3] == FeaturesLine(FeatureList(o.features)) && n[3] == FeaturesLine(FeatureList(p.features));
    FeatureListInjective(o.features, p.features);
    assert UiLabel(o.uiFramework) == UiLabel(p.uiFramework);
    assert TestLabel(o.unitTest) == TestLabel(p.unitTest);
  }

  /** The copy's rejection is caught and replaced by writing the placeholder; that write may throw. */
  method CreatePublicFiles(fs: FileSystem, projectPath: Path, o: Options) returns (out: Outcome)
    modifies fs
    ensures Run(out, fs.Snapshot()) == RunOps(old(fs.Snapshot()), PublicOps(projectPath, o))
  {
    ghost var rest := PublicOps(projectPath, o);
    ghost var d := fs.Snapshot();
    out := fs.MakeDirectory(projectPath + ["public"]);
    if out.Thrown? { Stop(d, rest, Run(out, fs.Snapshot())); return; }
    Continue(d, rest, fs.Snapshot());
    rest, d := rest[1..], fs.Snapshot();

    var entry := "main." + (if IsTS(o) then "ts" else "js");
    var indexHtmlContent := Source("vue/index.html", Shared, [Title(o.projectName), EntryScript(entry)]);
    out := fs.WriteFile(projectPath, FileName("index", "html"), indexHtmlContent);
    if out.Thrown? { Stop(d, rest, Run(out, fs.Snapshot())); return; }
    Continue(d, rest, fs.Snapshot());
    rest, d := rest[1..], fs.Snapshot();

    out := fs.CopyFile(ViteLogo, projectPath + ["public"], FileName("vite", "svg"));
    if out.Thrown? {
      out := fs.WriteFile(projectPath + ["public"], FileName("vite", "svg"), Source("vue/vite.svg", Shared, []));
    }
    assert rest == [CopyOrWrite(PublicDir(projectPath), FileName("vite", "svg"), ViteLogo, Source("vue/vite.svg", Shared, []))];
    Last(d, rest, Run(out, fs.Snapshot()));
  }

  method CreateEnvFiles(fs: FileSystem, projectPath: Path, o: Options) returns (out: Outcome)
    modifies fs
    ensures Run(out, fs.Snapshot()) == RunOps(old(fs.Snapshot()), EnvOps(projectPath, o))
  {
    ghost var rest := EnvOps(projectPath, o);
    ghost var d := fs.Snapshot();
    out := fs.WriteFile(projectPath, FileName("", "env"), Source("vue/env", Shared, [Title(o.projectName)]));
    if out.Thrown? { Stop(d, rest, Run(out, fs.Snapshot())); return; }
    Continue(d, rest, fs.Snapshot());
    rest, d := rest[1..], fs.Snapshot();

    out := fs.WriteFile(projectPath, FileName(".env", "development"), Source("vue/env.development", Shared, [MockFlag(true)]));
    if out.Thrown? { Stop(d, rest, Run(out, fs.Snapshot())); return; }
    Continue(d, rest, fs.Snapshot());
    rest, d := rest[1..], fs.Snapshot();

    out := fs.WriteFile(projectPath, FileName(".env", "fat"), Source("vue/env.fat", Shared, [MockFlag(false)]));
    if out.Thrown? { Stop(d, rest, Run(out, fs.Snapshot())); return; }
    Continue(d, rest, fs.Snapshot());
    rest, d := rest[1..], fs.Snapshot();

    out := fs.WriteFile(projectPath, FileName(".env", "production"), Source("vue/env.production", Shared, [MockFlag(false)]));
    Last(d, rest, Run(out, fs.Snapshot()));
  }

  /** The manifest, the Vite configuration and `.gitignore`, then the rest of the package step. */
  method CreatePackageJson(fs: FileSystem, projectPath: Path, o: Options) returns (out: Outcome)
    modifies fs
    ensures Run(out, fs.Snapshot()) == RunOps(old(fs.Snapshot()), PackageOps(projectPath, o))
  {
    var isTS := IsTS(o);
    var packageJson := BuildManifest(o);
    ghost var d := fs.Snapshot();
    ghost var rest := ViteConfigOps(projectPath, o) + (GitignoreOps(projectPath) + (TsConfigStepOps(projectPath, o)
      + (ReadmeOps(projectPath, o) + (PublicOps(projectPath, o) + EnvOps(projectPath, o)))));
    out := fs.WriteFile(projectPath, FileName("package", "json"), PackageJson(packageJson));
    if out.Thrown? {
      StopWith(d, ManifestOps(projectPath, o), rest, Run(out, fs.Snapshot()));
      return;
    }
    ContinueWith(d, ManifestOps(projectPath, o), rest, fs.Snapshot());
    d := fs.Snapshot();

    rest := GitignoreOps(projectPath) + (TsConfigStepOps(projectPath, o)
      + (ReadmeOps(projectPath, o) + (PublicOps(projectPath, o) + EnvOps(projectPath, o))));
    out := CreateViteConfig(fs, projectPath, o);
    if out.Thrown? {
      StopWith(d, ViteConfigOps(projectPath, o), rest, Run(out, fs.Snapshot()));
      return;
    }
    ContinueWith(d, ViteConfigOps(projectPath, o), rest, fs.Snapshot());
    d := fs.Snapshot();

    rest := TsConfigStepOps(projectPath, o) + (ReadmeOps(projectPath, o) + (PublicOps(projectPath, o) + EnvOps(projectPath, o)));
    out := CreateGitignore(fs, projectPath);
    if out.Thrown? {
      StopWith(d, GitignoreOps(projectPath), rest, Run(out, fs.Snapshot()));
      return;
    }
    ContinueWith(d, GitignoreOps(projectPath), rest, fs.Snapshot());
    d := fs.Snapshot();

    out := CreateRest(fs, projectPath, o);
  }

  /** The TypeScript configuration (TypeScript only), the README, the public files and the `.env` files. */
  method CreateRest(fs: FileSystem, projectPath: Path, o: Options) returns (out: Outcome)
    modifies fs
    ensures Run(out, fs.Snapshot()) == RunOps(old(fs.Snapshot()), TsConfigStepOps(projectPath, o)
      + (ReadmeOps(projectPath, o) + (PublicOps(projectPath, o) + EnvOps(projectPath, o))))
  {
    var isTS := IsTS(o);
    ghost var d := fs.Snapshot();
    ghost var rest := ReadmeOps(projectPath, o) + (PublicOps(projectPath, o) + EnvOps(projectPath, o));
    if isTS {
      out := CreateTsConfig(fs, projectPath);
      if out.Thrown? {
        StopWith(d, TsConfigStepOps(projectPath, o), rest, Run(out, fs.Snapshot()));
        return;
      }
      ContinueWith(d, TsConfigStepOps(projectPath, o), rest, fs.Snapshot());
      d := fs.Snapshot();
    } else {
      assert TsConfigStepOps(projectPath, o) + rest == rest;
    }

    rest := PublicOps(projectPath, o) + EnvOps(projectPath, o);
    out := CreateReadme(fs, projectPath, o);
    if out.Thrown? {
      StopWith(d, ReadmeOps(projectPath, o), rest, Run(out, fs.Snapshot()));
      return;
    }
    ContinueWith(d, ReadmeOps(projectPath, o), rest, fs.Snapshot());
    d := fs.Snapshot();

    out := CreatePublicFiles(fs, projectPath, o);
    if out.Thrown? {
      StopWith(d, PublicOps(projectPath, o), EnvOps(projectPath, o), Run(out, fs.Snapshot()));
      return;
    }
    ContinueWith(d, PublicOps(projectPath, o), EnvOps(projectPath, o), fs.Snapshot());

    out := CreateEnvFiles(fs, projectPath, o);
  }

  // ---------------------------------------------------------------------------
  // What the package step writes

  lemma TsConfigWrites(projectPath: Path, o: Options)
    ensures Writes(TsConfigStepOps(projectPath, o)) ==
      if IsTS(o) then [Join(projectPath, FileName("tsconfig", "json")), Join(projectPath, FileName("tsconfig.node", "json"))] else []
  {
    var ts := TsConfigStepOps(projectPath, o);
    if IsTS(o) {
      WritesOfTwo(ts[0], ts[1]);
      assert ts == [ts[0], ts[1]];
    }
  }

  lemma PublicWrites(projectPath: Path, o: Options)
    ensures Writes(PublicOps(projectPath, o)) ==
      [Join(projectPath, FileName("index", "html")), Join(PublicDir(projectPath), FileName("vite", "svg"))]
  {
    var public := PublicOps(projectPath, o);
    WritesOfThree(public[0], public[1], public[2]);
    assert public == [public[0], public[1], public[2]];
  }

  lemma EnvWrites(projectPath: Path, o: Options)
    ensures Writes(EnvOps(projectPath, o)) ==
      [ Join(projectPath, FileName("", "env")), Join(projectPath, FileName(".env", "development")),
        Join(projectPath, FileName(".env", "fat")), Join(projectPath, FileName(".env", "production")) ]
  {
    var env := EnvOps(projectPath, o);
    WritesOfFour(env[0], env[1], env[2], env[3]);
    assert env == [env[0], env[1], env[2], env[3]];
  }

  /** The last three helpers: the README, the public files and the `.env` files. */
  lemma TailWrites(projectPath: Path, o: Options)
    ensures Writes(ReadmeOps(projectPath, o) + (PublicOps(projectPath, o) + EnvOps(projectPath, o))) ==
      [ Join(projectPath, FileName("README", "md")), Join(projectPath, FileName("index", "html")),
        Join(PublicDir(projectPath), FileName("vite", "svg")),
        Join(projectPath, FileName("", "env")), Join(projectPath, FileName(".env", "development")),
        Join(projectPath, FileName(".env", "fat")), Join(projectPath, FileName(".env", "production")) ]
  {
    var readme, public, env := ReadmeOps(projectPath, o), PublicOps(projectPath, o), EnvOps(projectPath, o);
    PublicWrites(projectPath, o);
    EnvWrites(projectPath, o);
    WritesAppend(public, env);
    WritesAppend(readme, public + env);
    assert readme[1..] == [];
  }

  /** `package.json`, `vite.config.*` and `.gitignore` come first, whatever follows. */
  lemma HeadWrites(projectPath: Path, o: Options, rest: seq<Op>)
    ensures Writes(ManifestOps(projectPath, o) + (ViteConfigOps(projectPath, o) + (GitignoreOps(projectPath) + rest))) ==
      [ Join(projectPath, FileName("package", "json")), Join(projectPath, FileName("vite.config", ScriptExt(o))),
        Join(projectPath, FileName("", "gitignore")) ] + Writes(rest)
  {
    var manifest, vite, git := ManifestOps(projectPath, o)[0], ViteConfigOps(projectPath, o)[0], GitignoreOps(projectPath)[0];
    WritesAfterOne(git, rest);
    WritesAfterOne(vite, [git] + rest);
    WritesAfterOne(manifest, [vite] + ([git] + rest));
  }

  /**
   * Every file lands in the project directory (the logo in `public/`), in this
   * order, and the two `tsconfig` files only under TypeScript.
   */
  lemma PackageWrites(projectPath: Path, o: Options)
    ensures Writes(PackageOps(projectPath, o)) ==
      [ Join(projectPath, FileName("package", "json")), Join(projectPath, FileName("vite.config", ScriptExt(o))),
        Join(projectPath, FileName("", "gitignore")) ]
      + ((if IsTS(o) then [Join(projectPath, FileName("tsconfig", "json")), Join(projectPath, FileName("tsconfig.node", "json"))] else [])
      + [ Join(projectPath, FileName("README", "md")), Join(projectPath, FileName("index", "html")),
          Join(PublicDir(projectPath), FileName("vite", "svg")),
          Join(projectPath, FileName("", "env")), Join(projectPath, FileName(".env", "development")),
          Join(projectPath, FileName(".env", "fat")), Join(projectPath, FileName(".env", "production")) ])
  {
    var pp := projectPath;
    var ts, tail := TsConfigStepOps(pp, o), ReadmeOps(pp, o) + (PublicOps(pp, o) + EnvOps(pp, o));
    HeadWrites(pp, o, ts + tail);
    WritesAppend(ts, tail);
    TsConfigWrites(pp, o);
    TailWrites(pp, o);
  }

  /** `tsconfig.json` is written exactly under TypeScript. */
  lemma TsConfigOnlyForTypeScript(projectPath: Path, o: Options)
    ensures Join(projectPath, FileName("tsconfig", "json")) in Writes(PackageOps(projectPath, o)) <==> IsTS(o)
  {
    var pp := projectPath;
    var ts := Join(pp, FileName("tsconfig", "json"));
    var head := [ Join(pp, FileName("package", "json")), Join(pp, FileName("vite.config", ScriptExt(o))),
      Join(pp, FileName("", "gitignore")) ];
    var mid := if IsTS(o) then [ts, Join(pp, FileName("tsconfig.node", "json"))] else [];
    var tail := [ Join(pp, FileName("README", "md")), Join(pp, FileName("index", "html")),
      Join(PublicDir(pp), FileName("vite", "svg")),
      Join(pp, FileName("", "env")), Join(pp, FileName(".env", "development")),
      Join(pp, FileName(".env", "fat")), Join(pp, FileName(".env", "production")) ];
    PackageWrites(pp, o);
    assert Writes(PackageOps(pp, o)) == head + (mid + tail);
    forall p | p in head || p in tail
      ensures p != ts
    {
      assert |p[|p| - 1]| != |ts[|ts| - 1]| || |p| != |ts|;
    }
  }

  /** Of the four `.env` files only `.env.development` turns the mock server on. */
  lemma MockOnlyInDevelopment(projectPath: Path, o: Options)
    ensures forall i :: 0 <= i < |EnvOps(projectPath, o)| ==>
      (MockFlag(true) in EnvOps(projectPath, o)[i].content.marks <==> EnvOps(projectPath, o)[i].file == FileName(".env", "development"))
  {
  }

  /**
   * The public files need only the project directory; a missing logo does not
   * stop the step, since the placeholder is written instead.
   */
  lemma PublicReady(dirs: set<Path>, projectPath: Path, o: Options)
    requires projectPath in dirs
    ensures Ready(dirs, PublicOps(projectPath, o))
  {
    var ops := PublicOps(projectPath, o);
    var made := dirs + Prefixes(PublicDir(projectPath));
    assert PublicDir(projectPath) in made;
    assert Ready(made, ops[2..]);
    assert Ready(made, ops[1..]);
  }

  /**
   * Once the public files are written the logo is there: the installed one when
   * Vite's copy is available, the placeholder otherwise.
   */
  lemma LogoAlwaysPlaced(d: Disk, projectPath: Path, o: Options)
    requires RunOps(d, PublicOps(projectPath, o)).outcome.Normal?
    ensures Join(PublicDir(projectPath), FileName("vite", "svg")) in RunOps(d, PublicOps(projectPath, o)).disk.files
    ensures RunOps(d, PublicOps(projectPath, o)).disk.files[Join(PublicDir(projectPath), FileName("vite", "svg"))]
      == if ViteLogo in d.vendored then Vendored(ViteLogo) else Source("vue/vite.svg", Shared, [])
  {
    var ops := PublicOps(projectPath, o);
    var made := Apply(d, ops[0]);
    var html := Apply(made.disk, ops[1]);
    Continue(d, ops, made.disk);
    Continue(made.disk, ops[1..], html.disk);
    assert ops[1..][1..] == ops[2..] && ops[3..] == [];
    var logo := Apply(html.disk, ops[2]);
    assert RunOps(d, ops) == logo;
  }

  lemma EnvReady(dirs: set<Path>, projectPath: Path, o: Options)
    requires projectPath in dirs
    ensures Ready(dirs, EnvOps(projectPath, o))
  {
    ReadyWhenPlaced(dirs, EnvOps(projectPath, o));
  }

  lemma TailReady(dirs: set<Path>, projectPath: Path, o: Options)
    requires projectPath in dirs
    ensures Ready(dirs, ReadmeOps(projectPath, o) + (PublicOps(projectPath, o) + EnvOps(projectPath, o)))
  {
    var readme, public, env := ReadmeOps(projectPath, o), PublicOps(projectPath, o), EnvOps(projectPath, o);
    ReadyWhenPlaced(dirs, readme);
    PublicReady(dirs, projectPath, o);
    EnvReady(dirs, projectPath, o);
    ReadyAppend(dirs, public, env);
    ReadyAppend(dirs, readme, public + env);
  }

  /** With `projectPath` in place every helper of the step can write. */
  lemma PackageReady(dirs: set<Path>, projectPath: Path, o: Options)
    requires projectPath in dirs
    ensures Ready(dirs, PackageOps(projectPath, o))
  {
    var pp := projectPath;
    var manifest, vite, git, ts := ManifestOps(pp, o), ViteConfigOps(pp, o), GitignoreOps(pp), TsConfigStepOps(pp, o);
    var tail := ReadmeOps(pp, o) + (PublicOps(pp, o) + EnvOps(pp, o));
    ReadyWhenPlaced(dirs, manifest);
    ReadyWhenPlaced(dirs, vite);
    ReadyWhenPlaced(dirs, git);
    ReadyWhenPlaced(dirs, ts);
    TailReady(dirs, pp, o);
    ReadyAppend(dirs, ts, tail);
    ReadyAppend(dirs, git, ts + tail);
    ReadyAppend(dirs, vite, git + (ts + tail));
    ReadyAppend(dirs, manifest, vite + (git + (ts + tail)));
  }

  /** Without TypeScript: `vite.config.js`, no `tsconfig`, no TypeScript text, no TypeScript packages. */
  lemma PackageWithoutTypeScript(projectPath: Path, o: Options)
    requires !IsTS(o)
    ensures NoTypeScript(PackageOps(projectPath, o))
    ensures TypeScriptPkg !in DevDependencies(o) && VueTscPkg !in DevDependencies(o) && TypecheckScript !in Scripts(o)
  {
    var pp := projectPath;
    var manifest, vite, git, ts := ManifestOps(pp, o), ViteConfigOps(pp, o), GitignoreOps(pp), TsConfigStepOps(pp, o);
    var readme, public, env := ReadmeOps(pp, o), PublicOps(pp, o), EnvOps(pp, o);
    NoTypeScriptAppend(public, env);
    NoTypeScriptAppend(readme, public + env);
    NoTypeScriptAppend(ts, readme + (public + env));
    NoTypeScriptAppend(git, ts + (readme + (public + env)));
    NoTypeScriptAppend(vite, git + (ts + (readme + (public + env))));
    NoTypeScriptAppend(manifest, vite + (git + (ts + (readme + (public + env)))));
    DevDependencyRules(o);
    ScriptRules(o);
  }
}
