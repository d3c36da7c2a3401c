/**
 * `createUtilsFiles` and `createMockFiles` of the Vue track: five utility
 * modules, then the mock directory next to `utils/`. Unlike the React step there
 * is no try/catch, so an error reaches the assembler.
 */
module VueUtils {
  import opened Config
  import opened Content
  import opened FileSystem
  import opened Pipeline

  /** The five module writes of `createUtilsFiles(utilsDir, options)`, in order. */
  function UtilityModuleOps(utilsDir: Path, o: Options): seq<Op>
  {
    var ext := ScriptExt(o);
    [ Write(utilsDir, FileName("index", ext), Source("vue/utils/index", Shared, [])),
      Write(utilsDir, FileName("auth", ext), Source("vue/utils/auth", ForLang(LangOf(o)), [])),
      Write(utilsDir, FileName("validation", ext), Source("vue/utils/validation", ForLang(LangOf(o)), [])),
      Write(utilsDir, FileName("date", ext), Source("vue/utils/date", ForLang(LangOf(o)), [])),
      Write(utilsDir, FileName("storage", ext), Source("vue/utils/storage", ForLang(LangOf(o)), [])) ]
  }

  /** The calls `createMockFiles(utilsDir, options)` makes; both branches of `mock/index` hold one text. */
  function MockOps(utilsDir: Path, o: Options): seq<Op>
  {
    var mockDir := Beside(utilsDir, "mock");
    [ Mkdir(mockDir),
      Write(mockDir, FileName("index", ScriptExt(o)), Source("vue/mock/index", Shared, [])),
      Write(mockDir, FileName("setup", ScriptExt(o)), Source("vue/mock/setup", ForLang(LangOf(o)), [])) ]
  }

  /** The step: the modules, then `createMockFiles`. */
  function UtilsOps(utilsDir: Path, o: Options): seq<Op>
  {
    UtilityModuleOps(utilsDir, o) + MockOps(utilsDir, o)
  }

  method WriteUtilityModules(fs: FileSystem, utilsDir: Path, o: Options) returns (out: Outcome)
    modifies fs
    ensures Run(out, fs.Snapshot()) == RunOps(old(fs.Snapshot()), UtilityModuleOps(utilsDir, o))
  {
    ghost var rest := UtilityModuleOps(utilsDir, o);
    ghost var d := fs.Snapshot();
    var isTS := IsTS(o);
    var fileExt := if isTS then "ts" else "js";
    var lang := if isTS then TypeScript else JavaScript;

    var indexContent := Empty;
    if isTS {
      indexContent := Source("vue/utils/index", Shared, []);
    } else {
      indexContent := Source("vue/utils/index", Shared, []);
    }
    out := fs.WriteFile(utilsDir, FileName("index", fileExt), indexContent);
    if out.Thrown? { Stop(d, rest, Run(out, fs.Snapshot())); return; }
    Continue(d, rest, fs.Snapshot());
    rest, d := rest[1..], fs.Snapshot();

    out := fs.WriteFile(utilsDir, FileName("auth", fileExt), Source("vue/utils/auth", ForLang(lang), []));
    if out.Thrown? { Stop(d, rest, Run(out, fs.Snapshot())); return; }
    Continue(d, rest, fs.Snapshot());
    rest, d := rest[1..], fs.Snapshot();

    out := fs.WriteFile(utilsDir, FileName("validation", fileExt), Source("vue/utils/validation", ForLang(lang), []));
    if out.Thrown? { Stop(d, rest, Run(out, fs.Snapshot())); return; }
    Continue(d, rest, fs.Snapshot());
    rest, d := rest[1..], fs.Snapshot();

    out := fs.WriteFile(utilsDir, FileName("date", fileExt), Source("vue/utils/date", ForLang(lang), []));
    if out.Thrown? { Stop(d, rest, Run(out, fs.Snapshot())); return; }
    Continue(d, rest, fs.Snapshot());
    rest, d := rest[1..], fs.Snapshot();

    out := fs.WriteFile(utilsDir, FileName("storage", fileExt), Source("vue/utils/storage", ForLang(lang), []));
    Last(d, rest, Run(out, fs.Snapshot()));
  }

  method CreateMockFiles(fs: FileSystem, utilsDir: Path, o: Options) returns (out: Outcome)
    modifies fs
    ensures Run(out, fs.Snapshot()) == RunOps(old(fs.Snapshot()), MockOps(utilsDir, o))
  {
    ghost var rest := MockOps(utilsDir, o);
    ghost var d := fs.Snapshot();
    var isTS := IsTS(o);
    var fileExt := if isTS then "ts" else "js";

    var mockDir := Parent(utilsDir) + ["mock"];
    out := fs.MakeDirectory(mockDir);
    if out.Thrown? { Stop(d, rest, Run(out, fs.Snapshot())); return; }
    Continue(d, rest, fs.Snapshot());
    rest, d := rest[1..], fs.Snapshot();

    var mockIndexContent := Empty;
    if isTS {
      mockIndexContent := Source("vue/mock/index", Shared, []);
    } else {
      mockIndexContent := Source("vue/mock/index", Shared, []);
    }
    out := fs.WriteFile(mockDir, FileName("index", fileExt), mockIndexContent);
    if out.Thrown? { Stop(d, rest, Run(out, fs.Snapshot())); return; }
    Continue(d, rest, fs.Snapshot());
    rest, d := rest[1..], fs.Snapshot();

    var mockSetupContent := Empty;
    if isTS {
      mockSetupContent := Source("vue/mock/setup", ForLang(TypeScript), []);
    } else {
      mockSetupContent := Source("vue/mock/setup", ForLang(JavaScript), []);
    }
    out := fs.WriteFile(mockDir, FileName("setup", fileExt), mockSetupContent);
    Last(d, rest, Run(out, fs.Snapshot()));
  }

  /** No try/catch: an error in the modules or in `createMockFiles` reaches the caller. */
  method CreateUtilsFiles(fs: FileSystem, utilsDir: Path, o: Options) returns (out: Outcome)
    modifies fs
    ensures Run(out, fs.Snapshot()) == RunOps(old(fs.Snapshot()), UtilsOps(utilsDir, o))
  {
    RunOpsAppend(fs.Snapshot(), UtilityModuleOps(utilsDir, o), MockOps(utilsDir, o));
    out := WriteUtilityModules(fs, utilsDir, o);
    if out.Thrown? { return; }
    out := CreateMockFiles(fs, utilsDir, o);
  }

  /** The five modules of `utils/`, in order, all `ts` or `js`; `index` is the same in both languages. */
  lemma ModuleWrites(utilsDir: Path, o: Options)
    ensures Writes(UtilityModuleOps(utilsDir, o)) ==
      [ Join(utilsDir, FileName("index", ScriptExt(o))), Join(utilsDir, FileName("auth", ScriptExt(o))),
        Join(utilsDir, FileName("validation", ScriptExt(o))), Join(utilsDir, FileName("date", ScriptExt(o))),
        Join(utilsDir, FileName("storage", ScriptExt(o))) ]
    ensures UtilityModuleOps(utilsDir, o)[0].content == UtilityModuleOps(utilsDir, o.(language := None))[0].content
  {
    var ext, lang := ScriptExt(o), ForLang(LangOf(o));
    var index := Write(utilsDir, FileName("index", ext), Source("vue/utils/index", Shared, []));
    var auth := Write(utilsDir, FileName("auth", ext), Source("vue/utils/auth", lang, []));
    var validation := Write(utilsDir, FileName("validation", ext), Source("vue/utils/validation", lang, []));
    var date := Write(utilsDir, FileName("date", ext), Source("vue/utils/date", lang, []));
    var storage := Write(utilsDir, FileName("storage", ext), Source("vue/utils/storage", lang, []));
    assert UtilityModuleOps(utilsDir, o) == [index] + [auth, validation, date, storage];
    WritesAfterOne(index, [auth, validation, date, storage]);
    WritesOfFour(auth, validation, date, storage);
  }

  /** `mock/index` then `mock/setup`, next to `utils/`; `mock/index` is the same in both languages. */
  lemma MockWrites(utilsDir: Path, o: Options)
    ensures Writes(MockOps(utilsDir, o)) ==
      [ Join(Beside(utilsDir, "mock"), FileName("index", ScriptExt(o))),
        Join(Beside(utilsDir, "mock"), FileName("setup", ScriptExt(o))) ]
    ensures MockOps(utilsDir, o)[1].content == MockOps(utilsDir, o.(language := None))[1].content
  {
    var mockDir := Beside(utilsDir, "mock");
    var make := Mkdir(mockDir);
    var index := Write(mockDir, FileName("index", ScriptExt(o)), Source("vue/mock/index", Shared, []));
    var setup := Write(mockDir, FileName("setup", ScriptExt(o)), Source("vue/mock/setup", ForLang(LangOf(o)), []));
    assert MockOps(utilsDir, o) == [make, index, setup];
    WritesOfThree(make, index, setup);
  }

  /** Five modules in `utils/`, then `mock/index` and `mock/setup` once each, all `ts` or `js`. */
  lemma UtilsWrites(utilsDir: Path, o: Options)
    ensures Writes(UtilsOps(utilsDir, o)) ==
      [ Join(utilsDir, FileName("index", ScriptExt(o))), Join(utilsDir, FileName("auth", ScriptExt(o))),
        Join(utilsDir, FileName("validation", ScriptExt(o))), Join(utilsDir, FileName("date", ScriptExt(o))),
        Join(utilsDir, FileName("storage", ScriptExt(o))),
        Join(Beside(utilsDir, "mock"), FileName("index", ScriptExt(o))),
        Join(Beside(utilsDir, "mock"), FileName("setup", ScriptExt(o))) ]
  {
    ModuleWrites(utilsDir, o);
    MockWrites(utilsDir, o);
    WritesAppend(UtilityModuleOps(utilsDir, o), MockOps(utilsDir, o));
  }

  /** The mock directory is created by the step itself, so only `utils/` must exist. */
  lemma UtilsReady(dirs: set<Path>, utilsDir: Path, o: Options)
    requires utilsDir in dirs
    ensures Ready(dirs, UtilsOps(utilsDir, o))
  {
    var mockDir := Beside(utilsDir, "mock");
    var make := Mkdir(mockDir);
    var index := Write(mockDir, FileName("index", ScriptExt(o)), Source("vue/mock/index", Shared, []));
    var setup := Write(mockDir, FileName("setup", ScriptExt(o)), Source("vue/mock/setup", ForLang(LangOf(o)), []));
    assert MockOps(utilsDir, o) == [make] + [index, setup];
    ReadyWhenPlaced(dirs, UtilityModuleOps(utilsDir, o));
    ReadyWhenPlaced(dirs + Prefixes(mockDir), [index, setup]);
    ReadyCons(dirs, make, [index, setup]);
    ReadyAppend(dirs, UtilityModuleOps(utilsDir, o), MockOps(utilsDir, o));
  }

  lemma UtilsWithoutTypeScript(utilsDir: Path, o: Options)
    requires !IsTS(o)
    ensures NoTypeScript(UtilsOps(utilsDir, o))
  {
    var modules, mock := UtilityModuleOps(utilsDir, o), MockOps(utilsDir, o);
    assert forall i :: 0 <= i < |modules + mock| ==> (modules + mock)[i] == if i < |modules| then modules[i] else mock[i - |modules|];
  }
}
