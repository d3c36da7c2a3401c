/**
 * `createUtilsFiles` and `createMockFiles` of the React track: six utility
 * modules, then the mock directory next to `utils/`. Every error is caught and
 * logged, so the step never fails.
 */
module ReactUtils {
  import opened Config
  import opened Content
  import opened FileSystem
  import opened Pipeline

  /** `path.join(utilsDir, '../mock')`. */
  function MockDir(utilsDir: Path): Path
  {
    Beside(utilsDir, "mock")
  }

  /** The calls `createMockFiles(utilsDir, options)` makes, in order; `mock/index` is written twice. */
  function MockOps(utilsDir: Path, o: Options): seq<Op>
  {
    var ext := ScriptExt(o);
    var mockIndex := Source("react/mock/index", Shared, []);
    [ Mkdir(MockDir(utilsDir)),
      Write(MockDir(utilsDir), FileName("index", ext), mockIndex),
      Write(MockDir(utilsDir), FileName("index", ext), mockIndex),
      Write(MockDir(utilsDir), FileName("setup", ext), Source("react/mock/setup", ForLang(LangOf(o)), [])) ]
  }

  /** The six module writes of `createUtilsFiles(utilsDir, options)`, in order. */
  function UtilityModuleOps(utilsDir: Path, o: Options): seq<Op>
  {
    var ext := ScriptExt(o);
    [ Write(utilsDir, FileName("auth", ext), Source("react/utils/auth", ForLang(LangOf(o)), [])),
      Write(utilsDir, FileName("date", ext), Source("react/utils/date", ForLang(LangOf(o)), [])),
      Write(utilsDir, FileName("validation", ext), Source("react/utils/validation", ForLang(LangOf(o)), [])),
      Write(utilsDir, FileName("common", ext), Source("react/utils/common", ForLang(LangOf(o)), [])),
      Write(utilsDir, FileName("index", ext), Source("react/utils/index", Shared, [])),
      Write(utilsDir, FileName("storage", ext), Source("react/utils/storage", ForLang(LangOf(o)), [])) ]
  }

  /** The calls inside the `try` of `createUtilsFiles`: the modules, then `createMockFiles`. */
  function UtilsOps(utilsDir: Path, o: Options): seq<Op>
  {
    UtilityModuleOps(utilsDir, o) + MockOps(utilsDir, o)
  }

  /** No try/catch of its own: an error reaches the `try` of `createUtilsFiles`. */
  method CreateMockFiles(fs: FileSystem, utilsDir: Path, o: Options) returns (out: Outcome)
    modifies fs
    ensures Run(out, fs.Snapshot()) == RunOps(old(fs.Snapshot()), MockOps(utilsDir, o))
  {
    ghost var rest := MockOps(utilsDir, o);
    ghost var d := fs.Snapshot();
    var fileExt := ScriptExt(o);
    var lang := LangOf(o);

    var mockDir := Parent(utilsDir) + ["mock"];
    out := fs.MakeDirectory(mockDir);
    if out.Thrown? { Stop(d, rest, Run(out, fs.Snapshot())); return; }
    Continue(d, rest, fs.Snapshot());
    rest, d := rest[1..], fs.Snapshot();

    var mockIndexContent := Source("react/mock/index", Shared, []);
    out := fs.WriteFile(mockDir, FileName("index", fileExt), mockIndexContent);
    if out.Thrown? { Stop(d, rest, Run(out, fs.Snapshot())); return; }
    Continue(d, rest, fs.Snapshot());
    rest, d := rest[1..], fs.Snapshot();

    var mockSetupContent := Source("react/mock/setup", ForLang(lang), []);
    out := fs.WriteFile(mockDir, FileName("index", fileExt), mockIndexContent);
    if out.Thrown? { Stop(d, rest, Run(out, fs.Snapshot())); return; }
    Continue(d, rest, fs.Snapshot());
    rest, d := rest[1..], fs.Snapshot();

    out := fs.WriteFile(mockDir, FileName("setup", fileExt), mockSetupContent);
    Last(d, rest, Run(out, fs.Snapshot()));
  }

  /** The six awaited writes at the head of the `try` block of `createUtilsFiles`. */
  method WriteUtilityModules(fs: FileSystem, utilsDir: Path, o: Options) returns (out: Outcome)
    modifies fs
    ensures Run(out, fs.Snapshot()) == RunOps(old(fs.Snapshot()), UtilityModuleOps(utilsDir, o))
  {
    ghost var rest := UtilityModuleOps(utilsDir, o);
    ghost var d := fs.Snapshot();
    var fileExt := ScriptExt(o);
    var lang := LangOf(o);

    out := fs.WriteFile(utilsDir, FileName("auth", fileExt), Source("react/utils/auth", ForLang(lang), []));
    if out.Thrown? { Stop(d, rest, Run(out, fs.Snapshot())); return; }
    Continue(d, rest, fs.Snapshot());
    rest, d := rest[1..], fs.Snapshot();

    out := fs.WriteFile(utilsDir, FileName("date", fileExt), Source("react/utils/date", ForLang(lang), []));
    if out.Thrown? { Stop(d, rest, Run(out, fs.Snapshot())); return; }
    Continue(d, rest, fs.Snapshot());
    rest, d := rest[1..], fs.Snapshot();

    out := fs.WriteFile(utilsDir, FileName("validation", fileExt), Source("react/utils/validation", ForLang(lang), []));
    if out.Thrown? { Stop(d, rest, Run(out, fs.Snapshot())); return; }
    Continue(d, rest, fs.Snapshot());
    rest, d := rest[1..], fs.Snapshot();

    out := fs.WriteFile(utilsDir, FileName("common", fileExt), Source("react/utils/common", ForLang(lang), []));
    if out.Thrown? { Stop(d, rest, Run(out, fs.Snapshot())); return; }
    Continue(d, rest, fs.Snapshot());
    rest, d := rest[1..], fs.Snapshot();

    out := fs.WriteFile(utilsDir, FileName("index", fileExt), Source("react/utils/index", Shared, []));
    if out.Thrown? { Stop(d, rest, Run(out, fs.Snapshot())); return; }
    Continue(d, rest, fs.Snapshot());
    rest, d := rest[1..], fs.Snapshot();

    out := fs.WriteFile(utilsDir, FileName("storage", fileExt), Source("react/utils/storage", ForLang(lang), []));
    Last(d, rest, Run(out, fs.Snapshot()));
  }

  /**
   * The whole body sits in a `try` whose `catch` only logs: whatever the module
   * writes or `createMockFiles` throw, the step returns normally.
   */
  method CreateUtilsFiles(fs: FileSystem, utilsDir: Path, o: Options) returns (out: Outcome)
    modifies fs
    ensures out == Normal
    ensures fs.Snapshot() == RunOps(old(fs.Snapshot()), UtilsOps(utilsDir, o)).disk
  {
    RunOpsAppend(fs.Snapshot(), UtilityModuleOps(utilsDir, o), MockOps(utilsDir, o));
    var attempt := WriteUtilityModules(fs, utilsDir, o);
    if attempt.Normal? {
      attempt := CreateMockFiles(fs, utilsDir, o);
    }
    out := Normal;
  }

  /** The six modules of `utils/`, in order, all `ts` or `js`; `index` is the same in both languages. */
  lemma ModuleWrites(utilsDir: Path, o: Options)
    ensures Writes(UtilityModuleOps(utilsDir, o)) ==
      [ Join(utilsDir, FileName("auth", ScriptExt(o))), Join(utilsDir, FileName("date", ScriptExt(o))),
        Join(utilsDir, FileName("validation", ScriptExt(o))) ]
      + [ Join(utilsDir, FileName("common", ScriptExt(o))),
        Join(utilsDir, FileName("index", ScriptExt(o))), Join(utilsDir, FileName("storage", ScriptExt(o))) ]
    ensures UtilityModuleOps(utilsDir, o)[4].content == UtilityModuleOps(utilsDir, o.(language := None))[4].content
  {
    var ext, lang := ScriptExt(o), ForLang(LangOf(o));
    var auth := Write(utilsDir, FileName("auth", ext), Source("react/utils/auth", lang, []));
    var date := Write(utilsDir, FileName("date", ext), Source("react/utils/date", lang, []));
    var validation := Write(utilsDir, FileName("validation", ext), Source("react/utils/validation", lang, []));
    var common := Write(utilsDir, FileName("common", ext), Source("react/utils/common", lang, []));
    var index := Write(utilsDir, FileName("index", ext), Source("react/utils/index", Shared, []));
    var storage := Write(utilsDir, FileName("storage", ext), Source("react/utils/storage", lang, []));
    assert UtilityModuleOps(utilsDir, o) == [auth, date, validation] + [common, index, storage];
    WritesAppend([auth, date, validation], [common, index, storage]);
    WritesOfThree(auth, date, validation);
    assert Writes([auth, date, validation]) ==
      [Join(utilsDir, auth.file), Join(utilsDir, date.file), Join(utilsDir, validation.file)];
    WritesOfThree(common, index, storage);
    assert Writes([common, index, storage]) ==
      [Join(utilsDir, common.file), Join(utilsDir, index.file), Join(utilsDir, storage.file)];
  }

  /** `mock/index` twice, then `mock/setup`; `mock/index` is the same in both languages. */
  lemma MockWrites(utilsDir: Path, o: Options)
    ensures Writes(MockOps(utilsDir, o)) ==
      [ Join(MockDir(utilsDir), FileName("index", ScriptExt(o))),
        Join(MockDir(utilsDir), FileName("index", ScriptExt(o))),
        Join(MockDir(utilsDir), FileName("setup", ScriptExt(o))) ]
    ensures MockOps(utilsDir, o)[1].content == MockOps(utilsDir, o.(language := None))[1].content
  {
    var ext, lang := ScriptExt(o), ForLang(LangOf(o));
    var make := Mkdir(MockDir(utilsDir));
    var index := Write(MockDir(utilsDir), FileName("index", ext), Source("react/mock/index", Shared, []));
    var setup := Write(MockDir(utilsDir), FileName("setup", ext), Source("react/mock/setup", lang, []));
    assert MockOps(utilsDir, o) == [make, index, index, setup];
    WritesOfFour(make, index, index, setup);
  }

  lemma UtilsWrites(utilsDir: Path, o: Options)
    ensures Writes(UtilsOps(utilsDir, o)) ==
      [ Join(utilsDir, FileName("auth", ScriptExt(o))), Join(utilsDir, FileName("date", ScriptExt(o))),
        Join(utilsDir, FileName("validation", ScriptExt(o))), Join(utilsDir, FileName("common", ScriptExt(o))),
        Join(utilsDir, FileName("index", ScriptExt(o))), Join(utilsDir, FileName("storage", ScriptExt(o))),
        Join(MockDir(utilsDir), FileName("index", ScriptExt(o))),
        Join(MockDir(utilsDir), FileName("index", ScriptExt(o))),
        Join(MockDir(utilsDir), FileName("setup", ScriptExt(o))) ]
  {
    ModuleWrites(utilsDir, o);
    MockWrites(utilsDir, o);
    WritesAppend(UtilityModuleOps(utilsDir, o), MockOps(utilsDir, o));
  }

  /** `createMockFiles` creates its directory first, so it is ready from anywhere. */
  lemma MockReady(dirs: set<Path>, utilsDir: Path, o: Options)
    ensures Ready(dirs, MockOps(utilsDir, o))
  {
    var mock := MockOps(utilsDir, o);
    var made := dirs + Prefixes(MockDir(utilsDir));
    assert MockDir(utilsDir) in made;
    assert Ready(made, mock[3..]);
    assert Ready(made, mock[1..]);
  }

  lemma UtilityModulesReady(dirs: set<Path>, utilsDir: Path, o: Options)
    requires utilsDir in dirs
    ensures Ready(dirs, UtilityModuleOps(utilsDir, o))
  {
    ReadyWhenPlaced(dirs, UtilityModuleOps(utilsDir, o));
  }

  /** The mock directory is created by the step itself, so only `utils/` must exist. */
  lemma UtilsReady(dirs: set<Path>, utilsDir: Path, o: Options)
    requires utilsDir in dirs
    ensures Ready(dirs, UtilsOps(utilsDir, o))
  {
    UtilityModulesReady(dirs, utilsDir, o);
    MockReady(dirs, utilsDir, o);
    ReadyAppend(dirs, UtilityModuleOps(utilsDir, o), MockOps(utilsDir, o));
  }

  /** The mock calls without the repeated write of `mock/index`. */
  function MockOpsWrittenOnce(utilsDir: Path, o: Options): seq<Op>
  {
    var ops := MockOps(utilsDir, o);
    [ops[0], ops[1], ops[3]]
  }

  /**
   * Writing `mock/index` a second time with the same content changes nothing: the
   * outcome and the files are those of writing it once; only the log repeats it.
   */
  lemma MockRewriteIsIdempotent(d: Disk, utilsDir: Path, o: Options)
    ensures RunOps(d, MockOps(utilsDir, o)).outcome == RunOps(d, MockOpsWrittenOnce(utilsDir, o)).outcome
    ensures RunOps(d, MockOps(utilsDir, o)).disk.files == RunOps(d, MockOpsWrittenOnce(utilsDir, o)).disk.files
  {
    var mockDir, ext, lang := MockDir(utilsDir), ScriptExt(o), ForLang(LangOf(o));
    var make := Mkdir(mockDir);
    var index := Write(mockDir, FileName("index", ext), Source("react/mock/index", Shared, []));
    var setup := Write(mockDir, FileName("setup", ext), Source("react/mock/setup", lang, []));
    assert MockOps(utilsDir, o) == [make] + ([index] + ([index] + [setup]));
    assert MockOpsWrittenOnce(utilsDir, o) == [make] + ([index] + [setup]);
    RunOpsCons(d, make, [index] + ([index] + [setup]));
    RunOpsCons(d, make, [index] + [setup]);
    var made := Apply(d, make);
    if made.outcome.Normal? {
      RunOpsCons(made.disk, index, [index] + [setup]);
      RunOpsCons(made.disk, index, [setup]);
      var first := Apply(made.disk, index);
      if first.outcome.Normal? {
        RunOpsCons(first.disk, index, [setup]);
        RewriteKeepsFiles(made.disk, Join(mockDir, index.file), index.content);
        RunOpsIgnoresLog(Apply(first.disk, index).disk, first.disk, [setup]);
      }
    }
  }

  /** Writing the same content to the same path again returns and changes nothing but the log. */
  lemma RewriteKeepsFiles(d: Disk, p: Path, c: Content)
    requires WriteAt(d, p, c).outcome.Normal?
    ensures var e := WriteAt(d, p, c).disk;
      WriteAt(e, p, c).outcome.Normal? && SameButLog(WriteAt(e, p, c).disk, e)
  {
    var e := WriteAt(d, p, c).disk;
    assert e.files[p := c] == e.files;
  }
}
