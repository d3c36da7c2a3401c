/** `createEntryFiles` of the Vue track: the entry module, the root component and the global stylesheet. */
module VueEntry {
  import opened Config
  import opened Content
  import opened FileSystem
  import opened Pipeline

  /** The interpolated lines of `main`, in the order they appear in it. */
  function MainMarks(u: UiFramework): seq<Mark>
  {
    (if u == ElementPlus then [ElementPlusImports] else [])
    + (if u == AntDesignVue then [AntdVueImports] else [])
    + (if u == ElementPlus then [ElementPlusSetup] else [])
    + (if u == AntDesignVue then [AntdVueSetup] else [])
  }

  /** The TypeScript and JavaScript texts of `main` are the same text. */
  function MainModule(o: Options): Content
  {
    Source("vue/main", Shared, MainMarks(o.uiFramework))
  }

  /** `path.join(srcDir, 'assets/styles')`. */
  function StylesDir(srcDir: Path): Path
  {
    srcDir + ["assets", "styles"]
  }

  /** The calls `createEntryFiles(srcDir, options)` makes, in order. */
  function EntryOps(srcDir: Path, o: Options): seq<Op>
  {
    [ Write(srcDir, FileName("main", ScriptExt(o)), MainModule(o)),
      Write(srcDir, FileName("App", "vue"), Source("vue/App", Shared, [])),
      Mkdir(StylesDir(srcDir)),
      Write(StylesDir(srcDir), FileName("main", "css"), Source("vue/main.css", Shared, [])) ]
  }

  /** No try/catch: errors propagate. */
  method CreateEntryFiles(fs: FileSystem, srcDir: Path, o: Options) returns (out: Outcome)
    modifies fs
    ensures Run(out, fs.Snapshot()) == RunOps(old(fs.Snapshot()), EntryOps(srcDir, o))
  {
    ghost var rest := EntryOps(srcDir, o);
    ghost var d := fs.Snapshot();
    var isTS := IsTS(o);
    var isElementPlus := o.uiFramework == ElementPlus;
    var isAntDesignVue := o.uiFramework == AntDesignVue;
    var fileExt := if isTS then "ts" else "js";

    var marks := (if isElementPlus then [ElementPlusImports] else [])
      + (if isAntDesignVue then [AntdVueImports] else [])
      + (if isElementPlus then [ElementPlusSetup] else [])
      + (if isAntDesignVue then [AntdVueSetup] else []);
    var mainContent := Empty;
    if isTS {
      mainContent := Source("vue/main", Shared, marks);
    } else {
      mainContent := Source("vue/main", Shared, marks);
    }
    out := fs.WriteFile(srcDir, FileName("main", fileExt), mainContent);
    if out.Thrown? { Stop(d, rest, Run(out, fs.Snapshot())); return; }
    Continue(d, rest, fs.Snapshot());
    rest, d := rest[1..], fs.Snapshot();

    out := fs.WriteFile(srcDir, FileName("App", "vue"), Source("vue/App", Shared, []));
    if out.Thrown? { Stop(d, rest, Run(out, fs.Snapshot())); return; }
    Continue(d, rest, fs.Snapshot());
    rest, d := rest[1..], fs.Snapshot();

    out := fs.MakeDirectory(srcDir + ["assets", "styles"]);
    if out.Thrown? { Stop(d, rest, Run(out, fs.Snapshot())); return; }
    Continue(d, rest, fs.Snapshot());
    rest, d := rest[1..], fs.Snapshot();

    out := fs.WriteFile(srcDir + ["assets", "styles"], FileName("main", "css"), Source("vue/main.css", Shared, []));
    Last(d, rest, Run(out, fs.Snapshot()));
  }

  /** `main.ts` or `main.js`, then `App.vue`, then `assets/styles/main.css`. */
  lemma EntryWrites(srcDir: Path, o: Options)
    ensures Writes(EntryOps(srcDir, o)) ==
      [ Join(srcDir, FileName("main", ScriptExt(o))), Join(srcDir, FileName("App", "vue")),
        Join(StylesDir(srcDir), FileName("main", "css")) ]
  {
    var ops := EntryOps(srcDir, o);
    assert ops[4..] == [];
    assert Writes(ops[3..]) == [Join(StylesDir(srcDir), FileName("main", "css"))];
    assert Writes(ops[2..]) == Writes(ops[3..]);
    assert Writes(ops[1..]) == [Join(srcDir, FileName("App", "vue"))] + Writes(ops[2..]);
  }

  /**
   * The Element Plus imports and its `app.use` line appear exactly for Element
   * Plus, the Ant Design Vue ones exactly for Ant Design Vue, so never both.
   */
  lemma MainUiLines(o: Options)
    ensures ElementPlusImports in MainModule(o).marks <==> o.uiFramework == ElementPlus
    ensures ElementPlusSetup in MainModule(o).marks <==> o.uiFramework == ElementPlus
    ensures AntdVueImports in MainModule(o).marks <==> o.uiFramework == AntDesignVue
    ensures AntdVueSetup in MainModule(o).marks <==> o.uiFramework == AntDesignVue
    ensures !(ElementPlusImports in MainModule(o).marks && AntdVueImports in MainModule(o).marks)
  {
    var m := MainMarks(o.uiFramework);
    if o.uiFramework == ElementPlus {
      assert m == [ElementPlusImports, ElementPlusSetup];
    } else if o.uiFramework == AntDesignVue {
      assert m == [AntdVueImports, AntdVueSetup];
    } else {
      assert m == [];
    }
  }

  /** Only the extension of `main` depends on the language; every text is the same. */
  lemma EntryLanguageOnlyPicksExtension(srcDir: Path, o: Options, l: Option<Lang>)
    ensures |EntryOps(srcDir, o)| == |EntryOps(srcDir, o.(language := l))|
    ensures forall i :: 1 <= i < |EntryOps(srcDir, o)| ==> EntryOps(srcDir, o)[i] == EntryOps(srcDir, o.(language := l))[i]
    ensures EntryOps(srcDir, o)[0].content == EntryOps(srcDir, o.(language := l))[0].content
  {
  }

  /** `assets/styles` is created by the step itself, so only `srcDir` must exist. */
  lemma EntryReady(dirs: set<Path>, srcDir: Path, o: Options)
    requires srcDir in dirs
    ensures Ready(dirs, EntryOps(srcDir, o))
  {
    var ops := EntryOps(srcDir, o);
    assert Ready(dirs + Prefixes(StylesDir(srcDir)), ops[3..]);
    assert Ready(dirs, ops[2..]);
  }

  /** Without TypeScript the step writes `main.js` and nothing of the TypeScript track. */
  lemma EntryWithoutTypeScript(srcDir: Path, o: Options)
    requires !IsTS(o)
    ensures NoTypeScript(EntryOps(srcDir, o))
  {
  }
}
