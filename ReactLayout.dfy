/** `createLayoutFiles` of the React track: three layout components, each with its stylesheet. */
module ReactLayout {
  import opened Config
  import opened Content
  import opened FileSystem
  import opened Pipeline

  /** The calls `createLayoutFiles(layoutsDir, options)` makes, in order. */
  function LayoutOps(layoutsDir: Path, o: Options): seq<Op>
  {
    var ext, cssExt := ComponentExt(o), CssExt(o);
    [ Write(layoutsDir, FileName("MainLayout", ext),
        Source("react/layouts/MainLayout", ForLang(LangOf(o)), [ImportsStylesheet("MainLayout." + cssExt)])),
      Write(layoutsDir, FileName("MainLayout", cssExt), Source("react/layouts/MainLayout.css", Shared, [])),
      Write(layoutsDir, FileName("Header", ext),
        Source("react/layouts/Header", ForLang(LangOf(o)), [ImportsStylesheet("Header." + cssExt)])),
      Write(layoutsDir, FileName("Header", cssExt), Source("react/layouts/Header.css", Shared, [])),
      Write(layoutsDir, FileName("Sidebar", ext),
        Source("react/layouts/Sidebar", ForLang(LangOf(o)), [ImportsStylesheet("Sidebar." + cssExt)])),
      Write(layoutsDir, FileName("Sidebar", cssExt), Source("react/layouts/Sidebar.css", Shared, [])) ]
  }

  /** No try/catch: errors propagate. `isAntd` is computed by the source and never used. */
  method CreateLayoutFiles(fs: FileSystem, layoutsDir: Path, o: Options) returns (out: Outcome)
    modifies fs
    ensures Run(out, fs.Snapshot()) == RunOps(old(fs.Snapshot()), LayoutOps(layoutsDir, o))
  {
    ghost var rest := LayoutOps(layoutsDir, o);
    ghost var d := fs.Snapshot();
    var fileExt := ComponentExt(o);
    var cssExt := CssExt(o);
    var lang := LangOf(o);

    out := fs.WriteFile(layoutsDir, FileName("MainLayout", fileExt),
      Source("react/layouts/MainLayout", ForLang(lang), [ImportsStylesheet("MainLayout." + cssExt)]));
    if out.Thrown? { Stop(d, rest, Run(out, fs.Snapshot())); return; }
    Continue(d, rest, fs.Snapshot());
    rest, d := rest[1..], fs.Snapshot();

    out := fs.WriteFile(layoutsDir, FileName("MainLayout", cssExt), Source("react/layouts/MainLayout.css", Shared, []));
    if out.Thrown? { Stop(d, rest, Run(out, fs.Snapshot())); return; }
    Continue(d, rest, fs.Snapshot());
    rest, d := rest[1..], fs.Snapshot();

    out := fs.WriteFile(layoutsDir, FileName("Header", fileExt),
      Source("react/layouts/Header", ForLang(lang), [ImportsStylesheet("Header." + cssExt)]));
    if out.Thrown? { Stop(d, rest, Run(out, fs.Snapshot())); return; }
    Continue(d, rest, fs.Snapshot());
    rest, d := rest[1..], fs.Snapshot();

    out := fs.WriteFile(layoutsDir, FileName("Header", cssExt), Source("react/layouts/Header.css", Shared, []));
    if out.Thrown? { Stop(d, rest, Run(out, fs.Snapshot())); return; }
    Continue(d, rest, fs.Snapshot());
    rest, d := rest[1..], fs.Snapshot();

    out := fs.WriteFile(layoutsDir, FileName("Sidebar", fileExt),
      Source("react/layouts/Sidebar", ForLang(lang), [ImportsStylesheet("Sidebar." + cssExt)]));
    if out.Thrown? { Stop(d, rest, Run(out, fs.Snapshot())); return; }
    Continue(d, rest, fs.Snapshot());
    rest, d := rest[1..], fs.Snapshot();

    out := fs.WriteFile(layoutsDir, FileName("Sidebar", cssExt), Source("react/layouts/Sidebar.css", Shared, []));
    Last(d, rest, Run(out, fs.Snapshot()));
  }

  /** Six files in `layouts/`: each component, then its stylesheet. */
  lemma LayoutWrites(layoutsDir: Path, o: Options)
    ensures Writes(LayoutOps(layoutsDir, o)) ==
      [ Join(layoutsDir, FileName("MainLayout", ComponentExt(o))), Join(layoutsDir, FileName("MainLayout", CssExt(o))),
        Join(layoutsDir, FileName("Header", ComponentExt(o))), Join(layoutsDir, FileName("Header", CssExt(o))),
        Join(layoutsDir, FileName("Sidebar", ComponentExt(o))), Join(layoutsDir, FileName("Sidebar", CssExt(o))) ]
  {
    var ops := LayoutOps(layoutsDir, o);
    var ext, cssExt := ComponentExt(o), CssExt(o);
    assert ops[6..] == [];
    assert Writes(ops[5..]) == [Join(layoutsDir, FileName("Sidebar", cssExt))];
    assert Writes(ops[4..]) == [Join(layoutsDir, FileName("Sidebar", ext))] + Writes(ops[5..]);
    assert Writes(ops[3..]) == [Join(layoutsDir, FileName("Header", cssExt))] + Writes(ops[4..]);
    assert Writes(ops[2..]) == [Join(layoutsDir, FileName("Header", ext))] + Writes(ops[3..]);
    assert Writes(ops[1..]) == [Join(layoutsDir, FileName("MainLayout", cssExt))] + Writes(ops[2..]);
  }

  lemma LayoutReady(dirs: set<Path>, layoutsDir: Path, o: Options)
    requires layoutsDir in dirs
    ensures Ready(dirs, LayoutOps(layoutsDir, o))
  {
    ReadyWhenPlaced(dirs, LayoutOps(layoutsDir, o));
  }

  /**
   * Each component imports the very stylesheet written right after it, under the
   * same extension, whatever `cssPreprocessor` says.
   */
  lemma LayoutStylesheets(layoutsDir: Path, o: Options)
    ensures LayoutOps(layoutsDir, o)[0].content.marks == [ImportsStylesheet(Render(LayoutOps(layoutsDir, o)[1].file))]
    ensures LayoutOps(layoutsDir, o)[2].content.marks == [ImportsStylesheet(Render(LayoutOps(layoutsDir, o)[3].file))]
    ensures LayoutOps(layoutsDir, o)[4].content.marks == [ImportsStylesheet(Render(LayoutOps(layoutsDir, o)[5].file))]
  {
    var e := CssExt(o);
    assert "MainLayout" + "." + e == "MainLayout." + e;
    assert "Header" + "." + e == "Header." + e;
    assert "Sidebar" + "." + e == "Sidebar." + e;
  }

  /** The stylesheets depend on nothing but `cssPreprocessor`: not on language, not on UI. */
  lemma LayoutStylesheetsFixed(layoutsDir: Path, o: Options, o': Options)
    requires o.cssPreprocessor == o'.cssPreprocessor
    ensures forall k :: k in {1, 3, 5} ==> LayoutOps(layoutsDir, o)[k] == LayoutOps(layoutsDir, o')[k]
  {
  }
}
