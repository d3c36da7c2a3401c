/** `createEntryFiles` of the React track: the entry module, the root component, the 404 page and the global stylesheet. */
module ReactEntry {
  import opened Config
  import opened Content
  import opened FileSystem
  import opened Pipeline

  /** The interpolated lines of the entry module, in the order they appear in it. */
  function EntryMarks(u: UiFramework): seq<Mark>
  {
    (if u == AntDesign then [AntdResetImport] else [])
    + (if u == ChakraUI then [ChakraImports] else [])
    + (if u == ChakraUI then [ChakraOpen] else [])
    + (if u == ChakraUI then [ChakraClose] else [])
  }

  /** The calls `createEntryFiles(srcDir, options)` makes, in order. */
  function EntryOps(srcDir: Path, o: Options): seq<Op>
  {
    var ext := ComponentExt(o);
    [ Write(srcDir, FileName("index", ext), Source("react/index", ForLang(LangOf(o)), EntryMarks(o.uiFramework))),
      Write(srcDir, FileName("App", ext), Source("react/App", ForLang(LangOf(o)), [])),
      Write(srcDir + ["pages"], FileName("NotFound", ext), Source("react/pages/NotFound", ForLang(LangOf(o)), [])),
      Mkdir(srcDir + ["assets", "styles"]),
      Write(srcDir + ["assets", "styles"], FileName("global", "css"), Source("react/global.css", Shared, [])) ]
  }

  /** No try/catch: errors propagate. */
  method CreateEntryFiles(fs: FileSystem, srcDir: Path, o: Options) returns (out: Outcome)
    modifies fs
    ensures Run(out, fs.Snapshot()) == RunOps(old(fs.Snapshot()), EntryOps(srcDir, o))
  {
    ghost var rest := EntryOps(srcDir, o);
    ghost var d := fs.Snapshot();
    var fileExt := ComponentExt(o);
    var lang := LangOf(o);

    out := fs.WriteFile(srcDir, FileName("index", fileExt), Source("react/index", ForLang(lang), EntryMarks(o.uiFramework)));
    if out.Thrown? { Stop(d, rest, Run(out, fs.Snapshot())); return; }
    Continue(d, rest, fs.Snapshot());
    rest, d := rest[1..], fs.Snapshot();

    out := fs.WriteFile(srcDir, FileName("App", fileExt), Source("react/App", ForLang(lang), []));
    if out.Thrown? { Stop(d, rest, Run(out, fs.Snapshot())); return; }
    Continue(d, rest, fs.Snapshot());
    rest, d := rest[1..], fs.Snapshot();

    out := fs.WriteFile(srcDir + ["pages"], FileName("NotFound", fileExt), Source("react/pages/NotFound", ForLang(lang), []));
    if out.Thrown? { Stop(d, rest, Run(out, fs.Snapshot())); return; }
    Continue(d, rest, fs.Snapshot());
    rest, d := rest[1..], fs.Snapshot();

    out := fs.MakeDirectory(srcDir + ["assets", "styles"]);
    if out.Thrown? { Stop(d, rest, Run(out, fs.Snapshot())); return; }
    Continue(d, rest, fs.Snapshot());
    rest, d := rest[1..], fs.Snapshot();

    out := fs.WriteFile(srcDir + ["assets", "styles"], FileName("global", "css"), Source("react/global.css", Shared, []));
    Last(d, rest, Run(out, fs.Snapshot()));
  }

  /** Entry, root component and 404 page with the component extension, then `assets/styles/global.css`. */
  lemma EntryWrites(srcDir: Path, o: Options)
    ensures Writes(EntryOps(srcDir, o)) ==
      [ Join(srcDir, FileName("index", ComponentExt(o))), Join(srcDir, FileName("App", ComponentExt(o))),
        Join(srcDir + ["pages"], FileName("NotFound", ComponentExt(o))),
        Join(srcDir + ["assets", "styles"], FileName("global", "css")) ]
  {
    var ops := EntryOps(srcDir, o);
    var ext := ComponentExt(o);
    assert ops[5..] == [];
    assert Writes(ops[4..]) == [Join(srcDir + ["assets", "styles"], FileName("global", "css"))];
    assert Writes(ops[3..]) == Writes(ops[4..]);
    assert Writes(ops[2..]) == [Join(srcDir + ["pages"], FileName("NotFound", ext))] + Writes(ops[3..]);
    assert Writes(ops[1..]) == [Join(srcDir, FileName("App", ext))] + Writes(ops[2..]);
  }

  /** `src/` and `src/pages/` must exist; the stylesheet directory is created by the step. */
  lemma EntryReady(dirs: set<Path>, srcDir: Path, o: Options)
    requires srcDir in dirs && srcDir + ["pages"] in dirs
    ensures Ready(dirs, EntryOps(srcDir, o))
  {
    var ops := EntryOps(srcDir, o);
    ReadyWhenPlaced(dirs + Prefixes(srcDir + ["assets", "styles"]), ops[4..]);
    assert Ready(dirs, ops[3..]);
    assert Ready(dirs, ops[1..]);
  }

  /**
   * The Ant Design reset appears exactly for Ant Design; the Chakra imports and the
   * provider's opening and closing lines appear exactly for Chakra UI, together, in
   * that order.
   */
  lemma EntryMarksByFramework(u: UiFramework)
    ensures AntdResetImport in EntryMarks(u) <==> u == AntDesign
    ensures ChakraImports in EntryMarks(u) <==> u == ChakraUI
    ensures ChakraOpen in EntryMarks(u) <==> u == ChakraUI
    ensures ChakraClose in EntryMarks(u) <==> u == ChakraUI
    ensures u == ChakraUI ==> EntryMarks(u) == [ChakraImports, ChakraOpen, ChakraClose]
    ensures u != ChakraUI && u != AntDesign ==> EntryMarks(u) == []
  {
  }
}
