/**
 * `createLoginFiles` and `createDashboardFiles` of the React track. Both pages
 * assign their component text only inside `if (isTS)`: on the JavaScript branch
 * the variable keeps its initial empty string, and that is what gets written.
 */
module ReactViews {
  import opened Config
  import opened Content
  import opened FileSystem
  import opened Pipeline

  /** The login component: one TypeScript text per UI branch, nothing for JavaScript. */
  function LoginPage(o: Options): Content
  {
    if !IsTS(o) then Empty
    else
      var look := ReactLook(o.uiFramework);
      if look == ChakraLook then Source("react/pages/login", ForLookLang(ChakraLook, TypeScript), [])
      else Source("react/pages/login", ForLookLang(look, TypeScript), [ImportsStylesheet("index." + CssExt(o))])
  }

  /** The login stylesheet, chosen by the UI framework alone. */
  function LoginStylesheet(o: Options): Content
  {
    Source("react/pages/login.css", ForLook(ReactLook(o.uiFramework)), [])
  }

  /** The calls `createLoginFiles(loginDir, options)` makes, in order. */
  function LoginOps(loginDir: Path, o: Options): seq<Op>
  {
    [ Write(loginDir, FileName("index", ComponentExt(o)), LoginPage(o)),
      Write(loginDir, FileName("index", CssExt(o)), LoginStylesheet(o)) ]
  }

  /** No try/catch. */
  method CreateLoginFiles(fs: FileSystem, loginDir: Path, o: Options) returns (out: Outcome)
    modifies fs
    ensures Run(out, fs.Snapshot()) == RunOps(old(fs.Snapshot()), LoginOps(loginDir, o))
  {
    ghost var rest := LoginOps(loginDir, o);
    ghost var d := fs.Snapshot();
    var isTS := IsTS(o);
    var isAntd := o.uiFramework == AntDesign;
    var isChakra := o.uiFramework == ChakraUI;
    var fileExt := ComponentExt(o);
    var cssExt := CssExt(o);

    var loginContent := Empty;
    if isTS {
      if isAntd {
        loginContent := Source("react/pages/login", ForLookLang(AntDesignLook, TypeScript), [ImportsStylesheet("index." + cssExt)]);
      } else if isChakra {
        loginContent := Source("react/pages/login", ForLookLang(ChakraLook, TypeScript), []);
      } else {
        loginContent := Source("react/pages/login", ForLookLang(PlainLook, TypeScript), [ImportsStylesheet("index." + cssExt)]);
      }
    }
    out := fs.WriteFile(loginDir, FileName("index", fileExt), loginContent);
    if out.Thrown? { Stop(d, rest, Run(out, fs.Snapshot())); return; }
    Continue(d, rest, fs.Snapshot());
    rest, d := rest[1..], fs.Snapshot();

    var loginCssContent;
    if isAntd {
      loginCssContent := Source("react/pages/login.css", ForLook(AntDesignLook), []);
    } else if isChakra {
      loginCssContent := Source("react/pages/login.css", ForLook(ChakraLook), []);
    } else {
      loginCssContent := Source("react/pages/login.css", ForLook(PlainLook), []);
    }
    out := fs.WriteFile(loginDir, FileName("index", cssExt), loginCssContent);
    Last(d, rest, Run(out, fs.Snapshot()));
  }

  /** The dashboard component: one TypeScript text per UI branch, nothing for JavaScript. */
  function DashboardPage(o: Options): Content
  {
    if !IsTS(o) then Empty
    else
      var look := ReactLook(o.uiFramework);
      if look == PlainLook then Source("react/pages/dashboard", ForLookLang(PlainLook, TypeScript), [ImportsStylesheet("index." + CssExt(o))])
      else Source("react/pages/dashboard", ForLookLang(look, TypeScript), [])
  }

  /** The stylesheet `createDashboardCss` writes: fixed text. */
  const DashboardStylesheet: Content := Source("react/pages/dashboard.css", Shared, [])

  /** The calls `createDashboardFiles(dashboardDir, options)` makes, in order. */
  function DashboardOps(dashboardDir: Path, o: Options): seq<Op>
  {
    [ Write(dashboardDir, FileName("index", ComponentExt(o)), DashboardPage(o)) ]
    + (if o.uiFramework != ChakraUI then [ Write(dashboardDir, FileName("index", CssExt(o)), DashboardStylesheet) ] else [])
  }

  /** `createDashboardCss(filePath)`, with the path given as directory and file name. */
  method CreateDashboardCss(fs: FileSystem, dir: Path, file: FileName) returns (out: Outcome)
    modifies fs
    ensures Run(out, fs.Snapshot()) == Apply(old(fs.Snapshot()), Write(dir, file, DashboardStylesheet))
  {
    out := fs.WriteFile(dir, file, DashboardStylesheet);
  }

  /** No try/catch; the stylesheet is skipped for Chakra UI. */
  method CreateDashboardFiles(fs: FileSystem, dashboardDir: Path, o: Options) returns (out: Outcome)
    modifies fs
    ensures Run(out, fs.Snapshot()) == RunOps(old(fs.Snapshot()), DashboardOps(dashboardDir, o))
  {
    ghost var rest := DashboardOps(dashboardDir, o);
    ghost var d := fs.Snapshot();
    var isTS := IsTS(o);
    var isAntd := o.uiFramework == AntDesign;
    var isChakra := o.uiFramework == ChakraUI;
    var fileExt := ComponentExt(o);
    var cssExt := CssExt(o);

    var dashboardContent := Empty;
    if isTS {
      if isAntd {
        dashboardContent := Source("react/pages/dashboard", ForLookLang(AntDesignLook, TypeScript), []);
      } else if isChakra {
        dashboardContent := Source("react/pages/dashboard", ForLookLang(ChakraLook, TypeScript), []);
      } else {
        dashboardContent := Source("react/pages/dashboard", ForLookLang(PlainLook, TypeScript), [ImportsStylesheet("index." + cssExt)]);
      }
    }
    out := fs.WriteFile(dashboardDir, FileName("index", fileExt), dashboardContent);
    if out.Thrown? { Stop(d, rest, Run(out, fs.Snapshot())); return; }
    Continue(d, rest, fs.Snapshot());
    rest, d := rest[1..], fs.Snapshot();

    if !isChakra {
      out := CreateDashboardCss(fs, dashboardDir, FileName("index", cssExt));
    }
  }

  /** `index.tsx`/`index.jsx`, then `index.css` (or `.scss`), for every UI framework including Chakra UI. */
  lemma LoginWrites(loginDir: Path, o: Options)
    ensures Writes(LoginOps(loginDir, o)) ==
      [ Join(loginDir, FileName("index", ComponentExt(o))), Join(loginDir, FileName("index", CssExt(o))) ]
  {
    var ops := LoginOps(loginDir, o);
    assert ops[2..] == [];
    assert Writes(ops[1..]) == [Join(loginDir, FileName("index", CssExt(o)))];
  }

  /** The dashboard stylesheet is written if and only if the UI framework is not Chakra UI. */
  lemma DashboardWrites(dashboardDir: Path, o: Options)
    ensures o.uiFramework != ChakraUI ==>
      Writes(DashboardOps(dashboardDir, o)) ==
        [ Join(dashboardDir, FileName("index", ComponentExt(o))), Join(dashboardDir, FileName("index", CssExt(o))) ]
    ensures o.uiFramework == ChakraUI ==>
      Writes(DashboardOps(dashboardDir, o)) == [ Join(dashboardDir, FileName("index", ComponentExt(o))) ]
  {
    var ops := DashboardOps(dashboardDir, o);
    if o.uiFramework != ChakraUI {
      assert ops[2..] == [];
      assert Writes(ops[1..]) == [Join(dashboardDir, FileName("index", CssExt(o)))];
    } else {
      assert ops[1..] == [];
    }
  }

  lemma ViewsReady(dirs: set<Path>, loginDir: Path, dashboardDir: Path, o: Options)
    requires loginDir in dirs && dashboardDir in dirs
    ensures Ready(dirs, LoginOps(loginDir, o)) && Ready(dirs, DashboardOps(dashboardDir, o))
  {
    ReadyWhenPlaced(dirs, LoginOps(loginDir, o));
    ReadyWhenPlaced(dirs, DashboardOps(dashboardDir, o));
  }

  /**
   * On the JavaScript branch both page components are written, with empty content;
   * on the TypeScript branch both carry a TypeScript text.
   */
  lemma JavaScriptPagesAreEmpty(loginDir: Path, dashboardDir: Path, o: Options)
    ensures LoginOps(loginDir, o)[0].content == Empty <==> !IsTS(o)
    ensures DashboardOps(dashboardDir, o)[0].content == Empty <==> !IsTS(o)
    ensures IsTS(o) ==> TsContent(LoginOps(loginDir, o)[0].content) && TsContent(DashboardOps(dashboardDir, o)[0].content)
  {
  }

  /** The login stylesheet variant follows `isAntd`, else `isChakra`, else plain, and nothing else. */
  lemma LoginStylesheetVariant(o: Options, o': Options)
    ensures LoginStylesheet(o).variant == ForLook(AntDesignLook) <==> o.uiFramework == AntDesign
    ensures LoginStylesheet(o).variant == ForLook(ChakraLook) <==> o.uiFramework == ChakraUI
    ensures ReactLook(o.uiFramework) == ReactLook(o'.uiFramework) ==> LoginStylesheet(o) == LoginStylesheet(o')
  {
  }

  /**
   * A page that imports its sibling stylesheet finds it written by the same step,
   * under the same extension.
   */
  lemma PageStylesheetsExist(loginDir: Path, dashboardDir: Path, o: Options)
    ensures LoginPage(o).Source? && LoginPage(o).marks != [] ==>
              LoginPage(o).marks == [ImportsStylesheet(Render(LoginOps(loginDir, o)[1].file))]
    ensures DashboardPage(o).Source? && DashboardPage(o).marks != [] ==>
              |DashboardOps(dashboardDir, o)| == 2 &&
              DashboardPage(o).marks == [ImportsStylesheet(Render(DashboardOps(dashboardDir, o)[1].file))]
  {
    assert "index" + "." + CssExt(o) == "index." + CssExt(o);
  }
}
