/**
 * `createLayoutFiles` of the Vue track: the layout shell, then its `components/`
 * directory and the navbar, sidebar and main-area components. Every file is a
 * `.vue` single-file component and nothing depends on the language.
 */
module VueLayout {
  import opened Config
  import opened Content
  import opened FileSystem
  import opened Pipeline

  /** `isElementPlus` picks the navbar; every other choice gets the plain one. */
  function NavbarLook(u: UiFramework): (l: Look)
    ensures l == ElementPlusLook <==> u == ElementPlus
    ensures l == PlainLook <==> u != ElementPlus
  {
    if u == ElementPlus then ElementPlusLook else PlainLook
  }

  /** `path.join(layoutDir, 'components')`. */
  function LayoutComponentsDir(layoutDir: Path): Path
  {
    layoutDir + ["components"]
  }

  /** The calls `createLayoutFiles(layoutDir, options)` makes, in order. */
  function LayoutOps(layoutDir: Path, o: Options): seq<Op>
  {
    var parts := LayoutComponentsDir(layoutDir);
    [ Write(layoutDir, FileName("index", "vue"), Source("vue/layout/index", Shared, [])),
      Mkdir(parts),
      Write(parts, FileName("Navbar", "vue"), Source("vue/layout/Navbar", ForLook(NavbarLook(o.uiFramework)), [])),
      Write(parts, FileName("Sidebar", "vue"), Source("vue/layout/Sidebar", Shared, [])),
      Write(parts, FileName("AppMain", "vue"), Source("vue/layout/AppMain", Shared, [])) ]
  }

  /** No try/catch: errors propagate. */
  method CreateLayoutFiles(fs: FileSystem, layoutDir: Path, o: Options) returns (out: Outcome)
    modifies fs
    ensures Run(out, fs.Snapshot()) == RunOps(old(fs.Snapshot()), LayoutOps(layoutDir, o))
  {
    ghost var rest := LayoutOps(layoutDir, o);
    ghost var d := fs.Snapshot();
    var isElementPlus := o.uiFramework == ElementPlus;

    out := fs.WriteFile(layoutDir, FileName("index", "vue"), Source("vue/layout/index", Shared, []));
    if out.Thrown? { Stop(d, rest, Run(out, fs.Snapshot())); return; }
    Continue(d, rest, fs.Snapshot());
    rest, d := rest[1..], fs.Snapshot();

    out := fs.MakeDirectory(layoutDir + ["components"]);
    if out.Thrown? { Stop(d, rest, Run(out, fs.Snapshot())); return; }
    Continue(d, rest, fs.Snapshot());
    rest, d := rest[1..], fs.Snapshot();

    var navbarContent := Empty;
    if isElementPlus {
      navbarContent := Source("vue/layout/Navbar", ForLook(ElementPlusLook), []);
    } else {
      navbarContent := Source("vue/layout/Navbar", ForLook(PlainLook), []);
    }
    out := fs.WriteFile(layoutDir + ["components"], FileName("Navbar", "vue"), navbarContent);
    if out.Thrown? { Stop(d, rest, Run(out, fs.Snapshot())); return; }
    Continue(d, rest, fs.Snapshot());
    rest, d := rest[1..], fs.Snapshot();

    out := fs.WriteFile(layoutDir + ["components"], FileName("Sidebar", "vue"), Source("vue/layout/Sidebar", Shared, []));
    if out.Thrown? { Stop(d, rest, Run(out, fs.Snapshot())); return; }
    Continue(d, rest, fs.Snapshot());
    rest, d := rest[1..], fs.Snapshot();

    out := fs.WriteFile(layoutDir + ["components"], FileName("AppMain", "vue"), Source("vue/layout/AppMain", Shared, []));
    Last(d, rest, Run(out, fs.Snapshot()));
  }

  /** `index.vue` first, then the three components in `components/`. */
  lemma LayoutWrites(layoutDir: Path, o: Options)
    ensures Writes(LayoutOps(layoutDir, o)) ==
      [ Join(layoutDir, FileName("index", "vue")),
        Join(LayoutComponentsDir(layoutDir), FileName("Navbar", "vue")),
        Join(LayoutComponentsDir(layoutDir), FileName("Sidebar", "vue")),
        Join(LayoutComponentsDir(layoutDir), FileName("AppMain", "vue")) ]
  {
    var ops, parts := LayoutOps(layoutDir, o), LayoutComponentsDir(layoutDir);
    assert ops[5..] == [];
    assert Writes(ops[4..]) == [Join(parts, FileName("AppMain", "vue"))];
    assert Writes(ops[3..]) == [Join(parts, FileName("Sidebar", "vue"))] + Writes(ops[4..]);
    assert Writes(ops[2..]) == [Join(parts, FileName("Navbar", "vue"))] + Writes(ops[3..]);
    assert Writes(ops[1..]) == Writes(ops[2..]);
  }

  /**
   * The Element Plus navbar is chosen exactly for Element Plus (Ant Design Vue gets
   * the plain one), only the navbar varies, and the language changes nothing.
   */
  lemma LayoutVariants(layoutDir: Path, o: Options, l: Option<Lang>)
    ensures LayoutOps(layoutDir, o)[2].content.variant == ForLook(ElementPlusLook) <==> o.uiFramework == ElementPlus
    ensures forall i :: 0 <= i < 5 && i != 2 ==> LayoutOps(layoutDir, o)[i].Mkdir? || LayoutOps(layoutDir, o)[i].content.variant == Shared
    ensures LayoutOps(layoutDir, o) == LayoutOps(layoutDir, o.(language := l))
  {
  }

  /** `components/` is created by the step itself, so only `layoutDir` must exist. */
  lemma LayoutReady(dirs: set<Path>, layoutDir: Path, o: Options)
    requires layoutDir in dirs
    ensures Ready(dirs, LayoutOps(layoutDir, o))
  {
    var ops := LayoutOps(layoutDir, o);
    ReadyWhenPlaced(dirs + Prefixes(LayoutComponentsDir(layoutDir)), ops[2..]);
    assert Ready(dirs, ops[1..]);
  }

  lemma LayoutWithoutTypeScript(layoutDir: Path, o: Options)
    ensures NoTypeScript(LayoutOps(layoutDir, o))
  {
  }
}
