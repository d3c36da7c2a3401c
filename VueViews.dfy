/**
 * `createLoginFiles` and `createDashboardFiles` of the Vue track: one
 * `index.vue` per page, chosen by the UI framework alone.
 */
module VueViews {
  import opened Config
  import opened Content
  import opened FileSystem
  import opened Pipeline

  /** The calls `createLoginFiles(loginDir, options)` makes. */
  function LoginOps(loginDir: Path, o: Options): seq<Op>
  {
    [ Write(loginDir, FileName("index", "vue"), Source("vue/views/login", ForLook(VueLook(o.uiFramework)), [])) ]
  }

  /** The calls `createDashboardFiles(dashboardDir, options)` makes. */
  function DashboardOps(dashboardDir: Path, o: Options): seq<Op>
  {
    [ Write(dashboardDir, FileName("index", "vue"), Source("vue/views/dashboard", ForLook(VueLook(o.uiFramework)), [])) ]
  }

  /** No try/catch. */
  method CreateLoginFiles(fs: FileSystem, loginDir: Path, o: Options) returns (out: Outcome)
    modifies fs
    ensures Run(out, fs.Snapshot()) == RunOps(old(fs.Snapshot()), LoginOps(loginDir, o))
  {
    var isElementPlus := o.uiFramework == ElementPlus;
    var isAntDesignVue := o.uiFramework == AntDesignVue;

    var loginContent := Empty;
    if isElementPlus {
      loginContent := Source("vue/views/login", ForLook(ElementPlusLook), []);
    } else if isAntDesignVue {
      loginContent := Source("vue/views/login", ForLook(AntDesignVueLook), []);
    } else {
      loginContent := Source("vue/views/login", ForLook(PlainLook), []);
    }
    out := fs.WriteFile(loginDir, FileName("index", "vue"), loginContent);
    assert LoginOps(loginDir, o)[1..] == [];
  }

  /** No try/catch. */
  method CreateDashboardFiles(fs: FileSystem, dashboardDir: Path, o: Options) returns (out: Outcome)
    modifies fs
    ensures Run(out, fs.Snapshot()) == RunOps(old(fs.Snapshot()), DashboardOps(dashboardDir, o))
  {
    var isElementPlus := o.uiFramework == ElementPlus;
    var isAntDesignVue := o.uiFramework == AntDesignVue;

    var dashboardContent := Empty;
    if isElementPlus {
      dashboardContent := Source("vue/views/dashboard", ForLook(ElementPlusLook), []);
    } else if isAntDesignVue {
      dashboardContent := Source("vue/views/dashboard", ForLook(AntDesignVueLook), []);
    } else {
      dashboardContent := Source("vue/views/dashboard", ForLook(PlainLook), []);
    }
    out := fs.WriteFile(dashboardDir, FileName("index", "vue"), dashboardContent);
    assert DashboardOps(dashboardDir, o)[1..] == [];
  }

  /**
   * Each page is exactly one `index.vue` in its own directory, its variant is
   * Element Plus, else Ant Design Vue, else plain, and the language changes nothing.
   */
  lemma ViewsWrites(loginDir: Path, dashboardDir: Path, o: Options, l: Option<Lang>)
    ensures Writes(LoginOps(loginDir, o)) == [Join(loginDir, FileName("index", "vue"))]
    ensures Writes(DashboardOps(dashboardDir, o)) == [Join(dashboardDir, FileName("index", "vue"))]
    ensures LoginOps(loginDir, o)[0].content.variant == ForLook(VueLook(o.uiFramework))
    ensures DashboardOps(dashboardDir, o)[0].content.variant == ForLook(VueLook(o.uiFramework))
    ensures LoginOps(loginDir, o) == LoginOps(loginDir, o.(language := l))
    ensures DashboardOps(dashboardDir, o) == DashboardOps(dashboardDir, o.(language := l))
  {
    assert LoginOps(loginDir, o)[1..] == [];
    assert DashboardOps(dashboardDir, o)[1..] == [];
  }

  lemma ViewsReady(dirs: set<Path>, loginDir: Path, dashboardDir: Path, o: Options)
    requires loginDir in dirs && dashboardDir in dirs
    ensures Ready(dirs, LoginOps(loginDir, o))
    ensures Ready(dirs, DashboardOps(dashboardDir, o))
  {
    ReadyWhenPlaced(dirs, LoginOps(loginDir, o));
    ReadyWhenPlaced(dirs, DashboardOps(dashboardDir, o));
  }

  lemma ViewsWithoutTypeScript(loginDir: Path, dashboardDir: Path, o: Options)
    ensures NoTypeScript(LoginOps(loginDir, o)) && NoTypeScript(DashboardOps(dashboardDir, o))
  {
  }
}
