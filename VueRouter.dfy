/**
 * `createRouterFiles` of the Vue track: the router module in `routerDir`, then
 * the 404 page, whose directory and path are built from `options.projectPath`
 * rather than from `routerDir`.
 */
module VueRouter {
  import opened Config
  import opened Content
  import opened FileSystem
  import opened Pipeline

  /** `path.join(options.projectPath, 'src/views')`. */
  function NotFoundDir(projectPath: Path): Path
  {
    projectPath + ["src", "views"]
  }

  /** The calls `createRouterFiles(routerDir, options)` makes, in order. */
  function RouterOps(routerDir: Path, o: Options): seq<Op>
    requires o.projectPath.Some?
  {
    [ Write(routerDir, FileName("index", ScriptExt(o)), Source("vue/router/index", ForLang(LangOf(o)), [])),
      Mkdir(NotFoundDir(o.projectPath.value)),
      Write(NotFoundDir(o.projectPath.value), FileName("404", "vue"), Source("vue/views/404", Shared, [])) ]
  }

  /** No try/catch: errors propagate. */
  method CreateRouterFiles(fs: FileSystem, routerDir: Path, o: Options) returns (out: Outcome)
    requires o.projectPath.Some?
    modifies fs
    ensures Run(out, fs.Snapshot()) == RunOps(old(fs.Snapshot()), RouterOps(routerDir, o))
  {
    ghost var rest := RouterOps(routerDir, o);
    ghost var d := fs.Snapshot();
    var isTS := IsTS(o);
    var fileExt := if isTS then "ts" else "js";

    var indexContent := Empty;
    if isTS {
      indexContent := Source("vue/router/index", ForLang(TypeScript), []);
    } else {
      indexContent := Source("vue/router/index", ForLang(JavaScript), []);
    }
    out := fs.WriteFile(routerDir, FileName("index", fileExt), indexContent);
    if out.Thrown? { Stop(d, rest, Run(out, fs.Snapshot())); return; }
    Continue(d, rest, fs.Snapshot());
    rest, d := rest[1..], fs.Snapshot();

    var notFoundContent := Source("vue/views/404", Shared, []);
    out := fs.MakeDirectory(o.projectPath.value + ["src", "views"]);
    if out.Thrown? { Stop(d, rest, Run(out, fs.Snapshot())); return; }
    Continue(d, rest, fs.Snapshot());
    rest, d := rest[1..], fs.Snapshot();

    out := fs.WriteFile(o.projectPath.value + ["src", "views"], FileName("404", "vue"), notFoundContent);
    Last(d, rest, Run(out, fs.Snapshot()));
  }

  /**
   * The router module, then `src/views/404.vue` under the project path, with
   * the same text in both languages, wherever `routerDir` points.
   */
  lemma RouterWrites(routerDir: Path, o: Options)
    requires o.projectPath.Some?
    ensures Writes(RouterOps(routerDir, o)) ==
      [ Join(routerDir, FileName("index", ScriptExt(o))),
        Join(o.projectPath.value + ["src", "views"], FileName("404", "vue")) ]
    ensures RouterOps(routerDir, o)[2] == RouterOps(routerDir, o.(language := None))[2]
  {
    var ops := RouterOps(routerDir, o);
    assert ops[3..] == [];
    assert Writes(ops[2..]) == [Join(NotFoundDir(o.projectPath.value), FileName("404", "vue"))];
    assert Writes(ops[1..]) == Writes(ops[2..]);
  }

  /** The 404 directory is created by the step itself, so only `routerDir` must exist. */
  lemma RouterReady(dirs: set<Path>, routerDir: Path, o: Options)
    requires o.projectPath.Some? && routerDir in dirs
    ensures Ready(dirs, RouterOps(routerDir, o))
  {
    var ops := RouterOps(routerDir, o);
    assert Ready(dirs + Prefixes(NotFoundDir(o.projectPath.value)), ops[2..]);
    assert Ready(dirs, ops[1..]);
  }

  lemma RouterWithoutTypeScript(routerDir: Path, o: Options)
    requires o.projectPath.Some? && !IsTS(o)
    ensures NoTypeScript(RouterOps(routerDir, o))
  {
  }
}
