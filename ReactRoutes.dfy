/** `createRouteFiles` of the React track: the route table. */
module ReactRoutes {
  import opened Config
  import opened Content
  import opened FileSystem
  import opened Pipeline

  /** The one call `createRouteFiles(routesDir, options)` makes. */
  function RouteOps(routesDir: Path, o: Options): seq<Op>
  {
    [ Write(routesDir, FileName("index", ComponentExt(o)), Source("react/routes/index", ForLang(LangOf(o)), [])) ]
  }

  /** No directory is created and nothing is caught. */
  method CreateRouteFiles(fs: FileSystem, routesDir: Path, o: Options) returns (out: Outcome)
    modifies fs
    ensures Run(out, fs.Snapshot()) == RunOps(old(fs.Snapshot()), RouteOps(routesDir, o))
  {
    var isTS := IsTS(o);
    var fileExt := if isTS then "tsx" else "jsx";
    var routesContent := if isTS then Source("react/routes/index", ForLang(TypeScript), [])
                         else Source("react/routes/index", ForLang(JavaScript), []);
    out := fs.WriteFile(routesDir, FileName("index", fileExt), routesContent);
  }

  /** Exactly `routes/index.tsx` or `routes/index.jsx`, and its text does not depend on the UI framework. */
  lemma RouteWrites(routesDir: Path, o: Options, o': Options)
    ensures Writes(RouteOps(routesDir, o)) == [Join(routesDir, FileName("index", ComponentExt(o)))]
    ensures o.language == o'.language ==> RouteOps(routesDir, o) == RouteOps(routesDir, o')
  {
  }

  lemma RouteReady(dirs: set<Path>, routesDir: Path, o: Options)
    requires routesDir in dirs
    ensures Ready(dirs, RouteOps(routesDir, o))
  {
  }
}
