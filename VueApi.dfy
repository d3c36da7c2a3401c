/** `createApiFiles` of the Vue track: the API entry module, the axios wrapper and the user API. */
module VueApi {
  import opened Config
  import opened Content
  import opened FileSystem
  import opened Pipeline

  /** The calls `createApiFiles(apiDir, options)` makes, in order; both branches of `index` hold one text. */
  function ApiOps(apiDir: Path, o: Options): seq<Op>
  {
    [ Write(apiDir, FileName("index", ScriptExt(o)), Source("vue/api/index", Shared, [])),
      Write(apiDir, FileName("request", ScriptExt(o)), Source("vue/api/request", ForLang(LangOf(o)), [])),
      Write(apiDir, FileName("user", ScriptExt(o)), Source("vue/api/user", ForLang(LangOf(o)), [])) ]
  }

  /** No try/catch: errors propagate. */
  method CreateApiFiles(fs: FileSystem, apiDir: Path, o: Options) returns (out: Outcome)
    modifies fs
    ensures Run(out, fs.Snapshot()) == RunOps(old(fs.Snapshot()), ApiOps(apiDir, o))
  {
    ghost var rest := ApiOps(apiDir, o);
    ghost var d := fs.Snapshot();
    var isTS := IsTS(o);
    var fileExt := if isTS then "ts" else "js";
    var lang := if isTS then TypeScript else JavaScript;

    var indexContent := Empty;
    if isTS {
      indexContent := Source("vue/api/index", Shared, []);
    } else {
      indexContent := Source("vue/api/index", Shared, []);
    }
    out := fs.WriteFile(apiDir, FileName("index", fileExt), indexContent);
    if out.Thrown? { Stop(d, rest, Run(out, fs.Snapshot())); return; }
    Continue(d, rest, fs.Snapshot());
    rest, d := rest[1..], fs.Snapshot();

    out := fs.WriteFile(apiDir, FileName("request", fileExt), Source("vue/api/request", ForLang(lang), []));
    if out.Thrown? { Stop(d, rest, Run(out, fs.Snapshot())); return; }
    Continue(d, rest, fs.Snapshot());
    rest, d := rest[1..], fs.Snapshot();

    out := fs.WriteFile(apiDir, FileName("user", fileExt), Source("vue/api/user", ForLang(lang), []));
    Last(d, rest, Run(out, fs.Snapshot()));
  }

  /** `index`, `request`, `user`, nothing else and no directory; `index` is the same in both languages. */
  lemma ApiWrites(apiDir: Path, o: Options)
    ensures Writes(ApiOps(apiDir, o)) ==
      [ Join(apiDir, FileName("index", ScriptExt(o))), Join(apiDir, FileName("request", ScriptExt(o))),
        Join(apiDir, FileName("user", ScriptExt(o))) ]
    ensures Made(ApiOps(apiDir, o)) == {}
    ensures ApiOps(apiDir, o)[0].content == ApiOps(apiDir, o.(language := None))[0].content
  {
    var ops := ApiOps(apiDir, o);
    assert ops[3..] == [];
    assert Writes(ops[2..]) == [Join(apiDir, FileName("user", ScriptExt(o)))];
    assert Writes(ops[1..]) == [Join(apiDir, FileName("request", ScriptExt(o)))] + Writes(ops[2..]);
    assert Made(ops[2..]) == {} && Made(ops[1..]) == {};
  }

  lemma ApiReady(dirs: set<Path>, apiDir: Path, o: Options)
    requires apiDir in dirs
    ensures Ready(dirs, ApiOps(apiDir, o))
  {
    ReadyWhenPlaced(dirs, ApiOps(apiDir, o));
  }

  lemma ApiWithoutTypeScript(apiDir: Path, o: Options)
    requires !IsTS(o)
    ensures NoTypeScript(ApiOps(apiDir, o))
  {
  }
}
