/** `createStoreFiles` of the Vue track: the Pinia entry module and the user store. */
module VueStore {
  import opened Config
  import opened Content
  import opened FileSystem
  import opened Pipeline

  /** The calls `createStoreFiles(storeDir, options)` makes, in order; both branches of `index` hold one text. */
  function StoreOps(storeDir: Path, o: Options): seq<Op>
  {
    [ Write(storeDir, FileName("index", ScriptExt(o)), Source("vue/store/index", Shared, [])),
      Write(storeDir, FileName("user", ScriptExt(o)), Source("vue/store/user", ForLang(LangOf(o)), [])) ]
  }

  /** No try/catch: errors propagate. */
  method CreateStoreFiles(fs: FileSystem, storeDir: Path, o: Options) returns (out: Outcome)
    modifies fs
    ensures Run(out, fs.Snapshot()) == RunOps(old(fs.Snapshot()), StoreOps(storeDir, o))
  {
    ghost var rest := StoreOps(storeDir, o);
    ghost var d := fs.Snapshot();
    var isTS := IsTS(o);
    var fileExt := if isTS then "ts" else "js";

    var indexContent := Empty;
    if isTS {
      indexContent := Source("vue/store/index", Shared, []);
    } else {
      indexContent := Source("vue/store/index", Shared, []);
    }
    out := fs.WriteFile(storeDir, FileName("index", fileExt), indexContent);
    if out.Thrown? { Stop(d, rest, Run(out, fs.Snapshot())); return; }
    Continue(d, rest, fs.Snapshot());
    rest, d := rest[1..], fs.Snapshot();

    var userStoreContent := Empty;
    if isTS {
      userStoreContent := Source("vue/store/user", ForLang(TypeScript), []);
    } else {
      userStoreContent := Source("vue/store/user", ForLang(JavaScript), []);
    }
    out := fs.WriteFile(storeDir, FileName("user", fileExt), userStoreContent);
    Last(d, rest, Run(out, fs.Snapshot()));
  }

  /** `index` then `user`, nothing else and no directory; `index` is the same in both languages. */
  lemma StoreWrites(storeDir: Path, o: Options)
    ensures Writes(StoreOps(storeDir, o)) ==
      [ Join(storeDir, FileName("index", ScriptExt(o))), Join(storeDir, FileName("user", ScriptExt(o))) ]
    ensures Made(StoreOps(storeDir, o)) == {}
    ensures StoreOps(storeDir, o)[0].content == StoreOps(storeDir, o.(language := None))[0].content
  {
    var ops := StoreOps(storeDir, o);
    assert ops[2..] == [];
    assert Writes(ops[1..]) == [Join(storeDir, FileName("user", ScriptExt(o)))];
    assert Made(ops[1..]) == {};
  }

  lemma StoreReady(dirs: set<Path>, storeDir: Path, o: Options)
    requires storeDir in dirs
    ensures Ready(dirs, StoreOps(storeDir, o))
  {
    ReadyWhenPlaced(dirs, StoreOps(storeDir, o));
  }

  lemma StoreWithoutTypeScript(storeDir: Path, o: Options)
    requires !IsTS(o)
    ensures NoTypeScript(StoreOps(storeDir, o))
  {
  }
}
