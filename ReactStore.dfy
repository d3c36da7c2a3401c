/** `createStoreFiles` of the React track: the Redux Toolkit store and its two slices. */
module ReactStore {
  import opened Config
  import opened Content
  import opened FileSystem
  import opened Pipeline

  /** The calls `createStoreFiles(storeDir, options)` makes, in order. */
  function StoreOps(storeDir: Path, o: Options): seq<Op>
  {
    var ext := ScriptExt(o);
    var slicesDir := storeDir + ["slices"];
    [ Write(storeDir, FileName("index", ext), Source("react/store/index", ForLang(LangOf(o)), [])),
      Write(storeDir, FileName("hooks", ext), Source("react/store/hooks", ForLang(LangOf(o)), [])),
      Mkdir(slicesDir),
      Write(slicesDir, FileName("authSlice", ext), Source("react/store/authSlice", ForLang(LangOf(o)), [])),
      Write(slicesDir, FileName("uiSlice", ext), Source("react/store/uiSlice", ForLang(LangOf(o)), [])) ]
  }

  /** No try/catch: the first refused call ends the step and reaches the caller. */
  method CreateStoreFiles(fs: FileSystem, storeDir: Path, o: Options) returns (out: Outcome)
    modifies fs
    ensures Run(out, fs.Snapshot()) == RunOps(old(fs.Snapshot()), StoreOps(storeDir, o))
  {
    ghost var rest := StoreOps(storeDir, o);
    ghost var d := fs.Snapshot();
    var fileExt := ScriptExt(o);
    var lang := LangOf(o);

    out := fs.WriteFile(storeDir, FileName("index", fileExt), Source("react/store/index", ForLang(lang), []));
    if out.Thrown? { Stop(d, rest, Run(out, fs.Snapshot())); return; }
    Continue(d, rest, fs.Snapshot());
    rest, d := rest[1..], fs.Snapshot();

    out := fs.WriteFile(storeDir, FileName("hooks", fileExt), Source("react/store/hooks", ForLang(lang), []));
    if out.Thrown? { Stop(d, rest, Run(out, fs.Snapshot())); return; }
    Continue(d, rest, fs.Snapshot());
    rest, d := rest[1..], fs.Snapshot();

    var slicesDir := storeDir + ["slices"];
    out := fs.MakeDirectory(slicesDir);
    if out.Thrown? { Stop(d, rest, Run(out, fs.Snapshot())); return; }
    Continue(d, rest, fs.Snapshot());
    rest, d := rest[1..], fs.Snapshot();

    out := fs.WriteFile(slicesDir, FileName("authSlice", fileExt), Source("react/store/authSlice", ForLang(lang), []));
    if out.Thrown? { Stop(d, rest, Run(out, fs.Snapshot())); return; }
    Continue(d, rest, fs.Snapshot());
    rest, d := rest[1..], fs.Snapshot();

    out := fs.WriteFile(slicesDir, FileName("uiSlice", fileExt), Source("react/store/uiSlice", ForLang(lang), []));
    Last(d, rest, Run(out, fs.Snapshot()));
  }

  /** Four modules, in this order, all with the `ts`/`js` extension; the slices go in `slices/`. */
  lemma StoreWrites(storeDir: Path, o: Options)
    ensures Writes(StoreOps(storeDir, o)) ==
      [ Join(storeDir, FileName("index", ScriptExt(o))), Join(storeDir, FileName("hooks", ScriptExt(o))),
        Join(storeDir + ["slices"], FileName("authSlice", ScriptExt(o))),
        Join(storeDir + ["slices"], FileName("uiSlice", ScriptExt(o))) ]
  {
    var ops := StoreOps(storeDir, o);
    assert ops[5..] == [];
    assert Writes(ops[4..]) == [Join(storeDir + ["slices"], FileName("uiSlice", ScriptExt(o)))];
    assert Writes(ops[3..]) == [Join(storeDir + ["slices"], FileName("authSlice", ScriptExt(o)))] + Writes(ops[4..]);
    assert Writes(ops[2..]) == Writes(ops[3..]);
    assert Writes(ops[1..]) == [Join(storeDir, FileName("hooks", ScriptExt(o)))] + Writes(ops[2..]);
  }

  /** `slices/` is created before the slices are written, so only `storeDir` must exist. */
  lemma StoreReady(dirs: set<Path>, storeDir: Path, o: Options)
    requires storeDir in dirs
    ensures Ready(dirs, StoreOps(storeDir, o))
  {
    var ops := StoreOps(storeDir, o);
    var slices := dirs + Prefixes(storeDir + ["slices"]);
    assert Ready(slices, ops[3..]);
    assert Ready(dirs, ops[1..]);
  }
}
