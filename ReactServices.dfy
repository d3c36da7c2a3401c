/** `createServiceFiles` of the React track: the API client and the services built on it. */
module ReactServices {
  import opened Config
  import opened Content
  import opened FileSystem
  import opened Pipeline

  /** The calls `createServiceFiles(servicesDir, options)` makes, in order. */
  function ServiceOps(servicesDir: Path, o: Options): seq<Op>
  {
    var ext := ScriptExt(o);
    [ Write(servicesDir, FileName("apiClient", ext), Source("react/services/apiClient", ForLang(LangOf(o)), [])),
      Write(servicesDir, FileName("userService", ext), Source("react/services/userService", ForLang(LangOf(o)), [])),
      Write(servicesDir, FileName("authService", ext), Source("react/services/authService", ForLang(LangOf(o)), [])),
      Write(servicesDir, FileName("index", ext), Source("react/services/index", Shared, [])) ]
  }

  /** The `catch` logs and rethrows, so an error reaches the caller unchanged. */
  method CreateServiceFiles(fs: FileSystem, servicesDir: Path, o: Options) returns (out: Outcome)
    modifies fs
    ensures Run(out, fs.Snapshot()) == RunOps(old(fs.Snapshot()), ServiceOps(servicesDir, o))
  {
    ghost var rest := ServiceOps(servicesDir, o);
    ghost var d := fs.Snapshot();
    var fileExt := ScriptExt(o);
    var lang := LangOf(o);

    out := fs.WriteFile(servicesDir, FileName("apiClient", fileExt), Source("react/services/apiClient", ForLang(lang), []));
    if out.Thrown? { Stop(d, rest, Run(out, fs.Snapshot())); return; }
    Continue(d, rest, fs.Snapshot());
    rest, d := rest[1..], fs.Snapshot();

    out := fs.WriteFile(servicesDir, FileName("userService", fileExt), Source("react/services/userService", ForLang(lang), []));
    if out.Thrown? { Stop(d, rest, Run(out, fs.Snapshot())); return; }
    Continue(d, rest, fs.Snapshot());
    rest, d := rest[1..], fs.Snapshot();

    out := fs.WriteFile(servicesDir, FileName("authService", fileExt), Source("react/services/authService", ForLang(lang), []));
    if out.Thrown? { Stop(d, rest, Run(out, fs.Snapshot())); return; }
    Continue(d, rest, fs.Snapshot());
    rest, d := rest[1..], fs.Snapshot();

    out := fs.WriteFile(servicesDir, FileName("index", fileExt), Source("react/services/index", Shared, []));
    Last(d, rest, Run(out, fs.Snapshot()));
  }

  /** Four modules in `services/`, in this order, all `ts` or `js`, and nothing else. */
  lemma ServiceWrites(servicesDir: Path, o: Options)
    ensures Writes(ServiceOps(servicesDir, o)) ==
      [ Join(servicesDir, FileName("apiClient", ScriptExt(o))), Join(servicesDir, FileName("userService", ScriptExt(o))),
        Join(servicesDir, FileName("authService", ScriptExt(o))), Join(servicesDir, FileName("index", ScriptExt(o))) ]
  {
    var ops := ServiceOps(servicesDir, o);
    var ext := ScriptExt(o);
    assert ops[4..] == [];
    assert Writes(ops[3..]) == [Join(servicesDir, FileName("index", ext))];
    assert Writes(ops[2..]) == [Join(servicesDir, FileName("authService", ext))] + Writes(ops[3..]);
    assert Writes(ops[1..]) == [Join(servicesDir, FileName("userService", ext))] + Writes(ops[2..]);
  }

  lemma ServiceReady(dirs: set<Path>, servicesDir: Path, o: Options)
    requires servicesDir in dirs
    ensures Ready(dirs, ServiceOps(servicesDir, o))
  {
    ReadyWhenPlaced(dirs, ServiceOps(servicesDir, o));
  }

  /** The barrel module reads the same whatever the options. */
  lemma ServiceIndexShared(servicesDir: Path, o: Options, o': Options)
    ensures ServiceOps(servicesDir, o)[3].content == ServiceOps(servicesDir, o')[3].content
  {
  }
}
