/** `createCustomHooks` of the React track: plain modules, never JSX. */
module ReactHooks {
  import opened Config
  import opened Content
  import opened FileSystem
  import opened Pipeline

  /** The calls `createCustomHooks(hooksDir, options)` makes, in order. */
  function HookOps(hooksDir: Path, o: Options): seq<Op>
  {
    var ext := ScriptExt(o);
    [ Write(hooksDir, FileName("useAuth", ext), Source("react/hooks/useAuth", Shared, [])),
      Write(hooksDir, FileName("useLocalStorage", ext), Source("react/hooks/useLocalStorage", ForLang(LangOf(o)), [])),
      Write(hooksDir, FileName("index", ext), Source("react/hooks/index", Shared, [])) ]
  }

  /** The `catch` logs and rethrows. The two `useAuth` texts are identical, hence `Shared`. */
  method CreateCustomHooks(fs: FileSystem, hooksDir: Path, o: Options) returns (out: Outcome)
    modifies fs
    ensures Run(out, fs.Snapshot()) == RunOps(old(fs.Snapshot()), HookOps(hooksDir, o))
  {
    ghost var rest := HookOps(hooksDir, o);
    ghost var d := fs.Snapshot();
    var fileExt := ScriptExt(o);
    var lang := LangOf(o);

    out := fs.WriteFile(hooksDir, FileName("useAuth", fileExt), Source("react/hooks/useAuth", Shared, []));
    if out.Thrown? { Stop(d, rest, Run(out, fs.Snapshot())); return; }
    Continue(d, rest, fs.Snapshot());
    rest, d := rest[1..], fs.Snapshot();

    out := fs.WriteFile(hooksDir, FileName("useLocalStorage", fileExt), Source("react/hooks/useLocalStorage", ForLang(lang), []));
    if out.Thrown? { Stop(d, rest, Run(out, fs.Snapshot())); return; }
    Continue(d, rest, fs.Snapshot());
    rest, d := rest[1..], fs.Snapshot();

    out := fs.WriteFile(hooksDir, FileName("index", fileExt), Source("react/hooks/index", Shared, []));
    Last(d, rest, Run(out, fs.Snapshot()));
  }

  /** Three modules in `hooks/`, in this order, with the `ts`/`js` extension (never `tsx`); `index` is the same in both languages. */
  lemma HookWrites(hooksDir: Path, o: Options)
    ensures Writes(HookOps(hooksDir, o)) ==
      [ Join(hooksDir, FileName("useAuth", ScriptExt(o))), Join(hooksDir, FileName("useLocalStorage", ScriptExt(o))),
        Join(hooksDir, FileName("index", ScriptExt(o))) ]
    ensures forall i :: 0 <= i < |HookOps(hooksDir, o)| ==> HookOps(hooksDir, o)[i].file.ext != ComponentExt(o)
    ensures HookOps(hooksDir, o)[2].content == HookOps(hooksDir, o.(language := None))[2].content
  {
    var ops := HookOps(hooksDir, o);
    var ext := ScriptExt(o);
    assert ops[3..] == [];
    assert Writes(ops[2..]) == [Join(hooksDir, FileName("index", ext))];
    assert Writes(ops[1..]) == [Join(hooksDir, FileName("useLocalStorage", ext))] + Writes(ops[2..]);
  }

  lemma HookReady(dirs: set<Path>, hooksDir: Path, o: Options)
    requires hooksDir in dirs
    ensures Ready(dirs, HookOps(hooksDir, o))
  {
    ReadyWhenPlaced(dirs, HookOps(hooksDir, o));
  }
}
