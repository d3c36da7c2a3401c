/** `createContextFiles` of the React track: the authentication and theme providers. */
module ReactContext {
  import opened Config
  import opened Content
  import opened FileSystem
  import opened Pipeline

  /** Where the first `c` of `s` is, or `|s|` when there is none. */
  function FirstIndex(s: string, c: char): (i: nat)
    ensures i <= |s|
    ensures i < |s| ==> s[i] == c
    ensures c !in s[..i]
  {
    if s == [] || s[0] == c then 0
    else
      var j := FirstIndex(s[1..], c);
      assert s[..j + 1] == [s[0]] + s[1..][..j];
      j + 1
  }

  /** `s.replace(c, '')` with a one-character string pattern: the first `c` is dropped. */
  function RemoveFirst(s: string, c: char): (r: string)
    ensures c !in s ==> r == s
    ensures c in s ==> exists i :: 0 <= i < |s| && s[i] == c && c !in s[..i] && r == s[..i] + s[i + 1..]
  {
    var i := FirstIndex(s, c);
    if i == |s| then
      assert s[..i] == s;
      s
    else
      s[..i] + s[i + 1..]
  }

  /** The component extension with its `x` dropped is the plain-module extension. */
  lemma IndexExtension(o: Options)
    ensures RemoveFirst(ComponentExt(o), 'x') == ScriptExt(o)
  {
    if IsTS(o) {
      assert "tsx"[0] != 'x' && "tsx"[1..] == "sx" && "sx"[1..] == "x";
    } else {
      assert "jsx"[0] != 'x' && "jsx"[1..] == "sx" && "sx"[1..] == "x";
    }
  }

  /** The calls `createContextFiles(contextDir, options)` makes, in order. */
  function ContextOps(contextDir: Path, o: Options): seq<Op>
  {
    var ext := ComponentExt(o);
    [ Write(contextDir, FileName("AuthContext", ext), Source("react/context/AuthContext", ForLang(LangOf(o)), [])),
      Write(contextDir, FileName("ThemeContext", ext), Source("react/context/ThemeContext", ForLang(LangOf(o)), [])),
      Write(contextDir, FileName("index", RemoveFirst(ext, 'x')), Source("react/context/index", Shared, [])) ]
  }

  /** The `catch` logs and rethrows. */
  method CreateContextFiles(fs: FileSystem, contextDir: Path, o: Options) returns (out: Outcome)
    modifies fs
    ensures Run(out, fs.Snapshot()) == RunOps(old(fs.Snapshot()), ContextOps(contextDir, o))
  {
    ghost var rest := ContextOps(contextDir, o);
    ghost var d := fs.Snapshot();
    var fileExt := ComponentExt(o);
    var lang := LangOf(o);

    out := fs.WriteFile(contextDir, FileName("AuthContext", fileExt), Source("react/context/AuthContext", ForLang(lang), []));
    if out.Thrown? { Stop(d, rest, Run(out, fs.Snapshot())); return; }
    Continue(d, rest, fs.Snapshot());
    rest, d := rest[1..], fs.Snapshot();

    out := fs.WriteFile(contextDir, FileName("ThemeContext", fileExt), Source("react/context/ThemeContext", ForLang(lang), []));
    if out.Thrown? { Stop(d, rest, Run(out, fs.Snapshot())); return; }
    Continue(d, rest, fs.Snapshot());
    rest, d := rest[1..], fs.Snapshot();

    out := fs.WriteFile(contextDir, FileName("index", RemoveFirst(fileExt, 'x')), Source("react/context/index", Shared, []));
    Last(d, rest, Run(out, fs.Snapshot()));
  }

  /** Two providers with the component extension, then `index.ts` or `index.js`, the same text in both languages. */
  lemma ContextWrites(contextDir: Path, o: Options)
    ensures Writes(ContextOps(contextDir, o)) ==
      [ Join(contextDir, FileName("AuthContext", ComponentExt(o))),
        Join(contextDir, FileName("ThemeContext", ComponentExt(o))),
        Join(contextDir, FileName("index", ScriptExt(o))) ]
    ensures ContextOps(contextDir, o)[2].content == ContextOps(contextDir, o.(language := None))[2].content
  {
    var ext := ComponentExt(o);
    var auth := Write(contextDir, FileName("AuthContext", ext), Source("react/context/AuthContext", ForLang(LangOf(o)), []));
    var theme := Write(contextDir, FileName("ThemeContext", ext), Source("react/context/ThemeContext", ForLang(LangOf(o)), []));
    var index := Write(contextDir, FileName("index", RemoveFirst(ext, 'x')), Source("react/context/index", Shared, []));
    assert ContextOps(contextDir, o) == [auth, theme, index];
    WritesOfThree(auth, theme, index);
    IndexExtension(o);
  }

  lemma ContextReady(dirs: set<Path>, contextDir: Path, o: Options)
    requires contextDir in dirs
    ensures Ready(dirs, ContextOps(contextDir, o))
  {
    ReadyWhenPlaced(dirs, ContextOps(contextDir, o));
  }
}
