/** `createCommonComponents` of the React track: reusable components under `components/common`. */
module ReactComponents {
  import opened Config
  import opened Content
  import opened FileSystem
  import opened Pipeline

  /** `path.join(componentsDir, 'common')`. */
  function CommonDir(componentsDir: Path): Path
  {
    componentsDir + ["common"]
  }

  /** The calls inside the `try` of `createCommonComponents(componentsDir, options)`, in order. */
  function ComponentOps(componentsDir: Path, o: Options): seq<Op>
  {
    var ext := ComponentExt(o);
    var common := CommonDir(componentsDir);
    [ Mkdir(common),
      Write(common, FileName("ProtectedRoute", ext), Source("react/components/ProtectedRoute", ForLang(LangOf(o)), [])),
      Write(common, FileName("Button", ext), Source("react/components/Button", ForLang(LangOf(o)), [ImportsStylesheet("Button.css")])),
      Write(common, FileName("Button", "css"), Source("react/components/Button.css", Shared, [])),
      Write(common, FileName("Card", ext), Source("react/components/Card", ForLang(LangOf(o)), [ImportsStylesheet("Card.css")])),
      Write(common, FileName("Card", "css"), Source("react/components/Card.css", Shared, [])) ]
  }

  /** The whole body sits in a `try` whose `catch` only logs: the step always returns. */
  method CreateCommonComponents(fs: FileSystem, componentsDir: Path, o: Options) returns (out: Outcome)
    modifies fs
    ensures out == Normal
    ensures fs.Snapshot() == RunOps(old(fs.Snapshot()), ComponentOps(componentsDir, o)).disk
  {
    ghost var rest := ComponentOps(componentsDir, o);
    ghost var d := fs.Snapshot();
    var attempt: Outcome;
    var fileExt := ComponentExt(o);
    var lang := LangOf(o);

    var commonComponentsDir := componentsDir + ["common"];
    attempt := fs.MakeDirectory(commonComponentsDir);
    if attempt.Thrown? {  // caught and logged
      Stop(d, rest, Run(attempt, fs.Snapshot()));
      return Normal;
    }
    Continue(d, rest, fs.Snapshot());
    rest, d := rest[1..], fs.Snapshot();

    attempt := fs.WriteFile(commonComponentsDir, FileName("ProtectedRoute", fileExt), Source("react/components/ProtectedRoute", ForLang(lang), []));
    if attempt.Thrown? {  // caught and logged
      Stop(d, rest, Run(attempt, fs.Snapshot()));
      return Normal;
    }
    Continue(d, rest, fs.Snapshot());
    rest, d := rest[1..], fs.Snapshot();

    attempt := fs.WriteFile(commonComponentsDir, FileName("Button", fileExt), Source("react/components/Button", ForLang(lang), [ImportsStylesheet("Button.css")]));
    if attempt.Thrown? {  // caught and logged
      Stop(d, rest, Run(attempt, fs.Snapshot()));
      return Normal;
    }
    Continue(d, rest, fs.Snapshot());
    rest, d := rest[1..], fs.Snapshot();

    attempt := fs.WriteFile(commonComponentsDir, FileName("Button", "css"), Source("react/components/Button.css", Shared, []));
    if attempt.Thrown? {  // caught and logged
      Stop(d, rest, Run(attempt, fs.Snapshot()));
      return Normal;
    }
    Continue(d, rest, fs.Snapshot());
    rest, d := rest[1..], fs.Snapshot();

    attempt := fs.WriteFile(commonComponentsDir, FileName("Card", fileExt), Source("react/components/Card", ForLang(lang), [ImportsStylesheet("Card.css")]));
    if attempt.Thrown? {  // caught and logged
      Stop(d, rest, Run(attempt, fs.Snapshot()));
      return Normal;
    }
    Continue(d, rest, fs.Snapshot());
    rest, d := rest[1..], fs.Snapshot();

    attempt := fs.WriteFile(commonComponentsDir, FileName("Card", "css"), Source("react/components/Card.css", Shared, []));
    Last(d, rest, Run(attempt, fs.Snapshot()));
    out := Normal;
  }

  /** Five files in `components/common`, in this order; the stylesheets are always `.css`. */
  lemma ComponentWrites(componentsDir: Path, o: Options)
    ensures Writes(ComponentOps(componentsDir, o)) ==
      [ Join(CommonDir(componentsDir), FileName("ProtectedRoute", ComponentExt(o))),
        Join(CommonDir(componentsDir), FileName("Button", ComponentExt(o))),
        Join(CommonDir(componentsDir), FileName("Button", "css")),
        Join(CommonDir(componentsDir), FileName("Card", ComponentExt(o))),
        Join(CommonDir(componentsDir), FileName("Card", "css")) ]
  {
    var ops := ComponentOps(componentsDir, o);
    var common, ext := CommonDir(componentsDir), ComponentExt(o);
    assert ops[6..] == [];
    assert Writes(ops[5..]) == [Join(common, FileName("Card", "css"))];
    assert Writes(ops[4..]) == [Join(common, FileName("Card", ext))] + Writes(ops[5..]);
    assert Writes(ops[3..]) == [Join(common, FileName("Button", "css"))] + Writes(ops[4..]);
    assert Writes(ops[2..]) == [Join(common, FileName("Button", ext))] + Writes(ops[3..]);
    assert Writes(ops[1..]) == [Join(common, FileName("ProtectedRoute", ext))] + Writes(ops[2..]);
  }

  /** `common/` is created first, so the step needs no directory at all. */
  lemma ComponentReady(dirs: set<Path>, componentsDir: Path, o: Options)
    ensures Ready(dirs, ComponentOps(componentsDir, o))
  {
    var ext, lang, common := ComponentExt(o), ForLang(LangOf(o)), CommonDir(componentsDir);
    var writes :=
      [ Write(common, FileName("ProtectedRoute", ext), Source("react/components/ProtectedRoute", lang, [])),
        Write(common, FileName("Button", ext), Source("react/components/Button", lang, [ImportsStylesheet("Button.css")])),
        Write(common, FileName("Button", "css"), Source("react/components/Button.css", Shared, [])),
        Write(common, FileName("Card", ext), Source("react/components/Card", lang, [ImportsStylesheet("Card.css")])),
        Write(common, FileName("Card", "css"), Source("react/components/Card.css", Shared, [])) ];
    assert ComponentOps(componentsDir, o) == [Mkdir(common)] + writes;
    ReadyWritesInto(dirs + Prefixes(common), common, writes);
    ReadyCons(dirs, Mkdir(common), writes);
  }

  /** Each component imports exactly the stylesheet written right after it. */
  lemma ComponentStylesheets(componentsDir: Path, o: Options)
    ensures ComponentOps(componentsDir, o)[2].content.marks == [ImportsStylesheet(Render(ComponentOps(componentsDir, o)[3].file))]
    ensures ComponentOps(componentsDir, o)[4].content.marks == [ImportsStylesheet(Render(ComponentOps(componentsDir, o)[5].file))]
  {
    assert "Button" + "." + "css" == "Button.css";
    assert "Card" + "." + "css" == "Card.css";
  }
}
