/**
 * `createCommonComponents` of the Vue track: `BaseButton.vue`, one of four texts
 * chosen by (Element Plus or not, TypeScript or not), then the fixed `BaseCard.vue`,
 * both directly in `componentsDir`.
 */
module VueComponents {
  import opened Config
  import opened Content
  import opened FileSystem
  import opened Pipeline

  /** The button text: `isElementPlus` picks the outer branch, `isTS` the inner one. */
  function BaseButton(o: Options): Content
  {
    Source("vue/components/BaseButton", ForLookLang(if o.uiFramework == ElementPlus then ElementPlusLook else PlainLook, LangOf(o)), [])
  }

  /** The calls `createCommonComponents(componentsDir, options)` makes, in order. */
  function ComponentOps(componentsDir: Path, o: Options): seq<Op>
  {
    [ Write(componentsDir, FileName("BaseButton", "vue"), BaseButton(o)),
      Write(componentsDir, FileName("BaseCard", "vue"), Source("vue/components/BaseCard", Shared, [])) ]
  }

  /** No try/catch: errors propagate. */
  method CreateCommonComponents(fs: FileSystem, componentsDir: Path, o: Options) returns (out: Outcome)
    modifies fs
    ensures Run(out, fs.Snapshot()) == RunOps(old(fs.Snapshot()), ComponentOps(componentsDir, o))
  {
    ghost var rest := ComponentOps(componentsDir, o);
    ghost var d := fs.Snapshot();
    var isTS := IsTS(o);
    var isElementPlus := o.uiFramework == ElementPlus;

    var buttonContent := Empty;
    if isElementPlus {
      if isTS {
        buttonContent := Source("vue/components/BaseButton", ForLookLang(ElementPlusLook, TypeScript), []);
      } else {
        buttonContent := Source("vue/components/BaseButton", ForLookLang(ElementPlusLook, JavaScript), []);
      }
    } else {
      if isTS {
        buttonContent := Source("vue/components/BaseButton", ForLookLang(PlainLook, TypeScript), []);
      } else {
        buttonContent := Source("vue/components/BaseButton", ForLookLang(PlainLook, JavaScript), []);
      }
    }
    out := fs.WriteFile(componentsDir, FileName("BaseButton", "vue"), buttonContent);
    if out.Thrown? { Stop(d, rest, Run(out, fs.Snapshot())); return; }
    Continue(d, rest, fs.Snapshot());
    rest, d := rest[1..], fs.Snapshot();

    out := fs.WriteFile(componentsDir, FileName("BaseCard", "vue"), Source("vue/components/BaseCard", Shared, []));
    Last(d, rest, Run(out, fs.Snapshot()));
  }

  /** Exactly two files, both directly in `componentsDir`, and no directory. */
  lemma ComponentWrites(componentsDir: Path, o: Options)
    ensures Writes(ComponentOps(componentsDir, o)) ==
      [ Join(componentsDir, FileName("BaseButton", "vue")), Join(componentsDir, FileName("BaseCard", "vue")) ]
    ensures Made(ComponentOps(componentsDir, o)) == {}
  {
    var ops := ComponentOps(componentsDir, o);
    assert ops[2..] == [];
    assert Writes(ops[1..]) == [Join(componentsDir, FileName("BaseCard", "vue"))];
    assert Made(ops[1..]) == {};
  }

  /**
   * The four button texts are told apart by exactly the two tests the emitter
   * makes: Ant Design Vue falls into the non-Element branch, and the card never varies.
   */
  lemma ButtonVariants(componentsDir: Path, o: Options, p: Options)
    ensures BaseButton(o) == BaseButton(p) <==>
      ((o.uiFramework == ElementPlus) == (p.uiFramework == ElementPlus) && IsTS(o) == IsTS(p))
    ensures o.uiFramework == AntDesignVue ==> BaseButton(o) == BaseButton(o.(uiFramework := NoUiFramework))
    ensures ComponentOps(componentsDir, o)[1] == ComponentOps(componentsDir, p)[1]
  {
  }

  lemma ComponentsReady(dirs: set<Path>, componentsDir: Path, o: Options)
    requires componentsDir in dirs
    ensures Ready(dirs, ComponentOps(componentsDir, o))
  {
    ReadyWhenPlaced(dirs, ComponentOps(componentsDir, o));
  }

  lemma ComponentsWithoutTypeScript(componentsDir: Path, o: Options)
    requires !IsTS(o)
    ensures NoTypeScript(ComponentOps(componentsDir, o))
  {
  }
}
