/**
 * The project configuration that every generation step reads: the answers the
 * command-line prompts collect, plus the two fields `generateProject` adds
 * (`projectPath` always, `language` on the React track only).
 */
module Config {

  datatype Option<T> = None | Some(value: T)

  /** A filesystem path as its list of segments; `path.join` is list concatenation. */
  type Path = seq<string>

  /** Any framework string other than the two the prompt offers. */
  type OtherFrameworkName = s: string | s != "Vue 3" && s != "React" witness ""

  datatype Framework = Vue3 | React | Unlisted(name: OtherFrameworkName)

  /** The string the options object carries for the framework. */
  function FrameworkName(f: Framework): (s: string)
    ensures s == "Vue 3" <==> f == Vue3
    ensures s == "React" <==> f == React
  {
    match f
    case Vue3 => "Vue 3"
    case React => "React"
    case Unlisted(name) => name
  }

  datatype UiFramework = ElementPlus | AntDesignVue | AntDesign | ChakraUI | NoUiFramework

  const NoUiChoice: string := "不使用UI框架"

  function UiFrameworkName(u: UiFramework): string
  {
    match u
    case ElementPlus => "Element Plus"
    case AntDesignVue => "Ant Design Vue"
    case AntDesign => "Ant Design"
    case ChakraUI => "Chakra UI"
    case NoUiFramework => NoUiChoice
  }

  datatype UnitTest = Vitest | Jest | ReactTestingLibrary | NoUnitTest

  const NoUnitTestChoice: string := "不使用单元测试"

  function UnitTestName(t: UnitTest): string
  {
    match t
    case Vitest => "Vitest"
    case Jest => "Jest"
    case ReactTestingLibrary => "React Testing Library"
    case NoUnitTest => NoUnitTestChoice
  }

  /** The checkbox features; the options object stores their `value` strings. */
  datatype Feature = TypeScriptFeature | Linting | AxiosFeature | I18n

  function FeatureValue(f: Feature): string
  {
    match f
    case TypeScriptFeature => "typescript"
    case Linting => "linting"
    case AxiosFeature => "axios"
    case I18n => "i18n"
  }

  datatype Lang = TypeScript | JavaScript

  /**
   * The options object. Fields the source may leave undefined are `Option`s:
   * `projectPath` before `generateProject` adds it, `language` on every Vue run,
   * and `cssPreprocessor`, which no prompt ever collects.
   */
  datatype Options = Options(
    projectName: string,
    framework: Framework,
    uiFramework: UiFramework,
    unitTest: UnitTest,
    features: seq<Feature>,
    projectPath: Option<Path>,
    language: Option<Lang>,
    cssPreprocessor: Option<string>)

  /** `options.language === 'TypeScript'`, the test every emitter makes. */
  predicate IsTS(o: Options)
  {
    o.language == Some(TypeScript)
  }

  /** The branch an emitter takes on `isTS`. */
  function LangOf(o: Options): (l: Lang)
    ensures l == TypeScript <==> IsTS(o)
  {
    if IsTS(o) then TypeScript else JavaScript
  }

  /** Extension of plain modules: `isTS ? 'ts' : 'js'`. */
  function ScriptExt(o: Options): (e: string)
    ensures e == "ts" <==> IsTS(o)
    ensures e == "js" <==> !IsTS(o)
  {
    if IsTS(o) then "ts" else "js"
  }

  /** Extension of component modules, `isTS ? 'tsx' : 'jsx'`: the script extension with JSX. */
  function ComponentExt(o: Options): (e: string)
    ensures e == "tsx" <==> IsTS(o)
    ensures e == "jsx" <==> !IsTS(o)
  {
    assert "ts" + "x" == "tsx" && "js" + "x" == "jsx";
    ScriptExt(o) + "x"
  }

  /** Stylesheet extension: `options.cssPreprocessor === 'SCSS' ? 'scss' : 'css'`. */
  function CssExt(o: Options): (e: string)
    ensures e == "scss" <==> o.cssPreprocessor == Some("SCSS")
    ensures e == "css" <==> o.cssPreprocessor != Some("SCSS")
  {
    if o.cssPreprocessor == Some("SCSS") then "scss" else "css"
  }

  /** One character of the project-name pattern `/^([A-Za-z\-\_\d])+$/`. */
  predicate NameChar(c: char)
  {
    ('A' <= c <= 'Z') || ('a' <= c <= 'z') || ('0' <= c <= '9') || c == '-' || c == '_'
  }

  predicate ValidProjectName(s: string)
  {
    |s| > 0 && forall i :: 0 <= i < |s| ==> NameChar(s[i])
  }

  /** The UI choices the prompt lists for a framework (the non-Vue list for anything else). */
  predicate UiOffered(f: Framework, u: UiFramework)
  {
    if f == Vue3 then u in {ElementPlus, AntDesignVue, NoUiFramework}
    else u in {AntDesign, ChakraUI, NoUiFramework}
  }

  /** The unit-test choices the prompt lists for a framework. */
  predicate UnitTestOffered(f: Framework, t: UnitTest)
  {
    if f == Vue3 then t in {Vitest, Jest, NoUnitTest}
    else t in {Jest, ReactTestingLibrary, NoUnitTest}
  }

  /**
   * An options object as the command line hands it to `generateProject`: the
   * prompt answers, the project name, and none of the fields added later. The
   * name is any string, since a name given as the `[name]` argument skips the
   * prompt and its pattern check.
   */
  predicate FromPrompts(o: Options)
  {
    && (o.framework == Vue3 || o.framework == React)
    && UiOffered(o.framework, o.uiFramework)
    && UnitTestOffered(o.framework, o.unitTest)
    && o.projectPath == None
    && o.language == None
    && o.cssPreprocessor == None
  }

  // ---------------------------------------------------------------------------
  // The labels both README templates print

  const NoneLabel: string := "无"

  /** `uiFramework !== '不使用UI框架' ? uiFramework : '无'`. */
  function UiLabel(u: UiFramework): string
  {
    if UiFrameworkName(u) != NoUiChoice then UiFrameworkName(u) else NoneLabel
  }

  /** `unitTest !== '不使用单元测试' ? unitTest : '无'`. */
  function TestLabel(t: UnitTest): string
  {
    if UnitTestName(t) != NoUnitTestChoice then UnitTestName(t) else NoneLabel
  }

  /** `features.join(', ')` over the features' value strings. */
  function FeatureList(features: seq<Feature>): (r: string)
    ensures r == "" <==> features == []
  {
    if features == [] then ""
    else if |features| == 1 then FeatureValue(features[0])
    else FeatureValue(features[0]) + ", " + FeatureList(features[1..])
  }

  /** A feature's value is a non-empty word without a comma, and different features have different values. */
  lemma FeatureValueShape(f: Feature, g: Feature)
    ensures |FeatureValue(f)| > 0 && forall i :: 0 <= i < |FeatureValue(f)| ==> FeatureValue(f)[i] != ','
    ensures FeatureValue(f) == FeatureValue(g) ==> f == g
  {
  }

  /** The list starts with the first value, then ends there or goes on with `", "` and the rest. */
  lemma FeatureListHead(features: seq<Feature>)
    requires features != []
    ensures var s, v := FeatureList(features), FeatureValue(features[0]);
      && |s| >= |v| && s[..|v|] == v
      && (|features| == 1 ==> |s| == |v|)
      && (|features| > 1 ==> |s| > |v| + 1 && s[|v|] == ',' && s[|v| + 2..] == FeatureList(features[1..]))
  {
    var v := FeatureValue(features[0]);
    if |features| > 1 {
      var s := FeatureList(features);
      assert s == v + ", " + FeatureList(features[1..]);
      assert s[|v| + 2..] == FeatureList(features[1..]);
    }
  }

  /** The README's feature line determines the ticked features, order included. */
  lemma {:induction false} FeatureListInjective(a: seq<Feature>, b: seq<Feature>)
    requires FeatureList(a) == FeatureList(b)
    ensures a == b
    decreases |a|
  {
    if a != [] && b != [] {
      var s := FeatureList(a);
      var x, y := FeatureValue(a[0]), FeatureValue(b[0]);
      FeatureValueShape(a[0], b[0]);
      FeatureValueShape(b[0], a[0]);
      FeatureListHead(a);
      FeatureListHead(b);
      assert x == s[..|x|] == y;
      if |a| > 1 && |b| > 1 {
        FeatureListInjective(a[1..], b[1..]);
        assert a == [a[0]] + a[1..] && b == [b[0]] + b[1..];
      }
    }
  }
}
