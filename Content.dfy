/**
 * What a generated file holds. Template bodies are opaque: a file is identified by
 * the artifact it renders and the variant the emitter chose, plus the handful of
 * interpolated lines (marks) the emitter switches on or fills in from the options.
 * The package manifest and the generic README are the two files whose content the
 * engine computes itself, so they are modelled as structured values.
 */
module Content {
  import opened Config

  /** The UI branch an emitter took when choosing a template. */
  datatype Look = PlainLook | AntDesignLook | ChakraLook | ElementPlusLook | AntDesignVueLook

  /** The branch the React emitters take: `isAntd`, else `isChakra`, else plain. */
  function ReactLook(u: UiFramework): (l: Look)
    ensures l == AntDesignLook <==> u == AntDesign
    ensures l == ChakraLook <==> u == ChakraUI
    ensures l in {PlainLook, AntDesignLook, ChakraLook}
  {
    if u == AntDesign then AntDesignLook else if u == ChakraUI then ChakraLook else PlainLook
  }

  /** The branch the Vue emitters take: `isElementPlus`, else `isAntDesignVue`, else plain. */
  function VueLook(u: UiFramework): (l: Look)
    ensures l == ElementPlusLook <==> u == ElementPlus
    ensures l == AntDesignVueLook <==> u == AntDesignVue
    ensures l in {PlainLook, ElementPlusLook, AntDesignVueLook}
  {
    if u == ElementPlus then ElementPlusLook else if u == AntDesignVue then AntDesignVueLook else PlainLook
  }

  /** Which inputs the chosen template depends on. */
  datatype Variant =
    | Shared                                 // one text for every configuration
    | ForLang(lang: Lang)                    // chosen by `isTS`
    | ForLook(look: Look)                    // chosen by the UI framework
    | ForLookLang(look: Look, lang: Lang)    // chosen by both

  /** Interpolated lines that the emitters add, drop or fill in. */
  datatype Mark =
    | ImportsStylesheet(file: string)        // `import './<file>'` of a sibling stylesheet
    | AntdResetImport                        // `import 'antd/dist/reset.css'`
    | ChakraImports                          // `ChakraProvider` and `./theme` imports
    | ChakraOpen                             // `<ChakraProvider theme={theme}>`
    | ChakraClose                            // `</ChakraProvider>`
    | ElementPlusImports                     // Element Plus, its stylesheet and icon set
    | ElementPlusSetup                       // `app.use(ElementPlus)` and icon registration
    | AntdVueImports                         // Ant Design Vue and its reset stylesheet
    | AntdVueSetup                           // `app.use(Antd)`
    | ThemeConfigType                        // `ThemeConfig` import and annotation
    | Title(text: string)                    // the project name filled into a title
    | EntryScript(file: string)              // `<script type="module" src="/src/<file>">`
    | MockFlag(on: bool)                     // `VITE_APP_MOCK=<on>`
    | UiLine(text: string)                   // `- UI框架: <text>`
    | TestLine(text: string)                 // `- 单元测试: <text>`
    | FeaturesLine(text: string)             // `- 其他功能: <features joined by ', '>`
    | TestSection                            // the "run the unit tests" section
    | UiComponentsLine(text: string)         // `- **UI组件**: <text>`

  /** The npm packages a Vue manifest can list. */
  datatype Package =
    | VuePkg | VueRouterPkg | PiniaPkg | AxiosPkg
    | ElementPlusPkg | ElementPlusIconsPkg | AntDesignVuePkg | AntDesignIconsPkg
    | VitePkg | VitePluginVuePkg | MockjsPkg | TypeScriptPkg | VueTscPkg
    | JestPkg | VueTestUtilsPkg | BabelPresetEnvPkg | TsJestPkg | BabelPresetTypeScriptPkg
    | VitestPkg | JsdomPkg

  /** The key a package has in the JSON text. */
  function NpmName(p: Package): string
  {
    match p
    case VuePkg => "vue"
    case VueRouterPkg => "vue-router"
    case PiniaPkg => "pinia"
    case AxiosPkg => "axios"
    case ElementPlusPkg => "element-plus"
    case ElementPlusIconsPkg => "@element-plus/icons-vue"
    case AntDesignVuePkg => "ant-design-vue"
    case AntDesignIconsPkg => "@ant-design/icons-vue"
    case VitePkg => "vite"
    case VitePluginVuePkg => "@vitejs/plugin-vue"
    case MockjsPkg => "mockjs"
    case TypeScriptPkg => "typescript"
    case VueTscPkg => "vue-tsc"
    case JestPkg => "jest"
    case VueTestUtilsPkg => "@vue/test-utils"
    case BabelPresetEnvPkg => "@babel/preset-env"
    case TsJestPkg => "ts-jest"
    case BabelPresetTypeScriptPkg => "@babel/preset-typescript"
    case VitestPkg => "vitest"
    case JsdomPkg => "jsdom"
  }

  /** The scripts a Vue manifest can list. */
  datatype Script =
    | DevScript | FatScript | BuildScript | BuildFatScript | BuildProdScript | PreviewScript
    | TypecheckScript | TestScript | TestWatchScript

  /** The key a script has in the JSON text. */
  function ScriptKey(s: Script): string
  {
    match s
    case DevScript => "dev"
    case FatScript => "fat"
    case BuildScript => "build"
    case BuildFatScript => "build:fat"
    case BuildProdScript => "build:prod"
    case PreviewScript => "preview"
    case TypecheckScript => "typecheck"
    case TestScript => "test"
    case TestWatchScript => "test:watch"
  }

  /** The `package.json` object of the Vue track (key order in the JSON text is not modelled). */
  datatype Manifest = Manifest(
    name: string,
    version: string,
    isPrivate: bool,
    scripts: map<Script, string>,
    dependencies: map<Package, string>,
    devDependencies: map<Package, string>)

  /** The generic README, as the values of its labelled lines and optional sections. */
  datatype ReadmeDoc = ReadmeDoc(
    title: string,
    frameworkLabel: string,
    uiLabel: string,
    testLabel: string,
    featureList: string,
    appFile: string,
    mainFile: string,
    tsconfigEntry: string,
    hasTestSection: bool,
    routerLabel: string,
    stateLabel: string,
    uiComponentsLabel: string)

  datatype Content =
    | Empty                                                  // the empty string
    | Source(artifact: string, variant: Variant, marks: seq<Mark>)
    | PackageJson(manifest: Manifest)
    | Readme(doc: ReadmeDoc)
    | Vendored(asset: string)                                // a file copied from a dependency

  /** Content chosen on the TypeScript branch. */
  predicate TsContent(c: Content)
  {
    c.Source? && (c.variant == ForLang(TypeScript) || (c.variant.ForLookLang? && c.variant.lang == TypeScript))
  }
}
