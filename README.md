# aimsn-frontend-scaffold, modelled in Dafny

`aimsn-frontend-scaffold` is a command-line generator of front-end projects. The user
picks a framework (Vue 3 or React), a UI library, a unit-test tool and a list of extra
features. `generateProject` then hands the options to one of two assemblers,
`createVueProject` and `createReactProject`, and writes a common `README.md` at the end.
Each assembler does three things:

- it creates a fixed batch of directories under `src/`;
- it runs its emitter modules one after another, such as `createUtilsFiles` or
  `createEntryFiles`, each writing a fixed list of template files;
- it turns the outcome into a `{ success, message }` status.

This project models that engine: which directories and files get created, in which order,
with which names, extensions and template variants, and what happens when a filesystem
call fails.

- `Config`: the option domains (framework, UI library, unit test, features, CSS
  preprocessor, language) and the extension choices derived from them.
- `Content`: template bodies are opaque tags. A tag names the artifact and the variant the
  source selects, plus the interpolated lines ("marks") that the source switches on.
- `FileSystem`: a `FileSystem` class over a disk of files, directories and a write log.
  `MakeDirectory` (a recursive `fs.mkdir`), `WriteFile` and `CopyFile` are each proved
  against the pure `Apply` of one operation.
  - Failures come from a constant oracle, `faults`: the paths whose `mkdir`/`write` the OS
    refuses.
  - A recursive `mkdir` succeeds at once on an existing directory; otherwise it creates the
    missing ancestors from the root down and throws at the first one the OS refuses, keeping
    the ancestors it made before it.
  - A write into a missing directory fails the way `fs.writeFile` does.
  - Assets installed in `node_modules` are the `vendored` set.
- `Pipeline`:
  - `RunOps` runs a plan of operations fail-fast, the way a chain of `await`s behaves.
  - A step runs a plan under a policy: `Propagates` (the module rethrows) or `Swallows` (the
    module logs the error and returns).
  - `Assemble` is the generic assembler: the mkdir batch outside the `try`, the steps inside
    it, and the status.
- One module per emitter file: `Vue*` and `React*`. Each emitter is
  - a pure plan function (`…Ops`), the list of calls it makes in order;
  - an imperative method proved to run exactly that plan;
  - lemmas on the plan: the files written, the directories it needs, the variants
    selected, and that no TypeScript file appears without TypeScript.
- `VueProject` and `ReactProject`: the two assemblers. `Generator` is `generateProject`
  and `generateReadme`.

Behaviour of the code that the model keeps as it is:

- **The Vue track never receives `language`.** `generateProject` (src/generator.js:25-26)
  passes the options through unchanged. Only the React branch adds `language`. The Vue
  modules that depend on the language test `options.language === 'TypeScript'`, so with the choices the prompts offer
  a Vue project is always emitted as JavaScript, even when TypeScript is selected. The
  common README still lists `main.ts` in that case. `Generator.VueNeverTypeScript` states
  this.
- **Failures are not uniformly fail-fast.**
  - `createUtilsFiles` and `createCommonComponents` (React) catch and only log their
    errors. The assembler then continues.
  - Every other module rethrows, or has no `try` at all.
  - The mkdir batch runs outside the assembler's `try`, so its failure rejects the
    assembler's promise instead of producing a status.
  - `generateProject` ignores the status an assembler returns and writes `README.md` anyway.
- **Overwrites.** The React `mock/index` file is written twice (src/templates/react/modules/createUtilsFiles.cjs:996-1000 and 1193-1197).
  The Vue router writes `views/404.vue` into a directory it creates itself.
- **Empty JavaScript pages.** On React, the JavaScript login and dashboard pages are written
  with an empty body. Only the TypeScript branch fills them.

## Model

| member | source | states |
|---|---|---|
| Config.FrameworkName | src/generator.js:25-27 | the framework string is "Vue 3" exactly for Vue 3 and "React" exactly for React |
| Config.LangOf | src/generator.js:29-32 | the language is TypeScript exactly when `language` is set to TypeScript |
| Config.ScriptExt | src/templates/vue/modules/createApi.cjs:10-11 | the script extension is `ts` exactly for TypeScript and `js` otherwise |
| Config.ComponentExt | src/templates/react/modules/createComponents.cjs:13-14 | the component extension is `tsx` exactly for TypeScript and `jsx` otherwise (the script extension with an `x`) |
| Config.CssExt | src/templates/react/modules/createLayoutFiles.cjs:13 | the stylesheet extension is `scss` exactly when the preprocessor is SCSS, `css` otherwise |
| Content.ReactLook | src/templates/react/modules/createViews.cjs:10-14 | the React look is Ant Design or Chakra exactly for that library, plain otherwise |
| Content.VueLook | src/templates/vue/modules/createViews.cjs:10-11 | the Vue look is Element Plus or Ant Design Vue exactly for that library, plain otherwise |
| FileSystem.Join | src/generator.js:130 | `path.join(dir, name)` is `dir` followed by the rendered file name |
| FileSystem.Prefixes | src/templates/vue/modules/createProject.cjs:51 | a recursive mkdir creates the path and every prefix of it, and nothing longer |
| FileSystem.WriteAt | src/generator.js:129-133 | a write succeeds exactly when the path is not refused and its parent exists; on success the file holds the content and is logged, on failure the disk is unchanged |
| FileSystem.CopyAt | src/templates/vue/modules/createPackage.cjs:417-419 | a copy succeeds exactly when the asset is installed, the target is not refused and its parent exists; on failure the disk is unchanged |
| FileSystem.FileSystem.constructor | src/templates/vue/modules/createProject.cjs:20-21 | a fresh disk holds the given files and directories and an empty log |
| FileSystem.FirstRefused | src/templates/vue/modules/createProject.cjs:51 | the depth of the first missing ancestor, from the root down, that the OS refuses; every shallower one exists or is allowed, and none at all when there is no such ancestor |
| FileSystem.Above | src/templates/vue/modules/createProject.cjs:51 | the ancestors of a path shallower than a given depth, and nothing else |
| FileSystem.MkdirOutcome | src/templates/vue/modules/createProject.cjs:51 | a recursive mkdir succeeds exactly when the directory exists or no missing ancestor is refused, then leaves the directory and all its ancestors; otherwise it throws the refusal of a missing refused ancestor and keeps only the shallower ancestors |
| FileSystem.FileSystem.MakeDirectory | src/templates/vue/modules/createProject.cjs:51 | the mkdir call, walking the ancestors from the root down, changes the disk and settles exactly as `Apply(Mkdir(dir))` does |
| FileSystem.FileSystem.WriteFile | src/generator.js:129-133 | the write call changes the disk exactly as `Apply(Write(dir, file, content))` does |
| FileSystem.FileSystem.CopyFile | src/templates/vue/modules/createPackage.cjs:417-419 | the copy call changes the disk exactly as `CopyAt` does |
| Pipeline.StopsAtFirstThrow | src/templates/vue/modules/createPackage.cjs:96-120 | a plan that throws ran its operations up to some index normally and threw at that operation; nothing after it ran |
| Pipeline.RunOpsGrows | src/templates/vue/modules/createPackage.cjs:96-120 | running a plan never removes a directory or a file, and only appends to the log |
| Pipeline.CompletedLog | src/templates/vue/modules/createPackage.cjs:96-120 | a plan that completes logs exactly its writes, in order |
| Pipeline.CompletedMade | src/templates/vue/modules/createPackage.cjs:96-120 | a plan that completes leaves every directory it created in place |
| Pipeline.ReadyRuns | src/templates/vue/modules/createPackage.cjs:96-120 | on a disk without refused paths, a plan whose every write lands in an existing or earlier-created directory completes |
| Pipeline.RunOpsIgnoresLog | src/templates/vue/modules/createPackage.cjs:96-120 | the outcome of a plan does not depend on the write log, and two disks differing only in their logs stay so |
| Pipeline.MakeDirectories | src/templates/vue/modules/createProject.cjs:50-64 | the batch loop changes the disk exactly as the mkdir plan does |
| Pipeline.MadeAll | src/templates/vue/modules/createProject.cjs:50-64 | the batch creates exactly the listed directories |
| Pipeline.CompletedReached | src/templates/react/modules/createProject.cjs:40-58 | after a completed batch every prefix of every listed directory exists |
| Pipeline.RunStep | src/templates/react/modules/createUtilsFiles.cjs:947-948 | a step's disk is its plan's disk; a swallowing step always returns normally, a propagating one returns its plan's outcome |
| Pipeline.StartedPrefix | src/templates/react/modules/createProject.cjs:61-99 | the steps started are a prefix of the step list, and all of it when the run completes |
| Pipeline.StopsAtThrowingStep | src/templates/react/modules/createProject.cjs:61-99 | a run that throws stopped at a propagating step, after every earlier step completed |
| Pipeline.ReadyStepsComplete | src/templates/react/modules/createProject.cjs:61-99 | with no refused paths and every step's directories present, all steps run and complete |
| Pipeline.StatusOf | src/templates/react/modules/createProject.cjs:103-112 | success exactly when the steps completed, with the success message; otherwise the failure prefix followed by the error's message |
| Pipeline.Assemble | src/templates/react/modules/createProject.cjs:40-113 | a rejected assembly started no step |
| Pipeline.AssembleGrows | src/templates/react/modules/createProject.cjs:40-113 | assembling never removes a file or a directory |
| Pipeline.AssembleRejects | src/templates/react/modules/createProject.cjs:40-58 | the assembler's promise rejects exactly when the mkdir batch throws; otherwise every batch directory exists |
| Pipeline.AssembleFails | src/templates/react/modules/createProject.cjs:107-112 | a failure status comes from a propagating step k: steps up to k started, the ones before it completed, and the message is step k's error |
| Pipeline.FailedStep | src/templates/react/modules/createProject.cjs:107-112 | in a failure status the last step started is the propagating step that threw |
| Pipeline.AssembleSucceeds | src/templates/react/modules/createProject.cjs:103-106 | with no refused paths and every step ready under the batch directories, the status is success and every step started |
| Pipeline.AssembleStartsInOrder | src/templates/react/modules/createProject.cjs:61-99 | a step that started ran only after all earlier steps completed normally |
| Generator.Normalise | src/generator.js:20-23 | the options gain `projectPath := targetDir` and nothing else changes |
| Generator.ReactOptions | src/generator.js:29-32 | React options gain `language`, TypeScript exactly when the `typescript` feature is selected; nothing else changes |
| Config.FeatureList | src/generator.js:59 | the joined feature list is empty exactly when no feature is selected |
| Config.FeatureValueShape | index.js:108-113 | every feature value is non-empty, contains no comma, and different features have different values |
| Config.FeatureListHead | src/generator.js:59 | the joined list starts with the first value, followed by `, ` and the rest when there is more |
| Config.FeatureListInjective | src/generator.js:59 | two feature lists with the same joined text are the same list |
| Generator.ReadmeLabels | src/generator.js:46-125 | each README label: UI and test names or "无" for none, the test section only with a test tool, router and store names by framework, `main.ts` and `tsconfig.json` by the typescript feature, and the feature list identifies the features |
| Generator.GenerateReadme | src/generator.js:129-133 | writing the README changes the disk exactly as one write of the `ReadmeOf` document to `targetDir/README.md` |
| Generator.Dispatch | src/generator.js:25-34 | an assembler runs exactly for "Vue 3" and "React"; Vue gets the normalised options, React also gets `language` |
| Generator.RunAssembler | src/generator.js:25-34 | the call dispatches as `Dispatch` says and leaves the disk untouched for any other framework |
| Generator.GenerateProject | src/generator.js:19-38 | the whole generation changes the disk as `Generate`: dispatch, then the README |
| Generator.StatusIsDiscarded | src/generator.js:26-37 | whatever status the assembler returns, the README is written next, on the disk the assembler left |
| Generator.RejectionSkipsReadme | src/generator.js:26-37 | when the assembler's promise rejects, generation throws and the README is not written |
| Generator.ReadmeWrittenLast | src/generator.js:37 | a generation that completes holds the README document at `README.md`, and that write is the last one logged |
| Generator.UnlistedWritesOnlyReadme | src/generator.js:25-37 | for any framework other than "Vue 3" and "React", only `README.md` is written |
| Generator.VueNeverTypeScript | src/generator.js:25-26 | for any options the command line builds, whatever the project name, the Vue track is JavaScript and no Vue step writes a TypeScript file, while the README can still name `main.ts` |
| Generator.ReactLanguageFollowsFeature | src/generator.js:29-33 | React options are TypeScript exactly when the typescript feature is selected, and carry the project path |
| ReactComponents.CreateCommonComponents | src/templates/react/modules/createComponents.cjs:9-367 | the module always returns normally (errors are only logged) and leaves the disk its plan leaves |
| ReactComponents.ComponentWrites | src/templates/react/modules/createComponents.cjs:89-361 | `ProtectedRoute`, `Button`, `Button.css`, `Card`, `Card.css` under `common/`, components `tsx` or `jsx` |
| ReactComponents.ComponentReady | src/templates/react/modules/createComponents.cjs:17-18 | the module creates `common/` itself, so its plan is ready from any directory set |
| ReactComponents.ComponentStylesheets | src/templates/react/modules/createComponents.cjs:89-361 | `Button` and `Card` each import the stylesheet written right after them |
| ReactContext.FirstIndex | src/templates/react/modules/createContextFiles.cjs:361 | the index found is the first occurrence of the character, or the length when absent |
| ReactContext.RemoveFirst | src/templates/react/modules/createContextFiles.cjs:361 | `replace('x', '')` removes the first `x` only, and changes nothing without one |
| ReactContext.IndexExtension | src/templates/react/modules/createContextFiles.cjs:361 | removing the first `x` from `tsx`/`jsx` gives `ts`/`js` |
| ReactContext.CreateContextFiles | src/templates/react/modules/createContextFiles.cjs:9-371 | the module changes the disk exactly as its plan, rethrowing any failure |
| ReactContext.ContextWrites | src/templates/react/modules/createContextFiles.cjs:249-364 | `AuthContext` and `ThemeContext` as components, then `index.ts` or `index.js`, whose text is the same in both languages |
| ReactContext.ContextReady | src/templates/react/modules/createContextFiles.cjs:249-364 | the plan completes when `context/` exists |
| ReactEntry.CreateEntryFiles | src/templates/react/modules/createEntryFiles.cjs:9-308 | the module changes the disk exactly as its plan |
| ReactEntry.EntryWrites | src/templates/react/modules/createEntryFiles.cjs:74-307 | `index`, `App` and `pages/NotFound` as components, then `assets/styles/global.css` |
| ReactEntry.EntryReady | src/templates/react/modules/createEntryFiles.cjs:302-307 | the plan completes when `src/` and `src/pages/` exist |
| ReactEntry.EntryMarksByFramework | src/templates/react/modules/createEntryFiles.cjs:25-67 | the Ant Design reset import appears exactly for Ant Design, and the Chakra imports and provider exactly for Chakra UI |
| ReactHooks.CreateCustomHooks | src/templates/react/modules/createHooks.cjs:9-193 | the module changes the disk exactly as its plan, rethrowing any failure |
| ReactHooks.HookWrites | src/templates/react/modules/createHooks.cjs:30-186 | `useAuth`, `useLocalStorage`, `index`, all `ts`/`js`, never a component extension; `index` is the same in both languages |
| ReactHooks.HookReady | src/templates/react/modules/createHooks.cjs:30-186 | the plan completes when `hooks/` exists |
| ReactLayout.CreateLayoutFiles | src/templates/react/modules/createLayoutFiles.cjs:9-579 | the module changes the disk exactly as its plan |
| ReactLayout.LayoutWrites | src/templates/react/modules/createLayoutFiles.cjs:66-578 | `MainLayout`, `Header`, `Sidebar`, each followed by its stylesheet in `css` or `scss` |
| ReactLayout.LayoutReady | src/templates/react/modules/createLayoutFiles.cjs:66-578 | the plan completes when `layouts/` exists |
| ReactLayout.LayoutStylesheets | src/templates/react/modules/createLayoutFiles.cjs:66-578 | each layout component imports the stylesheet written right after it |
| ReactLayout.LayoutStylesheetsFixed | src/templates/react/modules/createLayoutFiles.cjs:13 | the stylesheets depend only on the CSS preprocessor |
| ReactLayoutAndComponents.CreateChakraTheme | src/templates/react/modules/createLayoutAndComponents.cjs:47-125 | the theme routine changes the disk exactly as its plan, rethrowing any failure |
| ReactLayoutAndComponents.EnsureLayoutDirectories | src/templates/react/modules/createLayoutAndComponents.cjs:22-26 | the five `ensureDir` calls change the disk exactly as five mkdirs |
| ReactLayoutAndComponents.CreateLayoutAndComponents | src/templates/react/modules/createLayoutAndComponents.cjs:9-40 | the module changes the disk exactly as its plan |
| ReactLayoutAndComponents.ThemeOnlyForChakra | src/templates/react/modules/createLayoutAndComponents.cjs:30-33 | the step writes `theme/index.ts`/`.js` for Chakra UI and nothing for any other library |
| ReactLayoutAndComponents.ThemeTyping | src/templates/react/modules/createLayoutAndComponents.cjs:60 | the theme imports the `ThemeConfig` type exactly in TypeScript |
| ReactLayoutAndComponents.ThemeReady | src/templates/react/modules/createLayoutAndComponents.cjs:57 | the theme routine creates its own directory, so it is ready from any directory set |
| ReactLayoutAndComponents.LayoutAndComponentReady | src/templates/react/modules/createLayoutAndComponents.cjs:22-33 | every write follows a directory the step creates, so the step is ready from any directory set |
| ReactLayoutAndComponents.EnsuredDirsExist | src/templates/react/modules/createLayoutAndComponents.cjs:22-26 | after the step completes, the five ensured directories exist |
| ReactProject.ScaffoldDirs | src/templates/react/modules/createProject.cjs:27-58 | seventeen directories, all under `src/` |
| ReactProject.ReactPolicy | src/templates/react/modules/createUtilsFiles.cjs:947-948 | exactly the utils and common-components steps swallow their errors (createComponents.cjs:364-366 likewise) |
| ReactProject.ReactSteps | src/templates/react/modules/createProject.cjs:63-99 | thirteen steps, the i-th being the step named at position i of the order |
| ReactProject.CreatePackageJson | src/templates/react/modules/createProject.cjs:63 | the package step succeeds exactly when its fault is absent |
| ReactProject.RunStepsA | src/templates/react/modules/createProject.cjs:63-69 | package, utils and services run as the first three steps of the plan |
| ReactProject.RunStepsB | src/templates/react/modules/createProject.cjs:72-78 | store, hooks and context run as the next three steps |
| ReactProject.RunStepsC | src/templates/react/modules/createProject.cjs:81-87 | components, layouts and routes run as the next three steps |
| ReactProject.RunStepsD | src/templates/react/modules/createProject.cjs:90-93 | login and dashboard run as the next two steps |
| ReactProject.RunStepsE | src/templates/react/modules/createProject.cjs:96-99 | layout-and-components and entry run as the last two steps |
| ReactProject.CreateReactProject | src/templates/react/modules/createProject.cjs:23-114 | the assembler's result and new disk are those of `ReactAssembly` |
| ReactProject.ReactStepOrder | src/templates/react/modules/createProject.cjs:63-99 | the steps carry the names of the order, package first and entry last, all distinct |
| ReactProject.ReactPlanReady | src/templates/react/modules/createProject.cjs:63-99 | with the scaffold directories present, each step's plan completes |
| ReactProject.ReactStepsReady | src/templates/react/modules/createProject.cjs:27-99 | the directories of the batch suffice for every step |
| ReactProject.ReactSucceeds | src/templates/react/modules/createProject.cjs:101-106 | with no refused path and a working package step, the status is success, all thirteen steps started and entry last |
| ReactProject.ReactFailureIsPropagated | src/templates/react/modules/createProject.cjs:107-112 | a failure status never comes from the utils or components step |
| ReactProject.ReactPackageFailureStopsEverything | src/templates/react/modules/createProject.cjs:63 | when the package step fails, only it started, the status carries its message, and the disk is that of the batch |
| ReactProject.ReactEntryComesLast | src/templates/react/modules/createProject.cjs:98-99 | when the entry step starts, all twelve earlier steps have completed |
| ReactRoutes.CreateRouteFiles | src/templates/react/modules/createRouteFiles.cjs:9-182 | the module changes the disk exactly as its plan |
| ReactRoutes.RouteWrites | src/templates/react/modules/createRouteFiles.cjs:177-181 | one file, `routes/index` as a component, depending only on the language |
| ReactRoutes.RouteReady | src/templates/react/modules/createRouteFiles.cjs:177-181 | the plan completes when `routes/` exists |
| ReactServices.CreateServiceFiles | src/templates/react/modules/createServiceFiles.cjs:9-578 | the module changes the disk exactly as its plan, rethrowing any failure |
| ReactServices.ServiceWrites | src/templates/react/modules/createServiceFiles.cjs:263-571 | `apiClient`, `userService`, `authService`, `index`, all `ts`/`js` |
| ReactServices.ServiceReady | src/templates/react/modules/createServiceFiles.cjs:263-571 | the plan completes when `services/` exists |
| ReactServices.ServiceIndexShared | src/templates/react/modules/createServiceFiles.cjs:540-571 | the services `index` text is the same for every option set |
| ReactStore.CreateStoreFiles | src/templates/react/modules/createStoreFiles.cjs:9-462 | the module changes the disk exactly as its plan |
| ReactStore.StoreWrites | src/templates/react/modules/createStoreFiles.cjs:54-461 | `index`, `hooks`, `slices/authSlice`, `slices/uiSlice`, all `ts`/`js` |
| ReactStore.StoreReady | src/templates/react/modules/createStoreFiles.cjs:87-88 | the step creates `slices/` itself, so it completes when `store/` exists |
| ReactUtils.CreateMockFiles | src/templates/react/modules/createUtilsFiles.cjs:955-1205 | the mock routine changes the disk exactly as its plan |
| ReactUtils.WriteUtilityModules | src/templates/react/modules/createUtilsFiles.cjs:141-943 | the six module writes change the disk exactly as their plan |
| ReactUtils.CreateUtilsFiles | src/templates/react/modules/createUtilsFiles.cjs:9-949 | the module always returns normally (errors are only logged) and leaves the disk its plan leaves |
| ReactUtils.ModuleWrites | src/templates/react/modules/createUtilsFiles.cjs:141-943 | `auth`, `date`, `validation`, `common`, `index`, `storage`, all `ts`/`js`; `index` is the same in both languages |
| ReactUtils.MockWrites | src/templates/react/modules/createUtilsFiles.cjs:996-1204 | `mock/index` twice, then `mock/setup`; `mock/index` is the same in both languages |
| ReactUtils.UtilsWrites | src/templates/react/modules/createUtilsFiles.cjs:141-1204 | the six modules, then the mock files, in order |
| ReactUtils.MockReady | src/templates/react/modules/createUtilsFiles.cjs:960-961 | the mock routine creates `mock/` itself, so it is ready from any directory set |
| ReactUtils.UtilityModulesReady | src/templates/react/modules/createUtilsFiles.cjs:141-943 | the six modules are written when `utils/` exists |
| ReactUtils.UtilsReady | src/templates/react/modules/createUtilsFiles.cjs:141-1204 | the whole step completes when `utils/` exists |
| ReactUtils.MockRewriteIsIdempotent | src/templates/react/modules/createUtilsFiles.cjs:996-1197 | writing `mock/index` twice yields the same outcome and files as writing it once |
| ReactUtils.RewriteKeepsFiles | src/templates/react/modules/createUtilsFiles.cjs:1193-1197 | rewriting a file with the same content succeeds and changes nothing but the log |
| ReactViews.CreateLoginFiles | src/templates/react/modules/createViews.cjs:9-803 | the login module changes the disk exactly as its plan |
| ReactViews.CreateDashboardCss | src/templates/react/modules/createViews.cjs:1413-1588 | the dashboard stylesheet routine is one write of that stylesheet |
| ReactViews.CreateDashboardFiles | src/templates/react/modules/createViews.cjs:808-1408 | the dashboard module changes the disk exactly as its plan |
| ReactViews.LoginWrites | src/templates/react/modules/createViews.cjs:472-802 | `login/index` as a component, then its stylesheet |
| ReactViews.DashboardWrites | src/templates/react/modules/createViews.cjs:1398-1407 | `dashboard/index`, plus its stylesheet unless the library is Chakra UI |
| ReactViews.ViewsReady | src/templates/react/modules/createViews.cjs:472-1407 | both pages complete when their directories exist |
| ReactViews.JavaScriptPagesAreEmpty | src/templates/react/modules/createViews.cjs:17-476 | the login and dashboard pages are empty exactly in JavaScript, and are TypeScript text otherwise |
| ReactViews.LoginStylesheetVariant | src/templates/react/modules/createViews.cjs:798-802 | the login stylesheet follows the look: Ant Design and Chakra exactly for those libraries |
| ReactViews.PageStylesheetsExist | src/templates/react/modules/createViews.cjs:472-1407 | a page that imports a stylesheet imports the one its module writes next to it |
| VueApi.CreateApiFiles | src/templates/vue/modules/createApi.cjs:9-258 | the module changes the disk exactly as its plan |
| VueApi.ApiWrites | src/templates/vue/modules/createApi.cjs:24-257 | `index`, `request`, `user`, all `ts`/`js`, no directory created; `index` is the same in both languages |
| VueApi.ApiReady | src/templates/vue/modules/createApi.cjs:24-257 | the plan completes when `api/` exists |
| VueApi.ApiWithoutTypeScript | src/templates/vue/modules/createApi.cjs:10-11 | without TypeScript no TypeScript file is written |
| VueComponents.CreateCommonComponents | src/templates/vue/modules/createComponents.cjs:9-414 | the module changes the disk exactly as its plan |
| VueComponents.ComponentWrites | src/templates/vue/modules/createComponents.cjs:359-413 | `BaseButton.vue`, then `BaseCard.vue`, no directory created |
| VueComponents.ButtonVariants | src/templates/vue/modules/createComponents.cjs:16-356 | two buttons are equal exactly when Element Plus and the language agree; Ant Design Vue gets the plain button; the card never varies |
| VueComponents.ComponentsReady | src/templates/vue/modules/createComponents.cjs:359-413 | the plan completes when `components/` exists |
| VueComponents.ComponentsWithoutTypeScript | src/templates/vue/modules/createComponents.cjs:16-356 | without TypeScript no TypeScript text is written |
| VueEntry.CreateEntryFiles | src/templates/vue/modules/createEntryFiles.cjs:9-209 | the module changes the disk exactly as its plan |
| VueEntry.EntryWrites | src/templates/vue/modules/createEntryFiles.cjs:81-208 | `main.ts`/`main.js`, `App.vue`, then `assets/styles/main.css` |
| VueEntry.MainUiLines | src/templates/vue/modules/createEntryFiles.cjs:22-44 | the Element Plus lines appear exactly for Element Plus, the Ant Design Vue lines exactly for Ant Design Vue, never both |
| VueEntry.EntryLanguageOnlyPicksExtension | src/templates/vue/modules/createEntryFiles.cjs:13-85 | the language changes only the extension of `main`; every text is the same |
| VueEntry.EntryReady | src/templates/vue/modules/createEntryFiles.cjs:112 | the step creates `assets/styles` itself, so it completes when `src/` exists |
| VueEntry.EntryWithoutTypeScript | src/templates/vue/modules/createEntryFiles.cjs:81-85 | without TypeScript no TypeScript file is written |
| VueLayout.NavbarLook | src/templates/vue/modules/createLayout.cjs:76-171 | the navbar has the Element Plus look exactly for Element Plus, the plain look otherwise |
| VueLayout.CreateLayoutFiles | src/templates/vue/modules/createLayout.cjs:9-394 | the module changes the disk exactly as its plan |
| VueLayout.LayoutWrites | src/templates/vue/modules/createLayout.cjs:64-393 | `index.vue`, then `components/Navbar.vue`, `Sidebar.vue`, `AppMain.vue` |
| VueLayout.LayoutVariants | src/templates/vue/modules/createLayout.cjs:71-306 | only the navbar varies, by Element Plus; the plan never depends on the language |
| VueLayout.LayoutReady | src/templates/vue/modules/createLayout.cjs:71 | the step creates `components/` itself, so it completes when `layout/` exists |
| VueLayout.LayoutWithoutTypeScript | src/templates/vue/modules/createLayout.cjs:64-393 | no TypeScript file is written, whatever the language |
| VuePackage.Lower | src/templates/vue/modules/createPackage.cjs:66 | lower-casing keeps whitespace as whitespace and leaves no upper-case ASCII letter |
| VuePackage.HyphenateDrawsFrom | src/templates/vue/modules/createPackage.cjs:66 | every character of the hyphenated name is a hyphen or comes from the input |
| VuePackage.HyphenateHasNoSpace | src/templates/vue/modules/createPackage.cjs:66 | the hyphenated name holds no whitespace |
| VuePackage.HyphenateKeepsWords | src/templates/vue/modules/createPackage.cjs:66 | a name without whitespace is unchanged |
| VuePackage.HyphenateCollapsesRun | src/templates/vue/modules/createPackage.cjs:66 | a whole run of whitespace becomes a single hyphen |
| VuePackage.PackageNameHasNoSpace | src/templates/vue/modules/createPackage.cjs:66 | the package name holds no whitespace |
| VuePackage.PackageNameIdempotent | src/templates/vue/modules/createPackage.cjs:66 | normalising a package name a second time changes nothing |
| VuePackage.ValidNameIsOnlyLowered | index.js:45 | a name the prompt accepts is only lower-cased |
| VuePackage.BuildDependencies | src/templates/vue/modules/createPackage.cjs:17-31 | the dependencies are exactly the packages the rules select, each at its version |
| VuePackage.BuildDevDependencies | src/templates/vue/modules/createPackage.cjs:34-62 | the dev dependencies are exactly the packages the rules select, each at its version |
| VuePackage.BuildScripts | src/templates/vue/modules/createPackage.cjs:69-93 | the scripts are exactly those the rules define, each with its command |
| VuePackage.BuildManifest | src/templates/vue/modules/createPackage.cjs:65-93 | the manifest built is the one the rules describe |
| VuePackage.DependencyRules | src/templates/vue/modules/createPackage.cjs:17-31 | base packages always; Element Plus and its icons exactly for Element Plus; Ant Design Vue and its icons exactly for Ant Design Vue; never both |
| VuePackage.DevDependencyRules | src/templates/vue/modules/createPackage.cjs:34-62 | Vite always; TypeScript and vue-tsc exactly in TypeScript; Jest, Vitest and their helpers exactly for the chosen tool; no package also in dependencies |
| VuePackage.ScriptRules | src/templates/vue/modules/createPackage.cjs:69-93 | base scripts always; `build` runs vue-tsc first exactly in TypeScript; `typecheck` exactly in TypeScript; `test` and `test:watch` by tool |
| VuePackage.CreateViteConfig | src/templates/vue/modules/createPackage.cjs:128-171 | the routine changes the disk exactly as its plan |
| VuePackage.CreateGitignore | src/templates/vue/modules/createPackage.cjs:177-219 | the routine changes the disk exactly as its plan |
| VuePackage.CreateTsConfig | src/templates/vue/modules/createPackage.cjs:225-282 | the routine changes the disk exactly as its plan |
| VuePackage.CreateReadme | src/templates/vue/modules/createPackage.cjs:289-383 | the routine changes the disk exactly as its plan: one write of `README.md` whose marks are the title, the UI, test and feature lines, the test section when a tool was chosen, and the UI-components line |
| VuePackage.LabelsFollowChoice | src/templates/vue/modules/createPackage.cjs:297-298 | the UI and test labels are `无` exactly when nothing was chosen, and the chosen name otherwise |
| VuePackage.ReadmeFollowsOptions | src/templates/vue/modules/createPackage.cjs:290-375 | the README holds the title; `无` in the UI or test line exactly when nothing was chosen, the chosen names otherwise; an empty feature line exactly without features; the test section exactly when a test tool was chosen; `无UI框架依赖` exactly without a UI library |
| VuePackage.ReadmeDistinguishes | src/templates/vue/modules/createPackage.cjs:290-299 | two configurations with the same README chose the same project name, UI library, test tool and features |
| VuePackage.CreatePublicFiles | src/templates/vue/modules/createPackage.cjs:390-427 | the routine changes the disk exactly as its plan, the copy falling back to a written logo |
| VuePackage.CreateEnvFiles | src/templates/vue/modules/createPackage.cjs:434-483 | the routine changes the disk exactly as its plan |
| VuePackage.CreatePackageJson | src/templates/vue/modules/createPackage.cjs:11-121 | the module changes the disk exactly as its plan |
| VuePackage.CreateRest | src/templates/vue/modules/createPackage.cjs:108-120 | the calls after `.gitignore` change the disk exactly as their plans |
| VuePackage.TsConfigWrites | src/templates/vue/modules/createPackage.cjs:109-111 | `tsconfig.json` and `tsconfig.node.json` in TypeScript, nothing otherwise |
| VuePackage.PublicWrites | src/templates/vue/modules/createPackage.cjs:390-426 | `index.html` at the project root, then `public/vite.svg` |
| VuePackage.EnvWrites | src/templates/vue/modules/createPackage.cjs:434-483 | `.env`, `.env.development`, `.env.fat`, `.env.production` |
| VuePackage.TailWrites | src/templates/vue/modules/createPackage.cjs:113-120 | `README.md`, the public files, then the four env files |
| VuePackage.HeadWrites | src/templates/vue/modules/createPackage.cjs:96-106 | `package.json`, `vite.config.ts`/`.js`, `.gitignore` come first |
| VuePackage.PackageWrites | src/templates/vue/modules/createPackage.cjs:96-120 | the twelve or ten files of the step, in order |
| VuePackage.TsConfigOnlyForTypeScript | src/templates/vue/modules/createPackage.cjs:109-111 | `tsconfig.json` is written exactly in TypeScript |
| VuePackage.MockOnlyInDevelopment | src/templates/vue/modules/createPackage.cjs:434-483 | the mock flag is on exactly in `.env.development` |
| VuePackage.PublicReady | src/templates/vue/modules/createPackage.cjs:392 | the step creates `public/` itself, so it completes when the project directory exists |
| VuePackage.LogoAlwaysPlaced | src/templates/vue/modules/createPackage.cjs:417-426 | after the public step, `vite.svg` is the installed logo when available, the placeholder otherwise |
| VuePackage.EnvReady | src/templates/vue/modules/createPackage.cjs:434-483 | the env files are written when the project directory exists |
| VuePackage.TailReady | src/templates/vue/modules/createPackage.cjs:113-120 | the calls after the tsconfig complete when the project directory exists |
| VuePackage.PackageReady | src/templates/vue/modules/createPackage.cjs:96-120 | the whole step completes when the project directory exists |
| VuePackage.PackageWithoutTypeScript | src/templates/vue/modules/createPackage.cjs:12 | without TypeScript no TypeScript file, no TypeScript packages and no `typecheck` script |
| VueProject.VueDirs | src/templates/vue/modules/createProject.cjs:24-64 | thirteen directories, all under `src/` |
| VueProject.VueSteps | src/templates/vue/modules/createProject.cjs:69-96 | ten steps, the i-th being the step named at position i of the order |
| VueProject.RunVueStepsA | src/templates/vue/modules/createProject.cjs:69-75 | package, entry and router run as the first three steps |
| VueProject.RunVueStepsB | src/templates/vue/modules/createProject.cjs:78-84 | store, api and utils run as the next three steps |
| VueProject.RunVueStepsC | src/templates/vue/modules/createProject.cjs:87-90 | layout and login run as the next two steps |
| VueProject.RunVueStepsD | src/templates/vue/modules/createProject.cjs:93-96 | dashboard and components run as the last two steps |
| VueProject.CreateVueProject | src/templates/vue/modules/createProject.cjs:20-111 | the assembler's result and new disk are those of `VueAssembly` |
| VueProject.VueStepOrder | src/templates/vue/modules/createProject.cjs:69-96 | the steps carry the names of the order, all propagating, package first, entry second, components last, all distinct |
| VueProject.VueOrderDistinct | src/templates/vue/modules/createProject.cjs:69-96 | the ten step names are distinct |
| VueProject.VuePlanReady | src/templates/vue/modules/createProject.cjs:69-96 | with the batch directories present, each step's plan completes |
| VueProject.VueStepsReady | src/templates/vue/modules/createProject.cjs:24-96 | the project directory and the batch directories suffice for every step |
| VueProject.VueNames | src/templates/vue/modules/createProject.cjs:69-96 | the first n steps carry the first n names of the order |
| VueProject.VueAllNames | src/templates/vue/modules/createProject.cjs:69-96 | the steps carry exactly the order's names |
| VueProject.VueReachedReady | src/templates/vue/modules/createProject.cjs:50-96 | what the recursive batch creates suffices for every step |
| VueProject.VueSucceeds | src/templates/vue/modules/createProject.cjs:100-103 | with no refused path, the status is success and all ten steps started in order |
| VueProject.VueFailure | src/templates/vue/modules/createProject.cjs:104-110 | a failure status comes from step k of the order, after the earlier ones completed, with step k's error message |
| VueProject.VueStartsInOrder | src/templates/vue/modules/createProject.cjs:69-96 | a step that started ran after every earlier step completed |
| VueProject.VuePackageFailureStopsEverything | src/templates/vue/modules/createProject.cjs:69 | when the package step throws, only it started and the status carries its message |
| VueProject.VuePlanWithoutTypeScript | src/templates/vue/modules/createProject.cjs:69-96 | without TypeScript no step's plan writes a TypeScript file |
| VueProject.VueWithoutTypeScript | src/templates/vue/modules/createProject.cjs:69-96 | without TypeScript no step writes a TypeScript file |
| VueRouter.CreateRouterFiles | src/templates/vue/modules/createRouter.cjs:9-174 | the module changes the disk exactly as its plan |
| VueRouter.RouterWrites | src/templates/vue/modules/createRouter.cjs:131-173 | `router/index.ts`/`.js`, then `src/views/404.vue`, the same in both languages |
| VueRouter.RouterReady | src/templates/vue/modules/createRouter.cjs:168 | the step creates `src/views` itself, so it completes when `router/` exists |
| VueRouter.RouterWithoutTypeScript | src/templates/vue/modules/createRouter.cjs:10-11 | without TypeScript no TypeScript file is written |
| VueStore.CreateStoreFiles | src/templates/vue/modules/createStore.cjs:9-194 | the module changes the disk exactly as its plan |
| VueStore.StoreWrites | src/templates/vue/modules/createStore.cjs:24-193 | `store/index` and `store/user`, `ts`/`js`, no directory created; `index` is the same in both languages |
| VueStore.StoreReady | src/templates/vue/modules/createStore.cjs:24-193 | the plan completes when `store/` exists |
| VueStore.StoreWithoutTypeScript | src/templates/vue/modules/createStore.cjs:24-193 | without TypeScript no TypeScript file is written |
| VueUtils.WriteUtilityModules | src/templates/vue/modules/createUtils.cjs:30-335 | the five module writes change the disk exactly as their plan |
| VueUtils.CreateMockFiles | src/templates/vue/modules/createUtils.cjs:341-584 | the mock routine changes the disk exactly as its plan |
| VueUtils.CreateUtilsFiles | src/templates/vue/modules/createUtils.cjs:9-336 | the module changes the disk exactly as its plan |
| VueUtils.ModuleWrites | src/templates/vue/modules/createUtils.cjs:30-335 | `index`, `auth`, `validation`, `date`, `storage`, all `ts`/`js`; `index` is the same in both languages |
| VueUtils.MockWrites | src/templates/vue/modules/createUtils.cjs:341-584 | `mock/index` then `mock/setup`, next to `utils/`; `mock/index` is the same in both languages |
| VueUtils.UtilsWrites | src/templates/vue/modules/createUtils.cjs:30-584 | the five modules, then the two mock files, each once |
| VueUtils.UtilsReady | src/templates/vue/modules/createUtils.cjs:30-584 | the step completes when `utils/` exists |
| VueUtils.UtilsWithoutTypeScript | src/templates/vue/modules/createUtils.cjs:30-584 | without TypeScript no TypeScript file is written |
| VueViews.CreateLoginFiles | src/templates/vue/modules/createViews.cjs:9-401 | the login module changes the disk exactly as its plan |
| VueViews.CreateDashboardFiles | src/templates/vue/modules/createViews.cjs:406-998 | the dashboard module changes the disk exactly as its plan |
| VueViews.ViewsWrites | src/templates/vue/modules/createViews.cjs:396-997 | one `index.vue` per page, in the look of the UI library, whatever the language |
| VueViews.ViewsReady | src/templates/vue/modules/createViews.cjs:396-997 | both pages complete when their directories exist |
| VueViews.ViewsWithoutTypeScript | src/templates/vue/modules/createViews.cjs:396-997 | no TypeScript file is written, whatever the language |

## Left out

- Template bodies: the literal text of every template is an opaque tag (artifact, variant,
  interpolated lines). The model states which variant is chosen and which interpolated lines,
  the marks of `Content.Mark`, are filled in. It does not state the markup, CSS or prose,
  and an interpolation that is not a mark is carried only by the artifact and variant.
- `src/templates/react/modules/createPackage.cjs` is not part of this model. The React
  package step is a single opaque operation whose only effect is an optional failure
  message.
- Concurrency: the `Promise.all` mkdir batches run sequentially and stop at the first
  failure. Under `Promise.all` the other mkdirs may still complete, and which failure is
  reported first is not determined.
- Console output (`console.log`/`console.error`) is left out. So is everything in `index.js`
  except the choice lists and the project-name pattern: the banner, the prompts
  themselves, the spinner, and the overwrite confirmation with `fs.remove`.
- The `vite.svg` copy reads from the generator's own `node_modules`. That read is the
  `vendored` oracle, not a real file lookup.
- JSON formatting and key order of `package.json` are not modelled. The manifest is a map of
  maps.
- VuePackage.Lower: lower-cases ASCII letters only, while `toLowerCase` also lower-cases
  other scripts. `\s` is modelled by a fixed set of whitespace characters.
- The Vue `README.md` states its title, the UI, test and feature lines, the optional test
  section and the UI-components line as marks. The project tree it prints, with `main.ts` or
  `main.js`, is carried by its language variant. The `index.html` and `.env` files mark
  only the project name. The generic README's layout beyond the fields of the README
  document is not modelled.
- `path.join` normalisation (`..`, duplicate separators) is not modelled. Paths are
  sequences of segments.
- The re-export `index.cjs` files only wire modules together and add no behaviour.
- Filesystem errors carry only a message. Error codes and stack traces are not modelled.
