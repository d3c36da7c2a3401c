/**
 * `createVueProject`: create the thirteen directories of the Vue layout in one
 * batch, then run the ten emitters one after another inside a `try` whose `catch`
 * turns the first error into a failure status. No Vue emitter catches its own
 * errors, so every step propagates.
 */
module VueProject {
  import opened Config
  import opened Content
  import opened FileSystem
  import opened Pipeline
  import opened VuePackage
  import opened VueEntry
  import opened VueRouter
  import opened VueStore
  import opened VueApi
  import opened VueUtils
  import opened VueLayout
  import opened VueViews
  import opened VueComponents

  /** The directories of the `Promise.all` batch, in the order they are listed. */
  function VueDirs(projectPath: Path): (dirs: seq<Path>)
    ensures |dirs| == 13
    ensures forall i :: 0 <= i < 13 ==> |dirs[i]| > |projectPath| && dirs[i][..|projectPath| + 1] == projectPath + ["src"]
  {
    var src := projectPath + ["src"];
    [ src, src + ["components"], src + ["views"], src + ["router"], src + ["store"], src + ["api"],
      src + ["utils"], src + ["assets"], src + ["layout"], src + ["views", "login"], src + ["views", "dashboard"],
      src + ["assets", "images"], src + ["assets", "styles"] ]
  }

  /** The awaited calls of the `try` block, in order. */
  const VueOrder: seq<StepName> :=
    [ PackageStep, EntryStep, RouterStep, StoreStep, ApiStep, UtilsStep, LayoutsStep,
      LoginStep, DashboardStep, ComponentsStep ]

  /** The calls each step makes; `createPackageJson` works in the project directory, the others under `src/`. */
  function VuePlan(o: Options, name: StepName): seq<Op>
    requires o.projectPath.Some?
  {
    var projectPath := o.projectPath.value;
    var src := projectPath + ["src"];
    match name
    case PackageStep => PackageOps(projectPath, o)
    case EntryStep => EntryOps(src, o)
    case RouterStep => RouterOps(src + ["router"], o)
    case StoreStep => StoreOps(src + ["store"], o)
    case ApiStep => ApiOps(src + ["api"], o)
    case UtilsStep => UtilsOps(src + ["utils"], o)
    case LayoutsStep => LayoutOps(src + ["layout"], o)
    case LoginStep => LoginOps(src + ["views", "login"], o)
    case DashboardStep => DashboardOps(src + ["views", "dashboard"], o)
    case ComponentsStep => ComponentOps(src + ["components"], o)
    case _ => []  // steps of the React track only
  }

  function VueStep(o: Options, name: StepName): Step
    requires o.projectPath.Some?
  {
    Step(name, Propagates, VuePlan(o, name))
  }

  /** The `try` block of `createVueProject` as a list of steps. */
  function VueSteps(o: Options): (steps: seq<Step>)
    requires o.projectPath.Some?
    ensures |steps| == |VueOrder|
    ensures forall i :: 0 <= i < |steps| ==> steps[i] == VueStep(o, VueOrder[i])
  {
    seq(|VueOrder|, i requires 0 <= i < |VueOrder| => VueStep(o, VueOrder[i]))
  }

  /** What `createVueProject(options)` does to a filesystem, as a value. */
  function VueAssembly(d: Disk, o: Options): Assembly
    requires o.projectPath.Some?
  {
    Assemble(d, VueDirs(o.projectPath.value), VueSteps(o))
  }

  /** Steps 0 to 2 of the list are `createPackageJson`, `createEntryFiles`, `createRouterFiles`. */
  lemma VueStepsA(o: Options)
    requires o.projectPath.Some?
    ensures var pp := o.projectPath.value;
      VueSteps(o)[0..3] == [Step(PackageStep, Propagates, PackageOps(pp, o)), Step(EntryStep, Propagates, EntryOps(pp + ["src"], o)), Step(RouterStep, Propagates, RouterOps(pp + ["src"] + ["router"], o))]
  {
  }

  /** The steps from `createPackageJson` to `createRouterFiles`. */
  method RunVueStepsA(fs: FileSystem, o: Options) returns (out: Outcome)
    requires o.projectPath.Some?
    modifies fs
    ensures Run(out, fs.Snapshot()) == (var p := RunSteps(old(fs.Snapshot()), VueSteps(o)[0..3]); Run(p.outcome, p.disk))
  {
    VueStepsA(o);
    ghost var pp := o.projectPath.value;
    ghost var rest := [Step(PackageStep, Propagates, PackageOps(pp, o)), Step(EntryStep, Propagates, EntryOps(pp + ["src"], o)), Step(RouterStep, Propagates, RouterOps(pp + ["src"] + ["router"], o))];
    ghost var d := fs.Snapshot();
    var projectPath := o.projectPath.value;
    var srcDir := projectPath + ["src"];

    out := CreatePackageJson(fs, projectPath, o);
    if out.Thrown? { StopSteps(d, rest, Run(out, fs.Snapshot())); return; }
    ContinueSteps(d, rest, fs.Snapshot());
    rest, d := rest[1..], fs.Snapshot();

    out := CreateEntryFiles(fs, srcDir, o);
    if out.Thrown? { StopSteps(d, rest, Run(out, fs.Snapshot())); return; }
    ContinueSteps(d, rest, fs.Snapshot());
    rest, d := rest[1..], fs.Snapshot();

    out := CreateRouterFiles(fs, srcDir + ["router"], o);
    if out.Thrown? { StopSteps(d, rest, Run(out, fs.Snapshot())); return; }
    ContinueSteps(d, rest, fs.Snapshot());
  }

  /** Steps 3 to 5 of the list are `createStoreFiles`, `createApiFiles`, `createUtilsFiles`. */
  lemma VueStepsB(o: Options)
    requires o.projectPath.Some?
    ensures var pp := o.projectPath.value;
      VueSteps(o)[3..6] == [Step(StoreStep, Propagates, StoreOps(pp + ["src"] + ["store"], o)), Step(ApiStep, Propagates, ApiOps(pp + ["src"] + ["api"], o)), Step(UtilsStep, Propagates, UtilsOps(pp + ["src"] + ["utils"], o))]
  {
  }

  /** The steps from `createStoreFiles` to `createUtilsFiles`. */
  method RunVueStepsB(fs: FileSystem, o: Options) returns (out: Outcome)
    requires o.projectPath.Some?
    modifies fs
    ensures Run(out, fs.Snapshot()) == (var p := RunSteps(old(fs.Snapshot()), VueSteps(o)[3..6]); Run(p.outcome, p.disk))
  {
    VueStepsB(o);
    ghost var pp := o.projectPath.value;
    ghost var rest := [Step(StoreStep, Propagates, StoreOps(pp + ["src"] + ["store"], o)), Step(ApiStep, Propagates, ApiOps(pp + ["src"] + ["api"], o)), Step(UtilsStep, Propagates, UtilsOps(pp + ["src"] + ["utils"], o))];
    ghost var d := fs.Snapshot();
    var srcDir := o.projectPath.value + ["src"];

    out := CreateStoreFiles(fs, srcDir + ["store"], o);
    if out.Thrown? { StopSteps(d, rest, Run(out, fs.Snapshot())); return; }
    ContinueSteps(d, rest, fs.Snapshot());
    rest, d := rest[1..], fs.Snapshot();

    out := CreateApiFiles(fs, srcDir + ["api"], o);
    if out.Thrown? { StopSteps(d, rest, Run(out, fs.Snapshot())); return; }
    ContinueSteps(d, rest, fs.Snapshot());
    rest, d := rest[1..], fs.Snapshot();

    out := CreateUtilsFiles(fs, srcDir + ["utils"], o);
    if out.Thrown? { StopSteps(d, rest, Run(out, fs.Snapshot())); return; }
    ContinueSteps(d, rest, fs.Snapshot());
  }

  /** Steps 6 and 7 of the list are `createLayoutFiles`, `createLoginFiles`. */
  lemma VueStepsC(o: Options)
    requires o.projectPath.Some?
    ensures var pp := o.projectPath.value;
      VueSteps(o)[6..8] == [Step(LayoutsStep, Propagates, LayoutOps(pp + ["src"] + ["layout"], o)), Step(LoginStep, Propagates, LoginOps(pp + ["src"] + ["views", "login"], o))]
  {
  }

  /** The steps from `createLayoutFiles` to `createLoginFiles`. */
  method RunVueStepsC(fs: FileSystem, o: Options) returns (out: Outcome)
    requires o.projectPath.Some?
    modifies fs
    ensures Run(out, fs.Snapshot()) == (var p := RunSteps(old(fs.Snapshot()), VueSteps(o)[6..8]); Run(p.outcome, p.disk))
  {
    VueStepsC(o);
    ghost var pp := o.projectPath.value;
    ghost var rest := [Step(LayoutsStep, Propagates, LayoutOps(pp + ["src"] + ["layout"], o)), Step(LoginStep, Propagates, LoginOps(pp + ["src"] + ["views", "login"], o))];
    ghost var d := fs.Snapshot();
    var srcDir := o.projectPath.value + ["src"];

    out := CreateLayoutFiles(fs, srcDir + ["layout"], o);
    if out.Thrown? { StopSteps(d, rest, Run(out, fs.Snapshot())); return; }
    ContinueSteps(d, rest, fs.Snapshot());
    rest, d := rest[1..], fs.Snapshot();

    out := CreateLoginFiles(fs, srcDir + ["views", "login"], o);
    if out.Thrown? { StopSteps(d, rest, Run(out, fs.Snapshot())); return; }
    ContinueSteps(d, rest, fs.Snapshot());
  }

  /** Steps 8 and 9 of the list are `createDashboardFiles`, `createCommonComponents`. */
  lemma VueStepsD(o: Options)
    requires o.projectPath.Some?
    ensures var pp := o.projectPath.value;
      VueSteps(o)[8..10] == [Step(DashboardStep, Propagates, DashboardOps(pp + ["src"] + ["views", "dashboard"], o)), Step(ComponentsStep, Propagates, ComponentOps(pp + ["src"] + ["components"], o))]
  {
  }

  /** The steps from `createDashboardFiles` to `createCommonComponents`. */
  method RunVueStepsD(fs: FileSystem, o: Options) returns (out: Outcome)
    requires o.projectPath.Some?
    modifies fs
    ensures Run(out, fs.Snapshot()) == (var p := RunSteps(old(fs.Snapshot()), VueSteps(o)[8..10]); Run(p.outcome, p.disk))
  {
    VueStepsD(o);
    ghost var pp := o.projectPath.value;
    ghost var rest := [Step(DashboardStep, Propagates, DashboardOps(pp + ["src"] + ["views", "dashboard"], o)), Step(ComponentsStep, Propagates, ComponentOps(pp + ["src"] + ["components"], o))];
    ghost var d := fs.Snapshot();
    var srcDir := o.projectPath.value + ["src"];

    out := CreateDashboardFiles(fs, srcDir + ["views", "dashboard"], o);
    if out.Thrown? { StopSteps(d, rest, Run(out, fs.Snapshot())); return; }
    ContinueSteps(d, rest, fs.Snapshot());
    rest, d := rest[1..], fs.Snapshot();

    out := CreateCommonComponents(fs, srcDir + ["components"], o);
    if out.Thrown? { StopSteps(d, rest, Run(out, fs.Snapshot())); return; }
    ContinueSteps(d, rest, fs.Snapshot());
  }

  /**
   * `createVueProject(options)`: a refused directory rejects the returned promise;
   * otherwise the status reports success, or the first error of any step.
   */
  method CreateVueProject(fs: FileSystem, o: Options) returns (res: Settled)
    requires o.projectPath.Some?
    modifies fs
    ensures res == VueAssembly(old(fs.Snapshot()), o).settled
    ensures fs.Snapshot() == VueAssembly(old(fs.Snapshot()), o).disk
  {
    var projectPath := o.projectPath.value;
    var made := MakeDirectories(fs, VueDirs(projectPath));
    if made.Thrown? {
      return Rejected(made.error);
    }
    ghost var steps := VueSteps(o);
    assert steps[0..10] == steps;
    RunStepsCut(fs.Snapshot(), steps, 0, 3, 10);
    var out := RunVueStepsA(fs, o);
    if out.Normal? {
      RunStepsCut(fs.Snapshot(), steps, 3, 6, 10);
      out := RunVueStepsB(fs, o);
      if out.Normal? {
        RunStepsCut(fs.Snapshot(), steps, 6, 8, 10);
        out := RunVueStepsC(fs, o);
        if out.Normal? {
          out := RunVueStepsD(fs, o);
        }
      }
    }
    res := Resolved(StatusOf(out));
  }

  /** The order of the `await`s: the package first, the common components last, each step once. */
  lemma VueStepOrder(o: Options)
    requires o.projectPath.Some?
    ensures forall i :: 0 <= i < |VueOrder| ==> VueSteps(o)[i].name == VueOrder[i] && VueSteps(o)[i].policy == Propagates
    ensures VueOrder[0] == PackageStep && VueOrder[1] == EntryStep && VueOrder[|VueOrder| - 1] == ComponentsStep
    ensures forall i, j :: 0 <= i < j < |VueOrder| ==> VueOrder[i] != VueOrder[j]
  {
    VueOrderDistinct();
  }

  lemma VueOrderDistinct()
    ensures forall i, j :: 0 <= i < j < |VueOrder| ==> VueOrder[i] != VueOrder[j]
  {
  }

  /** Each step's calls find their directories, given those of the batch. */
  lemma VuePlanReady(dirs: set<Path>, o: Options, name: StepName)
    requires o.projectPath.Some?
    requires var src := o.projectPath.value + ["src"];
      && o.projectPath.value in dirs && src in dirs && src + ["router"] in dirs && src + ["store"] in dirs
      && src + ["api"] in dirs && src + ["utils"] in dirs && src + ["layout"] in dirs
      && src + ["views", "login"] in dirs && src + ["views", "dashboard"] in dirs && src + ["components"] in dirs
    ensures Ready(dirs, VuePlan(o, name))
  {
    var projectPath := o.projectPath.value;
    var src := projectPath + ["src"];
    match name
    case PackageStep => PackageReady(dirs, projectPath, o);
    case EntryStep => EntryReady(dirs, src, o);
    case RouterStep => RouterReady(dirs, src + ["router"], o);
    case StoreStep => StoreReady(dirs, src + ["store"], o);
    case ApiStep => ApiReady(dirs, src + ["api"], o);
    case UtilsStep => UtilsReady(dirs, src + ["utils"], o);
    case LayoutsStep => LayoutReady(dirs, src + ["layout"], o);
    case LoginStep => ViewsReady(dirs, src + ["views", "login"], src + ["views", "dashboard"], o);
    case DashboardStep => ViewsReady(dirs, src + ["views", "login"], src + ["views", "dashboard"], o);
    case ComponentsStep => ComponentsReady(dirs, src + ["components"], o);
    case _ =>
  }

  /** Every step finds the directories it writes into, given the batch and the project directory it implies. */
  lemma VueStepsReady(o: Options)
    requires o.projectPath.Some?
    ensures StepsReady((set p | p in VueDirs(o.projectPath.value)) + {o.projectPath.value}, VueSteps(o))
  {
    var projectPath := o.projectPath.value;
    var base := (set p | p in VueDirs(projectPath)) + {projectPath};
    var src := projectPath + ["src"];
    var dirs := VueDirs(projectPath);
    var steps := VueSteps(o);
    assert dirs[0] == src && dirs[1] == src + ["components"] && dirs[3] == src + ["router"];
    assert dirs[4] == src + ["store"] && dirs[5] == src + ["api"] && dirs[6] == src + ["utils"];
    assert dirs[8] == src + ["layout"] && dirs[9] == src + ["views", "login"] && dirs[10] == src + ["views", "dashboard"];
    forall i | 0 <= i < |steps|
      ensures Ready(base, steps[i].ops)
    {
      VuePlanReady(base, o, VueOrder[i]);
    }
  }

  /** The names of the first `n` steps are the first `n` names of the order. */
  lemma VueNames(o: Options, n: nat)
    requires o.projectPath.Some? && n <= |VueOrder|
    ensures Names(VueSteps(o)[..n]) == VueOrder[..n]
  {
    var ns := Names(VueSteps(o)[..n]);
    assert forall i :: 0 <= i < n ==> ns[i] == VueSteps(o)[..n][i].name == VueOrder[i];
  }

  lemma VueAllNames(o: Options)
    requires o.projectPath.Some?
    ensures Names(VueSteps(o)) == VueOrder
  {
    VueNames(o, |VueOrder|);
    assert VueSteps(o)[..|VueOrder|] == VueSteps(o);
  }

  /** The project directory is an ancestor of `src`, so the batch creates it too. */
  lemma VueReachedReady(o: Options)
    requires o.projectPath.Some?
    ensures StepsReady(Reached(VueDirs(o.projectPath.value)), VueSteps(o))
  {
    var pp := o.projectPath.value;
    var dirs := VueDirs(pp);
    VueStepsReady(o);
    assert dirs[0] == pp + ["src"];
    assert dirs[0][..|pp|] == pp;
    ListedReached(dirs, pp, 0);
    StepsReadyMonotone((set p | p in dirs) + {pp}, Reached(dirs), VueSteps(o));
  }

  /**
   * With no refused path the project is created: every step runs, in the order
   * of the `await`s, and the status is the success message.
   */
  lemma VueSucceeds(d: Disk, o: Options)
    requires o.projectPath.Some? && d.faults == map[]
    ensures VueAssembly(d, o).settled == Resolved(Status(true, SuccessMessage))
    ensures VueAssembly(d, o).started == VueOrder
  {
    var pp := o.projectPath.value;
    VueReachedReady(o);
    AssembleSucceeds(d, VueDirs(pp), VueSteps(o));
    VueAllNames(o);
  }

  /**
   * A failure status names the step that threw: the steps before it all returned,
   * the filesystem is what that step left, and no later step started.
   */
  lemma VueFailure(d: Disk, o: Options) returns (k: nat)
    requires o.projectPath.Some?
    requires VueAssembly(d, o).settled.Resolved? && !VueAssembly(d, o).settled.status.success
    ensures k < |VueOrder| && VueAssembly(d, o).started == VueOrder[..k + 1]
    ensures
      var before := RunSteps(RunOps(d, MkdirAll(VueDirs(o.projectPath.value))).disk, VueSteps(o)[..k]);
      var failed := RunOps(before.disk, VuePlan(o, VueOrder[k]));
      && before.outcome.Normal?
      && failed.outcome.Thrown?
      && failed.disk == VueAssembly(d, o).disk
      && VueAssembly(d, o).settled.status.message == FailurePrefix + ErrorMessage(failed.outcome.error)
  {
    var steps := VueSteps(o);
    k := AssembleFails(d, VueDirs(o.projectPath.value), steps);
    VueNames(o, k + 1);
    assert steps[k].ops == VuePlan(o, VueOrder[k]);
  }

  /**
   * A step runs only after every step before it returned; in particular the router,
   * whose 404 page goes into `src/views`, runs after the entry files are written.
   */
  lemma VueStartsInOrder(d: Disk, o: Options, k: nat)
    requires o.projectPath.Some?
    requires k < |VueOrder| && VueOrder[k] in VueAssembly(d, o).started
    ensures RunSteps(RunOps(d, MkdirAll(VueDirs(o.projectPath.value))).disk, VueSteps(o)[..k]).outcome.Normal?
  {
    var steps := VueSteps(o);
    VueStepOrder(o);
    forall j | 0 <= j < |steps| && j != k
      ensures steps[j].name != steps[k].name
    {
      assert steps[j].name == VueOrder[j] && steps[k].name == VueOrder[k];
    }
    AssembleStartsInOrder(d, VueDirs(o.projectPath.value), steps, k);
  }

  /**
   * A failing `createPackageJson` ends the call at once: no emitter under `src/`
   * runs and the status carries the package step's error.
   */
  lemma VuePackageFailureStopsEverything(d: Disk, o: Options)
    requires o.projectPath.Some?
    requires var made := RunOps(d, MkdirAll(VueDirs(o.projectPath.value)));
      made.outcome.Normal? && RunOps(made.disk, PackageOps(o.projectPath.value, o)).outcome.Thrown?
    ensures var failed := RunOps(RunOps(d, MkdirAll(VueDirs(o.projectPath.value))).disk, PackageOps(o.projectPath.value, o));
      && VueAssembly(d, o).settled == Resolved(Status(false, FailurePrefix + ErrorMessage(failed.outcome.error)))
      && VueAssembly(d, o).started == [PackageStep]
      && VueAssembly(d, o).disk == failed.disk
  {
    var pp := o.projectPath.value;
    var made := RunOps(d, MkdirAll(VueDirs(pp)));
    var steps := VueSteps(o);
    assert steps[0] == VueStep(o, PackageStep);
    StopSteps(made.disk, steps, RunOps(made.disk, PackageOps(pp, o)));
  }

  /** Each step's calls write no TypeScript when the options do not ask for it. */
  lemma VuePlanWithoutTypeScript(o: Options, name: StepName)
    requires o.projectPath.Some? && !IsTS(o)
    ensures NoTypeScript(VuePlan(o, name))
  {
    var projectPath := o.projectPath.value;
    var src := projectPath + ["src"];
    match name
    case PackageStep => PackageWithoutTypeScript(projectPath, o);
    case EntryStep => EntryWithoutTypeScript(src, o);
    case RouterStep => RouterWithoutTypeScript(src + ["router"], o);
    case StoreStep => StoreWithoutTypeScript(src + ["store"], o);
    case ApiStep => ApiWithoutTypeScript(src + ["api"], o);
    case UtilsStep => UtilsWithoutTypeScript(src + ["utils"], o);
    case LayoutsStep => LayoutWithoutTypeScript(src + ["layout"], o);
    case LoginStep => ViewsWithoutTypeScript(src + ["views", "login"], src + ["views", "dashboard"], o);
    case DashboardStep => ViewsWithoutTypeScript(src + ["views", "login"], src + ["views", "dashboard"], o);
    case ComponentsStep => ComponentsWithoutTypeScript(src + ["components"], o);
    case _ =>
  }

  /** A JavaScript project gets no `.ts` file, no `tsconfig` and no TypeScript text from any step. */
  lemma VueWithoutTypeScript(o: Options)
    requires o.projectPath.Some? && !IsTS(o)
    ensures forall i :: 0 <= i < |VueSteps(o)| ==> NoTypeScript(VueSteps(o)[i].ops)
  {
    forall i | 0 <= i < |VueSteps(o)|
      ensures NoTypeScript(VueSteps(o)[i].ops)
    {
      VuePlanWithoutTypeScript(o, VueOrder[i]);
    }
  }
}
