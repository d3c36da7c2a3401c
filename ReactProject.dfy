/**
 * `createReactProject`: create the seventeen directories of the React layout in
 * one batch, then run the thirteen emitters one after another inside a `try` whose
 * `catch` turns the first error into a failure status.
 */
module ReactProject {
  import opened Config
  import opened Content
  import opened FileSystem
  import opened Pipeline
  import opened ReactUtils
  import opened ReactServices
  import opened ReactStore
  import opened ReactHooks
  import opened ReactContext
  import opened ReactComponents
  import opened ReactLayout
  import opened ReactRoutes
  import opened ReactViews
  import opened ReactLayoutAndComponents
  import opened ReactEntry

  /** The directories of the `Promise.all` batch, in the order they are listed. */
  function ScaffoldDirs(projectPath: Path): (dirs: seq<Path>)
    ensures |dirs| == 17
    ensures forall i :: 0 <= i < 17 ==> |dirs[i]| > |projectPath| && dirs[i][..|projectPath| + 1] == projectPath + ["src"]
  {
    var src := projectPath + ["src"];
    [ src, src + ["components"], src + ["components", "common"], src + ["components", "layout"],
      src + ["pages"], src + ["routes"], src + ["store"], src + ["services"], src + ["utils"],
      src + ["assets"], src + ["assets", "images"], src + ["assets", "styles"], src + ["layouts"],
      src + ["hooks"], src + ["context"], src + ["pages", "login"], src + ["pages", "dashboard"] ]
  }

  /** The awaited calls of the `try` block, in order. */
  const ReactOrder: seq<StepName> :=
    [ PackageStep, UtilsStep, ServicesStep, StoreStep, HooksStep, ContextStep, ComponentsStep,
      LayoutsStep, RoutesStep, LoginStep, DashboardStep, LayoutAndComponentsStep, EntryStep ]

  /** `createUtilsFiles` and `createCommonComponents` catch and log every error. */
  function ReactPolicy(name: StepName): (p: Policy)
    ensures p == Swallows <==> name == UtilsStep || name == ComponentsStep
  {
    if name == UtilsStep || name == ComponentsStep then Swallows else Propagates
  }

  /**
   * The calls each step makes, given `src/`. `createPackageJson` comes from a module
   * that is not part of this model: it either fails with `packageFault` or has no
   * effect the model follows.
   */
  function ReactPlan(src: Path, o: Options, packageFault: Option<string>, name: StepName): seq<Op>
  {
    match name
    case PackageStep => [Opaque(packageFault)]
    case UtilsStep => UtilsOps(src + ["utils"], o)
    case ServicesStep => ServiceOps(src + ["services"], o)
    case StoreStep => StoreOps(src + ["store"], o)
    case HooksStep => HookOps(src + ["hooks"], o)
    case ContextStep => ContextOps(src + ["context"], o)
    case ComponentsStep => ComponentOps(src + ["components"], o)
    case LayoutsStep => LayoutOps(src + ["layouts"], o)
    case RoutesStep => RouteOps(src + ["routes"], o)
    case LoginStep => LoginOps(src + ["pages", "login"], o)
    case DashboardStep => DashboardOps(src + ["pages", "dashboard"], o)
    case LayoutAndComponentsStep => LayoutAndComponentOps(src, o)
    case EntryStep => EntryOps(src, o)
    case _ => []  // steps of the Vue track only
  }

  function ReactStep(projectPath: Path, o: Options, packageFault: Option<string>, name: StepName): Step
  {
    Step(name, ReactPolicy(name), ReactPlan(projectPath + ["src"], o, packageFault, name))
  }

  /** The `try` block of `createReactProject` as a list of steps. */
  function ReactSteps(projectPath: Path, o: Options, packageFault: Option<string>): (steps: seq<Step>)
    ensures |steps| == |ReactOrder|
    ensures forall i :: 0 <= i < |steps| ==> steps[i] == ReactStep(projectPath, o, packageFault, ReactOrder[i])
  {
    seq(|ReactOrder|, i requires 0 <= i < |ReactOrder| => ReactStep(projectPath, o, packageFault, ReactOrder[i]))
  }

  /** What `createReactProject(options)` does to a filesystem, as a value. */
  function ReactAssembly(d: Disk, o: Options, packageFault: Option<string>): Assembly
    requires o.projectPath.Some?
  {
    Assemble(d, ScaffoldDirs(o.projectPath.value), ReactSteps(o.projectPath.value, o, packageFault))
  }

  /** The React `createPackageJson`, whose module is not part of this model. */
  method CreatePackageJson(fs: FileSystem, projectPath: Path, o: Options, fault: Option<string>) returns (out: Outcome)
    ensures out.Normal? <==> fault.None?
    ensures Run(out, fs.Snapshot()) == RunOps(fs.Snapshot(), [Opaque(fault)])
  {
    if fault.Some? {
      return Thrown(Refused(fault.value));
    }
    out := Normal;
    assert [Opaque(fault)][1..] == [];
  }

  /** Steps 0 to 2 of the list are `createPackageJson`, `createUtilsFiles`, `createServiceFiles`. */
  lemma ReactStepsA(projectPath: Path, o: Options, packageFault: Option<string>)
    ensures ReactSteps(projectPath, o, packageFault)[0..3] ==
      [ ReactStep(projectPath, o, packageFault, PackageStep),
        ReactStep(projectPath, o, packageFault, UtilsStep),
        ReactStep(projectPath, o, packageFault, ServicesStep) ]
  {
  }

  /** The steps from `createPackageJson` to `createServiceFiles`. */
  method RunStepsA(fs: FileSystem, projectPath: Path, o: Options, packageFault: Option<string>)
    returns (out: Outcome)
    modifies fs
    ensures Run(out, fs.Snapshot()) == (
      var p := RunSteps(old(fs.Snapshot()), ReactSteps(projectPath, o, packageFault)[0..3]);
      Run(p.outcome, p.disk))
  {
    ReactStepsA(projectPath, o, packageFault);
    ghost var rest := [ ReactStep(projectPath, o, packageFault, PackageStep),
      ReactStep(projectPath, o, packageFault, UtilsStep),
      ReactStep(projectPath, o, packageFault, ServicesStep) ];
    ghost var d := fs.Snapshot();
    var srcDir := projectPath + ["src"];

    out := CreatePackageJson(fs, projectPath, o, packageFault);
    if out.Thrown? { StopSteps(d, rest, Run(out, fs.Snapshot())); return; }
    ContinueSteps(d, rest, fs.Snapshot());
    rest, d := rest[1..], fs.Snapshot();

    out := CreateUtilsFiles(fs, srcDir + ["utils"], o);
    ContinueSteps(d, rest, fs.Snapshot());
    rest, d := rest[1..], fs.Snapshot();

    out := CreateServiceFiles(fs, srcDir + ["services"], o);
    if out.Thrown? { StopSteps(d, rest, Run(out, fs.Snapshot())); return; }
    ContinueSteps(d, rest, fs.Snapshot());
  }

  /** Steps 3 to 5 of the list are `createStoreFiles`, `createCustomHooks`, `createContextFiles`. */
  lemma ReactStepsB(projectPath: Path, o: Options, packageFault: Option<string>)
    ensures ReactSteps(projectPath, o, packageFault)[3..6] ==
      [ ReactStep(projectPath, o, packageFault, StoreStep),
        ReactStep(projectPath, o, packageFault, HooksStep),
        ReactStep(projectPath, o, packageFault, ContextStep) ]
  {
  }

  /** The steps from `createStoreFiles` to `createContextFiles`. */
  method RunStepsB(fs: FileSystem, projectPath: Path, o: Options, packageFault: Option<string>)
    returns (out: Outcome)
    modifies fs
    ensures Run(out, fs.Snapshot()) == (
      var p := RunSteps(old(fs.Snapshot()), ReactSteps(projectPath, o, packageFault)[3..6]);
      Run(p.outcome, p.disk))
  {
    ReactStepsB(projectPath, o, packageFault);
    ghost var rest := [ ReactStep(projectPath, o, packageFault, StoreStep),
      ReactStep(projectPath, o, packageFault, HooksStep),
      ReactStep(projectPath, o, packageFault, ContextStep) ];
    ghost var d := fs.Snapshot();
    var srcDir := projectPath + ["src"];

    out := CreateStoreFiles(fs, srcDir + ["store"], o);
    if out.Thrown? { StopSteps(d, rest, Run(out, fs.Snapshot())); return; }
    ContinueSteps(d, rest, fs.Snapshot());
    rest, d := rest[1..], fs.Snapshot();

    out := CreateCustomHooks(fs, srcDir + ["hooks"], o);
    if out.Thrown? { StopSteps(d, rest, Run(out, fs.Snapshot())); return; }
    ContinueSteps(d, rest, fs.Snapshot());
    rest, d := rest[1..], fs.Snapshot();

    out := CreateContextFiles(fs, srcDir + ["context"], o);
    if out.Thrown? { StopSteps(d, rest, Run(out, fs.Snapshot())); return; }
    ContinueSteps(d, rest, fs.Snapshot());
  }

  /** Steps 6 to 8 of the list are `createCommonComponents`, `createLayoutFiles`, `createRouteFiles`. */
  lemma ReactStepsC(projectPath: Path, o: Options, packageFault: Option<string>)
    ensures ReactSteps(projectPath, o, packageFault)[6..9] ==
      [ ReactStep(projectPath, o, packageFault, ComponentsStep),
        ReactStep(projectPath, o, packageFault, LayoutsStep),
        ReactStep(projectPath, o, packageFault, RoutesStep) ]
  {
  }

  /** The steps from `createCommonComponents` to `createRouteFiles`. */
  method RunStepsC(fs: FileSystem, projectPath: Path, o: Options, packageFault: Option<string>)
    returns (out: Outcome)
    modifies fs
    ensures Run(out, fs.Snapshot()) == (
      var p := RunSteps(old(fs.Snapshot()), ReactSteps(projectPath, o, packageFault)[6..9]);
      Run(p.outcome, p.disk))
  {
    ReactStepsC(projectPath, o, packageFault);
    ghost var rest := [ ReactStep(projectPath, o, packageFault, ComponentsStep),
      ReactStep(projectPath, o, packageFault, LayoutsStep),
      ReactStep(projectPath, o, packageFault, RoutesStep) ];
    ghost var d := fs.Snapshot();
    var srcDir := projectPath + ["src"];

    out := CreateCommonComponents(fs, srcDir + ["components"], o);
    ContinueSteps(d, rest, fs.Snapshot());
    rest, d := rest[1..], fs.Snapshot();

    out := CreateLayoutFiles(fs, srcDir + ["layouts"], o);
    if out.Thrown? { StopSteps(d, rest, Run(out, fs.Snapshot())); return; }
    ContinueSteps(d, rest, fs.Snapshot());
    rest, d := rest[1..], fs.Snapshot();

    out := CreateRouteFiles(fs, srcDir + ["routes"], o);
    if out.Thrown? { StopSteps(d, rest, Run(out, fs.Snapshot())); return; }
    ContinueSteps(d, rest, fs.Snapshot());
  }

  /** Steps 9 to 10 of the list are `createLoginFiles`, `createDashboardFiles`. */
  lemma ReactStepsD(projectPath: Path, o: Options, packageFault: Option<string>)
    ensures ReactSteps(projectPath, o, packageFault)[9..11] ==
      [ ReactStep(projectPath, o, packageFault, LoginStep),
        ReactStep(projectPath, o, packageFault, DashboardStep) ]
  {
  }

  /** The steps from `createLoginFiles` to `createDashboardFiles`. */
  method RunStepsD(fs: FileSystem, projectPath: Path, o: Options, packageFault: Option<string>)
    returns (out: Outcome)
    modifies fs
    ensures Run(out, fs.Snapshot()) == (
      var p := RunSteps(old(fs.Snapshot()), ReactSteps(projectPath, o, packageFault)[9..11]);
      Run(p.outcome, p.disk))
  {
    ReactStepsD(projectPath, o, packageFault);
    ghost var rest := [ ReactStep(projectPath, o, packageFault, LoginStep),
      ReactStep(projectPath, o, packageFault, DashboardStep) ];
    ghost var d := fs.Snapshot();
    var srcDir := projectPath + ["src"];

    out := CreateLoginFiles(fs, srcDir + ["pages", "login"], o);
    if out.Thrown? { StopSteps(d, rest, Run(out, fs.Snapshot())); return; }
    ContinueSteps(d, rest, fs.Snapshot());
    rest, d := rest[1..], fs.Snapshot();

    out := CreateDashboardFiles(fs, srcDir + ["pages", "dashboard"], o);
    if out.Thrown? { StopSteps(d, rest, Run(out, fs.Snapshot())); return; }
    ContinueSteps(d, rest, fs.Snapshot());
  }

  /** Steps 11 to 12 of the list are `createLayoutAndComponents`, `createEntryFiles`. */
  lemma ReactStepsE(projectPath: Path, o: Options, packageFault: Option<string>)
    ensures ReactSteps(projectPath, o, packageFault)[11..13] ==
      [ ReactStep(projectPath, o, packageFault, LayoutAndComponentsStep),
        ReactStep(projectPath, o, packageFault, EntryStep) ]
  {
  }

  /** The steps from `createLayoutAndComponents` to `createEntryFiles`. */
  method RunStepsE(fs: FileSystem, projectPath: Path, o: Options, packageFault: Option<string>)
    returns (out: Outcome)
    modifies fs
    ensures Run(out, fs.Snapshot()) == (
      var p := RunSteps(old(fs.Snapshot()), ReactSteps(projectPath, o, packageFault)[11..13]);
      Run(p.outcome, p.disk))
  {
    ReactStepsE(projectPath, o, packageFault);
    ghost var rest := [ ReactStep(projectPath, o, packageFault, LayoutAndComponentsStep),
      ReactStep(projectPath, o, packageFault, EntryStep) ];
    ghost var d := fs.Snapshot();
    var srcDir := projectPath + ["src"];

    out := CreateLayoutAndComponents(fs, srcDir, o);
    if out.Thrown? { StopSteps(d, rest, Run(out, fs.Snapshot())); return; }
    ContinueSteps(d, rest, fs.Snapshot());
    rest, d := rest[1..], fs.Snapshot();

    out := CreateEntryFiles(fs, srcDir, o);
    if out.Thrown? { StopSteps(d, rest, Run(out, fs.Snapshot())); return; }
    ContinueSteps(d, rest, fs.Snapshot());
  }

  /**
   * `createReactProject(options)`: a refused directory rejects the returned promise;
   * otherwise the status reports success, or the first error the steps let through.
   */
  method CreateReactProject(fs: FileSystem, o: Options, packageFault: Option<string>) returns (res: Settled)
    requires o.projectPath.Some?
    modifies fs
    ensures res == ReactAssembly(old(fs.Snapshot()), o, packageFault).settled
    ensures fs.Snapshot() == ReactAssembly(old(fs.Snapshot()), o, packageFault).disk
  {
    var projectPath := o.projectPath.value;
    var made := MakeDirectories(fs, ScaffoldDirs(projectPath));
    if made.Thrown? {
      return Rejected(made.error);
    }
    ghost var steps := ReactSteps(projectPath, o, packageFault);
    assert steps[0..13] == steps;
    RunStepsCut(fs.Snapshot(), steps, 0, 3, 13);
    var out := RunStepsA(fs, projectPath, o, packageFault);
    if out.Normal? {
      RunStepsCut(fs.Snapshot(), steps, 3, 6, 13);
      out := RunStepsB(fs, projectPath, o, packageFault);
      if out.Normal? {
        RunStepsCut(fs.Snapshot(), steps, 6, 9, 13);
        out := RunStepsC(fs, projectPath, o, packageFault);
        if out.Normal? {
          RunStepsCut(fs.Snapshot(), steps, 9, 11, 13);
          out := RunStepsD(fs, projectPath, o, packageFault);
          if out.Normal? {
            out := RunStepsE(fs, projectPath, o, packageFault);
          }
        }
      }
    }
    res := Resolved(StatusOf(out));
  }

  /** The order of the `await`s: the package first, the entry files last. */
  lemma ReactStepOrder(projectPath: Path, o: Options, packageFault: Option<string>)
    ensures forall i :: 0 <= i < |ReactOrder| ==> ReactSteps(projectPath, o, packageFault)[i].name == ReactOrder[i]
    ensures ReactOrder[0] == PackageStep && ReactOrder[|ReactOrder| - 1] == EntryStep
    ensures forall i, j :: 0 <= i < j < |ReactOrder| ==> ReactOrder[i] != ReactOrder[j]
  {
  }

  /** Each step's calls find their directories, given those of the batch. */
  lemma ReactPlanReady(dirs: set<Path>, src: Path, o: Options, name: StepName)
    requires src in dirs && src + ["pages"] in dirs
    requires src + ["utils"] in dirs && src + ["services"] in dirs && src + ["store"] in dirs
    requires src + ["hooks"] in dirs && src + ["context"] in dirs && src + ["layouts"] in dirs
    requires src + ["routes"] in dirs && src + ["pages", "login"] in dirs && src + ["pages", "dashboard"] in dirs
    ensures Ready(dirs, ReactPlan(src, o, None, name))
  {
    match name
    case PackageStep =>
    case UtilsStep => UtilsReady(dirs, src + ["utils"], o);
    case ServicesStep => ServiceReady(dirs, src + ["services"], o);
    case StoreStep => StoreReady(dirs, src + ["store"], o);
    case HooksStep => HookReady(dirs, src + ["hooks"], o);
    case ContextStep => ContextReady(dirs, src + ["context"], o);
    case ComponentsStep => ComponentReady(dirs, src + ["components"], o);
    case LayoutsStep => LayoutReady(dirs, src + ["layouts"], o);
    case RoutesStep => RouteReady(dirs, src + ["routes"], o);
    case LoginStep => ViewsReady(dirs, src + ["pages", "login"], src + ["pages", "dashboard"], o);
    case DashboardStep => ViewsReady(dirs, src + ["pages", "login"], src + ["pages", "dashboard"], o);
    case LayoutAndComponentsStep => LayoutAndComponentReady(dirs, src, o);
    case EntryStep => EntryReady(dirs, src, o);
    case _ =>
  }

  /** Every step finds the directories it writes into, given the batch. */
  lemma ReactStepsReady(projectPath: Path, o: Options)
    ensures StepsReady((set p | p in ScaffoldDirs(projectPath)), ReactSteps(projectPath, o, None))
  {
    var base := set p | p in ScaffoldDirs(projectPath);
    var src := projectPath + ["src"];
    var dirs := ScaffoldDirs(projectPath);
    var steps := ReactSteps(projectPath, o, None);
    assert dirs[0] == src && dirs[4] == src + ["pages"];
    assert dirs[5] == src + ["routes"] && dirs[6] == src + ["store"] && dirs[7] == src + ["services"];
    assert dirs[8] == src + ["utils"] && dirs[12] == src + ["layouts"] && dirs[13] == src + ["hooks"];
    assert dirs[14] == src + ["context"] && dirs[15] == src + ["pages", "login"];
    assert dirs[16] == src + ["pages", "dashboard"];
    forall i | 0 <= i < |steps|
      ensures Ready(base, steps[i].ops)
    {
      ReactPlanReady(base, src, o, ReactOrder[i]);
    }
  }

  /**
   * With no refused path and a package step that succeeds, the project is created:
   * every step runs and the status is the success message.
   */
  lemma ReactSucceeds(d: Disk, o: Options)
    requires o.projectPath.Some? && d.faults == map[]
    ensures ReactAssembly(d, o, None).settled == Resolved(Status(true, SuccessMessage))
    ensures |ReactAssembly(d, o, None).started| == 13
    ensures ReactAssembly(d, o, None).started[12] == EntryStep
  {
    var pp := o.projectPath.value;
    var dirs := ScaffoldDirs(pp);
    ReactStepsReady(pp, o);
    ListedReached(dirs, dirs[0], 0);
    StepsReadyMonotone((set p | p in dirs), Reached(dirs), ReactSteps(pp, o, None));
    AssembleSucceeds(d, dirs, ReactSteps(pp, o, None));
    ReactStepOrder(pp, o, None);
  }

  /**
   * A failure status never comes from the utilities or the common components,
   * whose errors are swallowed: the last step started is one that propagates.
   */
  lemma ReactFailureIsPropagated(d: Disk, o: Options, packageFault: Option<string>)
    requires o.projectPath.Some?
    requires ReactAssembly(d, o, packageFault).settled.Resolved?
    requires !ReactAssembly(d, o, packageFault).settled.status.success
    ensures var started := ReactAssembly(d, o, packageFault).started;
      && started != []
      && started[|started| - 1] != UtilsStep
      && started[|started| - 1] != ComponentsStep
  {
    var pp := o.projectPath.value;
    var steps := ReactSteps(pp, o, packageFault);
    var k := FailedStep(d, ScaffoldDirs(pp), steps);
    assert steps[k] == ReactStep(pp, o, packageFault, ReactOrder[k]);
    assert ReactPolicy(steps[k].name) == Propagates;
  }

  /**
   * A failing `createPackageJson` ends the call at once: no emitter runs, the
   * status carries its message, and the filesystem is left as the batch left it.
   */
  lemma ReactPackageFailureStopsEverything(d: Disk, o: Options, m: string)
    requires o.projectPath.Some?
    requires RunOps(d, MkdirAll(ScaffoldDirs(o.projectPath.value))).outcome.Normal?
    ensures ReactAssembly(d, o, Some(m)).settled == Resolved(Status(false, FailurePrefix + m))
    ensures ReactAssembly(d, o, Some(m)).started == [PackageStep]
    ensures ReactAssembly(d, o, Some(m)).disk == RunOps(d, MkdirAll(ScaffoldDirs(o.projectPath.value))).disk
  {
    var pp := o.projectPath.value;
    var made := RunOps(d, MkdirAll(ScaffoldDirs(pp)));
    var steps := ReactSteps(pp, o, Some(m));
    assert steps[0] == ReactStep(pp, o, Some(m), PackageStep);
    StopSteps(made.disk, steps, Run(Thrown(Refused(m)), made.disk));
  }

  /** The entry files are written only after every other step returned. */
  lemma ReactEntryComesLast(d: Disk, o: Options, packageFault: Option<string>)
    requires o.projectPath.Some?
    requires EntryStep in ReactAssembly(d, o, packageFault).started
    ensures
      var pp := o.projectPath.value;
      RunSteps(RunOps(d, MkdirAll(ScaffoldDirs(pp))).disk, ReactSteps(pp, o, packageFault)[..12]).outcome.Normal?
  {
    var pp := o.projectPath.value;
    var steps := ReactSteps(pp, o, packageFault);
    ReactStepOrder(pp, o, packageFault);
    assert forall j :: 0 <= j < 13 && j != 12 ==> steps[j].name != steps[12].name;
    AssembleStartsInOrder(d, ScaffoldDirs(pp), steps, 12);
  }
}
