/**
 * What both assemblers share: awaited calls run one after another, the first one
 * that throws ends the sequence, and nothing already written is taken back. A
 * generation step is a list of filesystem calls plus its error policy: most steps
 * let an error propagate to the assembler, two React steps catch and log it.
 */
module Pipeline {
  import opened Config
  import opened Content
  import opened FileSystem

  /** The state only ever grows: files stay, directories stay, the write log is extended. */
  predicate Grows(d: Disk, e: Disk)
  {
    && d.files.Keys <= e.files.Keys
    && d.dirs <= e.dirs
    && |d.log| <= |e.log| && e.log[..|d.log|] == d.log
    && d.faults == e.faults && d.vendored == e.vendored
  }

  lemma GrowsTransitive(a: Disk, b: Disk, c: Disk)
    requires Grows(a, b) && Grows(b, c)
    ensures Grows(a, c)
  {
    assert c.log[..|b.log|][..|a.log|] == c.log[..|a.log|];
  }

  lemma PutGrows(d: Disk, p: Path, c: Content)
    ensures Grows(d, Put(d, p, c))
  {
    assert (d.log + [p])[..|d.log|] == d.log;
  }

  lemma ApplyGrows(d: Disk, op: Op)
    ensures Grows(d, Apply(d, op).disk)
  {
    match op
    case Mkdir(_) =>
    case Write(dir, file, c) => PutGrows(d, Join(dir, file), c);
    case CopyOrWrite(dir, file, asset, c) =>
      PutGrows(d, Join(dir, file), c);
      PutGrows(d, Join(dir, file), Vendored(asset));
    case Opaque(_) =>
  }

  /** Calls never delete anything, whether the sequence completes or stops early. */
  lemma {:induction false} RunOpsGrows(d: Disk, ops: seq<Op>)
    ensures Grows(d, RunOps(d, ops).disk)
    decreases |ops|
  {
    if ops != [] {
      var first := Apply(d, ops[0]);
      ApplyGrows(d, ops[0]);
      if first.outcome.Normal? {
        RunOpsGrows(first.disk, ops[1..]);
        GrowsTransitive(d, first.disk, RunOps(first.disk, ops[1..]).disk);
      }
    }
  }

  /** The paths a call sequence writes, in order, when every call returns. */
  function Writes(ops: seq<Op>): seq<Path>
  {
    if ops == [] then []
    else
      match ops[0]
      case Write(dir, file, _) => [Join(dir, file)] + Writes(ops[1..])
      case CopyOrWrite(dir, file, _, _) => [Join(dir, file)] + Writes(ops[1..])
      case _ => Writes(ops[1..])
  }

  lemma WritesAppend(a: seq<Op>, b: seq<Op>)
    ensures Writes(a + b) == Writes(a) + Writes(b)
  {
    if a != [] {
      assert (a + b)[1..] == a[1..] + b;
      WritesAppend(a[1..], b);
    } else {
      assert a + b == b;
    }
  }

  /** The path one call writes, if it writes one. */
  function Target(op: Op): (t: seq<Path>)
    ensures |t| <= 1
    ensures Writes([op]) == t
  {
    assert [op][1..] == [];
    match op
    case Write(dir, file, _) => [Join(dir, file)]
    case CopyOrWrite(dir, file, _, _) => [Join(dir, file)]
    case _ => []
  }

  /** The first call's path, then the rest's. */
  lemma WritesCons(ops: seq<Op>)
    requires ops != []
    ensures Writes(ops) == Target(ops[0]) + Writes(ops[1..])
  {
    if !ops[0].Write? && !ops[0].CopyOrWrite? {
      assert Target(ops[0]) + Writes(ops[1..]) == Writes(ops[1..]);
    }
  }

  /** One call before a sequence. */
  lemma WritesAfterOne(op: Op, rest: seq<Op>)
    ensures Writes([op] + rest) == Target(op) + Writes(rest)
  {
    WritesCons([op] + rest);
    assert ([op] + rest)[1..] == rest;
  }

  /** Short literal sequences, call by call. */
  lemma WritesOfTwo(a: Op, b: Op)
    ensures Writes([a, b]) == Target(a) + Target(b)
  {
    WritesCons([a, b]);
    assert [a, b][1..] == [b];
  }

  lemma WritesOfThree(a: Op, b: Op, c: Op)
    ensures Writes([a, b, c]) == Target(a) + (Target(b) + Target(c))
  {
    WritesCons([a, b, c]);
    assert [a, b, c][1..] == [b, c];
    WritesOfTwo(b, c);
  }

  lemma WritesOfFour(a: Op, b: Op, c: Op, e: Op)
    ensures Writes([a, b, c, e]) == Target(a) + (Target(b) + (Target(c) + Target(e)))
  {
    WritesCons([a, b, c, e]);
    assert [a, b, c, e][1..] == [b, c, e];
    WritesOfThree(b, c, e);
  }

  /** Running `a + b` runs `a`, then `b` from where `a` left off if `a` returned. */
  lemma {:induction false} RunOpsAppend(d: Disk, a: seq<Op>, b: seq<Op>)
    ensures RunOps(d, a + b) ==
      if RunOps(d, a).outcome.Thrown? then RunOps(d, a) else RunOps(RunOps(d, a).disk, b)
    decreases |a|
  {
    if a == [] {
      assert a + b == b;
    } else {
      assert (a + b)[0] == a[0];
      assert (a + b)[1..] == a[1..] + b;
      var first := Apply(d, a[0]);
      if first.outcome.Normal? {
        RunOpsAppend(first.disk, a[1..], b);
      }
    }
  }

  /** A completed sequence logged exactly its writes, in order, after what was there. */
  lemma {:induction false} CompletedLog(d: Disk, ops: seq<Op>)
    requires RunOps(d, ops).outcome.Normal?
    ensures RunOps(d, ops).disk.log == d.log + Writes(ops)
    decreases |ops|
  {
    if ops != [] {
      var first := Apply(d, ops[0]);
      CompletedLog(first.disk, ops[1..]);
    }
  }

  /** The directories the sequence asks to create. */
  function Made(ops: seq<Op>): set<Path>
  {
    if ops == [] then {}
    else (if ops[0].Mkdir? then {ops[0].dir} else {}) + Made(ops[1..])
  }

  lemma MadeCons(op: Op, rest: seq<Op>)
    ensures Made([op] + rest) == (if op.Mkdir? then {op.dir} else {}) + Made(rest)
  {
    assert ([op] + rest)[0] == op;
    assert ([op] + rest)[1..] == rest;
  }

  /** After a completed sequence every directory it asked for exists. */
  lemma {:induction false} CompletedMade(d: Disk, ops: seq<Op>)
    requires RunOps(d, ops).outcome.Normal?
    ensures Made(ops) <= RunOps(d, ops).disk.dirs
    decreases |ops|
  {
    if ops != [] {
      var first := Apply(d, ops[0]);
      CompletedMade(first.disk, ops[1..]);
      RunOpsGrows(first.disk, ops[1..]);
      if ops[0].Mkdir? {
        assert ops[0].dir in Prefixes(ops[0].dir);
      }
    }
  }

  /**
   * A sequence that throws stopped at its first throwing call `k`: everything
   * before `k` returned, and the final state is the state left by call `k`.
   */
  lemma {:induction false} StopsAtFirstThrow(d: Disk, ops: seq<Op>) returns (k: nat)
    requires RunOps(d, ops).outcome.Thrown?
    ensures k < |ops|
    ensures RunOps(d, ops[..k]).outcome.Normal?
    ensures Apply(RunOps(d, ops[..k]).disk, ops[k]) == RunOps(d, ops)
    decreases |ops|
  {
    var first := Apply(d, ops[0]);
    if first.outcome.Thrown? {
      k := 0;
      assert ops[..0] == [];
    } else {
      var j := StopsAtFirstThrow(first.disk, ops[1..]);
      k := j + 1;
      assert ops[..k][0] == ops[0];
      assert ops[..k][1..] == ops[1..][..j];
      assert ops[k] == ops[1..][j];
    }
  }

  /**
   * Every call can return: the directory each write needs exists by the time it
   * runs, given the directories `dirs` present at the start and the `Mkdir` calls
   * before it, and no unmodelled step is set to fail.
   */
  predicate Ready(dirs: set<Path>, ops: seq<Op>)
    decreases |ops|
  {
    ops == [] ||
    match ops[0]
    case Mkdir(dir) => Ready(dirs + Prefixes(dir), ops[1..])
    case Write(dir, _, _) => dir in dirs && Ready(dirs, ops[1..])
    case CopyOrWrite(dir, _, _, _) => dir in dirs && Ready(dirs, ops[1..])
    case Opaque(fault) => fault == None && Ready(dirs, ops[1..])
  }

  lemma {:induction false} ReadyMonotone(a: set<Path>, b: set<Path>, ops: seq<Op>)
    requires Ready(a, ops) && a <= b
    ensures Ready(b, ops)
    decreases |ops|
  {
    if ops != [] {
      match ops[0]
      case Mkdir(dir) => ReadyMonotone(a + Prefixes(dir), b + Prefixes(dir), ops[1..]);
      case Write(_, _, _) => ReadyMonotone(a, b, ops[1..]);
      case CopyOrWrite(_, _, _, _) => ReadyMonotone(a, b, ops[1..]);
      case Opaque(_) => ReadyMonotone(a, b, ops[1..]);
    }
  }

  /** The call needs no directory beyond `dirs`. */
  predicate Placed(dirs: set<Path>, op: Op)
  {
    match op
    case Write(dir, _, _) => dir in dirs
    case CopyOrWrite(dir, _, _, _) => dir in dirs
    case Opaque(fault) => fault == None
    case Mkdir(_) => true
  }

  /** Readiness of one call followed by the rest. */
  lemma ReadyCons(dirs: set<Path>, op: Op, rest: seq<Op>)
    ensures Ready(dirs, [op] + rest) <==>
      if op.Mkdir? then Ready(dirs + Prefixes(op.dir), rest)
      else if op.Opaque? then op.fault == None && Ready(dirs, rest)
      else op.dir in dirs && Ready(dirs, rest)
  {
    assert ([op] + rest)[0] == op;
    assert ([op] + rest)[1..] == rest;
  }

  /** Calls that each write into a directory of `dirs` are ready, whatever they create. */
  lemma {:induction false} ReadyWhenPlaced(dirs: set<Path>, ops: seq<Op>)
    requires forall i :: 0 <= i < |ops| ==> Placed(dirs, ops[i])
    ensures Ready(dirs, ops)
    decreases |ops|
  {
    if ops != [] {
      assert Placed(dirs, ops[0]);
      assert forall i :: 0 <= i < |ops[1..]| ==> Placed(dirs, ops[1..][i]) by {
        forall i | 0 <= i < |ops[1..]| ensures Placed(dirs, ops[1..][i]) {
          assert ops[1..][i] == ops[i + 1];
        }
      }
      ReadyWhenPlaced(dirs, ops[1..]);
      if ops[0].Mkdir? {
        ReadyMonotone(dirs, dirs + Prefixes(ops[0].dir), ops[1..]);
      }
    }
  }

  /** Writes into one existing directory are ready. */
  lemma {:induction false} ReadyWritesInto(dirs: set<Path>, dir: Path, ops: seq<Op>)
    requires dir in dirs
    requires forall op | op in ops :: op.Write? && op.dir == dir
    ensures Ready(dirs, ops)
    decreases |ops|
  {
    if ops != [] {
      assert ops[0] in ops;
      assert forall op | op in ops[1..] :: op in ops;
      ReadyWritesInto(dirs, dir, ops[1..]);
    }
  }

  /** Two sequences that are each ready from `dirs` are ready one after the other. */
  lemma {:induction false} ReadyAppend(dirs: set<Path>, a: seq<Op>, b: seq<Op>)
    requires Ready(dirs, a) && Ready(dirs, b)
    ensures Ready(dirs, a + b)
    decreases |a|
  {
    if a == [] {
      assert a + b == b;
    } else {
      assert (a + b)[0] == a[0];
      assert (a + b)[1..] == a[1..] + b;
      match a[0]
      case Mkdir(dir) =>
        ReadyMonotone(dirs, dirs + Prefixes(dir), b);
        ReadyAppend(dirs + Prefixes(dir), a[1..], b);
      case Write(_, _, _) => ReadyAppend(dirs, a[1..], b);
      case CopyOrWrite(_, _, _, _) => ReadyAppend(dirs, a[1..], b);
      case Opaque(_) => ReadyAppend(dirs, a[1..], b);
    }
  }

  /** When the OS refuses nothing and directories are in place, every call returns. */
  lemma {:induction false} ReadyRuns(d: Disk, ops: seq<Op>)
    requires d.faults == map[]
    requires Ready(d.dirs, ops)
    ensures RunOps(d, ops).outcome.Normal?
    decreases |ops|
  {
    if ops != [] {
      var first := Apply(d, ops[0]);
      assert first.outcome.Normal? by {
        match ops[0]
        case Mkdir(_) =>
        case Write(dir, file, _) => assert Parent(Join(dir, file)) == dir;
        case CopyOrWrite(dir, file, _, _) => assert Parent(Join(dir, file)) == dir;
        case Opaque(_) =>
      }
      ApplyGrows(d, ops[0]);
      assert Ready(first.disk.dirs, ops[1..]) by {
        match ops[0]
        case Mkdir(dir) => ReadyMonotone(d.dirs + Prefixes(dir), first.disk.dirs, ops[1..]);
        case Write(_, _, _) => ReadyMonotone(d.dirs, first.disk.dirs, ops[1..]);
        case CopyOrWrite(_, _, _, _) => ReadyMonotone(d.dirs, first.disk.dirs, ops[1..]);
        case Opaque(_) => ReadyMonotone(d.dirs, first.disk.dirs, ops[1..]);
      }
      ReadyRuns(first.disk, ops[1..]);
    }
  }

  /**
   * A call of the TypeScript track: it writes a `ts`/`tsx` module, a `tsconfig`
   * file, or a text chosen on the `isTS` branch.
   */
  predicate TypeScriptWrite(op: Op)
  {
    match op
    case Write(_, file, c) =>
      file.ext in {"ts", "tsx"} || TsContent(c) || (file.ext == "json" && file.base in {"tsconfig", "tsconfig.node"})
    case CopyOrWrite(_, file, _, c) => file.ext in {"ts", "tsx"} || TsContent(c)
    case _ => false
  }

  /** No call of the sequence belongs to the TypeScript track. */
  predicate NoTypeScript(ops: seq<Op>)
  {
    forall i :: 0 <= i < |ops| ==> !TypeScriptWrite(ops[i])
  }

  lemma NoTypeScriptAppend(a: seq<Op>, b: seq<Op>)
    requires NoTypeScript(a) && NoTypeScript(b)
    ensures NoTypeScript(a + b)
  {
    assert forall i :: 0 <= i < |a + b| ==> (a + b)[i] == if i < |a| then a[i] else b[i - |a|];
  }

  // ---------------------------------------------------------------------------
  // The assemblers' directory batch

  /** One recursive `mkdir` per directory, in list order. */
  function MkdirAll(dirs: seq<Path>): (ops: seq<Op>)
    ensures |ops| == |dirs| && forall i :: 0 <= i < |dirs| ==> ops[i] == Mkdir(dirs[i])
  {
    if dirs == [] then [] else [Mkdir(dirs[0])] + MkdirAll(dirs[1..])
  }

  /**
   * `Promise.all` over recursive `mkdir` calls. The calls are independent and each
   * one succeeds or fails on its own path, so they are run one after the other; the
   * first refusal rejects the batch.
   */
  method MakeDirectories(fs: FileSystem, dirs: seq<Path>) returns (out: Outcome)
    modifies fs
    ensures Run(out, fs.Snapshot()) == RunOps(old(fs.Snapshot()), MkdirAll(dirs))
  {
    var i := 0;
    while i < |dirs|
      invariant 0 <= i <= |dirs|
      invariant RunOps(old(fs.Snapshot()), MkdirAll(dirs)) == RunOps(fs.Snapshot(), MkdirAll(dirs[i..]))
    {
      ghost var before := fs.Snapshot();
      assert dirs[i..][1..] == dirs[i + 1..];
      out := fs.MakeDirectory(dirs[i]);
      if out.Thrown? {
        return;
      }
      i := i + 1;
    }
    assert dirs[i..] == [];
    out := Normal;
  }

  /** Every directory of the batch is asked for, and nothing else. */
  lemma {:induction false} MadeAll(dirs: seq<Path>)
    ensures Made(MkdirAll(dirs)) == set p | p in dirs
  {
    if dirs != [] {
      MadeAll(dirs[1..]);
      assert MkdirAll(dirs)[1..] == MkdirAll(dirs[1..]);
      assert forall p :: p in dirs <==> p == dirs[0] || p in dirs[1..];
    }
  }

  /** After a batch and whatever follows it complete, every directory of the batch exists. */
  lemma BatchDirsRemain(d: Disk, dirs: seq<Path>, tail: seq<Op>)
    requires RunOps(d, MkdirAll(dirs) + tail).outcome.Normal?
    ensures forall p :: p in dirs ==> p in RunOps(d, MkdirAll(dirs) + tail).disk.dirs
  {
    var mid := RunOps(d, MkdirAll(dirs));
    RunOpsAppend(d, MkdirAll(dirs), tail);
    CompletedMade(d, MkdirAll(dirs));
    MadeAll(dirs);
    RunOpsGrows(mid.disk, tail);
  }

  /** Every directory a recursive batch creates: each listed path and its ancestors. */
  function Reached(dirs: seq<Path>): (r: set<Path>)
    ensures forall i :: 0 <= i < |dirs| ==> Prefixes(dirs[i]) <= r
  {
    if dirs == [] then {} else Prefixes(dirs[0]) + Reached(dirs[1..])
  }

  /** The listed directories are among those reached, and so is any ancestor of one. */
  lemma ListedReached(dirs: seq<Path>, q: Path, i: nat)
    requires i < |dirs| && |q| <= |dirs[i]| && q == dirs[i][..|q|]
    ensures (set p | p in dirs) <= Reached(dirs)
    ensures q in Reached(dirs)
  {
    assert q in Prefixes(dirs[i]);
    forall p | p in dirs
      ensures p in Reached(dirs)
    {
      var j :| 0 <= j < |dirs| && dirs[j] == p;
      assert p in Prefixes(dirs[j]);
    }
  }

  /** After a completed batch every listed directory exists, and so does each ancestor. */
  lemma {:induction false} CompletedReached(d: Disk, dirs: seq<Path>)
    requires RunOps(d, MkdirAll(dirs)).outcome.Normal?
    ensures Reached(dirs) <= RunOps(d, MkdirAll(dirs)).disk.dirs
    decreases |dirs|
  {
    if dirs != [] {
      var ops := MkdirAll(dirs);
      assert ops[1..] == MkdirAll(dirs[1..]);
      var first := Apply(d, ops[0]);
      CompletedReached(first.disk, dirs[1..]);
      RunOpsGrows(first.disk, ops[1..]);
    }
  }

  // ---------------------------------------------------------------------------
  // Generation steps

  datatype Policy =
    | Propagates   // no try, or a catch that rethrows
    | Swallows     // a catch that only logs

  datatype StepName =
    | PackageStep | UtilsStep | ServicesStep | StoreStep | HooksStep | ContextStep
    | ComponentsStep | LayoutsStep | RoutesStep | LoginStep | DashboardStep
    | LayoutAndComponentsStep | EntryStep | RouterStep | ApiStep

  datatype Step = Step(name: StepName, policy: Policy, ops: seq<Op>)

  /** One awaited step: its calls, then its catch clause if it has a swallowing one. */
  function RunStep(d: Disk, st: Step): (r: Run)
    ensures r.disk == RunOps(d, st.ops).disk
    ensures st.policy == Swallows ==> r.outcome == Normal
    ensures st.policy == Propagates ==> r == RunOps(d, st.ops)
  {
    var r := RunOps(d, st.ops);
    if st.policy == Swallows then Run(Normal, r.disk) else r
  }

  /** The run of a step list, with the names of the steps that started, in order. */
  datatype Progress = Progress(outcome: Outcome, disk: Disk, started: seq<StepName>)

  function RunSteps(d: Disk, steps: seq<Step>): Progress
    decreases |steps|
  {
    if steps == [] then Progress(Normal, d, [])
    else
      var r := RunStep(d, steps[0]);
      if r.outcome.Thrown? then Progress(r.outcome, r.disk, [steps[0].name])
      else
        var rest := RunSteps(r.disk, steps[1..]);
        Progress(rest.outcome, rest.disk, [steps[0].name] + rest.started)
  }

  function Names(steps: seq<Step>): (ns: seq<StepName>)
    ensures |ns| == |steps| && forall i :: 0 <= i < |steps| ==> ns[i] == steps[i].name
  {
    if steps == [] then [] else [steps[0].name] + Names(steps[1..])
  }

  lemma {:induction false} RunStepsGrows(d: Disk, steps: seq<Step>)
    ensures Grows(d, RunSteps(d, steps).disk)
    decreases |steps|
  {
    if steps != [] {
      var r := RunStep(d, steps[0]);
      RunOpsGrows(d, steps[0].ops);
      if r.outcome.Normal? {
        RunStepsGrows(r.disk, steps[1..]);
        GrowsTransitive(d, r.disk, RunSteps(r.disk, steps[1..]).disk);
      }
    }
  }

  lemma NamesCons(steps: seq<Step>, n: nat)
    requires n < |steps|
    ensures Names(steps[..n + 1]) == [steps[0].name] + Names(steps[1..][..n])
  {
    assert steps[..n + 1][0] == steps[0];
    assert steps[..n + 1][1..] == steps[1..][..n];
  }

  /**
   * The steps that started are a prefix of the list, and all of them when the
   * run returns.
   */
  lemma {:induction false} StartedPrefix(d: Disk, steps: seq<Step>)
    ensures |RunSteps(d, steps).started| <= |steps|
    ensures RunSteps(d, steps).started == Names(steps[..|RunSteps(d, steps).started|])
    ensures RunSteps(d, steps).outcome.Normal? ==> RunSteps(d, steps).started == Names(steps)
    decreases |steps|
  {
    if steps == [] {
      assert steps[..0] == [];
    } else {
      var r := RunStep(d, steps[0]);
      if r.outcome.Thrown? {
        assert steps[..1] == [steps[0]];
      } else {
        StartedPrefix(r.disk, steps[1..]);
        var n := |RunSteps(r.disk, steps[1..]).started|;
        NamesCons(steps, n);
        assert steps[1..][..|steps| - 1] == steps[1..];
        assert steps[..|steps|] == steps;
      }
    }
  }

  /**
   * A run that throws stopped in its last started step `k`: a propagating step
   * that threw that very error from the state every earlier step left, all of
   * which returned.
   */
  lemma {:induction false} StopsAtThrowingStep(d: Disk, steps: seq<Step>) returns (k: nat)
    requires RunSteps(d, steps).outcome.Thrown?
    ensures k < |steps| && |RunSteps(d, steps).started| == k + 1
    ensures steps[k].policy == Propagates
    ensures RunSteps(d, steps[..k]).outcome.Normal?
    ensures RunStep(RunSteps(d, steps[..k]).disk, steps[k])
         == Run(RunSteps(d, steps).outcome, RunSteps(d, steps).disk)
    decreases |steps|
  {
    var r := RunStep(d, steps[0]);
    if r.outcome.Thrown? {
      k := 0;
      assert steps[..0] == [];
    } else {
      var j := StopsAtThrowingStep(r.disk, steps[1..]);
      k := j + 1;
      assert steps[..k][0] == steps[0];
      assert steps[..k][1..] == steps[1..][..j];
      assert steps[k] == steps[1..][j];
    }
  }

  /** A step list in which every step's directories are in place once `base` exists. */
  predicate StepsReady(base: set<Path>, steps: seq<Step>)
  {
    forall i :: 0 <= i < |steps| ==> Ready(base, steps[i].ops)
  }

  lemma StepsReadyMonotone(a: set<Path>, b: set<Path>, steps: seq<Step>)
    requires StepsReady(a, steps) && a <= b
    ensures StepsReady(b, steps)
  {
    forall i | 0 <= i < |steps|
      ensures Ready(b, steps[i].ops)
    {
      ReadyMonotone(a, b, steps[i].ops);
    }
  }

  /** With no refused path and every step ready, the whole list runs to the end. */
  lemma {:induction false} ReadyStepsComplete(d: Disk, base: set<Path>, steps: seq<Step>)
    requires d.faults == map[] && base <= d.dirs
    requires StepsReady(base, steps)
    ensures RunSteps(d, steps).outcome.Normal?
    ensures RunSteps(d, steps).started == Names(steps)
    decreases |steps|
  {
    if steps != [] {
      ReadyMonotone(base, d.dirs, steps[0].ops);
      ReadyRuns(d, steps[0].ops);
      var r := RunStep(d, steps[0]);
      RunOpsGrows(d, steps[0].ops);
      assert StepsReady(base, steps[1..]) by {
        forall i | 0 <= i < |steps[1..]|
          ensures Ready(base, steps[1..][i].ops)
        {
          assert steps[1..][i] == steps[i + 1];
        }
      }
      ReadyStepsComplete(r.disk, base, steps[1..]);
    }
  }

  // ---------------------------------------------------------------------------
  // The assemblers' result object

  const SuccessMessage: string := "项目创建成功"
  const FailurePrefix: string := "项目创建失败："

  /** `{ success, message }` as both assemblers build it from the try/catch. */
  datatype Status = Status(success: bool, message: string)

  function StatusOf(outcome: Outcome): (s: Status)
    ensures s.success <==> outcome.Normal?
    ensures outcome.Normal? ==> s.message == SuccessMessage
    ensures outcome.Thrown? ==> s.message == FailurePrefix + ErrorMessage(outcome.error)
  {
    if outcome.Normal? then Status(true, SuccessMessage)
    else Status(false, FailurePrefix + ErrorMessage(outcome.error))
  }

  /** How an assembler call settles: it resolves with a status object, or it rejects. */
  datatype Settled = Resolved(status: Status) | Rejected(error: FsError)

  // ---------------------------------------------------------------------------
  // An assembler: the directory batch outside the `try`, the steps inside it

  /** The settled result, the final filesystem, and the steps that started. */
  datatype Assembly = Assembly(settled: Settled, disk: Disk, started: seq<StepName>)

  function Assemble(d: Disk, dirs: seq<Path>, steps: seq<Step>): (a: Assembly)
    ensures a.settled.Rejected? ==> a.started == []
  {
    var made := RunOps(d, MkdirAll(dirs));
    if made.outcome.Thrown? then Assembly(Rejected(made.outcome.error), made.disk, [])
    else
      var run := RunSteps(made.disk, steps);
      Assembly(Resolved(StatusOf(run.outcome)), run.disk, run.started)
  }

  /** Nothing is ever rolled back: whatever happens, the filesystem only grew. */
  lemma AssembleGrows(d: Disk, dirs: seq<Path>, steps: seq<Step>)
    ensures Grows(d, Assemble(d, dirs, steps).disk)
  {
    var made := RunOps(d, MkdirAll(dirs));
    RunOpsGrows(d, MkdirAll(dirs));
    if made.outcome.Normal? {
      RunStepsGrows(made.disk, steps);
      GrowsTransitive(d, made.disk, RunSteps(made.disk, steps).disk);
    }
  }

  /**
   * The call rejects exactly when a directory of the batch is refused, and then no
   * step starts; otherwise every directory of the batch exists before the first step.
   */
  lemma AssembleRejects(d: Disk, dirs: seq<Path>, steps: seq<Step>)
    ensures Assemble(d, dirs, steps).settled.Rejected? <==> RunOps(d, MkdirAll(dirs)).outcome.Thrown?
    ensures RunOps(d, MkdirAll(dirs)).outcome.Normal? ==>
              forall p :: p in dirs ==> p in RunOps(d, MkdirAll(dirs)).disk.dirs
  {
    if RunOps(d, MkdirAll(dirs)).outcome.Normal? {
      CompletedMade(d, MkdirAll(dirs));
      MadeAll(dirs);
    }
  }

  /**
   * A resolved failure names the step `k` that threw: a propagating step, the last
   * one started, run on the state every earlier step left after returning; the
   * message is the fixed prefix followed by that error's message.
   */
  lemma AssembleFails(d: Disk, dirs: seq<Path>, steps: seq<Step>) returns (k: nat)
    requires Assemble(d, dirs, steps).settled.Resolved?
    requires !Assemble(d, dirs, steps).settled.status.success
    ensures k < |steps| && steps[k].policy == Propagates
    ensures Assemble(d, dirs, steps).started == Names(steps[..k + 1])
    ensures
      var before := RunSteps(RunOps(d, MkdirAll(dirs)).disk, steps[..k]);
      var failed := RunStep(before.disk, steps[k]);
      && before.outcome.Normal?
      && failed.outcome.Thrown?
      && failed.disk == Assemble(d, dirs, steps).disk
      && Assemble(d, dirs, steps).settled.status.message == FailurePrefix + ErrorMessage(failed.outcome.error)
  {
    var made := RunOps(d, MkdirAll(dirs));
    k := StopsAtThrowingStep(made.disk, steps);
    StartedPrefix(made.disk, steps);
  }

  /** A failure status names a propagating step: the last one that started. */
  lemma FailedStep(d: Disk, dirs: seq<Path>, steps: seq<Step>) returns (k: nat)
    requires Assemble(d, dirs, steps).settled.Resolved?
    requires !Assemble(d, dirs, steps).settled.status.success
    ensures var started := Assemble(d, dirs, steps).started;
      k < |steps| && steps[k].policy == Propagates && |started| == k + 1 && started[k] == steps[k].name
  {
    k := AssembleFails(d, dirs, steps);
    assert Names(steps[..k + 1])[k] == steps[..k + 1][k].name;
  }

  /** With no refused path and every step ready once the batch exists, the call reports success. */
  lemma AssembleSucceeds(d: Disk, dirs: seq<Path>, steps: seq<Step>)
    requires d.faults == map[]
    requires StepsReady(Reached(dirs), steps)
    ensures Assemble(d, dirs, steps).settled == Resolved(Status(true, SuccessMessage))
    ensures Assemble(d, dirs, steps).started == Names(steps)
  {
    var made := RunOps(d, MkdirAll(dirs));
    ReadyWhenPlaced(d.dirs, MkdirAll(dirs));
    ReadyRuns(d, MkdirAll(dirs));
    CompletedReached(d, dirs);
    RunOpsGrows(d, MkdirAll(dirs));
    ReadyStepsComplete(made.disk, Reached(dirs), steps);
  }

  /** A step runs only if every step before it returned (or had its error swallowed). */
  lemma AssembleStartsInOrder(d: Disk, dirs: seq<Path>, steps: seq<Step>, k: nat)
    requires k < |steps| && steps[k].name in Assemble(d, dirs, steps).started
    requires forall j :: 0 <= j < |steps| && j != k ==> steps[j].name != steps[k].name
    ensures RunSteps(RunOps(d, MkdirAll(dirs)).disk, steps[..k]).outcome.Normal?
  {
    var made := RunOps(d, MkdirAll(dirs));
    StartedPrefix(made.disk, steps);
    var run := RunSteps(made.disk, steps);
    var n := |run.started|;
    assert steps[k].name in Names(steps[..n]);
    var i :| 0 <= i < n && Names(steps[..n])[i] == steps[k].name;
    assert steps[..n][i] == steps[i];
    assert k < n;
    if run.outcome.Thrown? {
      var m := StopsAtThrowingStep(made.disk, steps);
      PrefixRunsNormally(made.disk, steps, m, k);
    } else {
      PrefixRunsNormally(made.disk, steps, |steps|, k);
    }
  }

  /** If the first `m` steps return, so do the first `k <= m`. */
  lemma {:induction false} PrefixRunsNormally(d: Disk, steps: seq<Step>, m: nat, k: nat)
    requires k <= m <= |steps|
    requires m == |steps| ==> RunSteps(d, steps).outcome.Normal?
    requires m < |steps| ==> RunSteps(d, steps[..m]).outcome.Normal?
    ensures RunSteps(d, steps[..k]).outcome.Normal?
    decreases k
  {
    assert m == |steps| ==> steps[..m] == steps;
    if k > 0 {
      var r := RunStep(d, steps[0]);
      assert steps[..m][0] == steps[0] && steps[..k][0] == steps[0];
      assert r.outcome.Normal?;
      assert steps[..m][1..] == steps[1..][..m - 1];
      assert steps[..k][1..] == steps[1..][..k - 1];
      PrefixRunsNormally(r.disk, steps[1..], m - 1, k - 1);
      assert m - 1 == |steps[1..]| ==> steps[1..][..m - 1] == steps[1..];
    } else {
      assert steps[..0] == [];
    }
  }

  // ---------------------------------------------------------------------------
  // Helpers for proving straight-line emitters against their call lists

  /** After a call that returned, the rest of the sequence decides the result. */
  lemma Continue(d: Disk, ops: seq<Op>, e: Disk)
    requires ops != [] && Apply(d, ops[0]) == Run(Normal, e)
    ensures RunOps(d, ops) == RunOps(e, ops[1..])
  {
  }

  /** Running two lists of steps one after the other runs their concatenation. */
  lemma {:induction false} RunStepsAppend(d: Disk, a: seq<Step>, b: seq<Step>)
    ensures RunSteps(d, a + b).outcome ==
      if RunSteps(d, a).outcome.Thrown? then RunSteps(d, a).outcome else RunSteps(RunSteps(d, a).disk, b).outcome
    ensures RunSteps(d, a + b).disk ==
      if RunSteps(d, a).outcome.Thrown? then RunSteps(d, a).disk else RunSteps(RunSteps(d, a).disk, b).disk
    decreases |a|
  {
    if a == [] {
      assert a + b == b;
    } else {
      assert (a + b)[0] == a[0];
      assert (a + b)[1..] == a[1..] + b;
      var first := RunStep(d, a[0]);
      if first.outcome.Normal? {
        RunStepsAppend(first.disk, a[1..], b);
      }
    }
  }

  /** Running a slice of steps: its first part, then the rest if the first part returned. */
  lemma RunStepsCut(d: Disk, s: seq<Step>, i: nat, j: nat, k: nat)
    requires i <= j <= k <= |s|
    ensures RunSteps(d, s[i..k]).outcome ==
      if RunSteps(d, s[i..j]).outcome.Thrown? then RunSteps(d, s[i..j]).outcome
      else RunSteps(RunSteps(d, s[i..j]).disk, s[j..k]).outcome
    ensures RunSteps(d, s[i..k]).disk ==
      if RunSteps(d, s[i..j]).outcome.Thrown? then RunSteps(d, s[i..j]).disk
      else RunSteps(RunSteps(d, s[i..j]).disk, s[j..k]).disk
  {
    assert s[i..k] == s[i..j] + s[j..k];
    RunStepsAppend(d, s[i..j], s[j..k]);
  }

  /** After a step that returned, the rest of the list decides the result. */
  lemma ContinueSteps(d: Disk, steps: seq<Step>, e: Disk)
    requires steps != [] && RunStep(d, steps[0]) == Run(Normal, e)
    ensures RunSteps(d, steps).outcome == RunSteps(e, steps[1..]).outcome
    ensures RunSteps(d, steps).disk == RunSteps(e, steps[1..]).disk
  {
  }

  /** After a step that threw, the list's result is that step's. */
  lemma StopSteps(d: Disk, steps: seq<Step>, r: Run)
    requires steps != [] && RunStep(d, steps[0]) == r && r.outcome.Thrown?
    ensures Run(RunSteps(d, steps).outcome, RunSteps(d, steps).disk) == r
  {
  }

  /** After a sub-sequence that returned, the calls that follow it decide the result. */
  lemma ContinueWith(d: Disk, a: seq<Op>, b: seq<Op>, e: Disk)
    requires RunOps(d, a) == Run(Normal, e)
    ensures RunOps(d, a + b) == RunOps(e, b)
  {
    RunOpsAppend(d, a, b);
  }

  /** After a sub-sequence that threw, the calls that follow it never run. */
  lemma StopWith(d: Disk, a: seq<Op>, b: seq<Op>, r: Run)
    requires RunOps(d, a) == r && r.outcome.Thrown?
    ensures RunOps(d, a + b) == r
  {
    RunOpsAppend(d, a, b);
  }

  /** One call, then the rest if it returned. */
  lemma RunOpsCons(d: Disk, op: Op, rest: seq<Op>)
    ensures RunOps(d, [op] + rest) ==
      if Apply(d, op).outcome.Thrown? then Apply(d, op) else RunOps(Apply(d, op).disk, rest)
  {
    assert ([op] + rest)[0] == op;
    assert ([op] + rest)[1..] == rest;
  }

  /** Two disks that differ at most in their logs. */
  predicate SameButLog(a: Disk, b: Disk)
  {
    a.files == b.files && a.dirs == b.dirs && a.faults == b.faults && a.vendored == b.vendored
  }

  /** The log is never consulted: disks that differ only there run every call sequence alike. */
  lemma {:induction false} RunOpsIgnoresLog(a: Disk, b: Disk, ops: seq<Op>)
    requires SameButLog(a, b)
    ensures RunOps(a, ops).outcome == RunOps(b, ops).outcome
    ensures SameButLog(RunOps(a, ops).disk, RunOps(b, ops).disk)
    decreases |ops|
  {
    if ops != [] {
      var ra, rb := Apply(a, ops[0]), Apply(b, ops[0]);
      assert ra.outcome == rb.outcome && SameButLog(ra.disk, rb.disk);
      if ra.outcome.Normal? {
        RunOpsIgnoresLog(ra.disk, rb.disk, ops[1..]);
      }
    }
  }

  /** The last call's result is the sequence's. */
  lemma Last(d: Disk, ops: seq<Op>, r: Run)
    requires |ops| == 1 && Apply(d, ops[0]) == r
    ensures RunOps(d, ops) == r
  {
  }

  /** After a call that threw, the sequence's result is that call's. */
  lemma Stop(d: Disk, ops: seq<Op>, r: Run)
    requires ops != [] && Apply(d, ops[0]) == r && r.outcome.Thrown?
    ensures RunOps(d, ops) == r
  {
  }
}
