/**
 * The part of the filesystem the generator touches: files (path to content),
 * directories, and the order in which files were written. Which operations the
 * operating system refuses is not something the generator decides, so it is an
 * oracle fixed when the filesystem is created: `faults` maps each refused path to
 * the message of the error the refusal raises, and `vendored` names the assets
 * that can be copied from installed dependencies.
 */
module FileSystem {
  import opened Config
  import opened Content

  /** A file name as the emitters build it: `${base}.${ext}`. */
  datatype FileName = FileName(base: string, ext: string)

  function Render(n: FileName): (s: string)
    ensures |s| == |n.base| + 1 + |n.ext|
  {
    n.base + "." + n.ext
  }

  /** `path.join(dir, name)`. */
  function Join(dir: Path, n: FileName): (p: Path)
    ensures |p| > 0 && p[..|p| - 1] == dir && p[|p| - 1] == Render(n)
  {
    dir + [Render(n)]
  }

  /** `path.join(p, '..')`; the root is its own parent. */
  function Parent(p: Path): (q: Path)
    ensures p != [] ==> q + [p[|p| - 1]] == p
    ensures p == [] ==> q == []
  {
    if p == [] then [] else p[..|p| - 1]
  }

  /** `path.join(dir, '../' + name)`: the entry `name` next to `dir`. */
  function Beside(dir: Path, name: string): Path
  {
    Parent(dir) + [name]
  }

  /** Every directory a recursive `mkdir` of `p` leaves in place: `p` and its ancestors. */
  function Prefixes(p: Path): (s: set<Path>)
    ensures p in s && [] in s
    ensures forall q :: q in s ==> |q| <= |p| && q == p[..|q|]
  {
    assert p[..|p|] == p;
    assert p[..0] == [];
    set k | 0 <= k <= |p| :: p[..k]
  }

  datatype FsError =
    | Refused(message: string)        // the OS refused the operation on that path
    | NoSuchDirectory(path: Path)     // `writeFile` into a directory that does not exist
    | MissingSource(asset: string)    // `copyFile` from a file that is not installed

  /** Render a path the way Node prints it in error messages. */
  function PathText(p: Path): string
  {
    if p == [] then "" else PathText(p[..|p| - 1]) + "/" + p[|p| - 1]
  }

  /** `error.message`. */
  function ErrorMessage(e: FsError): string
  {
    match e
    case Refused(m) => m
    case NoSuchDirectory(p) => "ENOENT: no such file or directory, open '" + PathText(p) + "'"
    case MissingSource(a) => "ENOENT: no such file or directory, copyfile '" + a + "'"
  }

  /** How an awaited call settles: it returns, or it throws (its promise rejects). */
  datatype Outcome = Normal | Thrown(error: FsError)

  /** A value snapshot of the filesystem and its oracle. */
  datatype Disk = Disk(
    files: map<Path, Content>,
    dirs: set<Path>,
    log: seq<Path>,
    faults: map<Path, string>,
    vendored: set<string>)

  /** One filesystem call an emitter makes. */
  datatype Op =
    | Mkdir(dir: Path)                                                  // mkdir / ensureDir, recursive
    | Write(dir: Path, file: FileName, content: Content)                 // writeFile(join(dir, file))
    | CopyOrWrite(dir: Path, file: FileName, asset: string, fallback: Content)  // copyFile(...).catch(writeFile)
    | Opaque(fault: Option<string>)                                      // a step whose writes are not modelled

  datatype Run = Run(outcome: Outcome, disk: Disk)

  function Put(d: Disk, p: Path, c: Content): (r: Disk)
    ensures r.files == d.files[p := c] && r.log == d.log + [p]
    ensures r.dirs == d.dirs && r.faults == d.faults && r.vendored == d.vendored
  {
    d.(files := d.files[p := c], log := d.log + [p])
  }

  /** `fs.writeFile(p, c)`: refused, or missing its directory, or done. */
  function WriteAt(d: Disk, p: Path, c: Content): (r: Run)
    ensures r.outcome.Normal? <==> p !in d.faults && Parent(p) in d.dirs
    ensures r.outcome.Normal? ==> r.disk == Put(d, p, c)
    ensures r.outcome.Thrown? ==> r.disk == d
  {
    if p in d.faults then Run(Thrown(Refused(d.faults[p])), d)
    else if Parent(p) !in d.dirs then Run(Thrown(NoSuchDirectory(p)), d)
    else Run(Normal, Put(d, p, c))
  }

  /** `fs.copyFile(asset, p)`. */
  function CopyAt(d: Disk, asset: string, p: Path): (r: Run)
    ensures r.outcome.Normal? <==> asset in d.vendored && p !in d.faults && Parent(p) in d.dirs
    ensures r.outcome.Normal? ==> r.disk == Put(d, p, Vendored(asset))
    ensures r.outcome.Thrown? ==> r.disk == d
  {
    if asset !in d.vendored then Run(Thrown(MissingSource(asset)), d)
    else WriteAt(d, p, Vendored(asset))
  }

  /**
   * A recursive `mkdir` of `p` creates the missing ancestors of `p` from the root down:
   * the depth, from `k` on, of the first one it would have to create and the operating
   * system refuses, if any.
   */
  function FirstRefused(d: Disk, p: Path, k: nat): (r: Option<nat>)
    requires k <= |p|
    ensures r.Some? ==> k <= r.value <= |p| && p[..r.value] !in d.dirs && p[..r.value] in d.faults
    ensures r.Some? ==> forall j :: k <= j < r.value ==> p[..j] in d.dirs || p[..j] !in d.faults
    ensures r.None? ==> forall j :: k <= j <= |p| ==> p[..j] in d.dirs || p[..j] !in d.faults
    decreases |p| - k
  {
    if p[..k] !in d.dirs && p[..k] in d.faults then Some(k)
    else if k == |p| then None
    else FirstRefused(d, p, k + 1)
  }

  /** The ancestors of `p` shallower than depth `k`: what a recursive `mkdir` refused at depth `k` has made. */
  function Above(p: Path, k: nat): (s: set<Path>)
    requires k <= |p|
    ensures forall q :: q in s <==> |q| < k && q == p[..|q|]
  {
    set j | 0 <= j < k :: p[..j]
  }

  function Apply(d: Disk, op: Op): (r: Run)
  {
    match op
    case Mkdir(dir) =>
      if dir in d.dirs then Run(Normal, d.(dirs := d.dirs + Prefixes(dir)))
      else
        var refused := FirstRefused(d, dir, 0);
        if refused.Some? then
          Run(Thrown(Refused(d.faults[dir[..refused.value]])), d.(dirs := d.dirs + Above(dir, refused.value)))
        else Run(Normal, d.(dirs := d.dirs + Prefixes(dir)))
    case Write(dir, file, c) => WriteAt(d, Join(dir, file), c)
    case CopyOrWrite(dir, file, asset, fallback) =>
      var copied := CopyAt(d, asset, Join(dir, file));
      if copied.outcome.Normal? then copied else WriteAt(d, Join(dir, file), fallback)
    case Opaque(fault) =>
      if fault.Some? then Run(Thrown(Refused(fault.value)), d) else Run(Normal, d)
  }

  /**
   * A recursive `mkdir` succeeds exactly when the directory already exists or none of
   * its missing ancestors is refused; otherwise it throws the refusal of the first
   * missing ancestor from the root down, keeping the ancestors it made before it.
   */
  lemma MkdirOutcome(d: Disk, dir: Path)
    ensures Apply(d, Mkdir(dir)).outcome.Normal? <==>
      dir in d.dirs || forall q :: q in Prefixes(dir) ==> q in d.dirs || q !in d.faults
    ensures Apply(d, Mkdir(dir)).outcome.Normal? ==> Apply(d, Mkdir(dir)).disk == d.(dirs := d.dirs + Prefixes(dir))
    ensures Apply(d, Mkdir(dir)).outcome.Thrown? ==>
      exists k :: 0 <= k <= |dir| && dir[..k] !in d.dirs && dir[..k] in d.faults
        && Apply(d, Mkdir(dir)).outcome.error == Refused(d.faults[dir[..k]])
        && Apply(d, Mkdir(dir)).disk == d.(dirs := d.dirs + Above(dir, k))
  {
    if dir !in d.dirs {
      var refused := FirstRefused(d, dir, 0);
      if refused.Some? {
        var k := refused.value;
        assert dir[..k] in Prefixes(dir);
      } else {
        forall q | q in Prefixes(dir)
          ensures q in d.dirs || q !in d.faults
        {
          assert q == dir[..|q|];
        }
      }
    }
  }

  /** A sequence of awaited calls: the first one that throws ends it. */
  function RunOps(d: Disk, ops: seq<Op>): Run
    decreases |ops|
  {
    if ops == [] then Run(Normal, d)
    else
      var first := Apply(d, ops[0]);
      if first.outcome.Thrown? then first else RunOps(first.disk, ops[1..])
  }

  /** The filesystem the generator runs against. */
  class FileSystem {
    var files: map<Path, Content>
    var dirs: set<Path>
    var log: seq<Path>
    const faults: map<Path, string>
    const vendored: set<string>

    function Snapshot(): Disk
      reads this
    {
      Disk(files, dirs, log, faults, vendored)
    }

    constructor (files0: map<Path, Content>, dirs0: set<Path>, faults0: map<Path, string>, vendored0: set<string>)
      ensures Snapshot() == Disk(files0, dirs0, [], faults0, vendored0)
    {
      files, dirs, log := files0, dirs0, [];
      faults, vendored := faults0, vendored0;
    }

    /** `fs.mkdir(dir, { recursive: true })` and `fs.ensureDir(dir)`. */
    method MakeDirectory(dir: Path) returns (out: Outcome)
      modifies this
      ensures Run(out, Snapshot()) == Apply(old(Snapshot()), Mkdir(dir))
    {
      if dir in dirs {
        dirs := dirs + Prefixes(dir);
        return Normal;
      }
      ghost var d := Snapshot();
      var k := 0;
      while k <= |dir| && (dir[..k] in dirs || dir[..k] !in faults)
        invariant k <= |dir| + 1 && Snapshot() == d
        invariant k <= |dir| ==> FirstRefused(d, dir, 0) == FirstRefused(d, dir, k)
        invariant k == |dir| + 1 ==> FirstRefused(d, dir, 0).None?
      {
        k := k + 1;
      }
      if k <= |dir| {
        dirs := dirs + Above(dir, k);
        return Thrown(Refused(faults[dir[..k]]));
      }
      dirs := dirs + Prefixes(dir);
      out := Normal;
    }

    /** `fs.writeFile(path.join(dir, file), content, 'utf-8')`. */
    method WriteFile(dir: Path, file: FileName, content: Content) returns (out: Outcome)
      modifies this
      ensures Run(out, Snapshot()) == Apply(old(Snapshot()), Write(dir, file, content))
    {
      var p := Join(dir, file);
      if p in faults {
        return Thrown(Refused(faults[p]));
      }
      if Parent(p) !in dirs {
        return Thrown(NoSuchDirectory(p));
      }
      files := files[p := content];
      log := log + [p];
      out := Normal;
    }

    /** `fs.copyFile(asset, path.join(dir, file))`. */
    method CopyFile(asset: string, dir: Path, file: FileName) returns (out: Outcome)
      modifies this
      ensures Run(out, Snapshot()) == CopyAt(old(Snapshot()), asset, Join(dir, file))
    {
      if asset !in vendored {
        return Thrown(MissingSource(asset));
      }
      out := WriteFile(dir, file, Vendored(asset));
    }
  }
}
