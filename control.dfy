/**
 * The XFS project quota controller: a cache from directory path to project id, the high-water
 * mark of allocated ids and the path of the control device through which limits are read and set.
 *
 * The ghost functions below are the specification of each operation on plain values
 * (a `ControlView` of the controller and an `FsState` of the filesystem); the methods of
 * `Control` and the package-level methods are proved against them, and the lemmas in
 * module ControlProofs state what the operations promise.
 */
module XfsControl {
  import opened Types
  import opened Kernel

  /** The name of the control device created right under the base path. */
  const BlockDeviceName: string := "__control-device"

  /** The controller configuration: an optional floor for project ids and the base path. */
  datatype ControlConfig = ControlConfig(startingProjectId: Option<ProjectId>, basePath: string)

  /** The three fields of a controller, as a value. */
  datatype ControlView = ControlView(
    backingFsBlockDev: string,
    projectIdCache: map<string, ProjectId>,
    lastProjectId: ProjectId)

  /** What a state-changing call leaves behind: the controller, the filesystem and whether it succeeded. */
  datatype Step = Step(view: ControlView, fs: FsState, ok: bool)

  /** One `SetQuota` request. */
  datatype Request = Request(path: string, quota: Quota)

  /** `lastProjectId + 1` in Go's uint32 arithmetic. */
  function NextProjectId(last: ProjectId): (id: ProjectId)
    ensures last < MaxUint32 ==> id == last + 1 && last < id
    ensures last == MaxUint32 ==> id == NoProject
  {
    (last + 1) % (MaxUint32 + 1)
  }

  /** The floor configured for `lastProjectId`, 0 when none is given. */
  function StartOf(cfg: ControlConfig): ProjectId
  {
    match cfg.startingProjectId
    case Some(id) => id
    case None => 0
  }

  /** The largest of `start` and the ids in `ids`. */
  ghost function MaxId(start: ProjectId, ids: set<ProjectId>): (m: ProjectId)
    ensures start <= m
    ensures forall id :: id in ids ==> id <= m
    ensures m == start || m in ids
    decreases ids
  {
    if ids == {} then start
    else
      var x :| x in ids;
      var rest := MaxId(start, ids - {x});
      assert forall id :: id in ids ==> id == x || id in ids - {x};
      if x > rest then x else rest
  }

  /** Every cached id is a real project id no greater than the high-water mark. */
  ghost predicate IdsBounded(cache: map<string, ProjectId>, last: ProjectId)
  {
    forall p :: p in cache ==> NoProject < cache[p] <= last
  }

  /** The controller agrees with the filesystem: ids bounded, each cached id is the on-disk id, the device exists. */
  ghost predicate Consistent(c: ControlView, s: FsState)
  {
    && IdsBounded(c.projectIdCache, c.lastProjectId)
    && (forall p :: p in c.projectIdCache ==> p in s.dirs && s.dirs[p] == c.projectIdCache[p])
    && c.backingFsBlockDev in s.devices
  }

  /** The absolute paths of the directories among the entries listed under `root`. */
  ghost function ChildDirs(root: string, es: seq<Entry>): set<string>
  {
    set i | 0 <= i < |es| && es[i].isDir :: Join(root, es[i].name)
  }

  /** Some directory among the entries has a project id that cannot be read. */
  ghost predicate LookupFails(s: FsState, root: string, es: seq<Entry>)
  {
    exists i :: 0 <= i < |es| && es[i].isDir && GetProjectIdOn(s, Join(root, es[i].name)).Err?
  }

  /** The on-disk ids of those `paths` that carry a project id other than 0. */
  ghost function NonZeroIds(s: FsState, paths: set<string>): map<string, ProjectId>
  {
    map p | p in paths && p in s.dirs && s.dirs[p] != NoProject :: s.dirs[p]
  }

  /**
   * The scan of `root`: the listing must succeed and every child directory's id must be
   * readable; the result maps each child directory `root/name` with a non-zero id to that id.
   */
  ghost function ScanOn(s: FsState, root: string): Result<map<string, ProjectId>>
  {
    match ReadDirOn(s, root)
    case Err => Err
    case Ok(es) => if LookupFails(s, root, es) then Err else Ok(NonZeroIds(s, ChildDirs(root, es)))
  }

  /** Initialisation: the controller it yields (or the failure) and the filesystem it leaves. */
  ghost function NewControlOn(cfg: ControlConfig, s: FsState): (Result<ControlView>, FsState)
  {
    if cfg.basePath == "" then (Err, s)
    else match MakeBackingFsDevOn(s, cfg.basePath, BlockDeviceName)
      case Err => (Err, s)
      case Ok(s1) =>
        match ScanOn(s1, cfg.basePath)
        case Err => (Err, s1)
        case Ok(cache) =>
          (Ok(ControlView(Join(cfg.basePath, BlockDeviceName), cache, MaxId(StartOf(cfg), cache.Values))), s1)
  }

  /** Reading the limits of a cached path. */
  function GetQuotaOn(c: ControlView, s: FsState, path: string): Result<Quota>
  {
    if path !in c.projectIdCache then Err
    else GetProjectQuotaOn(s, c.backingFsBlockDev, c.projectIdCache[path])
  }

  /**
   * Setting the limits of a path: a path not in the cache first gets `lastProjectId + 1`
   * bound on disk and recorded; then the limits are set for the path's id.
   */
  function SetQuotaOn(c: ControlView, s: FsState, path: string, q: Quota): (r: Step)
    requires path in c.projectIdCache || c.lastProjectId < MaxUint32
    ensures c.lastProjectId <= r.view.lastProjectId <= c.lastProjectId + 1
  {
    if path in c.projectIdCache then
      match SetProjectQuotaOn(s, c.backingFsBlockDev, c.projectIdCache[path], q)
      case Err => Step(c, s, false)
      case Ok(s1) => Step(c, s1, true)
    else
      var id := NextProjectId(c.lastProjectId);
      match SetProjectIdOn(s, path, id)
      case Err => Step(c, s, false)
      case Ok(s1) =>
        var c1 := c.(projectIdCache := c.projectIdCache[path := id], lastProjectId := id);
        match SetProjectQuotaOn(s1, c.backingFsBlockDev, id, q)
        case Err => Step(c1, s1, false)
        case Ok(s2) => Step(c1, s2, true)
  }

  /** A sequence of `SetQuota` calls, in order; `ok` says whether all of them succeeded. */
  function SetQuotaSeq(c: ControlView, s: FsState, ops: seq<Request>): (r: Step)
    requires c.lastProjectId + |ops| <= MaxUint32
    ensures c.lastProjectId <= r.view.lastProjectId <= c.lastProjectId + |ops|
    decreases |ops|
  {
    if ops == [] then Step(c, s, true)
    else
      var first := SetQuotaOn(c, s, ops[0].path, ops[0].quota);
      var rest := SetQuotaSeq(first.view, first.fs, ops[1..]);
      Step(rest.view, rest.fs, first.ok && rest.ok)
  }

  /** The quota controller. */
  class Control {
    /** The path of the control device through which limits are read and set. */
    var backingFsBlockDev: string
    /** Directory path to project id, for every path whose id is known. */
    var projectIdCache: map<string, ProjectId>
    /** The largest project id allocated or observed so far. */
    var lastProjectId: ProjectId
    /** The base path the controller was created for. */
    ghost var basePath: string

    function View(): ControlView
      reads this
    {
      ControlView(backingFsBlockDev, projectIdCache, lastProjectId)
    }

    ghost predicate Valid()
      reads this
    {
      backingFsBlockDev == Join(basePath, BlockDeviceName) && IdsBounded(projectIdCache, lastProjectId)
    }

    constructor (base: string, cache: map<string, ProjectId>, last: ProjectId)
      requires IdsBounded(cache, last)
      ensures Valid() && basePath == base
      ensures View() == ControlView(Join(base, BlockDeviceName), cache, last)
    {
      basePath := base;
      backingFsBlockDev := Join(base, BlockDeviceName);
      projectIdCache := cache;
      lastProjectId := last;
    }

    /** The control device path, which is `basePath/__control-device`. */
    method GetBackingFsBlockDev() returns (blockDev: string)
      requires Valid()
      ensures blockDev == Join(basePath, BlockDeviceName)
      ensures blockDev[..|basePath|] == basePath && blockDev[|basePath| + 1..] == BlockDeviceName
    {
      blockDev := backingFsBlockDev;
    }

    /** The limits of a cached path; an uncached path fails without consulting the device. */
    method GetQuota(fs: Filesystem, targetPath: string) returns (q: Result<Quota>)
      ensures targetPath !in projectIdCache ==> q == Err
      ensures q.Ok? ==> targetPath in projectIdCache && backingFsBlockDev in fs.devices
      ensures q == GetQuotaOn(View(), fs.State(), targetPath)
    {
      if targetPath !in projectIdCache {
        return Err;
      }
      var projectId := projectIdCache[targetPath];
      q := fs.GetProjectQuota(backingFsBlockDev, projectId);
    }

    /**
     * Gives `targetPath` a project id (reusing its cached one, or binding `lastProjectId + 1`
     * and recording it) and sets `quota` as that project's limits.
     */
    method SetQuota(fs: Filesystem, targetPath: string, quota: Quota) returns (ok: bool)
      requires Valid()
      requires targetPath in projectIdCache || lastProjectId < MaxUint32
      modifies this`projectIdCache, this`lastProjectId, fs`dirs, fs`quotas
      ensures Valid()
      ensures SetQuotaOn(old(View()), old(fs.State()), targetPath, quota) == Step(View(), fs.State(), ok)
    {
      var projectId: ProjectId;
      if targetPath in projectIdCache {
        projectId := projectIdCache[targetPath];
      } else {
        projectId := NextProjectId(lastProjectId);
        var bound := fs.SetProjectId(targetPath, projectId);
        if !bound {
          return false;
        }
        projectIdCache := projectIdCache[targetPath := projectId];
        lastProjectId := projectId;
      }
      ok := fs.SetProjectQuota(backingFsBlockDev, projectId, quota);
    }
  }

  /**
   * Creates a controller for `cfg.basePath`: creates the control device, scans the base path
   * for project ids and raises the configured floor to the largest id seen.
   */
  method NewControl(cfg: ControlConfig, fs: Filesystem) returns (r: Result<Control>)
    modifies fs`devices
    ensures cfg.basePath == "" ==> r == Err && fs.devices == old(fs.devices)
    ensures NewControlOn(cfg, old(fs.State())) == (if r.Ok? then Ok(r.value.View()) else Err, fs.State())
    ensures r.Ok? ==> fresh(r.value) && r.value.Valid() && r.value.basePath == cfg.basePath
  {
    if cfg.basePath == "" {
      return Err;
    }
    var last: ProjectId := 0;
    if cfg.startingProjectId.Some? {
      last := cfg.startingProjectId.value;
    }
    var made := fs.MakeBackingFsDev(cfg.basePath, BlockDeviceName);
    if !made {
      return Err;
    }
    var scan := GeneratePathToProjectIdMap(fs, cfg.basePath);
    if scan.Err? {
      return Err;
    }
    var cache := scan.value;
    var todo := cache.Keys;
    while todo != {}
      invariant todo <= cache.Keys
      invariant StartOf(cfg) <= last
      invariant forall p :: p in cache && p !in todo ==> cache[p] <= last
      invariant last == StartOf(cfg) || last in cache.Values
      decreases todo
    {
      var p :| p in todo;
      if cache[p] > last {
        last := cache[p];
      }
      todo := todo - {p};
    }
    MaxIdIsUnique(StartOf(cfg), cache.Values, last);
    var c := new Control(cfg.basePath, cache, last);
    r := Ok(c);
  }

  /** Any bound of `start` and `ids` that is `start` or one of `ids` is their maximum. */
  lemma MaxIdIsUnique(start: ProjectId, ids: set<ProjectId>, m: ProjectId)
    requires start <= m && (forall id :: id in ids ==> id <= m) && (m == start || m in ids)
    ensures m == MaxId(start, ids)
  {
  }

  /**
   * Maps each child directory `root/name` of `root` whose on-disk project id is not 0 to that id;
   * fails when the listing fails or when any child directory's id cannot be read.
   */
  method GeneratePathToProjectIdMap(fs: Filesystem, root: string) returns (r: Result<map<string, ProjectId>>)
    ensures r == ScanOn(fs.State(), root)
    ensures r.Ok? ==> forall p :: p in r.value ==> r.value[p] != NoProject && GetProjectIdOn(fs.State(), p) == Ok(r.value[p])
  {
    var files := fs.ReadDir(root);
    if files.Err? {
      return Err;
    }
    var es := files.value;
    var mapping: map<string, ProjectId> := map[];
    var i := 0;
    while i < |es|
      invariant 0 <= i <= |es|
      invariant !LookupFails(fs.State(), root, es[..i])
      invariant mapping == NonZeroIds(fs.State(), ChildDirs(root, es[..i]))
    {
      var file := es[i];
      ChildDirsSnoc(root, es[..i], file);
      assert es[..i + 1] == es[..i] + [file];
      if file.isDir {
        var absPath := Join(root, file.name);
        var projectId := fs.GetProjectId(absPath);
        if projectId.Err? {
          assert LookupFails(fs.State(), root, es);
          return Err;
        }
        if projectId.value > NoProject {
          mapping := mapping[absPath := projectId.value];
        }
      }
      i := i + 1;
    }
    assert es[..i] == es;
    r := Ok(mapping);
  }

  /** Listing one more entry adds its path when it is a directory. */
  lemma ChildDirsSnoc(root: string, es: seq<Entry>, e: Entry)
    ensures ChildDirs(root, es + [e]) == ChildDirs(root, es) + (if e.isDir then {Join(root, e.name)} else {})
  {
    var es' := es + [e];
    forall p | p in ChildDirs(root, es')
      ensures p in ChildDirs(root, es) + (if e.isDir then {Join(root, e.name)} else {})
    {
      var i :| 0 <= i < |es'| && es'[i].isDir && p == Join(root, es'[i].name);
      if i < |es| {
        assert es[i] == es'[i];
      }
    }
    forall p | p in ChildDirs(root, es)
      ensures p in ChildDirs(root, es')
    {
      var i :| 0 <= i < |es| && es[i].isDir && p == Join(root, es[i].name);
      assert es'[i] == es[i];
    }
    if e.isDir {
      assert es'[|es|] == e;
    }
  }
}
