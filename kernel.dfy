/**
 * The filesystem and kernel quota interface the controller talks to, kept abstract.
 *
 * The state records, for every directory, its on-disk project id; for every directory that can
 * be listed, its entries in listing order; the control devices that exist; the project quota
 * record of every project id; and the set of calls the kernel refuses for reasons outside the
 * model (missing privilege, a filesystem mounted without project quotas, I/O errors).
 * Every call either succeeds with its obvious effect or fails and changes nothing.
 */
module Kernel {
  import opened Types

  /** Linux PATH_MAX, the bound checked before the control device is created. */
  const PathMax: int := 4096

  /** The unit in which the kernel quota interface keeps block limits, in bytes. */
  const BasicBlockSize: int := 512

  /** The limits as the kernel keeps them: the byte limit truncated to whole basic blocks. */
  function InBasicBlocks(q: Quota): (r: Quota)
    ensures r.inode == q.inode
    ensures r.size % BasicBlockSize == 0 && r.size <= q.size < r.size + BasicBlockSize
    ensures q.size % BasicBlockSize == 0 ==> r == q
  {
    Quota(q.size / BasicBlockSize * BasicBlockSize, q.inode)
  }

  /** One entry of a directory listing. */
  datatype Entry = Entry(name: string, isDir: bool)

  /** The kernel-facing calls, as the keys of the fault set. */
  datatype Call =
    | MakeDev(dir: string)
    | ReadDir(dir: string)
    | GetId(path: string)
    | SetId(path: string)
    | GetQuotaOf(id: ProjectId)
    | SetQuotaOf(id: ProjectId)

  datatype FsState = FsState(
    dirs: map<string, ProjectId>,
    listings: map<string, seq<Entry>>,
    devices: set<string>,
    quotas: map<ProjectId, Quota>,
    faults: set<Call>)

  /** `filepath.Join(dir, name)` for a clean `dir` without a trailing slash. */
  function Join(dir: string, name: string): (p: string)
    ensures |p| == |dir| + 1 + |name|
    ensures p[..|dir|] == dir && p[|dir|] == '/' && p[|dir| + 1..] == name
  {
    dir + "/" + name
  }

  /** Creating the control device `dir/name`: a length check, `dir` must be a directory. */
  function MakeBackingFsDevOn(s: FsState, dir: string, name: string): Result<FsState>
  {
    if |dir| + |name| + 2 > PathMax || dir !in s.dirs || MakeDev(dir) in s.faults then Err
    else Ok(s.(devices := s.devices + {Join(dir, name)}))
  }

  /** Listing a directory. */
  function ReadDirOn(s: FsState, dir: string): Result<seq<Entry>>
  {
    if dir in s.listings && ReadDir(dir) !in s.faults then Ok(s.listings[dir]) else Err
  }

  /** Reading the project id stored on a directory. */
  function GetProjectIdOn(s: FsState, path: string): Result<ProjectId>
  {
    if path in s.dirs && GetId(path) !in s.faults then Ok(s.dirs[path]) else Err
  }

  /** Storing a project id on a directory. */
  function SetProjectIdOn(s: FsState, path: string, id: ProjectId): Result<FsState>
  {
    if path in s.dirs && SetId(path) !in s.faults then Ok(s.(dirs := s.dirs[path := id])) else Err
  }

  /** Reading the limits of a project through a control device. */
  function GetProjectQuotaOn(s: FsState, dev: string, id: ProjectId): Result<Quota>
  {
    if dev in s.devices && id in s.quotas && GetQuotaOf(id) !in s.faults then Ok(s.quotas[id]) else Err
  }

  /** Setting the limits of a project through a control device; the byte limit is kept in basic blocks. */
  function SetProjectQuotaOn(s: FsState, dev: string, id: ProjectId, q: Quota): Result<FsState>
  {
    if dev in s.devices && SetQuotaOf(id) !in s.faults then Ok(s.(quotas := s.quotas[id := InBasicBlocks(q)])) else Err
  }

  /** The filesystem as a mutable object: the kernel state every call reads or updates in place. */
  class Filesystem {
    var dirs: map<string, ProjectId>
    var listings: map<string, seq<Entry>>
    var devices: set<string>
    var quotas: map<ProjectId, Quota>
    var faults: set<Call>

    function State(): FsState
      reads this
    {
      FsState(dirs, listings, devices, quotas, faults)
    }

    constructor (s: FsState)
      ensures State() == s
    {
      dirs, listings, devices, quotas, faults := s.dirs, s.listings, s.devices, s.quotas, s.faults;
    }

    /** Fails when `dir/name` would exceed PATH_MAX or `dir` is not a directory; else the device exists. */
    method MakeBackingFsDev(dir: string, name: string) returns (ok: bool)
      modifies this`devices
      ensures ok <==> |dir| + |name| + 2 <= PathMax && dir in dirs && MakeDev(dir) !in faults
      ensures devices == if ok then old(devices) + {Join(dir, name)} else old(devices)
      ensures MakeBackingFsDevOn(old(State()), dir, name) == if ok then Ok(State()) else Err
    {
      ok := |dir| + |name| + 2 <= PathMax && dir in dirs && MakeDev(dir) !in faults;
      if ok {
        devices := devices + {Join(dir, name)};
      }
    }

    /** The entries of `dir` in listing order; fails when `dir` cannot be listed. */
    method ReadDir(dir: string) returns (r: Result<seq<Entry>>)
      ensures r.Ok? <==> dir in listings && Call.ReadDir(dir) !in faults
      ensures r.Ok? ==> r.value == listings[dir]
      ensures r == ReadDirOn(State(), dir)
    {
      if dir in listings && Call.ReadDir(dir) !in faults {
        r := Ok(listings[dir]);
      } else {
        r := Err;
      }
    }

    /** The on-disk project id of the directory `path`; fails when `path` is not a directory. */
    method GetProjectId(path: string) returns (r: Result<ProjectId>)
      ensures r.Ok? <==> path in dirs && GetId(path) !in faults
      ensures r.Ok? ==> r.value == dirs[path]
      ensures r == GetProjectIdOn(State(), path)
    {
      if path in dirs && GetId(path) !in faults {
        r := Ok(dirs[path]);
      } else {
        r := Err;
      }
    }

    /** Binds `id` to the directory `path` on disk; fails without effect when it is not a directory. */
    method SetProjectId(path: string, id: ProjectId) returns (ok: bool)
      modifies this`dirs
      ensures ok <==> path in old(dirs) && SetId(path) !in faults
      ensures dirs == if ok then old(dirs)[path := id] else old(dirs)
      ensures SetProjectIdOn(old(State()), path, id) == if ok then Ok(State()) else Err
    {
      ok := path in dirs && SetId(path) !in faults;
      if ok {
        dirs := dirs[path := id];
      }
    }

    /** The limits recorded for `id`, read through the device `dev`. */
    method GetProjectQuota(dev: string, id: ProjectId) returns (r: Result<Quota>)
      ensures r.Ok? <==> dev in devices && id in quotas && GetQuotaOf(id) !in faults
      ensures r.Ok? ==> r.value == quotas[id]
      ensures r == GetProjectQuotaOn(State(), dev, id)
    {
      if dev in devices && id in quotas && GetQuotaOf(id) !in faults {
        r := Ok(quotas[id]);
      } else {
        r := Err;
      }
    }

    /** Records `q`, in whole basic blocks, as the limits of `id` through the device `dev`. */
    method SetProjectQuota(dev: string, id: ProjectId, q: Quota) returns (ok: bool)
      modifies this`quotas
      ensures ok <==> dev in devices && SetQuotaOf(id) !in faults
      ensures quotas == if ok then old(quotas)[id := InBasicBlocks(q)] else old(quotas)
      ensures SetProjectQuotaOn(old(State()), dev, id, q) == if ok then Ok(State()) else Err
    {
      ok := dev in devices && SetQuotaOf(id) !in faults;
      if ok {
        quotas := quotas[id := InBasicBlocks(q)];
      }
    }
  }
}
