# XFS project quota controller, modelled in Dafny

This project models the quota controller of xfsvol (`xfs/control.go`). The controller hands out
XFS project ids to directories under a base path and sets block and inode hard limits for
those projects. The limits are set through a control device created under the base path.

A `Control` holds three fields:

- `backingFsBlockDev`: the path of the control device, `basePath/__control-device`.
- `projectIdCache`: a map from directory path to project id.
- `lastProjectId`: the high-water mark of project ids allocated or observed.

Files:

- `types.dfy` (module `Types`): Go's `uint32` and `uint64`, `ProjectId`, the reserved id 0, `Quota`, `Option` and `Result`.
- `kernel.dfy` (module `Kernel`): the filesystem and the kernel quota calls, kept abstract.
  - `FsState` holds the on-disk project id of every directory, directory listings, existing control devices, the quota record of every project id, and a set of calls the kernel refuses.
  - Each call is a pure function on `FsState`. A method of the class `Filesystem` performs it in place.
  - A call either has its obvious effect or fails and changes nothing.
- `control.dfy` (module `XfsControl`): the class `Control` with `GetBackingFsBlockDev`, `GetQuota` and `SetQuota`, plus the package functions `NewControl` and `GeneratePathToProjectIdMap`.
  - Each operation has a ghost specification function on plain values: `NewControlOn`, `ScanOn`, `GetQuotaOn`, `SetQuotaOn`.
  - The methods are proved to match those functions.
  - `GeneratePathToProjectIdMap` and the loop in `NewControl` that raises `lastProjectId` are `while` loops with invariants.
- `control_proofs.dfy` (module `ControlProofs`): lemmas for what the controller promises.
  - Initialisation sets `lastProjectId` to the maximum of the floor and the scanned ids.
  - New ids are allocated consecutively and never collide with a cached id.
  - The cache keeps mirroring the on-disk ids.
  - A restart recovers the cache, in states where the kernel does not refuse the project id reads (see "## Findings").
  - Each error path leaves the state in a defined condition.

Modelling decisions:

- `lastProjectId + 1` (xfs/control.go:144) is Go `uint32` arithmetic. `NextProjectId` computes it modulo 2^32, so it wraps to 0 at 2^32−1. `Control.SetQuota` and `SetQuotaOn` require `lastProjectId < 0xFFFFFFFF` when the path is not cached yet (see "Left out").
- `filepath.Join(root, name)` (xfs/control.go:85, 195) is modelled as `root + "/" + name`. This assumes a clean root with no trailing slash, and it is the same concatenation `xfs_create_fs_block_dev` performs.
- Errors are a plain `Err`. The wrapped messages and the `log.Printf` calls are not modelled.
- Kernel failures outside the model's structure come from the `faults` set of the filesystem state. Examples are missing privilege and a filesystem mounted without project quotas. This makes every outcome a deterministic function of the state.
- An existing control device: the C function `xfs_create_fs_block_dev` (xfs/xfs.c:28-63) calls `mknod`, which fails with EEXIST once the node exists. The Go wrapper `MakeBackingFsDev` that calls it is not part of this model. `MakeBackingFsDevOn` treats an existing device as success; the C failure can be expressed by putting `MakeDev(dir)` in `faults`.
- Block limits: the kernel quota interface keeps block limits in 512-byte basic blocks (quota/xfs/xfs.h:24-27). `InBasicBlocks` truncates the byte limit to whole basic blocks when limits are set, so a limit reads back exactly only when it is a multiple of 512.

## Model

| member | source | states |
|---|---|---|
| `Kernel.Join` | xfs/control.go:195 | the joined path is `dir`, then `/`, then `name`, with length `|dir| + 1 + |name|` |
| `Kernel.Filesystem.MakeBackingFsDev` | xfs/xfs.c:28-63 | succeeds iff `dir/name` fits in PATH_MAX (`|dir| + |name| + 2 <= 4096`), `dir` is a directory and the kernel does not refuse; on success only the device `dir/name` is added, on failure nothing changes |
| `Kernel.Filesystem.ReadDir` | xfs/control.go:181-187 | returns the listing of `dir` iff it can be listed; fails otherwise |
| `Kernel.Filesystem.GetProjectId` | xfs/xfs.c:3-26 | returns the on-disk project id of `path` iff it is a directory whose attributes can be read; fails otherwise |
| `Kernel.Filesystem.SetProjectId` | xfs/xfs.h:70-76 | binds `id` to the directory `path` and changes no other directory; fails without effect when `path` is not a directory or the kernel refuses |
| `Kernel.Filesystem.GetProjectQuota` | xfs/xfs.h:55-68 | returns the limits recorded for `id` iff the device exists and a record exists; fails otherwise |
| `Kernel.InBasicBlocks` | quota/xfs/xfs.h:24-27 | the stored byte limit is a multiple of 512, at most the requested one and less than 512 below it; the inode limit is kept; a multiple of 512 is kept exactly |
| `Kernel.Filesystem.SetProjectQuota` | xfs/xfs.h:43-53 | records `q`, with the byte limit in whole 512-byte blocks, as the limits of `id` and nothing else; fails without effect when the device is missing or the kernel refuses |
| `XfsControl.NextProjectId` | xfs/control.go:144 | below 2^32−1 the next id is `last + 1`, strictly larger; at 2^32−1 the uint32 sum wraps to the reserved id 0 |
| `XfsControl.MaxId` | xfs/control.go:95-99 | the result is at least the floor, at least every id in the set, and is the floor or one of the ids: their maximum |
| `XfsControl.SetQuotaOn` | xfs/control.go:139-169 | one SetQuota call never lowers `lastProjectId` and raises it by at most one |
| `XfsControl.NewControl` | xfs/control.go:67-104 | an empty base path fails with no device created; otherwise it equals `NewControlOn`: device created, then the cache is the scan of the base path and `lastProjectId` the maximum of the floor and the cached ids; the new controller is valid |
| `XfsControl.GeneratePathToProjectIdMap` | xfs/control.go:174-210 | the loop over the listing returns exactly `ScanOn`: fails iff the listing fails or some child directory's id cannot be read; otherwise maps each child directory `root/name` with a non-zero id to that id |
| `XfsControl.Control.GetBackingFsBlockDev` | xfs/control.go:108-111 | returns `basePath/__control-device` |
| `XfsControl.Control.GetQuota` | xfs/control.go:118-135 | an uncached path fails without consulting the device; a cached one returns the device's limits for its cached id; nothing is modified |
| `XfsControl.Control.SetQuota` | xfs/control.go:139-169 | the new controller and filesystem state are exactly `SetQuotaOn` of the old ones, and the controller stays valid (cached ids in 1..`lastProjectId`) |
| `ControlProofs.EmptyBasePathFails` | xfs/control.go:68-71 | an empty base path yields an error and leaves the filesystem untouched |
| `ControlProofs.NewControlEstablishes` | xfs/control.go:73-99 | after a successful initialisation the device path is `basePath/__control-device` and it exists; the cache is the scan; `lastProjectId` is the maximum of the floor (0 when unset) and every cached id; the controller is consistent with the filesystem |
| `ControlProofs.ScanKeepsNonZeroChildDirs` | xfs/control.go:189-207 | the scan fails iff some listed directory's id lookup fails; otherwise every listed directory with a non-zero id appears under `root/name` with that id, and every key is such a directory whose value is its non-zero on-disk id, so non-directories and id-0 directories are absent |
| `ControlProofs.NewControlCachesOnlyChildDirs` | xfs/control.go:87-93 | every path in a new controller's cache is `basePath/name` for a directory entry listed under the base path |
| `ControlProofs.IdReadFaultAbortsNewControl` | xfs/xfs.c:11-21 | when the id read of a directory listed under the base path is refused, as the `ioctl` on an `O_PATH` descriptor is, initialisation fails |
| `ControlProofs.GetQuotaOfCachedPath` | xfs/control.go:118-135 | on a consistent controller GetQuota succeeds iff the path is cached and its id has a readable quota record, and then returns the limits of the path's on-disk id |
| `ControlProofs.SetQuotaOnNewPath` | xfs/control.go:143-166 | for an uncached path the id `lastProjectId + 1` is in no cache entry; if binding fails nothing changes; otherwise the cache gains exactly that entry and `lastProjectId` becomes the new id, and this holds even when setting the limits then fails; on success the id's limits are `q` in whole basic blocks |
| `ControlProofs.SetQuotaOnCachedPath` | xfs/control.go:142-166 | for a cached path the cache, `lastProjectId` and on-disk ids are unchanged; only the limits of the path's id change, and only on success |
| `ControlProofs.SetQuotaKeepsConsistent` | xfs/control.go:144-154 | SetQuota preserves consistency: cached ids stay in 1..`lastProjectId`, each equals the on-disk id, and the device still exists |
| `ControlProofs.SetThenGet` | xfs/control.go:139-169 | after a successful SetQuota, GetQuota on the same path returns the limits just set, with the byte limit truncated to whole 512-byte blocks (exactly `q` for a multiple of 512), unless the kernel refuses the read |
| `ControlProofs.SetQuotaTwiceKeepsId` | xfs/control.go:142-160 | a second SetQuota on a path keeps its id, the cache and `lastProjectId`; if it succeeds, reading back gives the second limits in whole basic blocks |
| `ControlProofs.AllocatesConsecutively` | xfs/control.go:142-157 | N calls on distinct uncached directories whose binding succeeds assign `lastProjectId + 1 .. lastProjectId + N` in call order and advance `lastProjectId` by N |
| `ControlProofs.SetQuotaHistory` | xfs/control.go:142-157 | over any sequence of calls: consistency is kept; a cached path never changes its id; every newly cached path gets an id above the starting `lastProjectId`; no newly cached path shares its id with another cached path |
| `ControlProofs.RestartRecoversCache` | xfs/control.go:87-99 | a new controller over the base path of a consistent one finds every cached child directory again with the same id, and its `lastProjectId` is at least that id, so it never allocates an id such a directory already has |

## Findings

| source | as written | input that shows it | evidently intended | confidence | as-written member | corrected member |
|---|---|---|---|---|---|---|
| xfs/xfs.c:11-21 | the directory is opened with `O_PATH` and its attributes read by `ioctl(FS_IOC_FSGETXATTR)` on that descriptor, which fails with EBADF, so every project id read fails | a base path holding one child directory: the scan aborts (xfs/control.go:196-202) and `NewControl` fails | the attributes are read from a descriptor opened without `O_PATH`, so the read returns the stored id | not executed; medium (the Go wrapper that calls it is not part of this model) | `ControlProofs.IdReadFaultAbortsNewControl` | `Kernel.Filesystem.GetProjectId` |

## Left out

- XfsControl.Control.SetQuota: requires `lastProjectId < 0xFFFFFFFF` when allocating for an uncached path. The Go code wraps to the reserved id 0 there, and later allocations then collide with cached ids. `NextProjectId` states the wrap, and the model proves nothing past it.
- XfsControl.SetQuotaOn: requires the same bound as `Control.SetQuota`, for the same reason.
- XfsControl.NewControl: on failure Go also returns a partly filled `Control` value, which callers discard. The model returns only `Err`, together with the filesystem state the call leaves: the device stays created when the scan fails.
- Kernel.Filesystem.GetProjectId: the model assumes a working id read. As written, `xfs_get_project_id` opens the directory with `O_DIRECTORY | O_PATH` (xfs/xfs.c:11) and then calls `ioctl(FS_IOC_FSGETXATTR)` on that descriptor (xfs/xfs.c:16), which Linux refuses with EBADF for an `O_PATH` descriptor. `NewControlEstablishes` and `RestartRecoversCache` therefore hold only for states where these reads are not refused; `IdReadFaultAbortsNewControl` shows what happens otherwise (see "## Findings").
- Directories are identified by their path string. Target paths are assumed canonical, in the same `root/name` form the scan produces. The source does not check this: `SetQuota("/r/x/")` after `/r/x` is cached misses the cache (xfs/control.go:142), binds a new id to the same directory (xfs/control.go:145) and leaves the `/r/x` entry with an id the disk no longer carries. The model treats the two spellings as two directories.
- Kernel.InBasicBlocks: the conversion code between bytes and basic blocks is not part of this model; truncation toward zero is assumed.
- The cache is proved to mirror the on-disk ids only while nothing outside the controller changes them. Out-of-band changes to the filesystem are not modelled.
- Go's map iteration order in `NewControl` is modelled as an arbitrary choice of key. The maximum does not depend on it.
- `xfs_get_project_id` returns the 32-bit project id as a C `int`. An id of 2^32−1 then reads as the error value −1. The Go wrapper that interprets it is not part of this model, so `GetProjectId` returns the id unchanged.
- The PATH_MAX check counts characters, not UTF-8 bytes.
- The quota records are keyed by project id alone, for the one filesystem behind the control device. Reading the record of an id without one fails. The exact kernel answer in that case (an error, or zero limits) is not part of this model.
- The `open`, `ioctl`, `stat`, `mknod` and `quotactl` calls, the C headers, and the Go cgo wrappers are modelled only through the abstract filesystem above.
- Logging and error-message text are not modelled.
- The volume-plugin driver (plugin/driver.go) is not modelled. The model assumes one caller at a time, and each model method runs to completion; the distinct ids of `AllocatesConsecutively` and `SetQuotaHistory` rest on that.
- That serialisation is not delivered by plugin/driver.go: `Driver` embeds `sync.Mutex` by value (plugin/driver.go:18-22), its methods have value receivers (plugin/driver.go:52 and the others), and plugin/main.go:43 hands a `Driver` value to the handler. Each call therefore locks its own copy of the mutex. Two concurrent `SetQuota` calls on new paths can then read the same `lastProjectId` (xfs/control.go:144) and bind the same id, and they race on the Go map (xfs/control.go:153). Concurrency is outside this model.
- Also not modelled: the plugin entry point, the command-line tool, and the size conversions `FromHumanSize` and `HumanSize`. Their source is not part of this model.
- The volume manager package and the size codec are not part of this model.
