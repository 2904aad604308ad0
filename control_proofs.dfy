/**
 * What the quota controller promises, stated over the specification functions of XfsControl:
 * how initialisation sets up the cache and the high-water mark, how SetQuota allocates and
 * reuses project ids, and that the cache keeps mirroring the on-disk ids.
 */
module ControlProofs {
  import opened Types
  import opened Kernel
  import opened XfsControl

  /** An empty base path fails before the device is created or the base path scanned. */
  lemma EmptyBasePathFails(cfg: ControlConfig, s: FsState)
    requires cfg.basePath == ""
    ensures NewControlOn(cfg, s) == (Err, s)
  {
  }

  /**
   * A successful initialisation: the device is `basePath/__control-device` and was created,
   * the cache is the scan of the base path, `lastProjectId` is the largest of the floor and the
   * cached ids, and the controller is consistent with the filesystem.
   */
  lemma NewControlEstablishes(cfg: ControlConfig, s: FsState)
    requires NewControlOn(cfg, s).0.Ok?
    ensures var (r, s1) := NewControlOn(cfg, s);
      && cfg.basePath != ""
      && r.value.backingFsBlockDev == Join(cfg.basePath, BlockDeviceName)
      && s1 == s.(devices := s.devices + {Join(cfg.basePath, BlockDeviceName)})
      && ScanOn(s1, cfg.basePath) == Ok(r.value.projectIdCache)
      && StartOf(cfg) <= r.value.lastProjectId
      && (forall p :: p in r.value.projectIdCache ==> r.value.projectIdCache[p] <= r.value.lastProjectId)
      && (r.value.lastProjectId == StartOf(cfg) || r.value.lastProjectId in r.value.projectIdCache.Values)
      && Consistent(r.value, s1)
  {
    var (r, s1) := NewControlOn(cfg, s);
    var c := r.value;
    var es := s1.listings[cfg.basePath];
    forall p | p in c.projectIdCache
      ensures p in s1.dirs && s1.dirs[p] == c.projectIdCache[p]
      ensures NoProject < c.projectIdCache[p] <= c.lastProjectId
    {
      assert c.projectIdCache[p] in c.projectIdCache.Values;
    }
  }

  /**
   * The scan keeps exactly the child directories of `root` with a non-zero on-disk id, keyed by
   * `root/name`; a directory whose id cannot be read makes the whole scan fail.
   */
  lemma ScanKeepsNonZeroChildDirs(s: FsState, root: string)
    requires ReadDirOn(s, root).Ok?
    ensures var es := s.listings[root];
      && (ScanOn(s, root).Err? <==>
            exists i :: 0 <= i < |es| && es[i].isDir && GetProjectIdOn(s, Join(root, es[i].name)).Err?)
      && (ScanOn(s, root).Ok? ==>
            (forall i :: 0 <= i < |es| && es[i].isDir && s.dirs[Join(root, es[i].name)] != NoProject ==>
               Join(root, es[i].name) in ScanOn(s, root).value &&
               ScanOn(s, root).value[Join(root, es[i].name)] == s.dirs[Join(root, es[i].name)]) &&
            (forall p :: p in ScanOn(s, root).value ==>
               ScanOn(s, root).value[p] != NoProject &&
               p in s.dirs && ScanOn(s, root).value[p] == s.dirs[p] &&
               exists i :: 0 <= i < |es| && es[i].isDir && p == Join(root, es[i].name)))
  {
  }

  /** The cache of a new controller never holds a path outside the directories listed under the base path. */
  lemma NewControlCachesOnlyChildDirs(cfg: ControlConfig, s: FsState, p: string)
    requires NewControlOn(cfg, s).0.Ok?
    requires p in NewControlOn(cfg, s).0.value.projectIdCache
    ensures cfg.basePath in s.listings
    ensures exists i :: 0 <= i < |s.listings[cfg.basePath]| && s.listings[cfg.basePath][i].isDir
                        && p == Join(cfg.basePath, s.listings[cfg.basePath][i].name)
  {
  }

  /**
   * The C id read as written (an `ioctl` on an `O_PATH` descriptor) is refused; once it is refused
   * for a directory listed under the base path, initialisation fails.
   */
  lemma IdReadFaultAbortsNewControl(cfg: ControlConfig, s: FsState, i: int)
    requires cfg.basePath in s.listings && 0 <= i < |s.listings[cfg.basePath]| && s.listings[cfg.basePath][i].isDir
    requires GetId(Join(cfg.basePath, s.listings[cfg.basePath][i].name)) in s.faults
    ensures NewControlOn(cfg, s).0.Err?
  {
  }

  /** Looking up an uncached path fails; a cached one reads the limits of its id and changes nothing. */
  lemma GetQuotaOfCachedPath(c: ControlView, s: FsState, path: string)
    requires Consistent(c, s)
    ensures GetQuotaOn(c, s, path).Ok? <==>
              path in c.projectIdCache && c.projectIdCache[path] in s.quotas && GetQuotaOf(c.projectIdCache[path]) !in s.faults
    ensures GetQuotaOn(c, s, path).Ok? ==> GetQuotaOn(c, s, path).value == s.quotas[s.dirs[path]]
  {
  }

  /**
   * SetQuota on a path not in the cache allocates `lastProjectId + 1`, an id no cached path has.
   * When binding it fails nothing changes; otherwise the cache gains exactly that one entry and
   * `lastProjectId` becomes the new id, even when setting the limits then fails.
   */
  lemma SetQuotaOnNewPath(c: ControlView, s: FsState, path: string, q: Quota)
    requires Consistent(c, s)
    requires path !in c.projectIdCache && c.lastProjectId < MaxUint32
    ensures var id := c.lastProjectId + 1;
      && id !in c.projectIdCache.Values
      && var r := SetQuotaOn(c, s, path, q);
      && (SetProjectIdOn(s, path, id).Err? ==> r == Step(c, s, false))
      && (SetProjectIdOn(s, path, id).Ok? ==>
            && r.view.projectIdCache == c.projectIdCache[path := id]
            && r.view.lastProjectId == id
            && r.view.backingFsBlockDev == c.backingFsBlockDev
            && r.fs.dirs == s.dirs[path := id]
            && (r.ok <==> SetQuotaOf(id) !in s.faults)
            && r.fs.quotas == (if r.ok then s.quotas[id := InBasicBlocks(q)] else s.quotas))
  {
  }

  /** SetQuota on a cached path keeps its id, the cache and `lastProjectId`; only that id's limits change. */
  lemma SetQuotaOnCachedPath(c: ControlView, s: FsState, path: string, q: Quota)
    requires Consistent(c, s)
    requires path in c.projectIdCache
    ensures var r := SetQuotaOn(c, s, path, q);
      && r.view == c
      && r.fs.dirs == s.dirs
      && (r.ok <==> SetQuotaOf(s.dirs[path]) !in s.faults)
      && r.fs.quotas == (if r.ok then s.quotas[s.dirs[path] := InBasicBlocks(q)] else s.quotas)
  {
  }

  /** SetQuota keeps the controller consistent with the filesystem. */
  lemma SetQuotaKeepsConsistent(c: ControlView, s: FsState, path: string, q: Quota)
    requires Consistent(c, s)
    requires path in c.projectIdCache || c.lastProjectId < MaxUint32
    ensures Consistent(SetQuotaOn(c, s, path, q).view, SetQuotaOn(c, s, path, q).fs)
  {
  }

  /**
   * A successful SetQuota followed by GetQuota on the same path reads back the limits just set,
   * with the byte limit truncated to whole basic blocks (exactly `q` when it is a multiple of 512).
   */
  lemma SetThenGet(c: ControlView, s: FsState, path: string, q: Quota)
    requires path in c.projectIdCache || c.lastProjectId < MaxUint32
    requires SetQuotaOn(c, s, path, q).ok
    ensures var r := SetQuotaOn(c, s, path, q);
      && path in r.view.projectIdCache
      && GetQuotaOn(r.view, r.fs, path) ==
           if GetQuotaOf(r.view.projectIdCache[path]) in s.faults then Err else Ok(InBasicBlocks(q))
  {
  }

  /** Calling SetQuota twice on a path keeps its id across both calls; the second only changes the limits. */
  lemma SetQuotaTwiceKeepsId(c: ControlView, s: FsState, path: string, q1: Quota, q2: Quota)
    requires path in c.projectIdCache || c.lastProjectId < MaxUint32
    requires path in SetQuotaOn(c, s, path, q1).view.projectIdCache
    ensures var r1 := SetQuotaOn(c, s, path, q1);
      var r2 := SetQuotaOn(r1.view, r1.fs, path, q2);
      && (path in c.projectIdCache ==> r1.view.projectIdCache[path] == c.projectIdCache[path])
      && r2.view == r1.view
      && r2.fs.dirs == r1.fs.dirs
      && (r2.ok ==> GetQuotaOn(r2.view, r2.fs, path) ==
                      if GetQuotaOf(r1.view.projectIdCache[path]) in s.faults then Err else Ok(InBasicBlocks(q2)))
  {
  }

  /** The paths of a list of requests are pairwise distinct. */
  ghost predicate DistinctPaths(ops: seq<Request>)
  {
    forall i, j :: 0 <= i < j < |ops| ==> ops[i].path != ops[j].path
  }

  /**
   * N SetQuota calls on distinct new directories whose binding succeeds assign the ids
   * `lastProjectId + 1, ..., lastProjectId + N` in call order and advance `lastProjectId` by N.
   */
  lemma {:induction false} AllocatesConsecutively(c: ControlView, s: FsState, ops: seq<Request>)
    requires c.lastProjectId + |ops| <= MaxUint32
    requires DistinctPaths(ops)
    requires forall i :: 0 <= i < |ops| ==>
               ops[i].path !in c.projectIdCache && ops[i].path in s.dirs && SetId(ops[i].path) !in s.faults
    ensures var r := SetQuotaSeq(c, s, ops);
      && r.view.lastProjectId == c.lastProjectId + |ops|
      && forall i :: 0 <= i < |ops| ==>
           ops[i].path in r.view.projectIdCache && r.view.projectIdCache[ops[i].path] == c.lastProjectId + 1 + i
    decreases |ops|
  {
    if ops != [] {
      var first := SetQuotaOn(c, s, ops[0].path, ops[0].quota);
      var id := c.lastProjectId + 1;
      assert first.view.projectIdCache == c.projectIdCache[ops[0].path := id];
      assert first.view.lastProjectId == id;
      var rest := ops[1..];
      forall i | 0 <= i < |rest|
        ensures rest[i].path !in first.view.projectIdCache && rest[i].path in first.fs.dirs
        ensures SetId(rest[i].path) !in first.fs.faults
      {
        assert rest[i] == ops[i + 1];
      }
      AllocatesConsecutively(first.view, first.fs, rest);
      var r := SetQuotaSeq(first.view, first.fs, rest);
      forall i | 0 <= i < |ops|
        ensures ops[i].path in r.view.projectIdCache && r.view.projectIdCache[ops[i].path] == c.lastProjectId + 1 + i
      {
        if i > 0 {
          assert ops[i] == rest[i - 1];
        } else {
          FirstPathKept(first.view, first.fs, rest, ops[0].path);
        }
      }
    }
  }

  /** A path cached before requests for other paths keeps its id through them. */
  lemma {:induction false} FirstPathKept(c: ControlView, s: FsState, ops: seq<Request>, path: string)
    requires c.lastProjectId + |ops| <= MaxUint32
    requires path in c.projectIdCache
    ensures path in SetQuotaSeq(c, s, ops).view.projectIdCache
    ensures SetQuotaSeq(c, s, ops).view.projectIdCache[path] == c.projectIdCache[path]
    decreases |ops|
  {
    if ops != [] {
      var first := SetQuotaOn(c, s, ops[0].path, ops[0].quota);
      assert path in first.view.projectIdCache && first.view.projectIdCache[path] == c.projectIdCache[path];
      FirstPathKept(first.view, first.fs, ops[1..], path);
    }
  }

  /**
   * Over any sequence of SetQuota calls: the controller stays consistent with the filesystem,
   * every path cached at the start keeps its id, every newly cached path gets an id above the
   * starting `lastProjectId`, and no newly cached path shares its id with any other cached path.
   */
  lemma {:induction false} SetQuotaHistory(c: ControlView, s: FsState, ops: seq<Request>)
    requires Consistent(c, s)
    requires c.lastProjectId + |ops| <= MaxUint32
    ensures var r := SetQuotaSeq(c, s, ops);
      && Consistent(r.view, r.fs)
      && (forall p :: p in c.projectIdCache ==>
            p in r.view.projectIdCache && r.view.projectIdCache[p] == c.projectIdCache[p])
      && (forall p :: p in r.view.projectIdCache && p !in c.projectIdCache ==>
            c.lastProjectId < r.view.projectIdCache[p])
      && (forall p, p' :: p in r.view.projectIdCache && p' in r.view.projectIdCache && p != p' && p !in c.projectIdCache ==>
            r.view.projectIdCache[p] != r.view.projectIdCache[p'])
    decreases |ops|
  {
    if ops != [] {
      var first := SetQuotaOn(c, s, ops[0].path, ops[0].quota);
      SetQuotaKeepsConsistent(c, s, ops[0].path, ops[0].quota);
      SetQuotaHistory(first.view, first.fs, ops[1..]);
      var r := SetQuotaSeq(first.view, first.fs, ops[1..]);
      var c1 := first.view;
      assert forall p :: p in c.projectIdCache ==> p in c1.projectIdCache && c1.projectIdCache[p] == c.projectIdCache[p];
      assert forall p :: p in c1.projectIdCache && p !in c.projectIdCache ==>
        p == ops[0].path && c1.projectIdCache[p] == c.lastProjectId + 1 == c1.lastProjectId;
      forall p, p' | p in r.view.projectIdCache && p' in r.view.projectIdCache && p != p' && p !in c.projectIdCache
        ensures r.view.projectIdCache[p] != r.view.projectIdCache[p']
      {
        if p in c1.projectIdCache && p' in c1.projectIdCache {
          assert p' in c.projectIdCache;
          assert c1.projectIdCache[p'] <= c.lastProjectId;
        }
      }
    }
  }

  /**
   * Restarting: a new controller over the base path of a consistent one finds every cached
   * child directory of the base path again with the same id, and starts its `lastProjectId`
   * at or above that id, so it never allocates an id such a directory already carries.
   */
  lemma RestartRecoversCache(c: ControlView, s: FsState, cfg: ControlConfig)
    requires Consistent(c, s)
    requires NewControlOn(cfg, s).0.Ok?
    ensures var c' := NewControlOn(cfg, s).0.value;
      forall p :: p in c.projectIdCache && p in ChildDirs(cfg.basePath, s.listings[cfg.basePath]) ==>
        p in c'.projectIdCache && c'.projectIdCache[p] == c.projectIdCache[p] && c.projectIdCache[p] <= c'.lastProjectId
  {
    var (r, s1) := NewControlOn(cfg, s);
    var c' := r.value;
    assert s1.dirs == s.dirs && s1.listings == s.listings;
    forall p | p in c.projectIdCache && p in ChildDirs(cfg.basePath, s.listings[cfg.basePath])
      ensures p in c'.projectIdCache && c'.projectIdCache[p] == c.projectIdCache[p]
    {
      assert s.dirs[p] == c.projectIdCache[p] != NoProject;
    }
    forall p | p in c'.projectIdCache
      ensures c'.projectIdCache[p] <= c'.lastProjectId
    {
      assert c'.projectIdCache[p] in c'.projectIdCache.Values;
    }
  }
}
