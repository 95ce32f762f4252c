/**
 * The mount's objects: the file system state (`Wfs`) holding the filer store,
 * the meta cache and the log of calls on them; directory and file nodes. Link
 * and Symlink change that state step by step and are proved to do what
 * `DirLink.LinkSpec` and `DirLink.SymlinkSpec` say.
 */
module Filesys {
  import opened Wrappers
  import opened FilerPb
  import opened IdMapping
  import opened MetaStore
  import opened DirLink

  class Wfs {
    const option: MountOptions
    /** The filer's entries (authoritative, remote). */
    var remote: map<FullPath, Entry>
    /** The local meta cache (a mirror of the filer). */
    var cache: map<FullPath, Entry>
    /** Every call made on either store, in order. */
    ghost var log: seq<Step>

    constructor (option: MountOptions, remote: map<FullPath, Entry>, cache: map<FullPath, Entry>)
      ensures this.option == option && this.remote == remote && this.cache == cache && log == []
    {
      this.option := option;
      this.remote := remote;
      this.cache := cache;
      log := [];
    }

    function State(): Store
      reads this
    {
      Store(remote, cache)
    }

    /** Send an update to the filer, which accepts it or not. */
    method FilerUpdateEntry(req: UpdateEntryRequest, accepted: bool)
      modifies this
      ensures log == old(log) + [RemoteUpdate(req, accepted)]
      ensures State() == ApplyStep(old(State()), RemoteUpdate(req, accepted))
    {
      if accepted {
        remote := remote[PathOf(req.directory, req.entry) := req.entry];
      }
      log := log + [RemoteUpdate(req, accepted)];
    }

    /** Send a create to the filer, which accepts it or not. */
    method FilerCreateEntry(req: CreateEntryRequest, accepted: bool)
      modifies this
      ensures log == old(log) + [RemoteCreate(req, accepted)]
      ensures State() == ApplyStep(old(State()), RemoteCreate(req, accepted))
    {
      if accepted {
        remote := remote[PathOf(req.directory, req.entry) := req.entry];
      }
      log := log + [RemoteCreate(req, accepted)];
    }

    method MetaCacheUpdateEntry(path: FullPath, e: Entry)
      modifies this
      ensures log == old(log) + [CacheUpdate(path, e)]
      ensures State() == ApplyStep(old(State()), CacheUpdate(path, e))
    {
      cache := cache[path := e];
      log := log + [CacheUpdate(path, e)];
    }

    method MetaCacheInsertEntry(path: FullPath, e: Entry)
      modifies this
      ensures log == old(log) + [CacheInsert(path, e)]
      ensures State() == ApplyStep(old(State()), CacheInsert(path, e))
    {
      cache := cache[path := e];
      log := log + [CacheInsert(path, e)];
    }

    /**
     * Link's remote calls with their cache mirroring: update the existing
     * entry, mirror it, create the new one, mirror it; stop at the first
     * rejection.
     */
    method LinkCallback(update: UpdateEntryRequest, create: CreateEntryRequest, replies: Replies) returns (failed: bool)
      modifies this
      ensures failed == !(replies.updateOk && replies.createOk)
      ensures log == old(log) + LinkSteps(update, create, replies)
      ensures State() == Apply(old(State()), LinkSteps(update, create, replies))
    {
      ghost var s0 := State();
      ghost var done: seq<Step> := [];
      failed := false;
      FilerUpdateEntry(update, replies.updateOk);
      ApplySnoc(s0, done, RemoteUpdate(update, replies.updateOk));
      done := done + [RemoteUpdate(update, replies.updateOk)];
      if !replies.updateOk {
        failed := true;
        return;
      }
      MetaCacheUpdateEntry(PathOf(update.directory, update.entry), update.entry);
      ApplySnoc(s0, done, CacheUpdate(PathOf(update.directory, update.entry), update.entry));
      done := done + [CacheUpdate(PathOf(update.directory, update.entry), update.entry)];
      FilerCreateEntry(create, replies.createOk);
      ApplySnoc(s0, done, RemoteCreate(create, replies.createOk));
      done := done + [RemoteCreate(create, replies.createOk)];
      if !replies.createOk {
        failed := true;
        assert done == LinkSteps(update, create, replies);
        return;
      }
      MetaCacheInsertEntry(PathOf(create.directory, create.entry), create.entry);
      ApplySnoc(s0, done, CacheInsert(PathOf(create.directory, create.entry), create.entry));
      done := done + [CacheInsert(PathOf(create.directory, create.entry), create.entry)];
      assert done == LinkSteps(update, create, replies);
    }
  }

  /** A file node: its parent directory's full path, its name and the entry it holds (`None` while not loaded). */
  class File {
    const dir: string
    const name: string
    var entry: Option<Entry>

    constructor (dir: string, name: string, entry: Option<Entry>)
      ensures this.dir == dir && this.name == name && this.entry == entry
    {
      this.dir := dir;
      this.name := name;
      this.entry := entry;
    }
  }

  /** A directory node: its full path and the mount it belongs to. */
  class Dir {
    const path: string
    const wfs: Wfs

    constructor (path: string, wfs: Wfs)
      ensures this.path == path && this.wfs == wfs
    {
      this.path := path;
      this.wfs := wfs;
    }

    /**
     * Link `newName` in this directory to the file node `oldFile`. `load` is
     * the result of loading `oldFile`'s entry, `random` the 16 random bytes a
     * new hardlink id is drawn from, `replies` the filer's answers and
     * `reload` the outcome of loading the new node's entry.
     */
    method Link(newName: string, oldFile: File, load: Load, random: seq<uint8>, replies: Replies, reload: Option<Errno>)
      returns (node: File?, err: Option<Errno>)
      requires |random| == 16
      modifies wfs, oldFile
      ensures var r := LinkSpec(wfs.option, oldFile.dir, path, newName, load, random, replies, reload);
        && err == r.err
        && wfs.log == old(wfs.log) + r.steps
        && wfs.State() == Apply(old(wfs.State()), r.steps)
        && (node != null <==> r.created.Some?)
        && (node != null ==> fresh(node) && node.dir == path && node.name == newName && node.entry == r.created)
        && oldFile.entry == (if wfs.option.readOnly || load.LoadFailed? then old(oldFile.entry) else r.held)
    {
      if wfs.option.readOnly {
        return null, Some(EPERM);
      }
      if load.LoadFailed? {
        return null, Some(load.err);
      }
      oldFile.entry := load.entry;
      if load.entry.None? {
        return null, Some(EIO);
      }

      // update the old file to hardlink mode, in place
      var e := load.entry.value;
      if |e.hardLinkId| == 0 {
        e := e.(hardLinkId := random + [HardLinkMarker], hardLinkCounter := 1);
      }
      e := e.(hardLinkCounter := Inc32(e.hardLinkCounter));
      oldFile.entry := Some(e);
      var update := UpdateEntryRequest(oldFile.dir, e, [wfs.option.signature]);
      var create := CreateEntryRequest(path, NewLinkEntry(e, newName), [wfs.option.signature]);

      // the two entries share one attribute record: translating it for the filer translates both
      var sent := wfs.option.ids.ToFiler(e.attributes);
      update := update.(entry := update.entry.(attributes := sent));
      create := create.(entry := create.entry.(attributes := sent));

      var failed := wfs.LinkCallback(update, create, replies);
      assert e == HardLinkStamp(load.entry.value, random);

      // deferred: translate the shared attribute record back to local ids
      var back := wfs.option.ids.ToLocal(sent);
      oldFile.entry := Some(e.(attributes := back));
      if failed {
        return null, Some(EIO);
      }
      node := new File(path, newName, Some(create.entry.(attributes := back)));
      if reload.Some? {
        return null, reload;
      }
      err := None;
    }

    /**
     * Create in this directory a symlink `newName` to `target`, owned by
     * `uid`/`gid`; `mtime` and `crtime` are two readings of the clock and
     * `createOk` the filer's answer. The node is returned with the error.
     */
    method Symlink(newName: string, target: string, uid: uint32, gid: uint32, mtime: int, crtime: int, createOk: bool)
      returns (node: File?, err: Option<Errno>)
      modifies wfs
      ensures var r := SymlinkSpec(wfs.option, path, newName, target, uid, gid, mtime, crtime, createOk);
        && err == r.err
        && wfs.log == old(wfs.log) + r.steps
        && wfs.State() == Apply(old(wfs.State()), r.steps)
        && (node != null <==> r.node.Some?)
        && (node != null ==> fresh(node) && node.dir == path && node.name == newName && node.entry == r.node)
    {
      if wfs.option.readOnly {
        return null, Some(EPERM);
      }
      var e := SymlinkEntry(newName, target, uid, gid, mtime, crtime, wfs.option.umask);
      var create := CreateEntryRequest(path, e, [wfs.option.signature]);

      create := create.(entry := create.entry.(attributes := wfs.option.ids.ToFiler(create.entry.attributes)));
      ghost var s0 := wfs.State();
      wfs.FilerCreateEntry(create, createOk);
      ApplySnoc(s0, [], RemoteCreate(create, createOk));
      assert [] + [RemoteCreate(create, createOk)] == [RemoteCreate(create, createOk)];
      if !createOk {
        err := Some(EIO);
      } else {
        wfs.MetaCacheInsertEntry(PathOf(create.directory, create.entry), create.entry);
        ApplySnoc(s0, [RemoteCreate(create, createOk)], CacheInsert(PathOf(create.directory, create.entry), create.entry));
        err := None;
      }
      // deferred: translate back to local ids
      create := create.(entry := create.entry.(attributes := wfs.option.ids.ToLocal(create.entry.attributes)));
      node := new File(path, newName, Some(create.entry));
    }
  }
}
