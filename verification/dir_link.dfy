/**
 * The hardlink and symlink mutations of the mount front end as functions of
 * their inputs: the entries they build, the calls they issue on the filer and
 * the meta cache, the error they report, and what they leave in memory.
 * The filer's answers, the random bytes, the clock and the lazy entry load are
 * inputs.
 */
module DirLink {
  import opened Wrappers
  import opened FilerPb
  import opened FileMode
  import opened IdMapping
  import opened MetaStore

  /** The error codes the mount reports to the kernel. */
  datatype Errno = EPERM | EIO | EINVAL | OtherErrno(code: nat)

  /** What a node's lazy entry load gives: its error, or the entry the node then holds (`None` for nil). */
  datatype Load = LoadFailed(err: Errno) | Loaded(entry: Option<Entry>)

  /** The mount-wide settings the operations read. */
  datatype MountOptions = MountOptions(readOnly: bool, umask: bv32, signature: int32, ids: UidGidMapper)

  /** The filer's answers to the update of the existing entry and to the creation of the new one. */
  datatype Replies = Replies(updateOk: bool, createOk: bool)

  /** The byte that ends every hardlink id, telling it apart from other ids kept in the same field. */
  const HardLinkMarker: uint8 := 1

  /**
   * Turn an entry into a member of a hardlink group and count one more name:
   * an entry without a hardlink id gets the 16 random bytes plus the marker
   * and the count of two names; one already in a group keeps its id and
   * counts one more (with Go's int32 wrap-around). Nothing else changes.
   */
  function HardLinkStamp(e: Entry, random: seq<uint8>): (r: Entry)
    requires |random| == 16
    ensures |e.hardLinkId| == 0 ==>
      && |r.hardLinkId| == 17 && r.hardLinkId[..16] == random && r.hardLinkId[16] == HardLinkMarker
      && r.hardLinkCounter == 2
    ensures |e.hardLinkId| != 0 ==>
      r.hardLinkId == e.hardLinkId && r.hardLinkCounter == Inc32(e.hardLinkCounter)
    ensures r.(hardLinkId := e.hardLinkId, hardLinkCounter := e.hardLinkCounter) == e
  {
    var grouped :=
      if |e.hardLinkId| == 0 then e.(hardLinkId := random + [HardLinkMarker], hardLinkCounter := 1) else e;
    grouped.(hardLinkCounter := Inc32(grouped.hardLinkCounter))
  }

  /** The entry created for the new name: the existing entry under another name, never a directory. */
  function NewLinkEntry(existing: Entry, newName: string): (r: Entry)
    ensures r.name == newName && !r.isDirectory
    ensures r.(name := existing.name, isDirectory := existing.isDirectory) == existing
  {
    Entry(newName, false, existing.attributes, existing.chunks, existing.extended,
          existing.hardLinkId, existing.hardLinkCounter)
  }

  /** The calls Link issues once its requests are built: update and mirror, then create and mirror. */
  function LinkSteps(update: UpdateEntryRequest, create: CreateEntryRequest, replies: Replies): (r: seq<Step>)
    ensures |r| == if !replies.updateOk then 1 else if !replies.createOk then 3 else 4
    ensures r[0] == RemoteUpdate(update, replies.updateOk)
    ensures |r| >= 3 ==> r[2] == RemoteCreate(create, replies.createOk)
    ensures forall i :: 0 <= i < |r| && !r[i].IsRemote() ==> 0 < i && r[i - 1].Acked() && r[i - 1].Target() == r[i].Target()
  {
    if !replies.updateOk then
      [RemoteUpdate(update, false)]
    else
      [RemoteUpdate(update, true),
       CacheUpdate(PathOf(update.directory, update.entry), update.entry),
       RemoteCreate(create, replies.createOk)]
      + (if replies.createOk then [CacheInsert(PathOf(create.directory, create.entry), create.entry)] else [])
  }

  /**
   * The result of Link: the error reported, the calls issued in order, the
   * entry the existing node holds afterwards, and the entry of the returned node.
   */
  datatype LinkOutcome = LinkOutcome(err: Option<Errno>, steps: seq<Step>, held: Option<Entry>, created: Option<Entry>)

  /**
   * Link in the directory `newDir` a new name to the node whose parent is
   * `oldDir`. The stamped entry is sent with its owner and group translated
   * for the filer; the new entry shares its attribute record, so it is sent
   * with the same translated attributes, and both are translated back once
   * the remote calls are over, whatever their outcome.
   */
  function LinkSpec(opt: MountOptions, oldDir: string, newDir: string, newName: string,
                    load: Load, random: seq<uint8>, replies: Replies, reload: Option<Errno>): (r: LinkOutcome)
    requires |random| == 16
    ensures r.err.None? <==>
      !opt.readOnly && load.Loaded? && load.entry.Some? && replies.updateOk && replies.createOk && reload.None?
    ensures r.created.Some? <==> r.err.None?
    ensures r.steps != [] <==> !opt.readOnly && load.Loaded? && load.entry.Some?
    ensures r.held.Some? <==> !opt.readOnly && load.Loaded? && load.entry.Some?
  {
    if opt.readOnly then LinkOutcome(Some(EPERM), [], None, None)
    else
      match load
      case LoadFailed(err) => LinkOutcome(Some(err), [], None, None)
      case Loaded(None) => LinkOutcome(Some(EIO), [], None, None)
      case Loaded(Some(e)) =>
        var stamped := HardLinkStamp(e, random);
        var sent := opt.ids.ToFiler(stamped.attributes);
        var update := UpdateEntryRequest(oldDir, stamped.(attributes := sent), [opt.signature]);
        var create := CreateEntryRequest(newDir, NewLinkEntry(stamped, newName).(attributes := sent), [opt.signature]);
        var back := opt.ids.ToLocal(sent);
        var linked := replies.updateOk && replies.createOk;
        LinkOutcome(
          if linked then reload else Some(EIO),
          LinkSteps(update, create, replies),
          Some(stamped.(attributes := back)),
          if linked && reload.None? then Some(NewLinkEntry(stamped, newName).(attributes := back)) else None)
  }

  /** In read-only mode Link reports EPERM and calls neither the filer nor the cache. */
  lemma LinkReadOnly(opt: MountOptions, oldDir: string, newDir: string, newName: string,
                     load: Load, random: seq<uint8>, replies: Replies, reload: Option<Errno>, s: Store)
    requires |random| == 16 && opt.readOnly
    ensures var r := LinkSpec(opt, oldDir, newDir, newName, load, random, replies, reload);
      r.err == Some(EPERM) && r.steps == [] && r.created.None? && Apply(s, r.steps) == s
  {
  }

  /** A failed load is reported as is, a nil entry as EIO, and neither store is called. */
  lemma LinkLoadErrors(opt: MountOptions, oldDir: string, newDir: string, newName: string,
                       load: Load, random: seq<uint8>, replies: Replies, reload: Option<Errno>)
    requires |random| == 16 && !opt.readOnly && (load.LoadFailed? || load.entry.None?)
    ensures var r := LinkSpec(opt, oldDir, newDir, newName, load, random, replies, reload);
      && r.err == Some(if load.LoadFailed? then load.err else EIO)
      && r.steps == [] && r.created.None?
  {
  }

  /**
   * The existing entry is stamped in memory before any remote call and the
   * stamp is kept whatever the filer answers; the deferred translation back
   * restores its owner and group when the id tables are inverse.
   */
  lemma LinkStampIsKept(opt: MountOptions, oldDir: string, newDir: string, newName: string,
                        e: Entry, random: seq<uint8>, replies: Replies, reload: Option<Errno>)
    requires |random| == 16 && !opt.readOnly
    ensures var r := LinkSpec(opt, oldDir, newDir, newName, Loaded(Some(e)), random, replies, reload);
      && r.held.Some?
      && r.held.value.hardLinkId == HardLinkStamp(e, random).hardLinkId
      && r.held.value.hardLinkCounter == HardLinkStamp(e, random).hardLinkCounter
      && (opt.ids.Inverse() ==> r.held == Some(HardLinkStamp(e, random)))
  {
  }

  /**
   * A rejected update of the existing entry: EIO, no create is sent, and
   * neither the filer nor the cache changes.
   */
  lemma LinkUpdateRejected(opt: MountOptions, oldDir: string, newDir: string, newName: string,
                           e: Entry, random: seq<uint8>, replies: Replies, reload: Option<Errno>, s: Store)
    requires |random| == 16 && !opt.readOnly && !replies.updateOk
    ensures var r := LinkSpec(opt, oldDir, newDir, newName, Loaded(Some(e)), random, replies, reload);
      && r.err == Some(EIO) && r.created.None?
      && |r.steps| == 1 && r.steps[0].RemoteUpdate? && !r.steps[0].ok
      && Apply(s, r.steps) == s
  {
  }

  /**
   * Partial failure: the update is accepted and the create rejected. Link
   * reports EIO; the filer and the cache both hold the stamped entry at the
   * existing path, nothing is rolled back, and the new path is not added.
   */
  lemma LinkCreateRejected(opt: MountOptions, oldDir: string, newDir: string, newName: string,
                           e: Entry, random: seq<uint8>, replies: Replies, reload: Option<Errno>, s: Store)
    requires |random| == 16 && !opt.readOnly && replies.updateOk && !replies.createOk
    ensures var r := LinkSpec(opt, oldDir, newDir, newName, Loaded(Some(e)), random, replies, reload);
      var stamped := HardLinkStamp(e, random);
      var sent := stamped.(attributes := opt.ids.ToFiler(stamped.attributes));
      var oldPath := FullPath(oldDir, e.name);
      var newPath := FullPath(newDir, newName);
      var t := Apply(s, r.steps);
      && r.err == Some(EIO) && r.created.None?
      && t == Store(s.remote[oldPath := sent], s.cache[oldPath := sent])
      && (newPath != oldPath && newPath !in s.remote && newPath !in s.cache ==>
            newPath !in t.remote && newPath !in t.cache)
  {
    var r := LinkSpec(opt, oldDir, newDir, newName, Loaded(Some(e)), random, replies, reload);
    ApplyUpToFour(s, r.steps[0], r.steps[1], r.steps[2], r.steps[2]);
    assert r.steps == [r.steps[0], r.steps[1], r.steps[2]];
  }

  /**
   * A completed Link: the filer and the cache hold the existing and the new
   * name as the same entry apart from name and directory flag, with one
   * non-empty hardlink id and one counter, and the returned node holds the
   * new entry with the mount's own owner and group.
   */
  lemma LinkSucceeds(opt: MountOptions, oldDir: string, newDir: string, newName: string,
                     e: Entry, random: seq<uint8>, replies: Replies, reload: Option<Errno>, s: Store)
    requires |random| == 16 && !opt.readOnly && replies.updateOk && replies.createOk
    requires FullPath(newDir, newName) != FullPath(oldDir, e.name)
    ensures var r := LinkSpec(opt, oldDir, newDir, newName, Loaded(Some(e)), random, replies, reload);
      var oldPath := FullPath(oldDir, e.name);
      var newPath := FullPath(newDir, newName);
      var stamped := HardLinkStamp(e, random);
      var sent := stamped.(attributes := opt.ids.ToFiler(stamped.attributes));
      var t := Apply(s, r.steps);
      && r.err == reload
      && t == Store(s.remote[oldPath := sent][newPath := NewLinkEntry(sent, newName)],
                    s.cache[oldPath := sent][newPath := NewLinkEntry(sent, newName)])
      && oldPath in t.remote && newPath in t.remote && oldPath in t.cache && newPath in t.cache
      && t.cache[oldPath] == t.remote[oldPath] && t.cache[newPath] == t.remote[newPath]
      && t.remote[newPath] == NewLinkEntry(t.remote[oldPath], newName)
      && |t.remote[oldPath].hardLinkId| > 0
      && t.remote[oldPath].hardLinkId == HardLinkStamp(e, random).hardLinkId
      && t.remote[oldPath].hardLinkCounter == HardLinkStamp(e, random).hardLinkCounter
      && (reload.None? && opt.ids.Inverse() ==>
            r.created == Some(NewLinkEntry(HardLinkStamp(e, random), newName)))
  {
    var r := LinkSpec(opt, oldDir, newDir, newName, Loaded(Some(e)), random, replies, reload);
    ApplyUpToFour(s, r.steps[0], r.steps[1], r.steps[2], r.steps[3]);
    assert r.steps == [r.steps[0], r.steps[1], r.steps[2], r.steps[3]];
    if reload.None? && opt.ids.Inverse() {
      AttributesRoundTrip(opt.ids, HardLinkStamp(e, random).attributes);
    }
  }

  /** Every request Link sends carries exactly one signature, the mount's own. */
  lemma LinkRequestsSigned(opt: MountOptions, oldDir: string, newDir: string, newName: string,
                           load: Load, random: seq<uint8>, replies: Replies, reload: Option<Errno>)
    requires |random| == 16
    ensures var r := LinkSpec(opt, oldDir, newDir, newName, load, random, replies, reload);
      forall i :: 0 <= i < |r.steps| && r.steps[i].IsRemote() ==> r.steps[i].Signatures() == [opt.signature]
  {
  }

  /**
   * Link writes the cache only right after the filer acknowledged the same
   * entry, so it never puts the cache ahead of the filer at any path.
   */
  lemma LinkKeepsCacheBehind(opt: MountOptions, oldDir: string, newDir: string, newName: string,
                             load: Load, random: seq<uint8>, replies: Replies, reload: Option<Errno>,
                             s: Store, p: FullPath)
    requires |random| == 16
    ensures var r := LinkSpec(opt, oldDir, newDir, newName, load, random, replies, reload);
      && WellOrdered(r.steps)
      && (CacheBehind(s, p) ==> CacheBehind(Apply(s, r.steps), p))
  {
    var r := LinkSpec(opt, oldDir, newDir, newName, load, random, replies, reload);
    var st := r.steps;
    if |st| >= 2 {
      assert st[..|st| - 2] == st[..1] || st[..|st| - 2] == st[..2];
      assert st[..2][..1] == st[..1] && st[..1][..0] == [];
    } else if |st| == 1 {
      assert st[..0] == [];
    }
    WellOrderedSyncsCache(s, st, p);
  }

  /** The entry after `k` successive Links of one node, each drawing its own random bytes. */
  function LinkRepeatedly(e: Entry, randoms: seq<seq<uint8>>): Entry
    requires forall i :: 0 <= i < |randoms| ==> |randoms[i]| == 16
    decreases |randoms|
  {
    if randoms == [] then e
    else HardLinkStamp(LinkRepeatedly(e, randoms[..|randoms| - 1]), randoms[|randoms| - 1])
  }

  lemma {:induction false} LinkRepeatedlyInGroup(e: Entry, randoms: seq<seq<uint8>>)
    requires forall i :: 0 <= i < |randoms| ==> |randoms[i]| == 16
    requires |e.hardLinkId| != 0 && e.hardLinkCounter as int + |randoms| <= MaxInt32 as int
    ensures LinkRepeatedly(e, randoms).hardLinkId == e.hardLinkId
    ensures LinkRepeatedly(e, randoms).hardLinkCounter as int == e.hardLinkCounter as int + |randoms|
    decreases |randoms|
  {
    if randoms != [] {
      LinkRepeatedlyInGroup(e, randoms[..|randoms| - 1]);
    }
  }

  /**
   * After `k` Links of a plain entry the group has one id, drawn at the first
   * Link, and the counter is `k + 1`: one more than the Links made.
   */
  lemma {:induction false} LinkCountsNames(e: Entry, randoms: seq<seq<uint8>>)
    requires forall i :: 0 <= i < |randoms| ==> |randoms[i]| == 16
    requires |e.hardLinkId| == 0 && 1 <= |randoms| < MaxInt32 as int
    ensures LinkRepeatedly(e, randoms).hardLinkId == randoms[0] + [HardLinkMarker]
    ensures LinkRepeatedly(e, randoms).hardLinkCounter as int == |randoms| + 1
  {
    var first := LinkRepeatedly(e, randoms[..1]);
    assert randoms[..1][..0] == [] && randoms[..1][0] == randoms[0];
    assert LinkRepeatedly(e, randoms[..1][..0]) == e;
    assert first == HardLinkStamp(e, randoms[0]);
    var rest := randoms[1..];
    assert forall k :: 0 <= k <= |rest| ==> randoms[..1 + k] == randoms[..1] + rest[..k];
    LinkRepeatedlyAppend(e, randoms[..1], rest);
    assert randoms[..1] + rest == randoms;
    LinkRepeatedlyInGroup(first, rest);
  }

  /** Linking through a list of draws is linking through its two parts one after the other. */
  lemma {:induction false} LinkRepeatedlyAppend(e: Entry, xs: seq<seq<uint8>>, ys: seq<seq<uint8>>)
    requires forall i :: 0 <= i < |xs| ==> |xs[i]| == 16
    requires forall i :: 0 <= i < |ys| ==> |ys[i]| == 16
    ensures forall i :: 0 <= i < |xs + ys| ==> |(xs + ys)[i]| == 16
    ensures LinkRepeatedly(e, xs + ys) == LinkRepeatedly(LinkRepeatedly(e, xs), ys)
    decreases |ys|
  {
    if ys != [] {
      var n := |ys|;
      assert (xs + ys)[..|xs + ys| - 1] == xs + ys[..n - 1];
      LinkRepeatedlyAppend(e, xs, ys[..n - 1]);
    } else {
      assert xs + ys == xs;
    }
  }

  /**
   * The entry Symlink creates: a file (not a directory) with no chunks and
   * no hardlink id, owned by the caller, whose mode is the symlink bits the
   * umask leaves and whose attributes store the target.
   */
  function SymlinkEntry(name: string, target: string, uid: uint32, gid: uint32,
                        mtime: int, crtime: int, umask: bv32): (e: Entry)
    ensures e.name == name && !e.isDirectory && e.chunks == [] && e.hardLinkId == []
    ensures e.attributes.symlinkTarget == target && e.attributes.uid == uid && e.attributes.gid == gid
    ensures e.attributes.fileMode == SymlinkMode(umask)
    ensures e.attributes.fileMode & umask == 0
    ensures IsSymlink(e.attributes.fileMode) <==> !IsSymlink(umask)
    ensures e.attributes.mtime == mtime && e.attributes.crtime == crtime
    ensures e.extended == map[] && e.hardLinkCounter == 0
  {
    Entry(name, false, FuseAttributes(0, mtime, crtime, SymlinkMode(umask), uid, gid, target), [], map[], [], 0)
  }

  /** The result of Symlink: the error, the calls issued in order, and the entry of the returned node. */
  datatype SymlinkOutcome = SymlinkOutcome(err: Option<Errno>, steps: seq<Step>, node: Option<Entry>)

  /**
   * Create in `dir` a symlink `name` to `target`; `mtime` and `crtime` are two
   * separate readings of the clock.
   */
  function SymlinkSpec(opt: MountOptions, dir: string, name: string, target: string, uid: uint32, gid: uint32,
                       mtime: int, crtime: int, createOk: bool): (r: SymlinkOutcome)
    ensures r.node.Some? <==> !opt.readOnly
    ensures r.err.None? <==> !opt.readOnly && createOk
    ensures r.steps != [] <==> !opt.readOnly
    ensures |r.steps| == if opt.readOnly then 0 else if createOk then 2 else 1
  {
    if opt.readOnly then SymlinkOutcome(Some(EPERM), [], None)
    else
      var e := SymlinkEntry(name, target, uid, gid, mtime, crtime, opt.umask);
      var sent := e.(attributes := opt.ids.ToFiler(e.attributes));
      var create := CreateEntryRequest(dir, sent, [opt.signature]);
      SymlinkOutcome(
        if createOk then None else Some(EIO),
        [RemoteCreate(create, createOk)] + (if createOk then [CacheInsert(FullPath(dir, name), sent)] else []),
        Some(e.(attributes := opt.ids.ToLocal(sent.attributes))))
  }

  /** In read-only mode Symlink reports EPERM, returns no node and calls neither store. */
  lemma SymlinkReadOnly(opt: MountOptions, dir: string, name: string, target: string, uid: uint32, gid: uint32,
                        mtime: int, crtime: int, createOk: bool, s: Store)
    requires opt.readOnly
    ensures var r := SymlinkSpec(opt, dir, name, target, uid, gid, mtime, crtime, createOk);
      r.err == Some(EPERM) && r.node.None? && r.steps == [] && Apply(s, r.steps) == s
  {
  }

  /**
   * Symlink sends one signed create; the entry reaches the filer and the
   * cache together exactly when the filer accepts it, and a node is returned
   * even when it does not.
   */
  lemma SymlinkCreates(opt: MountOptions, dir: string, name: string, target: string, uid: uint32, gid: uint32,
                       mtime: int, crtime: int, createOk: bool, s: Store)
    requires !opt.readOnly
    ensures var r := SymlinkSpec(opt, dir, name, target, uid, gid, mtime, crtime, createOk);
      var p := FullPath(dir, name);
      var e := SymlinkEntry(name, target, uid, gid, mtime, crtime, opt.umask);
      var sent := e.(attributes := opt.ids.ToFiler(e.attributes));
      var t := Apply(s, r.steps);
      && r.node.Some?
      && (createOk ==> t == Store(s.remote[p := sent], s.cache[p := sent]))
      && (r.err.None? <==> createOk) && (r.err.Some? ==> r.err == Some(EIO))
      && r.steps[0].RemoteCreate? && r.steps[0].Signatures() == [opt.signature]
      && (createOk ==> p in t.remote && t.cache[p] == t.remote[p])
      && (!createOk ==> t == s)
      && WellOrdered(r.steps)
  {
    var r := SymlinkSpec(opt, dir, name, target, uid, gid, mtime, crtime, createOk);
    ApplyUpToFour(s, r.steps[0], r.steps[|r.steps| - 1], r.steps[0], r.steps[0]);
    assert createOk ==> r.steps == [r.steps[0], r.steps[1]];
  }

  /** Resolve a symlink: the loaded entry's target, or EINVAL when its mode lacks the symlink bit. */
  function Readlink(load: Result<Entry, Errno>): (r: Result<string, Errno>)
    ensures r.Success? <==> load.Success? && IsSymlink(load.value.attributes.fileMode)
    ensures r.Success? ==> r.value == load.value.attributes.symlinkTarget
    ensures r.Failure? ==> r.error == if load.Failure? then load.error else EINVAL
  {
    match load
    case Failure(err) => Failure(err)
    case Success(e) =>
      if !IsSymlink(e.attributes.fileMode) then Failure(EINVAL) else Success(e.attributes.symlinkTarget)
  }

  /**
   * Symlink then Readlink: both the returned node and the cached entry
   * resolve to exactly the target when the umask spares the symlink bit, and
   * to EINVAL when it clears it.
   */
  lemma SymlinkThenReadlink(opt: MountOptions, dir: string, name: string, target: string, uid: uint32, gid: uint32,
                            mtime: int, crtime: int, createOk: bool, s: Store)
    requires !opt.readOnly
    ensures var r := SymlinkSpec(opt, dir, name, target, uid, gid, mtime, crtime, createOk);
      var expected := if IsSymlink(opt.umask) then Failure(EINVAL) else Success(target);
      var t := Apply(s, r.steps);
      && r.node.Some? && Readlink(Success(r.node.value)) == expected
      && (createOk ==> FullPath(dir, name) in t.cache && Readlink(Success(t.cache[FullPath(dir, name)])) == expected)
  {
  }
}
