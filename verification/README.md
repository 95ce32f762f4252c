# Hardlink and symlink metadata mutations of the SeaweedFS FUSE mount

This project models, in Dafny, how the FUSE mount of SeaweedFS (`weed/filesys/dir_link.go`)
creates hardlinks and symlinks and resolves symlinks. The authoritative metadata lives in
the filer (a remote entry store); the mount mirrors it in a local meta cache. Both are keyed
by directory and name.

- `Dir.Link` turns an existing file entry into a member of a hardlink group. An entry
  without a hardlink id gets 16 random bytes followed by the marker byte `0x01`, and its
  counter is set to 1. The counter is then incremented. The stamped entry is updated on
  the filer and mirrored into the cache. After that a second entry is created on the filer
  and mirrored: it copies the attributes, chunks, extended attributes, hardlink id and
  counter under the new name.
- `Dir.Symlink` builds an entry whose mode is `(0777 | ModeSymlink) &^ umask` and whose
  attributes store the target. It creates the entry on the filer, mirrors it into the cache
  only when the filer accepts it, and returns a node together with the error.
- `File.Readlink` returns the stored target when the mode's symlink bit is set, and
  `EINVAL` otherwise.

Layout, one module per file:

- `wrappers.dfy` (`Wrappers`): `Option`, `Result`.
- `filer_pb.dfy` (`FilerPb`): `Entry`, `FuseAttributes`, the update and create requests, and
  Go's `uint8`/`uint32`/`int32`, including the `int32` increment with wrap-around.
- `file_mode.dfy` (`FileMode`): `os.ModeSymlink` and the symlink mode as `bv32` arithmetic.
- `id_mapping.dfy` (`IdMapping`): translation of owner and group ids between the local and
  the filer id space.
- `meta_store.dfy` (`MetaStore`): the two stores, the log of calls made on them (`Step`),
  their effect (`Apply`), and the "cache after remote" order (`WellOrdered`).
- `dir_link.dfy` (`DirLink`): the operations as functions of their inputs
  (`LinkSpec`, `SymlinkSpec`, `Readlink`) and the lemmas about them.
- `filesys.dfy` (`Filesys`): the mount state `Wfs` (filer map, cache map, call log) and the
  nodes `Dir` and `File`. `Dir.Link` and `Dir.Symlink` are imperative methods that update
  these in place. Each is proved to produce exactly the log, the stores, the node and the
  error its specification function gives.

Inputs the source takes from its environment are parameters:

- the filer's answer to each remote call (`Replies`, `createOk`);
- the random bytes and the clock readings;
- the lazy entry load (`Load`) and the reload of the new node.

In these places the model follows the code:

- The cache is written inside the remote-call callback, before the deferred reverse id
  translation runs (dir_link.go:78, 84, 90, 138, 145). So the cache receives the entry with
  filer-space owner and group, the same value the filer stored.
- The new link entry shares the old entry's attribute record (dir_link.go:65). Translating
  the create request's entry therefore also translates the entry sent by the update at
  line 80. Both requests carry the translated attributes, and both are translated back
  together afterwards.
- Symlink reads the clock twice (dir_link.go:124-125). `mtime` and `crtime` are separate
  inputs and are not claimed equal.

## Model

| member | source | states |
|---|---|---|
| `FilerPb.Inc32` | weed/filesys/dir_link.go:52 | the `int32` counter increment: old+1 below the maximum, congruent to old+1 modulo 2^32 always (it wraps) |
| `DirLink.HardLinkStamp` | weed/filesys/dir_link.go:22-52 | an entry without an id gets a 17-byte id: the 16 random bytes, then the marker 0x01; its counter ends at 2. Otherwise the id is kept and the counter is incremented. No other field changes |
| `DirLink.NewLinkEntry` | weed/filesys/dir_link.go:60-72 | the created entry is named `NewName`, is not a directory, and equals the stamped entry in every other field (attributes, chunks, extended, hardlink id, counter) |
| `DirLink.LinkSteps` | weed/filesys/dir_link.go:80-90 | Link's calls: the update first; a rejected update ends them (1 call), a rejected create after update and mirror gives 3, success 4; the create is the third; every cache write directly follows the acknowledged remote call for the same path |
| `DirLink.LinkSpec` | weed/filesys/dir_link.go:25-108 | Link as a function: no error iff the mount is writable, the entry loads non-nil, both calls are accepted and the reload succeeds; a node exactly when there is no error; remote/cache calls and the in-memory stamp exactly when the entry loaded; the Link* lemmas state the rest |
| `DirLink.LinkReadOnly` | weed/filesys/dir_link.go:27-29 | read-only mount: `EPERM`, no node, no call on filer or cache, stores unchanged |
| `DirLink.LinkLoadErrors` | weed/filesys/dir_link.go:38-45 | a load error is returned as is and a nil entry gives `EIO`, both before any remote or cache call |
| `DirLink.LinkStampIsKept` | weed/filesys/dir_link.go:47-83 | the in-memory entry keeps the new id and counter whatever the filer answers (nothing is undone); with inverse id tables its owner/group come back unchanged after the deferred translation |
| `DirLink.LinkUpdateRejected` | weed/filesys/dir_link.go:80-97 | update rejected: `EIO`, exactly one call (the rejected update), no create sent, filer and cache unchanged |
| `DirLink.LinkCreateRejected` | weed/filesys/dir_link.go:80-97 | partial failure: `EIO`; filer and cache both hold the stamped entry at the old path and nothing else changes (no rollback); a new path absent before stays absent from both |
| `DirLink.LinkSucceeds` | weed/filesys/dir_link.go:53-106 | success: filer and cache each become the old stores with the stamped entry (filer-space owner/group) at the old path and its renamed copy at the new path, nothing else changed; so they agree at both paths; the new entry is the old one renamed (same non-empty id, same counter, attributes, chunks, extended); the error is the reload's; the node holds the new entry in local ids |
| `DirLink.LinkRequestsSigned` | weed/filesys/dir_link.go:53-72 | every request Link sends carries exactly one signature, the mount's |
| `DirLink.LinkKeepsCacheBehind` | weed/filesys/dir_link.go:75-93 | Link's calls are well ordered (each cache write right after the filer acknowledged that entry at that path), so the cache is never put ahead of the filer at any path |
| `DirLink.LinkRepeatedlyInGroup` | weed/filesys/dir_link.go:48-52 | repeated Links of an entry already in a group keep its id and add one to the counter per Link (below the int32 maximum) |
| `DirLink.LinkCountsNames` | weed/filesys/dir_link.go:47-52 | after k >= 1 Links of a plain entry, the id is the first draw plus the marker and the counter is k+1 |
| `FileMode.SymlinkMode` | weed/filesys/dir_link.go:126 | the symlink mode has no umask bit, no bit outside 0777 and ModeSymlink, and every such bit the umask leaves; its symlink bit is set iff the umask's is clear |
| `DirLink.SymlinkEntry` | weed/filesys/dir_link.go:118-131 | the symlink entry is not a directory, has no chunks and no hardlink id, carries the caller's uid/gid, the target and the two clock readings, has an empty extended map and counter 0, and its mode is `SymlinkMode(umask)`, that is `(0777 or ModeSymlink) &^ umask` |
| `DirLink.SymlinkSpec` | weed/filesys/dir_link.go:110-154 | Symlink as a function: a node iff the mount is writable; no error iff writable and the create is accepted; one call on rejection, two on acceptance, none when read-only; the Symlink* lemmas state the rest |
| `DirLink.SymlinkReadOnly` | weed/filesys/dir_link.go:112-114 | read-only mount: `EPERM`, nil node, no call on filer or cache |
| `DirLink.SymlinkCreates` | weed/filesys/dir_link.go:135-152 | one signed create; if the filer accepts, filer and cache both become the old stores plus the symlink entry (filer-space owner/group) at its path, nothing else changed; otherwise `EIO` and stores unchanged; a node is returned in both cases; the calls are well ordered |
| `DirLink.Readlink` | weed/filesys/dir_link.go:156-169 | a load error is returned as is; `EINVAL` when the symlink bit is clear; otherwise the stored target, verbatim |
| `DirLink.SymlinkThenReadlink` | weed/filesys/dir_link.go:110-169 | Readlink on the node Symlink returns, and on the entry it caches, yields exactly the target when the umask spares the symlink bit and `EINVAL` when it does not |
| `IdMapping.UidGidMapper.ToFiler` | weed/filesys/dir_link.go:77 | outward translation changes only owner and group |
| `IdMapping.UidGidMapper.ToLocal` | weed/filesys/dir_link.go:78 | inward translation changes only owner and group |
| `IdMapping.IdRoundTrip` | weed/filesys/dir_link.go:77-78 | with inverse tables an id survives local -> filer -> local and filer -> local -> filer |
| `IdMapping.AttributesRoundTrip` | weed/filesys/dir_link.go:137-138 | translating attributes out and back restores them exactly, for any owner and group including 0 |
| `IdMapping.OneSidedRenamingBreaksRoundTrip` | weed/filesys/dir_link.go:77-78 | a table renaming local 1000 to filer 2000 alone is not inverse, and it sends local 2000 back as 1000 |
| `MetaStore.ApplyStep` | weed/filesys/dir_link.go:80-90 | an accepted remote call stores the entry at its path on the filer and changes nothing else; a rejected one changes nothing; a cache call stores the entry at its path in the cache and changes nothing else |
| `MetaStore.WellOrderedSyncsCache` | weed/filesys/dir_link.go:75-93 | well-ordered calls never put the cache ahead of the filer, leave filer and cache agreeing at every acknowledged path, and leave every other path's presence unchanged |
| `Filesys.Wfs.FilerUpdateEntry` | weed/filesys/dir_link.go:80 | the update is logged and, if accepted, replaces the filer entry at directory/name |
| `Filesys.Wfs.FilerCreateEntry` | weed/filesys/dir_link.go:86 | the create is logged and, if accepted, stores the entry on the filer |
| `Filesys.Wfs.MetaCacheUpdateEntry` | weed/filesys/dir_link.go:84 | the cache update is logged and stores the entry in the cache |
| `Filesys.Wfs.MetaCacheInsertEntry` | weed/filesys/dir_link.go:90 | the cache insert is logged and stores the entry in the cache |
| `Filesys.Wfs.LinkCallback` | weed/filesys/dir_link.go:75-93 | update, mirror, create, mirror, stopping at the first rejection; reports failure iff either call was rejected |
| `Filesys.Dir.Link` | weed/filesys/dir_link.go:25-108 | the in-place Link: error, call log, stores, returned node and the old node's entry are exactly as `LinkSpec` gives them (the lemmas above say what that means) |
| `Filesys.Dir.Symlink` | weed/filesys/dir_link.go:110-154 | the in-place Symlink: error, call log, stores and returned node are exactly as `SymlinkSpec` gives them |

## Left out

- `weed/storage/volume_create.go` is not part of this model: it only opens a file and logs.
- The gRPC transport and `WithFilerClient` are not modelled. The filer's answer to each call
  is an input. A connection failure before the callback runs is not modelled. Neither are
  the filer's own reasons for rejecting a call (not found, conflict).
- The bodies of `mapPbIdFromLocalToFiler`/`mapPbIdFromFilerToLocal` are not part of this
  model. They are modelled as one finite table per direction, for uids and for gids, and
  an id without an entry passes through. The round trip is proved under `Inverse`; `IdMapping.OneSidedRenamingBreaksRoundTrip` shows a table with a single renaming pair falls outside that proof. A nil
  `Attributes` record, which the translation skips, does not occur in the model.
- Pointer sharing in general is not modelled. Only its effect at line 65 is: both requests
  carry the same translated attributes, and both are translated back.
- `maybeLoadEntry`/`getEntry` are replaced by the `Load` input: a load error, or the entry
  the node holds after loading (nil gives `EIO`). The eager reload of the new node
  (lines 102-104) contributes only its error. The refreshed content it would load is not
  modelled.
- `DirLink.Readlink`: takes a loaded entry or a load error. A nil entry after a successful
  load is not modelled; the source would dereference nil there.
- `newFile` and the FUSE node and request types are reduced to the `File` and `Dir`
  classes.
- The failed type assertion at lines 31-34 is not modelled. It only logs, and the source
  would then dereference nil.
- Logging, `util.RandomBytes` and `time.Now()` are not modelled. Random bytes and clock
  readings are inputs.
- Concurrency between requests is not modelled.
- Full paths are pairs of directory and name rather than joined strings.
- The metadata cache's storage engine is not modelled. Its insert and update both store
  the entry at its path.
- `FuseAttributes` holds only the fields this code reads or writes, plus the file size.
- The error from `WithFilerClient` in Symlink is modelled as `EIO`, the value the callback
  returns.
- `DirLink.LinkSucceeds`: requires the new path to differ from the existing one. Linking a
  name onto itself would let the create overwrite the update. What the filer does there
  is outside this model.
