/**
 * Translation of owner and group identifiers between the mount's local id
 * space and the filer's id space. Ids without a mapping pass through.
 */
module IdMapping {
  import opened FilerPb

  datatype IdMapper = IdMapper(localToFiler: map<uint32, uint32>, filerToLocal: map<uint32, uint32>) {

    function LocalToFiler(id: uint32): uint32 {
      if id in localToFiler then localToFiler[id] else id
    }

    function FilerToLocal(id: uint32): uint32 {
      if id in filerToLocal then filerToLocal[id] else id
    }

    /**
     * The two tables are inverse to each other and rename the same set of ids,
     * so an id outside the tables means the same thing on both sides.
     */
    ghost predicate Inverse() {
      && localToFiler.Keys == filerToLocal.Keys
      && (forall l :: l in localToFiler ==> localToFiler[l] in filerToLocal && filerToLocal[localToFiler[l]] == l)
      && (forall f :: f in filerToLocal ==> filerToLocal[f] in localToFiler && localToFiler[filerToLocal[f]] == f)
    }
  }

  /** One mapper for user ids and one for group ids. */
  datatype UidGidMapper = UidGidMapper(uids: IdMapper, gids: IdMapper) {

    ghost predicate Inverse() {
      uids.Inverse() && gids.Inverse()
    }

    /** Rewrite the owner and group outward, before a remote call; nothing else changes. */
    function ToFiler(a: FuseAttributes): (r: FuseAttributes)
      ensures r.(uid := a.uid, gid := a.gid) == a
    {
      a.(uid := uids.LocalToFiler(a.uid), gid := gids.LocalToFiler(a.gid))
    }

    /** Rewrite the owner and group inward, after a remote call; nothing else changes. */
    function ToLocal(a: FuseAttributes): (r: FuseAttributes)
      ensures r.(uid := a.uid, gid := a.gid) == a
    {
      a.(uid := uids.FilerToLocal(a.uid), gid := gids.FilerToLocal(a.gid))
    }
  }

  /** A local id survives the trip out to the filer and back. */
  lemma IdRoundTrip(m: IdMapper, id: uint32)
    requires m.Inverse()
    ensures m.FilerToLocal(m.LocalToFiler(id)) == id
    ensures m.LocalToFiler(m.FilerToLocal(id)) == id
  {
  }

  /** Translating attributes out and back in restores them exactly, for every owner and group including 0. */
  lemma AttributesRoundTrip(m: UidGidMapper, a: FuseAttributes)
    requires m.Inverse()
    ensures m.ToLocal(m.ToFiler(a)) == a
    ensures m.ToFiler(m.ToLocal(a)) == a
  {
  }

  /**
   * Why `Inverse` asks for equal key sets: a table renaming local 1000 to
   * filer 2000 alone sends local 2000 (unmapped, so passed through as 2000)
   * back as 1000.
   */
  lemma OneSidedRenamingBreaksRoundTrip()
    ensures var m := IdMapper(map[1000 := 2000], map[2000 := 1000]);
      !m.Inverse() && m.FilerToLocal(m.LocalToFiler(2000)) == 1000
  {
  }
}
