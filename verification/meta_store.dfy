/**
 * The two stores a metadata mutation touches: the filer (remote, authoritative)
 * and the mount's local meta cache (a mirror), both keyed by directory and name,
 * together with the log of the calls made on them and the order rules they follow.
 */
module MetaStore {
  import opened FilerPb

  /** A full path, kept as its directory and its last component. */
  datatype FullPath = FullPath(dir: string, name: string)

  /** Where an entry sent under `directory` lands (the key `filer.FromPbEntry` gives it). */
  function PathOf(directory: string, e: Entry): FullPath {
    FullPath(directory, e.name)
  }

  datatype Store = Store(remote: map<FullPath, Entry>, cache: map<FullPath, Entry>)

  /** One call on either store, in the order issued; a remote call records whether the filer accepted it. */
  datatype Step =
    | RemoteUpdate(update: UpdateEntryRequest, ok: bool)
    | RemoteCreate(create: CreateEntryRequest, ok: bool)
    | CacheUpdate(path: FullPath, entry: Entry)
    | CacheInsert(path: FullPath, entry: Entry)
  {
    predicate IsRemote() {
      RemoteUpdate? || RemoteCreate?
    }

    /** A remote call the filer acknowledged. */
    predicate Acked() {
      IsRemote() && ok
    }

    function Target(): FullPath {
      match this
      case RemoteUpdate(req, _) => PathOf(req.directory, req.entry)
      case RemoteCreate(req, _) => PathOf(req.directory, req.entry)
      case CacheUpdate(p, _) => p
      case CacheInsert(p, _) => p
    }

    function Written(): Entry {
      match this
      case RemoteUpdate(req, _) => req.entry
      case RemoteCreate(req, _) => req.entry
      case CacheUpdate(_, e) => e
      case CacheInsert(_, e) => e
    }

    function Signatures(): seq<int32>
      requires IsRemote()
    {
      match this
      case RemoteUpdate(req, _) => req.signatures
      case RemoteCreate(req, _) => req.signatures
    }
  }

  /**
   * The effect of one call: an accepted remote call stores the entry at its
   * path in the filer, a rejected one changes nothing, and a cache call stores
   * the entry at its path in the cache.
   */
  function ApplyStep(s: Store, st: Step): (r: Store)
    ensures st.Acked() ==> r == s.(remote := s.remote[st.Target() := st.Written()])
    ensures st.IsRemote() && !st.ok ==> r == s
    ensures !st.IsRemote() ==> r == s.(cache := s.cache[st.Target() := st.Written()])
  {
    if st.IsRemote() then
      if st.ok then s.(remote := s.remote[st.Target() := st.Written()]) else s
    else
      s.(cache := s.cache[st.Target() := st.Written()])
  }

  /** The stores after a sequence of calls, applied first to last. */
  function Apply(s: Store, steps: seq<Step>): Store
    decreases |steps|
  {
    if steps == [] then s else ApplyStep(Apply(s, steps[..|steps| - 1]), steps[|steps| - 1])
  }

  lemma ApplySnoc(s: Store, steps: seq<Step>, st: Step)
    ensures Apply(s, steps + [st]) == ApplyStep(Apply(s, steps), st)
  {
  }

  /** Applying a short literal sequence of calls, one call at a time. */
  lemma ApplyUpToFour(s: Store, a: Step, b: Step, c: Step, d: Step)
    ensures Apply(s, [a]) == ApplyStep(s, a)
    ensures Apply(s, [a, b]) == ApplyStep(ApplyStep(s, a), b)
    ensures Apply(s, [a, b, c]) == ApplyStep(ApplyStep(ApplyStep(s, a), b), c)
    ensures Apply(s, [a, b, c, d]) == ApplyStep(ApplyStep(ApplyStep(ApplyStep(s, a), b), c), d)
  {
    ApplySnoc(s, [], a);
    assert [] + [a] == [a];
    ApplySnoc(s, [a], b);
    assert [a] + [b] == [a, b];
    ApplySnoc(s, [a, b], c);
    assert [a, b] + [c] == [a, b, c];
    ApplySnoc(s, [a, b, c], d);
    assert [a, b, c] + [d] == [a, b, c, d];
  }

  /** The paths the filer acknowledged a write to. */
  function AckedTargets(steps: seq<Step>): set<FullPath>
    decreases |steps|
  {
    if steps == [] then {}
    else
      var last := steps[|steps| - 1];
      AckedTargets(steps[..|steps| - 1]) + (if last.Acked() then {last.Target()} else {})
  }

  /**
   * Cache after remote: every cache write comes right after the filer
   * acknowledged the same entry at the same path, and every acknowledged
   * remote write is mirrored that way.
   */
  ghost predicate WellOrdered(steps: seq<Step>)
    decreases |steps|
  {
    if steps == [] then true
    else
      var n := |steps|;
      if steps[n - 1].IsRemote() then
        !steps[n - 1].ok && WellOrdered(steps[..n - 1])
      else
        && n >= 2
        && steps[n - 2].Acked()
        && steps[n - 2].Target() == steps[n - 1].Target()
        && steps[n - 2].Written() == steps[n - 1].Written()
        && WellOrdered(steps[..n - 2])
  }

  /** At `p` the cache is not ahead of the filer: whatever it holds, the filer holds too. */
  ghost predicate CacheBehind(s: Store, p: FullPath) {
    p in s.cache ==> p in s.remote && s.cache[p] == s.remote[p]
  }

  /**
   * Calls issued in the well-ordered way never put the cache ahead of the
   * filer, leave untouched every path the filer did not acknowledge, and
   * leave the two stores agreeing at every path it did.
   */
  lemma {:induction false} WellOrderedSyncsCache(s: Store, steps: seq<Step>, p: FullPath)
    requires WellOrdered(steps)
    ensures CacheBehind(s, p) ==> CacheBehind(Apply(s, steps), p)
    ensures p in AckedTargets(steps) ==>
      p in Apply(s, steps).cache && CacheBehind(Apply(s, steps), p)
    ensures p !in AckedTargets(steps) ==>
      (p in Apply(s, steps).remote <==> p in s.remote) && (p in Apply(s, steps).cache <==> p in s.cache)
    decreases |steps|
  {
    if steps != [] {
      var n := |steps|;
      var init := steps[..n - 1];
      if steps[n - 1].IsRemote() {
        WellOrderedSyncsCache(s, init, p);
        assert Apply(s, steps) == Apply(s, init);
        assert AckedTargets(steps) == AckedTargets(init);
      } else {
        var pre := steps[..n - 2];
        assert init[..n - 2] == pre;
        WellOrderedSyncsCache(s, pre, p);
        var mid := Apply(s, pre);
        assert Apply(s, init) == ApplyStep(mid, steps[n - 2]);
        assert AckedTargets(init) == AckedTargets(pre) + {steps[n - 2].Target()};
        assert AckedTargets(steps) == AckedTargets(init);
      }
    }
  }
}
