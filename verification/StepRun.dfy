/**
 The step in the form it is written in: `nukeTree`, `prepareTree`, `configure` and
 `run` (`cmd/kbuild-step/main.go`) as methods that change the mount.  Each proves
 that what it does is a walk through the state machine of `Protocol`, so whatever
 is proved of every history holds of it.
 */
module StepRun {
  import opened Wrappers
  import opened Text
  import opened Names
  import opened Identity
  import opened Kbuild
  import opened Protocol
  import opened MountInvariant
  import opened RunSteps
  import opened RunDone
  import opened RunInvariant
  import opened Histories
  import opened Sources

  // ---- a nuke ----

  predicate SortedNames(names: seq<string>) {
    forall k, l :: 0 <= k < l < |names| ==> Before(names[k], names[l])
  }

  /** `os.ReadDir`: the top-level names, in order. */
  ghost predicate Listing(m: Mount, names: seq<string>) {
    SortedNames(names) && forall p :: p in m ==> p[0] in names
  }

  class Mounted {
    var m: Mount

    constructor (m: Mount)
      ensures this.m == m
    {
      this.m := m;
    }

    /**
     Remove one name after the other; `fail` says of a name whether its removal
     fails, and which of its files it still got to.
     */
    method NukeTree(names: seq<string>, fail: string -> Option<set<FilePath>>) returns (ok: bool)
      requires Listing(m, names)
      modifies this
      ensures ok ==> m == OnlySrc(old(m))
      ensures ok <==> forall j :: 0 <= j < |names| && !HasPrefix(names[j], ".kbf-src") ==> fail(names[j]).None?
      ensures PartlyNuked(old(m), m)
    {
      hide Before;
      ghost var start := m;
      var j := 0;
      while j < |names|
        invariant 0 <= j <= |names|
        invariant forall k :: 0 <= k < j && !HasPrefix(names[k], ".kbf-src") ==> fail(names[k]).None?
        invariant forall p :: p in m ==> p in start && m[p] == start[p]
        invariant forall p :: p in start ==> (p in m <==> IsSrc(p) || p[0] !in names[..j])
      {
        var name := names[j];
        if !HasPrefix(name, ".kbf-src") {
          if fail(name).Some? {
            var gone := fail(name).value;
            m := map p | p in m && (p[0] != name || p !in gone) :: m[p];
            NukedInOrder(start, m, names, j + 1);
            return false;
          }
          m := map p | p in m && p[0] != name :: m[p];
        }
        assert names[..j + 1] == names[..j] + [name];
        j := j + 1;
      }
      assert names[..j] == names;
      NukedInOrder(start, m, names, j);
      assert m == OnlySrc(start);
      return true;
    }
  }

  lemma NukedInOrder(start: Mount, m: Mount, names: seq<string>, j: nat)
    requires Listing(start, names) && j <= |names|
    requires forall p :: p in m ==> p in start && m[p] == start[p]
    requires forall p :: p in start && (IsSrc(p) || p[0] !in names[..j]) ==> p in m
    requires forall p :: p in m && !IsSrc(p) ==> j == 0 || p[0] !in names[..j - 1]
    ensures PartlyNuked(start, m)
  {
    hide Before;
    assert forall l :: 0 <= l < j - 1 ==> names[..j - 1][l] == names[l];
    forall p, q | p in start && p !in m && q in m && !IsSrc(q) ensures !Before(q[0], p[0]) {
      var k :| 0 <= k < j && names[k] == p[0];
      var l :| 0 <= l < |names| && names[l] == q[0];
      assert l >= j - 1;
      BeforeIsStrict(p[0], q[0]);
      BeforeIsStrict(p[0], p[0]);
    }
  }

  // ---- a run ----

  /**
   What the run meets: what each call leaves when it fails, and what the fetch and the
   makes leave when they do not.  A pin that no tarball meets makes every fetch fail.
   */
  datatype Env = Env(
    cut: (Pc, Mount) -> Option<Mount>,
    source: Mount -> (Mount, Src),
    base: Mount -> Mount,
    oldDef: Mount -> Mount,
    make: Mount -> (Mount, string))

  ghost predicate EnvOk(w: World, i: Inputs, env: Env) {
    InputsOk(w, i)
    && (forall r: Run, m :: r.i == i && env.cut(r.pc, m).Some? ==> Partial(w, r, m, env.cut(r.pc, m).value))
    && (forall warm, m {:trigger env.cut(Acquire(warm), m)} ::
          env.cut(Acquire(warm), m).None? ==> Acquired(w, i, m, env.source(m).0, env.source(m).1))
    && (forall m :: Configured(m, env.base(m), i, w.baseMake(i.tool, ViewOf(m), i.words, Prior(m))))
    && (forall m :: Prior(m).Some? ==> Configured(m, env.oldDef(m), i, w.oldDef(i.tool, ViewOf(m), Prior(m).value)))
    && (forall m :: (w.needsConfig(i.job) ==> Prior(m).Some?) ==> Built(w, m, env.make(m).0, i, env.make(m).1))
  }

  /** A download that failed at once. */
  function Undone(m: Mount, i: Inputs): Mount {
    if !i.src.Local? && UrlOk(i.src.url) then m - {[PartAt(i.src)[0]]} else m
  }

  function Redone(w: World, m: Mount, i: Inputs): string {
    w.build(i.tool, ViewOf(m), if w.needsConfig(i.job) && Prior(m).Some? then Prior(m).value else "", i.job)
  }

  /** What a run without a network meets: every download fails, all else goes through. */
  function Offline(w: World, i: Inputs): Env {
    Env((pc: Pc, m: Mount) => if pc.Acquire? && !i.src.Local? then Some(Undone(m, i)) else None,
        m => (m, Context(if i.src.Local? then i.src.blob else "")),
        (m: Mount) => m[[CONFIG] := Data(w.baseMake(i.tool, ViewOf(m), i.words, Prior(m)))],
        (m: Mount) => m[[CONFIG] := Data(if Prior(m).Some? then w.oldDef(i.tool, ViewOf(m), Prior(m).value) else "")],
        (m: Mount) => (m - {[VERSION]}, Redone(w, m, i)))
  }

  lemma OfflineCut(w: World, r: Run, m: Mount)
    requires InputsOk(w, r.i) && r.pc.Acquire? && !r.i.src.Local?
    ensures Partial(w, r, m, Undone(m, r.i))
  {
    assert UrlOk(r.i.src.url);
    assert PartAt(r.i.src) == [PartAt(r.i.src)[0]];
  }

  /** Every input, a pin that no tarball meets included, has a world to run in. */
  lemma OfflineOk(w: World, i: Inputs)
    requires InputsOk(w, i)
    ensures EnvOk(w, i, Offline(w, i))
  {
    hide InputsOk, ViewOf, Trusted, Own, UrlOk, Undone, Partial;
    var env := Offline(w, i);
    forall r: Run, m | r.i == i && env.cut(r.pc, m).Some? ensures Partial(w, r, m, env.cut(r.pc, m).value) {
      OfflineCut(w, r, m);
    }
  }

  /** What is left when the seeds whose packing was cut off are swept. */
  function Sweep(m: Mount): Mount {
    map p | p in m && !(|p| == 1 && HasPrefix(p[0], ".kbf-seed-") && HasSuffix(p[0], ".tmp")) :: m[p]
  }

  lemma SweepIs(m: Mount)
    ensures Swept(m, Sweep(m))
  {
  }

  /** Of the files exactly the top-level ones named ".kbf-seed-*.tmp" go. */
  lemma SweptIff(m: Mount, p: FilePath)
    requires p in m
    ensures p !in Sweep(m) <==> exists middle :: p == [".kbf-seed-" + middle + ".tmp"]
  {
    var head, tail := ".kbf-seed-", ".tmp";
    if middle :| p == [head + middle + tail] {
      var name := head + middle + tail;
      assert name[..10] == head && name[|name| - 4..] == tail;
    }
    if p !in Sweep(m) {
      var name := p[0];
      assert |name| >= 14 by { NoOverlap(name); }
      assert name == name[..10] + name[10..|name| - 4] + name[|name| - 4..];
      assert name[..10] == head && name[|name| - 4..] == tail;
      assert p[0] == head + name[10..|name| - 4] + tail;
      assert p == [head + name[10..|name| - 4] + tail];
    }
  }

  lemma NoOverlap(name: string)
    requires HasPrefix(name, ".kbf-seed-") && HasSuffix(name, ".tmp")
    ensures |name| >= 14
  {
    assert name[|name| - 4] == '.' && name[0] == '.' && forall k :: 0 < k < 10 ==> ".kbf-seed-"[k] != '.';
    assert name[|name| - 3] == 't';
  }

  /** The inputs pin a hash that no tarball of the world has. */
  ghost predicate NoTarball(w: World, i: Inputs) {
    i.src.Pinned? && forall b :: b in w.blobs ==> w.sha(b) != i.src.sum
  }

  lemma NotAcquired(w: World, i: Inputs, m: Mount, m': Mount, src: Src)
    requires InputsOk(w, i) && NoTarball(w, i)
    ensures !Acquired(w, i, m, m', src)
  {
  }

  lemma SourceThere(w: World, i: Inputs, env: Env, pc: Pc, m: Mount)
    requires EnvOk(w, i, env) && pc.Acquire? && env.cut(pc, m).None?
    ensures Acquired(w, i, m, env.source(m).0, env.source(m).1)
  {
    assert pc == Acquire(pc.warm);
  }

  lemma CutBegin(w: World, r: Run, m: Mount, m': Mount)
    requires InputsOk(w, r.i) && r.pc == Begin && Partial(w, r, m, m')
    ensures SameInside(m, m')
  {
    forall p | !Aside(p) ensures Get(m', p) == Get(m, p) {}
    SameInsideIf(m, m');
  }

  lemma SweepSame(m: Mount)
    ensures SameInside(m, Sweep(m)) && (Present(Sweep(m)) <==> Present(m))
    ensures forall text :: Holds(Sweep(m), STAMP, text) <==> Holds(m, STAMP, text)
  {
    hide IsSrc, Own, Before, AfterStamp, Skipped;
    OwnNames();
    forall p | !Aside(p) ensures Get(Sweep(m), p) == Get(m, p) {}
    SameInsideIf(m, Sweep(m));
    assert Get(Sweep(m), [STAMP]) == Get(m, [STAMP]) && Get(Sweep(m), [MAKEFILE]) == Get(m, [MAKEFILE]);
  }

  lemma NoMakefile(m: Mount)
    ensures !Present(OnlySrc(m))
  {
    hide IsSrc, Own, Before, AfterStamp, Aside, Skipped;
    OwnNames();
  }

  // ---- the completed steps of a preparation ----

  lemma BeginCompletes(w: World, store: Store, r: Run, m: Mount, m': Mount)
    requires InputsOk(w, r.i) && r.pc == Begin && Swept(m, m')
    ensures Complete(w, store, r, m, m', To(r, AfterBegin(w, m', r.i)), Quiet)
  {
    hide InputsOk, Swept, AfterBegin;
  }

  function AfterNuke(w: World, store: Store, r: Run): Pc
    requires r.pc.Nuke?
  {
    match r.pc.why
    case Replace => Nuke(Clear)
    case Clear => AfterClear(w, store, r)
    case Discard => ColdPc(r)
  }

  lemma NukeCompletes(w: World, store: Store, r: Run, m: Mount)
    requires InputsOk(w, r.i) && r.pc.Nuke?
    ensures Complete(w, store, r, m, OnlySrc(m), To(r, AfterNuke(w, store, r)), Quiet)
  {
    hide InputsOk, OnlySrc, AfterClear, ColdPc;
  }

  lemma PullCompletes(w: World, store: Store, r: Run, m: Mount)
    requires InputsOk(w, r.i) && r.pc.Pull?
    ensures Complete(w, store, r, m, OnlySrc(m) + Quarantined(r.pc.pulled), To(r, Compare(r.pc.pulled)), Quiet)
  {
    hide InputsOk, OnlySrc, Quarantined;
  }

  lemma CompareCompletes(w: World, store: Store, r: Run, m: Mount)
    requires InputsOk(w, r.i) && r.pc.Compare?
    ensures Complete(w, store, r, m, m - {[SEED_STAMP]},
      To(r, if Holds(m, SEED_STAMP, Want(w, r.i)) then WriteStamp else Nuke(Discard)), Quiet)
  {
    hide InputsOk, Holds, Want;
  }

  lemma StampCompletes(w: World, store: Store, r: Run, m: Mount)
    requires InputsOk(w, r.i) && r.pc == WriteStamp
    ensures var m' := m[[STAMP] := Data(Want(w, r.i))];
      Complete(w, store, r, m, m', To(r, if Present(m') then Configure else ColdPc(r)), Quiet)
  {
    hide InputsOk, Present, Want, ColdPc;
  }

  lemma ExtractCompletes(w: World, store: Store, r: Run, m: Mount, b: string)
    requires InputsOk(w, r.i) && r.pc == Extract && r.src.Some? && Reads(m, r.src.value, b) && w.unpack(b).Some?
    ensures Complete(w, store, r, m, OnlySrc(m) + FromTree(w.unpack(b).value),
      To(r, if r.i.patches.Some? then Patch(w.unpack(b).value) else WriteStamp), Quiet)
  {
    hide InputsOk, OnlySrc, FromTree, Reads;
    var pc := if r.i.patches.Some? then Patch(w.unpack(b).value) else WriteStamp;
    assert Extracted(w, m, OnlySrc(m) + FromTree(w.unpack(b).value), r, pc);
  }

  lemma PatchCompletes(w: World, store: Store, r: Run, m: Mount)
    requires InputsOk(w, r.i) && r.pc.Patch? && r.i.patches.Some? && w.patch(r.pc.tree, r.i.patches.value).Some?
    ensures Complete(w, store, r, m, OnlySrc(m) + FromTree(w.patch(r.pc.tree, r.i.patches.value).value), To(r, WriteStamp), Quiet)
  {
    hide InputsOk, OnlySrc, FromTree;
  }

  /** A stamped tree has its Makefile. */
  lemma StampedPresent(w: World, m: Mount, b: string, t: Source)
    requires TreeOk(t)
    ensures Present((OnlySrc(m) + FromTree(t))[[STAMP] := Data(b)])
  {
    hide Own, Skipped;
  }

  // ---- when nothing goes wrong ----

  /** No call fails of itself: what is left to fail is what the inputs cannot give. */
  ghost predicate Uncut(env: Env) {
    forall pc, m {:trigger env.cut(pc, m)} :: env.cut(pc, m).None?
  }

  /** The mount has the tree the inputs ask for. */
  predicate Warm(w: World, m: Mount, i: Inputs) {
    Present(m) && Holds(m, STAMP, Want(w, i))
  }

  predicate HasSeed(w: World, store: Store, i: Inputs) {
    i.seed.Some? && LocOf(w, i) in store
  }

  /** What the stored seed is once it is unpacked. */
  function SeedOf(w: World, store: Store, i: Inputs): Mount
    requires HasSeed(w, store, i)
  {
    Quarantined(store[LocOf(w, i)])
  }

  /** A seed is stored whose quarantined stamp is the one the inputs want. */
  predicate SeedFits(w: World, store: Store, i: Inputs) {
    HasSeed(w, store, i) && Holds(SeedOf(w, store, i), SEED_STAMP, Want(w, i)) && Present(SeedOf(w, store, i))
  }

  /** The mount `c` with the seed unpacked over its cached source, stamped if its stamp is the wanted one and discarded if not. */
  function Hydrated(w: World, i: Inputs, c: Mount, seed: Mount): Mount {
    var m := (OnlySrc(c) + seed) - {[SEED_STAMP]};
    if Holds(OnlySrc(c) + seed, SEED_STAMP, Want(w, i)) then m[[STAMP] := Data(Want(w, i))] else OnlySrc(m)
  }

  /** A mount without a tree as the run finds it when it comes to fetch the tarball. */
  function Cleared(w: World, store: Store, i: Inputs, m: Mount): Mount {
    if HasSeed(w, store, i) then Hydrated(w, i, OnlySrc(m), SeedOf(w, store, i)) else OnlySrc(m)
  }

  /** The tarball the run gets hold of. */
  function Tarball(w: World, store: Store, i: Inputs, env: Env, m: Mount): string {
    env.source(if Present(m) then Sweep(m) else Cleared(w, store, i, Sweep(m))).1.blob
  }

  /** A tree can be had: it is there, a seed has it, or the tarball unpacks and the series applies. */
  predicate Preparable(w: World, store: Store, i: Inputs, env: Env, m: Mount) {
    || Warm(w, m, i)
    || SeedFits(w, store, i)
    || TreeOf(w, Tarball(w, store, i, env, m), i.patches).Some?
  }

  /** Where the configuration of the prepared tree comes from. */
  function Origins(w: World, store: Store, i: Inputs, m: Mount): Mount {
    if Warm(w, m, i) then m else if SeedFits(w, store, i) then SeedOf(w, store, i) else map[]
  }

  /** A marker vouches for the configuration, there is none, and the job needs one. */
  predicate Bereft(w: World, i: Inputs, m: Mount) {
    Holds(m, MARKER, ConfigId(i.words, i.config)) && Prior(m).None? && w.needsConfig(i.job)
  }

  predicate ConfigKept(m: Mount, m': Mount) {
    Get(m', [MARKER]) == Get(m, [MARKER]) && Get(m', [CONFIG]) == Get(m, [CONFIG])
  }

  /** For pinned and local inputs the tarball is the one they ask for. */
  lemma TarballIs(w: World, store: Store, i: Inputs, env: Env, m: Mount, b: string)
    requires WorldOk(w) && EnvOk(w, i, env) && Uncut(env) && Matches(w, i, b)
    ensures Tarball(w, store, i, env, m) == b
    ensures Preparable(w, store, i, env, m) <==> Warm(w, m, i) || SeedFits(w, store, i) || TreeOf(w, b, i.patches).Some?
  {
    hide Cleared, Sweep, SeedFits, Warm, TreeOf, Present;
    var at := if Present(m) then Sweep(m) else Cleared(w, store, i, Sweep(m));
    assert env.cut(Acquire(false), at).None?;
    assert Acquired(w, i, at, env.source(at).0, env.source(at).1);
  }

  lemma KeptBereft(w: World, i: Inputs, m: Mount, m': Mount)
    requires ConfigKept(m, m')
    ensures Bereft(w, i, m) <==> Bereft(w, i, m')
  {
    hide ConfigId;
    assert Holds(m, MARKER, ConfigId(i.words, i.config)) <==> Get(m, [MARKER]) == Some(Data(ConfigId(i.words, i.config)));
    assert Holds(m', MARKER, ConfigId(i.words, i.config)) <==> Get(m', [MARKER]) == Some(Data(ConfigId(i.words, i.config)));
  }

  lemma SweptConfig(m: Mount)
    ensures ConfigKept(m, Sweep(m))
  {
    assert !HasPrefix(MARKER, ".kbf-seed-") && !HasPrefix(CONFIG, ".kbf-seed-") by {
      assert MARKER[5] != ".kbf-seed-"[5] && CONFIG[1] != ".kbf-seed-"[1];
    }
  }

  /** Hydrated from a seed that fits, the mount is warm with the seed's configuration; from another, it has no tree. */
  lemma HydratedIs(w: World, i: Inputs, c: Mount, seed: Mount)
    ensures var m := Hydrated(w, i, c, seed);
      && (Holds(seed, SEED_STAMP, Want(w, i)) && Present(seed) ==> Warm(w, m, i) && ConfigKept(seed, m))
      && (Present(m) ==> Holds(seed, SEED_STAMP, Want(w, i)) && Present(seed))
  {
    hide IsSrc, Own, Before, AfterStamp, Aside, Skipped, Want;
    OwnNames();
    FarNames();
    assert Holds(OnlySrc(c) + seed, SEED_STAMP, Want(w, i)) <==> Holds(seed, SEED_STAMP, Want(w, i));
  }

  lemma FarNames()
    ensures [SEED_STAMP] != [MARKER] && [SEED_STAMP] != [CONFIG] && [SEED_STAMP] != [MAKEFILE] && [STAMP] != [MAKEFILE]
  {
    assert SEED_STAMP[5] != MARKER[5] && SEED_STAMP[1] != CONFIG[1] && SEED_STAMP[0] != MAKEFILE[0] && STAMP[0] != MAKEFILE[0];
  }

  /** Clearing and hydrating leaves a tree exactly if a stored seed fits, and then it is the wanted one. */
  lemma ClearedIs(w: World, store: Store, i: Inputs, m: Mount)
    ensures var c := Cleared(w, store, i, m);
      && (Present(c) <==> SeedFits(w, store, i))
      && (SeedFits(w, store, i) ==> Warm(w, c, i) && ConfigKept(SeedOf(w, store, i), c))
  {
    hide Hydrated, Quarantined, OnlySrc, LocOf, Warm, ConfigKept, Want;
    if HasSeed(w, store, i) {
      HydratedIs(w, i, OnlySrc(m), SeedOf(w, store, i));
      WarmPresent(w, Hydrated(w, i, OnlySrc(m), SeedOf(w, store, i)), i);
    } else {
      NoMakefile(m);
    }
  }

  lemma WarmPresent(w: World, m: Mount, i: Inputs)
    ensures Warm(w, m, i) ==> Present(m)
  {
  }

  /** A config target leaves a `.config`, and the marker beside it does not change that. */
  lemma MakesLeave(w: World, i: Inputs, env: Env, m: Mount)
    requires EnvOk(w, i, env)
    ensures Prior(env.base(m)).Some? && (Prior(m).Some? ==> Prior(env.oldDef(m)).Some?)
    ensures forall text, m': Mount {:trigger m'[[MARKER] := Data(text)]} :: Prior(m'[[MARKER] := Data(text)]) == Prior(m')
    ensures forall m': Mount :: Prior(m' - {[VERSION]}) == Prior(m') && Prior(m' - {[MARKER]}) == Prior(m')
  {
    hide InputsOk, ViewOf, Trusted, Partial, Made, Acquired;
    assert MARKER[1] != CONFIG[1] && VERSION[1] != CONFIG[1];
    assert Configured(m, env.base(m), i, w.baseMake(i.tool, ViewOf(m), i.words, Prior(m)));
  }

  /** A tree from a tarball has no configuration of its own. */
  lemma ExtractedBare(m: Mount, t: Source, want: string)
    requires TreeOk(t)
    ensures var m' := (OnlySrc(m) + FromTree(t))[[STAMP] := Data(want)];
      ConfigKept(map[], m') && Holds(m', STAMP, want) && Present(m')
  {
    hide IsSrc, Own, Before, AfterStamp, Aside, Skipped;
    OwnNames();
  }

  /** Along a run the acquired tarball stays where it was put. */
  lemma {:induction false} TraceSrc(w: World, id: string, store: Store, trace: seq<Slot>)
    requires WorldOk(w) && StoreSrc(store) && trace != [] && Follows(w, id, store, trace)
    requires trace[0].run.Some? && RunSrc(w, trace[0].m, trace[0].run.value)
    ensures var last := trace[|trace| - 1]; last.run.Some? ==> RunSrc(w, last.m, last.run.value)
  {
    hide WorldOk, RunSrc, StoreSrc, Complete, Partial;
    if |trace| > 1 {
      var n := |trace| - 1;
      var before := trace[..n];
      assert forall k :: 0 <= k < n ==> before[k] == trace[k];
      TraceSrc(w, id, store, before);
      StepSrc(w, id, store, trace[n - 1], trace[n]);
    }
  }

  lemma StepSrc(w: World, id: string, store: Store, s: Slot, s': Slot)
    requires WorldOk(w) && StoreSrc(store) && SlotNext(w, id, store, s, s', Quiet)
    requires s.run.Some? ==> RunSrc(w, s.m, s.run.value)
    ensures s'.run.Some? ==> s.run.Some? && RunSrc(w, s'.m, s'.run.value)
  {
    hide WorldOk, RunSrc, StoreSrc, Complete, Partial;
    if s'.run.Some? {
      var r := s.run.value;
      if r.pc.Begin? || r.pc.Acquire? || r.pc.Nuke? || r.pc.Pull? || r.pc.Compare? {
        PrepareSrc(w, store, s.m, s'.m, r, s'.run, Quiet);
      } else {
        BuildSrc(w, store, s.m, s'.m, r, s'.run, Quiet);
      }
    }
  }

  /** So the extraction reads what was acquired. */
  lemma SourceReads(w: World, id: string, store: Store, trace: seq<Slot>, m: Mount, r: Run)
    requires WorldOk(w) && StoreSrc(store) && trace != [] && Follows(w, id, store, trace) && InputsOk(w, r.i)
    requires trace[0] == Slot(r.before, Some(Run(r.i, Begin, None, r.before))) && trace[|trace| - 1] == Slot(m, Some(r))
    requires r.pc == Extract && r.src.Some?
    ensures Reads(m, r.src.value, r.src.value.blob)
  {
    hide WorldOk, StoreSrc, Follows;
    FirstSrc(w, r.before, r.i);
    TraceSrc(w, id, store, trace);
  }

  lemma FirstSrc(w: World, m: Mount, i: Inputs)
    requires InputsOk(w, i)
    ensures RunSrc(w, m, Run(i, Begin, None, m))
  {
  }

  class Step {
    const w: World
    const i: Inputs
    const env: Env
    const store: Store
    const before: Mount
    ghost const id: string
    var m: Mount
    var pc: Pc
    var src: Option<Src>
    ghost var trace: seq<Slot>

    /** The run as the state machine has it. */
    function Now(): Run
      reads this
    {
      Run(i, pc, src, before)
    }

    ghost predicate Running()
      reads this
    {
      && EnvOk(w, i, env) && WorldOk(w) && trace != [] && Follows(w, id, store, trace)
      && trace[0] == Slot(before, Some(Run(i, Begin, None, before)))
      && trace[|trace| - 1] == Slot(m, Some(Run(i, pc, src, before)))
    }

    ghost predicate Ended()
      reads this
    {
      trace != [] && Follows(w, id, store, trace) && trace[|trace| - 1] == Slot(m, None)
    }

    /** However the run stands, the trace leads to this mount. */
    ghost predicate Traced()
      reads this
    {
      trace != [] && Follows(w, id, store, trace) && trace[|trace| - 1].m == m
    }

    constructor (w: World, i: Inputs, env: Env, store: Store, m: Mount, ghost id: string)
      requires EnvOk(w, i, env) && WorldOk(w)
      ensures Running() && this.i == i && this.w == w && this.id == id && this.store == store && this.env == env
      ensures trace == [Slot(m, Some(Run(i, Begin, None, m)))] && pc == Begin && src == None && this.m == m
    {
      this.w, this.i, this.env, this.store, this.before, this.id := w, i, env, store, m, id;
      this.m, this.pc, this.src := m, Begin, None;
      this.trace := [Slot(m, Some(Run(i, Begin, None, m)))];
    }

    /** A step done: the mount and the program counter move on together. */
    method Advance(m': Mount, next: Pc)
      requires Running()
      requires Complete(w, store, Run(i, pc, src, before), m, m', Some(Run(i, next, src, before)), Quiet)
      modifies this
      ensures Running() && m == m' && pc == next && src == old(src)
      ensures old(trace) <= trace
    {
      hide Complete, Follows, WorldOk;
      FollowsMore(w, id, store, trace, Slot(m', Some(Run(i, next, src, before))));
      m, pc := m', next;
      trace := trace + [Slot(m', Some(Run(i, next, src, before)))];
    }

    /** The call about to be made goes through, or ends the run with a part of its effect. */
    method Attempt() returns (ok: bool)
      requires Running()
      modifies this
      ensures ok ==> Running() && m == old(m) && pc == old(pc) && src == old(src) && trace == old(trace) && env.cut(pc, m).None?
      ensures !ok ==> Ended() && old(trace) <= trace && Partial(w, old(Now()), old(m), m)
      ensures Uncut(env) ==> ok
    {
      hide Follows, Partial, WorldOk;
      ghost var r := Now();
      var left := env.cut(pc, m);
      if left.None? {
        return true;
      }
      assert Partial(w, r, m, left.value);
      FollowsMore(w, id, store, trace, Slot(left.value, None));
      m := left.value;
      trace := trace + [Slot(left.value, None)];
      return false;
    }

    /** A pin that no tarball meets ends the run here, with at most the download's own file changed. */
    method AcquireSource() returns (ok: bool)
      requires Running() && pc.Acquire?
      modifies this
      ensures old(trace) <= trace && (!ok ==> Ended())
      ensures ok ==> Running() && src == Some(env.source(old(m)).1) && pc == if old(pc).warm then Nuke(Replace) else Extract
      ensures Uncut(env) ==> ok
      ensures NoTarball(w, i) ==> !ok
      ensures !ok ==> SameInside(old(m), m)
    {
      hide Follows, WorldOk, Acquired, SameInside;
      ok := Attempt();
      if !ok {
        CutSource(w, old(Now()), old(m), m);
        return;
      }
      var (m', found) := env.source(m);
      assert Acquired(w, i, m, m', found) by { SourceThere(w, i, env, pc, m); }
      if NoTarball(w, i) { NotAcquired(w, i, m, m', found); }
      var next := if pc.warm then Nuke(Replace) else Extract;
      assert Complete(w, store, Run(i, pc, src, before), m, m', Some(Run(i, next, Some(found), before)), Quiet);
      FollowsMore(w, id, store, trace, Slot(m', Some(Run(i, next, Some(found), before))));
      m, pc, src := m', next, Some(found);
      trace := trace + [Slot(m', Some(Run(i, next, Some(found), before)))];
    }

    /** The cached source apart, nothing is left. */
    method DropTree() returns (ok: bool)
      requires Running() && pc.Nuke?
      modifies this
      ensures old(trace) <= trace && (!ok ==> Ended())
      ensures ok ==> Running() && m == OnlySrc(old(m)) && pc == AfterNuke(w, store, old(Now())) && src == old(src) && !Present(m)
      ensures Uncut(env) ==> ok
    {
      hide Complete, Follows, WorldOk, EnvOk, InputsOk, OnlySrc, AfterNuke;
      ok := Attempt();
      if ok {
        InputsThere(w, i, env);
        NukeCompletes(w, store, Now(), m);
        NoMakefile(m);
        Advance(OnlySrc(m), AfterNuke(w, store, Now()));
      }
    }

    /** Hydrate from a seed and compare its stamp; a seed that is not for these inputs is discarded. */
    method Hydrate(pulled: Mount) returns (ok: bool)
      requires Running() && pc == Pull(pulled)
      modifies this
      ensures old(trace) <= trace && (!ok ==> Ended())
      ensures ok ==> Running() && src == old(src) && pc == if Present(m) then Pc.Configure else ColdPc(Now())
      ensures ok ==> m == Hydrated(w, i, old(m), Quarantined(pulled))
      ensures Uncut(env) ==> ok
    {
      hide Complete, Follows, WorldOk, EnvOk, InputsOk, Want, OnlySrc, Quarantined, Present, Uncut;
      ok := Attempt();
      if !ok {
        return;
      }
      InputsThere(w, i, env);
      PullCompletes(w, store, Now(), m);
      Advance(OnlySrc(m) + Quarantined(pulled), Compare(pulled));
      var same := Holds(m, SEED_STAMP, Want(w, i));
      CompareCompletes(w, store, Now(), m);
      Advance(m - {[SEED_STAMP]}, if same then WriteStamp else Nuke(Discard));
      if same {
        ok := Stamped();
      } else {
        ok := DropTree();
      }
    }

    method Stamped() returns (ok: bool)
      requires Running() && pc == WriteStamp
      modifies this
      ensures old(trace) <= trace && (!ok ==> Ended())
      ensures ok ==> Running() && src == old(src) && m == old(m)[[STAMP] := Data(Want(w, i))]
      ensures ok ==> pc == if Present(m) then Pc.Configure else ColdPc(Now())
      ensures Uncut(env) ==> ok
    {
      hide Complete, Follows, WorldOk, EnvOk, InputsOk, Want, Present, Uncut;
      ok := Attempt();
      if ok {
        InputsThere(w, i, env);
        StampCompletes(w, store, Now(), m);
        var stamped := m[[STAMP] := Data(Want(w, i))];
        Advance(stamped, if Present(stamped) then Pc.Configure else ColdPc(Now()));
      }
    }

    /** Where the tarball is, there is something to read, or the run is over. */
    method ReadSource() returns (b: Option<string>)
      requires src.Some?
      ensures b.Some? ==> Reads(m, src.value, b.value)
      ensures Reads(m, src.value, src.value.blob) ==> b == Some(src.value.blob)
    {
      match src.value
      case Context(blob) => b := Some(blob);
      case Cached(path, _) => b := if path in m && m[path].Data? then Some(m[path].s) else None;
    }

    /** Extract, patch and stamp. */
    method ExtractSource() returns (ok: bool)
      requires Running() && pc == Extract && src.Some?
      modifies this
      ensures old(trace) <= trace && (ok ==> Running() && pc == Pc.Configure) && (!ok ==> Traced())
      ensures ok ==> Warm(w, m, i) && ConfigKept(map[], m)
      ensures StoreSrc(store) && Uncut(env) ==> (ok <==> TreeOf(w, old(src).value.blob, i.patches).Some?)
    {
      hide Complete, Follows, WorldOk, EnvOk, InputsOk, Want, OnlySrc, FromTree, Present, Reads, TreeOk, Uncut, StoreSrc, Holds, ConfigKept;
      InputsThere(w, i, env);
      if StoreSrc(store) { SourceReads(w, id, store, trace, m, Now()); }
      ok := Attempt();
      if !ok {
        return;
      }
      var b := ReadSource();
      if b.None? || w.unpack(b.value).None? {
        return false;
      }
      var tree := w.unpack(b.value).value;
      InputsThere(w, i, env);
      ExtractCompletes(w, store, Now(), m, b.value);
      TreesThere(w);
      if i.patches.None? {
        ExtractedBare(m, tree, Want(w, i));
        Advance(OnlySrc(m) + FromTree(tree), WriteStamp);
        ok := Stamped();
      } else {
        Advance(OnlySrc(m) + FromTree(tree), Patch(tree));
        ok := PatchTree(tree);
      }
    }

    /** The series, over the whole tree or not at all, and the stamp behind it. */
    method PatchTree(tree: Source) returns (ok: bool)
      requires Running() && pc == Patch(tree) && i.patches.Some?
      modifies this
      ensures old(trace) <= trace && (ok ==> Running() && pc == Pc.Configure) && (!ok ==> Traced())
      ensures ok ==> Warm(w, m, i) && ConfigKept(map[], m)
      ensures Uncut(env) ==> (ok <==> w.patch(tree, i.patches.value).Some?)
    {
      hide Complete, Follows, WorldOk, EnvOk, InputsOk, Want, OnlySrc, FromTree, Present, Reads, TreeOk, Uncut, Holds, ConfigKept;
      InputsThere(w, i, env);
      ok := Attempt();
      if !ok {
        return;
      }
      var patched := w.patch(tree, i.patches.value);
      if patched.None? {
        return false;
      }
      PatchCompletes(w, store, Now(), m);
      TreesThere(w);
      ExtractedBare(m, patched.value, Want(w, i));
      Advance(OnlySrc(m) + FromTree(patched.value), WriteStamp);
      ok := Stamped();
    }

    /** An absent tree: clear what a killed run left, and hydrate from the seed if there is one. */
    method ClearAndPull() returns (ok: bool)
      requires Running() && pc == Nuke(Clear)
      modifies this
      ensures old(trace) <= trace && (!ok ==> Ended())
      ensures ok ==> Running() && src == old(src) && pc == if Present(m) then Pc.Configure else ColdPc(Now())
      ensures ok ==> m == Cleared(w, store, i, old(m))
      ensures Uncut(env) ==> ok
    {
      hide Complete, Follows, WorldOk, EnvOk, InputsOk, Want, LocOf, OnlySrc, Present, Holds, Uncut, Hydrated;
      ok := DropTree();
      if ok && i.seed.Some? && LocOf(w, i) in store {
        ok := Hydrate(store[LocOf(w, i)]);
      }
    }

    /** Still no tree: the tarball, acquired if it was not already. */
    method Cold() returns (ok: bool)
      requires Running() && pc == ColdPc(Now())
      modifies this
      ensures old(trace) <= trace && (ok ==> Running() && pc == Pc.Configure) && (!ok ==> Traced())
      ensures ok ==> Warm(w, m, i) && ConfigKept(map[], m)
      ensures var b := (if old(src).Some? then old(src).value else env.source(old(m)).1).blob;
        StoreSrc(store) && Uncut(env) ==> (ok <==> TreeOf(w, b, i.patches).Some?)
    {
      hide Complete, Follows, WorldOk, EnvOk, InputsOk, Want, Uncut, StoreSrc, Warm, ConfigKept, TreeOf;
      if src.None? {
        ok := AcquireSource();
        if !ok {
          return;
        }
      }
      ok := ExtractSource();
    }

    /** A tree with another stamp: the replacement is acquired before the tree goes. */
    method ReplaceTree() returns (ok: bool)
      requires Running() && pc == Acquire(true)
      modifies this
      ensures old(trace) <= trace && (!ok ==> Ended())
      ensures NoTarball(w, i) ==> !ok && SameInside(old(m), m)
      ensures ok ==> Running() && pc == Nuke(Clear) && !Present(m) && src == Some(env.source(old(m)).1)
      ensures Uncut(env) ==> ok
    {
      hide Complete, Follows, WorldOk, EnvOk, InputsOk, Want, Present, OnlySrc, Uncut;
      ok := AcquireSource();
      if ok {
        ok := DropTree();
      }
    }

    /** No tree: a seed that fits, or else the tarball. */
    method Rebuild() returns (ok: bool)
      requires Running() && pc == Nuke(Clear)
      modifies this
      ensures old(trace) <= trace && (ok ==> Running() && pc == Pc.Configure) && (!ok ==> Traced())
      ensures ok ==> Warm(w, m, i) && ConfigKept(if SeedFits(w, store, i) then SeedOf(w, store, i) else map[], m)
      ensures var b := (if old(src).Some? then old(src).value else env.source(Cleared(w, store, i, old(m))).1).blob;
        StoreSrc(store) && Uncut(env) ==> (ok <==> SeedFits(w, store, i) || TreeOf(w, b, i.patches).Some?)
    {
      hide Complete, Follows, WorldOk, EnvOk, InputsOk, Want, Present, ColdPc, Uncut, StoreSrc, ConfigKept, TreeOf, Cleared, SeedFits, SeedOf, Warm;
      ClearedIs(w, store, i, m);
      ok := ClearAndPull();
      if ok && !Present(m) {
        ok := Cold();
      }
    }

    /**
     Bring the mount to the tree these inputs ask for.  A warm tree with another stamp
     survives a pin that no tarball meets: the run ends, and every file but the cached
     source is as it was.  With nothing going wrong, there is a tree exactly if one can
     be had.
     */
    method PrepareTree() returns (ok: bool)
      requires Running() && pc == Begin && src.None?
      modifies this
      ensures old(trace) <= trace && (ok ==> Running() && pc == Pc.Configure) && (!ok ==> Traced())
      ensures NoTarball(w, i) && Present(old(m)) && !Holds(old(m), STAMP, Want(w, i)) ==> !ok && SameInside(old(m), m)
      ensures ok ==> Warm(w, m, i) && ConfigKept(Origins(w, store, i, old(m)), m)
      ensures ok && Warm(w, old(m), i) ==> m == Sweep(old(m))
      ensures StoreSrc(store) && Uncut(env) ==> (ok <==> Preparable(w, store, i, env, old(m)))
    {
      hide Complete, Follows, WorldOk, EnvOk, InputsOk, Want, Present, Holds, ColdPc, Swept, Sweep, NoTarball, SameInside, Partial,
           Uncut, StoreSrc, ConfigKept, TreeOf, Cleared, SeedFits, SeedOf;
      InputsThere(w, i, env);
      ok := Attempt();
      if !ok {
        CutBegin(w, old(Now()), old(m), m);
        return;
      }
      var swept := Sweep(m);
      SweepIs(m);
      SweepSame(m);
      SweptConfig(m);
      BeginCompletes(w, store, Now(), m, swept);
      Advance(swept, AfterBegin(w, swept, i));
      if Present(m) && Holds(m, STAMP, Want(w, i)) {
        return;
      }
      if Present(m) {
        ok := ReplaceTree();
        if !ok {
          if NoTarball(w, i) { SameTwice(old(m), swept, m); }
          return;
        }
      }
      ok := Rebuild();
    }

    /** Draft `.config`: the base make and the fragment behind it, or the configuration itself. */
    method Draft() returns (ok: bool)
      requires Running() && pc == if i.words == [] then WriteConfig else RunBase
      modifies this
      ensures old(trace) <= trace && (ok ==> Running() && pc == RunOldDef) && (!ok ==> Traced())
      ensures (ok ==> Prior(m).Some?) && (Uncut(env) ==> ok)
    {
      hide Complete, Follows, WorldOk, EnvOk, InputsOk, Want, Blank, Uncut, Holds;
      InputsThere(w, i, env);
      MakesLeave(w, i, env, m);
      ok := Attempt();
      if !ok {
        return;
      }
      if i.words == [] {
        WriteCompletes(w, store, Now(), m);
        Advance(m[[CONFIG] := Data(i.config)], RunOldDef);
        return;
      }
      BaseCompletes(w, store, Now(), m, env);
      Advance(env.base(m), if Blank(i.config) then RunOldDef else AppendFragment);
      if !Blank(i.config) {
        ok := Attempt();
        if !ok {
          return;
        }
        if Prior(m).None? {
          return false;
        }
        FragmentCompletes(w, store, Now(), m);
        Advance(m[[CONFIG] := Data(Prior(m).value + ("\n" + i.config))], RunOldDef);
      }
    }

    /** `olddefconfig`, and the marker once it is through. */
    method Resolve() returns (ok: bool)
      requires Running() && pc == RunOldDef
      modifies this
      ensures old(trace) <= trace && (ok ==> Running() && pc == Ready) && (!ok ==> Traced())
      ensures ok ==> Holds(m, MARKER, ConfigId(i.words, i.config)) && Prior(m).Some?
      ensures Uncut(env) && Prior(old(m)).Some? ==> ok
    {
      hide Complete, Follows, WorldOk, EnvOk, InputsOk, Want, ConfigId, Uncut, Prior;
      InputsThere(w, i, env);
      MakesLeave(w, i, env, m);
      ok := Attempt();
      if !ok {
        return;
      }
      if Prior(m).None? {
        return false;
      }
      OldDefCompletes(w, store, Now(), m, env);
      Advance(env.oldDef(m), WriteMarker);
      ok := Attempt();
      if !ok {
        return;
      }
      MarkerCompletes(w, store, Now(), m);
      Advance(m[[MARKER] := Data(ConfigId(i.words, i.config))], Ready);
    }

    /** The marker goes before `.config` changes, and comes back when it is resolved. */
    method Configure() returns (ok: bool)
      requires Running() && pc == Pc.Configure
      modifies this
      ensures old(trace) <= trace && (ok ==> Running() && pc == Ready) && (!ok ==> Traced())
      ensures ok ==> Holds(m, MARKER, ConfigId(i.words, i.config))
      ensures ok ==> if Holds(old(m), MARKER, ConfigId(i.words, i.config)) then m == old(m) else Prior(m).Some?
      ensures Uncut(env) ==> ok
    {
      hide Complete, Follows, WorldOk, EnvOk, InputsOk, Want, ConfigId, Holds, Uncut, Prior;
      InputsThere(w, i, env);
      ok := Attempt();
      if !ok {
        return;
      }
      if Holds(m, MARKER, ConfigId(i.words, i.config)) {
        SkipCompletes(w, store, Now(), m);
        Advance(m, Ready);
        return;
      }
      UnmarkCompletes(w, store, Now(), m);
      Advance(m - {[MARKER]}, if i.words == [] then WriteConfig else RunBase);
      ok := Draft();
      if ok {
        ok := Resolve();
      }
    }

    /**
     The whole run, up to the artifacts: on a mount and seeds as they should be, what
     it exports is the cold result, and however it ends the mount is still as it
     should be.
     */
    method Go(ghost ps: set<Inputs>) returns (ok: bool, out: string)
      requires Running() && pc == Begin && src.None? && before == m && trace == [Slot(m, Some(Now()))]
      requires i in ps && SeedsPinned(ps) && id == MountId(Short(w), i.tool)
      requires MountOk(w, ps, i.tool, m) && StoreOk(w, ps, store)
      modifies this
      ensures ok ==> OutOk(w, ps, i, out)
      ensures StoreSrc(store) && Uncut(env) ==>
        (ok <==> Preparable(w, store, i, env, old(m)) && !Bereft(w, i, Origins(w, store, i, old(m))))
      ensures MountOk(w, ps, i.tool, m)
      ensures old(trace) <= trace && Traced()
    {
      hide Complete, Follows, WorldOk, EnvOk, InputsOk, Want, MountOk, StoreOk, OutOk, SlotOk, MountId, Uncut, StoreSrc, Preparable, Bereft, Origins;
      ghost var first := Slot(m, Some(Now()));
      assert SlotOk(w, ps, id, first) by { FirstOk(w, ps, i, env, m); }
      ok, out := Walk();
      WalkOk(w, ps, id, store, trace);
      InputsThere(w, i, env);
      LastOk(w, ps, id, i, trace[|trace| - 1]);
    }

    method Walk() returns (ok: bool, out: string)
      requires Running() && pc == Begin && src.None?
      modifies this
      ensures old(trace) <= trace && Traced()
      ensures ok ==> Running() && pc == Push(out)
      ensures StoreSrc(store) && Uncut(env) ==>
        (ok <==> Preparable(w, store, i, env, old(m)) && !Bereft(w, i, Origins(w, store, i, old(m))))
    {
      hide Complete, Follows, WorldOk, EnvOk, InputsOk, Want, Uncut, StoreSrc, Preparable, Origins, ConfigId, ConfigKept, Warm, Prior, Holds, Sweep;
      out := "";
      InputsThere(w, i, env);
      ok := PrepareTree();
      if !ok {
        return;
      }
      KeptBereft(w, i, Origins(w, store, i, old(m)), m);
      ok := Configure();
      if !ok {
        return;
      }
      ok, out := Compile();
    }

    method Compile() returns (ok: bool, out: string)
      requires Running() && pc == Ready
      modifies this
      ensures old(trace) <= trace && Traced()
      ensures ok ==> Running() && pc == Push(out)
      ensures Uncut(env) ==> (ok <==> !(w.needsConfig(i.job) && Prior(old(m)).None?))
    {
      hide Complete, Follows, WorldOk, EnvOk, InputsOk, Want, Uncut;
      out := "";
      InputsThere(w, i, env);
      ok := Attempt();
      if !ok {
        return;
      }
      ReadyCompletes(w, store, Now(), m);
      Advance(m - {[VERSION]}, Make);
      ok := Attempt();
      if !ok {
        return;
      }
      if w.needsConfig(i.job) && Prior(m).None? {
        return false, "";
      }
      var (m', artifacts) := env.make(m);
      out := artifacts;
      MakeCompletes(w, store, Now(), m, env);
      Advance(m', Push(out));
    }
  }

  lemma FirstOk(w: World, ps: set<Inputs>, i: Inputs, env: Env, m: Mount)
    requires EnvOk(w, i, env) && WorldOk(w) && SeedPinned(i) && i in ps && MountOk(w, ps, i.tool, m)
    ensures SlotOk(w, ps, MountId(Short(w), i.tool), Slot(m, Some(Run(i, Begin, None, m))))
  {
    hide MountOk, WorldOk, EnvOk, MountId;
    InputsThere(w, i, env);
    forall t | t in w.tools && MountId(Short(w), t) == MountId(Short(w), i.tool) ensures MountOk(w, ps, t, m) {
      OneTool(w, t, i.tool);
    }
  }

  lemma LastOk(w: World, ps: set<Inputs>, id: string, i: Inputs, s: Slot)
    requires InputsOk(w, i) && id == MountId(Short(w), i.tool) && SlotOk(w, ps, id, s)
    ensures MountOk(w, ps, i.tool, s.m)
    ensures s.run.Some? && s.run.value.i == i && s.run.value.pc.Push? ==> OutOk(w, ps, i, s.run.value.pc.out)
  {
    hide MountOk, MountId;
  }

  /** A walk through the machine keeps a mount as it should be. */
  lemma {:induction false} WalkOk(w: World, ps: set<Inputs>, id: string, store: Store, trace: seq<Slot>)
    requires WorldOk(w) && SeedsPinned(ps) && StoreOk(w, ps, store) && trace != [] && Follows(w, id, store, trace) && SlotOk(w, ps, id, trace[0])
    ensures SlotOk(w, ps, id, trace[|trace| - 1])
  {
    hide WorldOk, StoreOk, SlotOk, SlotNext;
    var n := |trace| - 1;
    if n > 0 {
      WalkOk(w, ps, id, store, trace[..n]);
      assert trace[..n][n - 1] == trace[n - 1];
      SlotKept(w, ps, id, store, trace[n - 1], trace[n], Quiet);
    }
  }

  // ---- the completed steps of a build ----

  lemma SkipCompletes(w: World, store: Store, r: Run, m: Mount)
    requires InputsOk(w, r.i) && r.pc == Pc.Configure && Holds(m, MARKER, ConfigId(r.i.words, r.i.config))
    ensures Complete(w, store, r, m, m, To(r, Ready), Quiet)
  {
    hide InputsOk, Holds, ConfigId;
  }

  lemma UnmarkCompletes(w: World, store: Store, r: Run, m: Mount)
    requires InputsOk(w, r.i) && r.pc == Pc.Configure && !Holds(m, MARKER, ConfigId(r.i.words, r.i.config))
    ensures Complete(w, store, r, m, m - {[MARKER]}, To(r, if r.i.words == [] then WriteConfig else RunBase), Quiet)
  {
    hide InputsOk, Holds, ConfigId;
  }

  lemma WriteCompletes(w: World, store: Store, r: Run, m: Mount)
    requires InputsOk(w, r.i) && r.pc == WriteConfig
    ensures Complete(w, store, r, m, m[[CONFIG] := Data(r.i.config)], To(r, RunOldDef), Quiet)
  {
    hide InputsOk;
  }

  lemma BaseCompletes(w: World, store: Store, r: Run, m: Mount, env: Env)
    requires EnvOk(w, r.i, env) && r.pc == RunBase
    ensures Complete(w, store, r, m, env.base(m), To(r, if Blank(r.i.config) then RunOldDef else AppendFragment), Quiet)
  {
    hide InputsOk, Configured, Blank;
  }

  lemma FragmentCompletes(w: World, store: Store, r: Run, m: Mount)
    requires InputsOk(w, r.i) && r.pc == AppendFragment && Prior(m).Some?
    ensures Complete(w, store, r, m, m[[CONFIG] := Data(Prior(m).value + ("\n" + r.i.config))], To(r, RunOldDef), Quiet)
  {
    hide InputsOk, Prior;
  }

  lemma OldDefCompletes(w: World, store: Store, r: Run, m: Mount, env: Env)
    requires EnvOk(w, r.i, env) && r.pc == RunOldDef && Prior(m).Some?
    ensures Complete(w, store, r, m, env.oldDef(m), To(r, WriteMarker), Quiet)
  {
    hide InputsOk, Configured, Prior;
  }

  lemma MarkerCompletes(w: World, store: Store, r: Run, m: Mount)
    requires InputsOk(w, r.i) && r.pc == WriteMarker
    ensures Complete(w, store, r, m, m[[MARKER] := Data(ConfigId(r.i.words, r.i.config))], To(r, Ready), Quiet)
  {
    hide InputsOk, ConfigId;
  }

  lemma ReadyCompletes(w: World, store: Store, r: Run, m: Mount)
    requires InputsOk(w, r.i) && r.pc == Ready
    ensures Complete(w, store, r, m, m - {[VERSION]}, To(r, Make), Quiet)
  {
    hide InputsOk;
  }

  lemma MakeCompletes(w: World, store: Store, r: Run, m: Mount, env: Env)
    requires EnvOk(w, r.i, env) && r.pc == Make && (w.needsConfig(r.i.job) ==> Prior(m).Some?)
    ensures Complete(w, store, r, m, env.make(m).0, To(r, Push(env.make(m).1)), Quiet)
  {
    hide InputsOk, Built, Prior;
  }

  lemma InputsThere(w: World, i: Inputs, env: Env)
    requires EnvOk(w, i, env)
    ensures InputsOk(w, i)
  {
  }

  lemma TreesThere(w: World)
    requires WorldOk(w)
    ensures forall b :: w.unpack(b).Some? ==> TreeOk(w.unpack(b).value)
    ensures forall t, s :: w.patch(t, s).Some? ==> TreeOk(w.patch(t, s).value)
  {
  }
}
