/**
 The acquired tarball over every history, seeds rendered from any base included:
 under a pin it is the pinned one, it is what is extracted, and a warm tree is whole
 until it is there.
 */
module Sources {
  import opened Wrappers
  import opened Text
  import opened Names
  import opened Specs
  import opened Identity
  import opened Kbuild
  import opened Protocol
  import opened MountInvariant
  import opened RunInvariant
  import opened RunSteps
  import opened RunDone
  import opened RunBuild
  import opened Histories

  ghost predicate NoneSkipped(m: Mount) {
    forall p :: p in m ==> !Skipped(p)
  }

  /** What a run knows of its tarball, whatever else is on the mount. */
  ghost predicate RunSrc(w: World, m: Mount, r: Run) {
    && InputsOk(w, r.i) && SrcOk(w, m, r.i, r.src)
    && match r.pc
       case Begin => r.src.None? && SameInside(r.before, m)
       case Acquire(warm) => r.src.None? && (warm ==> SameInside(r.before, m))
       case Nuke(why) => why == Replace ==> r.src.Some?
       case Pull(pulled) => NoneSkipped(pulled)
       case Compare(pulled) => NoneSkipped(pulled)
       case Extract => r.src.Some?
       case _ => true
  }

  ghost predicate StoreSrc(store: Store) {
    forall loc :: loc in store ==> NoneSkipped(store[loc])
  }

  lemma BeginSrc(w: World, m: Mount, m': Mount, r: Run)
    requires RunSrc(w, m, r) && r.pc == Begin && Swept(m, m')
    ensures SameInside(r.before, m')
  {
    hide InputsOk;
    forall p | !Aside(p) ensures Get(m', p) == Get(m, p) {}
    SameInsideIf(m, m');
    SameTwice(r.before, m, m');
  }

  lemma AcquireSrc(w: World, m: Mount, m': Mount, i: Inputs, src: Src)
    requires InputsOk(w, i) && Acquired(w, i, m, m', src)
    ensures SrcOk(w, m', i, Some(src))
  {
    if !i.src.Local? { PartNames(i.src); }
  }

  lemma PulledSrc(m: Mount, pulled: Mount, path: FilePath)
    requires NoneSkipped(pulled) && IsSrc(path) && |path| == 1
    ensures Get(OnlySrc(m) + Quarantined(pulled), path) == Get(OnlySrc(m), path)
  {
    hide Before;
    assert Skipped(path);
    assert !IsSrc([SEED_STAMP]) by { OwnNames(); }
  }

  lemma TreeSrc(m: Mount, t: Source)
    requires TreeOk(t)
    ensures forall p :: IsSrc(p) ==> Get(OnlySrc(m) + FromTree(t), p) == Get(m, p)
  {
    hide IsSrc, Own, Before, AfterStamp, Aside, Skipped;
    OwnNames();
  }

  lemma OwnSrc(m: Mount, name: string, text: string)
    requires name == STAMP || name == CONFIG || name == MARKER
    ensures forall p :: IsSrc(p) ==> Get(m[[name] := Data(text)], p) == Get(m, p)
    ensures forall p :: IsSrc(p) ==> Get(m - {[MARKER]}, p) == Get(m, p) && Get(m - {[VERSION]}, p) == Get(m, p)
    ensures forall p :: IsSrc(p) ==> Get(m - {[SEED_STAMP]}, p) == Get(m, p)
  {
    hide IsSrc, Own, Before, AfterStamp, Aside, Skipped;
    OwnNames();
  }

  lemma PackedNone(m: Mount)
    ensures NoneSkipped(Packed(m))
  {
  }

  /** The preparation keeps it. */
  lemma PrepareSrc(w: World, store: Store, m: Mount, m': Mount, r: Run, next: Option<Run>, ev: Event)
    requires WorldOk(w) && RunSrc(w, m, r) && StoreSrc(store) && Complete(w, store, r, m, m', next, ev)
    requires r.pc.Begin? || r.pc.Acquire? || r.pc.Nuke? || r.pc.Pull? || r.pc.Compare?
    ensures next.Some? && RunSrc(w, m', next.value)
  {
    hide WorldOk, InputsOk, Acquired, Want, LocOf, Quarantined, Holds, Swept, SameInside, SrcOk;
    match r.pc
    case Begin => BeginSrc(w, m, m', r); NoSrc(w, m', r.i);
    case Acquire(_) => AcquireSrc(w, m, m', r.i, next.value.src.value);
    case Nuke(_) => assert forall p :: IsSrc(p) ==> Get(m', p) == Get(m, p); SrcStays(w, m, m', r.i, r.src);
    case Pull(pulled) => PullSrc(w, m, m', r.i, r.src, pulled);
    case Compare(_) => OwnSrc(m, STAMP, ""); SrcStays(w, m, m', r.i, r.src);
  }

  lemma NoSrc(w: World, m: Mount, i: Inputs)
    requires InputsOk(w, i)
    ensures SrcOk(w, m, i, None)
  {
  }

  lemma PullSrc(w: World, m: Mount, m': Mount, i: Inputs, src: Option<Src>, pulled: Mount)
    requires InputsOk(w, i) && SrcOk(w, m, i, src) && NoneSkipped(pulled) && m' == OnlySrc(m) + Quarantined(pulled)
    ensures SrcOk(w, m', i, src)
  {
    hide InputsOk, Quarantined;
    if src.Some? && src.value.Cached? {
      PulledSrc(m, pulled, src.value.path);
      assert Get(m', src.value.path) == Get(m, src.value.path);
    }
  }

  lemma TreesFit(w: World)
    requires WorldOk(w)
    ensures forall b :: w.unpack(b).Some? ==> TreeOk(w.unpack(b).value)
    ensures forall t, s :: w.patch(t, s).Some? ==> TreeOk(w.patch(t, s).value)
  {
  }

  /** So does the rest. */
  lemma BuildSrc(w: World, store: Store, m: Mount, m': Mount, r: Run, next: Option<Run>, ev: Event)
    requires WorldOk(w) && RunSrc(w, m, r) && StoreSrc(store) && Complete(w, store, r, m, m', next, ev)
    requires !(r.pc.Begin? || r.pc.Acquire? || r.pc.Nuke? || r.pc.Pull? || r.pc.Compare?)
    ensures next.Some? ==> RunSrc(w, m', next.value)
    ensures StoreSrc(Stored(store, ev))
  {
    hide WorldOk, InputsOk, Want, LocOf, Holds, SameInside, SrcOk, Made, TreeOk, StoreSrc, Stored, OnlySrc, FromTree, ConfigId, Packed, Prior, Trusted, ViewOf, Skipped, IsSrc, Blank, Present, Reads, Provenance;
    TreesFit(w);
    if next.Some? {
      assert forall p :: IsSrc(p) ==> Get(m', p) == Get(m, p) by { SrcFiles(w, store, m, m', r, next, ev); }
      SrcStays(w, m, m', r.i, r.src);
    }
    StoredSrc(w, store, m, m', r, next, ev);
  }

  /** What is stored, a push of this step's included, holds nothing the walk leaves out. */
  lemma StoredSrc(w: World, store: Store, m: Mount, m': Mount, r: Run, next: Option<Run>, ev: Event)
    requires InputsOk(w, r.i) && StoreSrc(store) && Complete(w, store, r, m, m', next, ev)
    ensures StoreSrc(Stored(store, ev))
  {
    hide InputsOk, Want, LocOf, Holds, SameInside, SrcOk, Made, TreeOk, OnlySrc, FromTree, ConfigId, Packed, Prior, Trusted, ViewOf, Skipped, IsSrc, Blank, Present;
    PackedNone(m);
  }

  lemma SrcFiles(w: World, store: Store, m: Mount, m': Mount, r: Run, next: Option<Run>, ev: Event)
    requires WorldOk(w) && InputsOk(w, r.i) && Complete(w, store, r, m, m', next, ev)
    requires !(r.pc.Begin? || r.pc.Acquire? || r.pc.Nuke? || r.pc.Pull? || r.pc.Compare?)
    ensures forall p :: IsSrc(p) ==> Get(m', p) == Get(m, p)
  {
    hide WorldOk, InputsOk, Want, LocOf, Holds, Made, TreeOk, OnlySrc, FromTree, ConfigId, Packed, Prior, Trusted, ViewOf, IsSrc, Blank, Present, Reads;
    TreesFit(w);
    OwnSrc(m, STAMP, Want(w, r.i));
    match r.pc
    case Extract =>
      var b :| r.src.Some? && Reads(m, r.src.value, b) && w.unpack(b).Some? && m' == OnlySrc(m) + FromTree(w.unpack(b).value);
      TreeSrc(m, w.unpack(b).value);
    case Patch(tree) => TreeSrc(m, w.patch(tree, r.i.patches.value).value);
    case RunBase => MadeSrc(m, m', Provenance(m, r.i), [CONFIG]);
    case RunOldDef => MadeSrc(m, m', Provenance(m, r.i), [CONFIG]);
    case AppendFragment => OwnSrc(m, CONFIG, Prior(m).value + ("\n" + r.i.config));
    case WriteConfig => OwnSrc(m, CONFIG, r.i.config);
    case WriteMarker => OwnSrc(m, MARKER, ConfigId(r.i.words, r.i.config));
    case Make => MadeSrc(m, m', Provenance(m, r.i), [VERSION]);
    case _ =>
  }

  // ---- every history ----

  ghost predicate SystemSrc(w: World, s: System) {
    StoreSrc(s.store) && forall at: Place :: SlotAt(s, at).run.Some? ==> RunSrc(w, SlotAt(s, at).m, SlotAt(s, at).run.value)
  }

  lemma SlotSrc(w: World, id: string, store: Store, s: Slot, s': Slot, ev: Event)
    requires WorldOk(w) && StoreSrc(store) && (s.run.Some? ==> RunSrc(w, s.m, s.run.value))
    requires SlotNext(w, id, store, s, s', ev)
    ensures StoreSrc(Stored(store, ev)) && (s'.run.Some? ==> RunSrc(w, s'.m, s'.run.value))
  {
    hide WorldOk, InputsOk, RunSrc, Partial, Complete, StoreSrc;
    match s.run {
      case None => FirstSrc(w, s.m, s'.run.value);
      case Some(r) =>
        if !(s'.run == None && ev == Quiet && Partial(w, r, s.m, s'.m)) {
          if r.pc.Begin? || r.pc.Acquire? || r.pc.Nuke? || r.pc.Pull? || r.pc.Compare? {
            PrepareSrc(w, store, s.m, s'.m, r, s'.run, ev);
            QuietPrepare(w, store, s.m, s'.m, r, s'.run, ev);
          } else {
            BuildSrc(w, store, s.m, s'.m, r, s'.run, ev);
          }
        }
    }
  }

  lemma QuietPrepare(w: World, store: Store, m: Mount, m': Mount, r: Run, next: Option<Run>, ev: Event)
    requires InputsOk(w, r.i) && Complete(w, store, r, m, m', next, ev)
    requires r.pc.Begin? || r.pc.Acquire? || r.pc.Nuke? || r.pc.Pull? || r.pc.Compare?
    ensures ev == Quiet
  {
    hide InputsOk, Acquired, Want, LocOf, Quarantined, Holds, Swept;
  }

  lemma FirstSrc(w: World, m: Mount, r: Run)
    requires InputsOk(w, r.i) && r == Run(r.i, Begin, None, m)
    ensures RunSrc(w, m, r)
  {
  }

  lemma StepSrc(w: World, s: System, s': System)
    requires WorldOk(w) && SystemSrc(w, s) && Step(w, s, s')
    ensures SystemSrc(w, s')
  {
    hide WorldOk, RunSrc, StoreSrc, SlotNext;
    var at, slot', ev :| Moves(w, s, s', at, slot', ev);
    SlotSrc(w, at.1, s.store, SlotAt(s, at), slot', ev);
    forall other: Place | SlotAt(s', other).run.Some? ensures RunSrc(w, SlotAt(s', other).m, SlotAt(s', other).run.value) {
      assert SlotAt(s', other) == if other == at then slot' else SlotAt(s, other);
    }
  }

  lemma {:induction false} HistorySrc(w: World, h: seq<System>)
    requires WorldOk(w) && History(w, h)
    ensures SystemSrc(w, h[|h| - 1])
  {
    hide WorldOk, RunSrc, Step;
    if |h| > 1 {
      var n := |h| - 1;
      assert h[..n][n - 1] == h[n - 1];
      HistorySrc(w, h[..n]);
      StepSrc(w, h[n - 1], h[n]);
    }
  }

  lemma ReachableSrc(w: World, s: System, at: Place)
    requires WorldOk(w) && Reachable(w, s) && SlotAt(s, at).run.Some?
    ensures RunSrc(w, SlotAt(s, at).m, SlotAt(s, at).run.value)
  {
    hide WorldOk, RunSrc, Goes;
    var h :| History(w, h) && h[|h| - 1] == s;
    HistorySrc(w, h);
  }

  /** A run that has acquired a pinned tarball holds the pinned one, whatever was on the mount or the wire. */
  lemma VerifiedSource(w: World, s: System, at: Place, r: Run)
    requires WorldOk(w) && Reachable(w, s) && SlotAt(s, at).run == Some(r)
    requires r.src.Some? && r.i.src.Pinned?
    ensures var m := SlotAt(s, at).m;
      r.src.value.Cached? && Reads(m, r.src.value, r.src.value.blob) && w.sha(r.src.value.blob) == r.i.src.sum
  {
    hide WorldOk, Reachable, InputsOk;
    ReachableSrc(w, s, at);
  }

  /**
   Losing nothing: while a replacement for a warm tree is being acquired, and if
   that ends the run, every file but the cached source is as the run found it.
   */
  lemma NothingLost(w: World, s: System, at: Place, r: Run, m': Mount)
    requires WorldOk(w) && Reachable(w, s) && SlotAt(s, at).run == Some(r) && r.pc == Acquire(true)
    requires InputsOk(w, r.i) && Partial(w, r, SlotAt(s, at).m, m')
    ensures SameInside(r.before, SlotAt(s, at).m) && SameInside(r.before, m')
  {
    hide WorldOk, Reachable, InputsOk, SameInside;
    ReachableSrc(w, s, at);
    var m := SlotAt(s, at).m;
    assert SameInside(m, m') by { CutSource(w, r, m, m'); }
    SameTwice(r.before, m, m');
  }

  lemma CutSource(w: World, r: Run, m: Mount, m': Mount)
    requires InputsOk(w, r.i) && r.pc.Acquire? && Partial(w, r, m, m')
    ensures SameInside(m, m')
  {
    if !r.i.src.Local? {
      PartNames(r.i.src);
      forall p | !Aside(p) ensures Get(m', p) == Get(m, p) {}
    }
    SameInsideIf(m, m');
  }

  /** The tarball extracted is the one acquired, wherever the extraction reads it. */
  lemma ExtractsAcquired(w: World, s: System, at: Place, r: Run, b: string)
    requires WorldOk(w) && Reachable(w, s) && SlotAt(s, at).run == Some(r) && r.pc.Extract?
    requires r.src.Some? && Reads(SlotAt(s, at).m, r.src.value, b)
    ensures b == r.src.value.blob && (r.i.src.Local? ==> b == r.i.src.blob) && (r.i.src.Pinned? ==> w.sha(b) == r.i.src.sum)
  {
    hide WorldOk, Reachable, InputsOk;
    ReachableSrc(w, s, at);
  }
}
