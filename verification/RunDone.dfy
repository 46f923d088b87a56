/** Completed steps from the comparison of a pulled seed to the export. */
module RunDone {
  import opened Wrappers
  import opened Text
  import opened Names
  import opened Specs
  import opened Identity
  import opened Kbuild
  import opened Protocol
  import opened MountInvariant
  import opened RunInvariant
  import opened RunSteps

  // ---- a tree about to be stamped ----

  /** A pulled seed whose stamp is the wanted one is the mount it was packed from. */
  lemma SeedStampable(w: World, ps: set<Inputs>, i: Inputs, m: Mount, pulled: Mount)
    requires WorldOk(w) && InputsOk(w, i) && SeedOk(w, ps, i.tool, pulled) && ObjsOf(m, i.tool)
    requires m == OnlySrc(m) + Quarantined(pulled) && Holds(m, SEED_STAMP, Want(w, i))
    ensures Stampable(w, ps, m - {[SEED_STAMP]}, i)
  {
    hide WorldOk, InputsOk, MountOk, Want, StampOk, MarkerOk, IsStamp, Quarantined, IsSrc, Own, Before, AfterStamp, Skipped, Aside, ViewOf, ObjsOf, WholeOk, Keeps;
    OwnNames();
    OpenMount(w, ps, i.tool, pulled);
    HydratedParts(pulled);
    var q := Quarantined(pulled);
    var m' := (m - {[SEED_STAMP]})[[STAMP] := Data(Want(w, i))];
    forall p | !IsSrc(p) ensures Get(m', p) == Get(pulled, p) {
      assert p != [STAMP] && p != [SEED_STAMP] ==> Get(q, p) == Get(pulled, p) && Get(m, p) == Get(q, p);
    }
    SeedKeeps(pulled, m', i.tool, m);
    assert Get(m', [MARKER]) == Get(pulled, [MARKER]) && Get(m', [CONFIG]) == Get(pulled, [CONFIG]);
    KeepsOk(w, ps, i.tool, pulled, m');
  }

  lemma SeedKeeps(pulled: Mount, m': Mount, t: Tool, m: Mount)
    requires forall p :: !IsSrc(p) ==> Get(m', p) == Get(pulled, p)
    requires ObjsOf(m, t) && forall p :: p in m' && m'[p].Obj? ==> p in m && m[p] == m'[p]
    ensures Keeps(pulled, m', t)
  {
    hide IsSrc, Own, Before, AfterStamp, Aside, Skipped;
    OwnNames();
    forall p ensures Seen(pulled, p) == Seen(m', p) {
      if !IsSrc(p) { assert Get(m', p) == Get(pulled, p); }
    }
    SameView(pulled, m');
    assert Get(m', [STAMP]) == Get(pulled, [STAMP]) && Get(m', [MAKEFILE]) == Get(pulled, [MAKEFILE]);
    assert Get(m', [SEED_STAMP]) == Get(pulled, [SEED_STAMP]);
    forall p | p in m' && m'[p].Obj? ensures p in pulled && pulled[p] == m'[p] {
      assert !Own(p) && !IsSrc(p);
      assert Get(m', p) == Get(pulled, p);
    }
  }

  /** A tree just extracted, and patched, is the one its stamp will name. */
  lemma TreeStampable(w: World, ps: set<Inputs>, i: Inputs, m: Mount, src: Option<Src>, t: Source)
    requires WorldOk(w) && InputsOk(w, i) && src.Some? && SrcOk(w, m, i, src) && ObjsOf(m, i.tool)
    requires TreeOf(w, src.value.blob, i.patches) == Some(t) && TreeOk(t)
    requires m == OnlySrc(m) + FromTree(t)
    ensures Stampable(w, ps, m, i)
  {
    hide WorldOk, InputsOk, SrcOk, Want, IsStamp, TreeOf, TreeOk, MarkerOk, StampOk, WholeOk, MountOk, Digest, SrcName, IsSrc, Own, Before, AfterStamp, Skipped, Aside, ViewOf, SourceView, FromTree, OnlySrc, Matches;
    OwnNames();
    var m' := m[[STAMP] := Data(Want(w, i))];
    TreeView(m, m', t, Want(w, i));
    forall local, b, p | Named(w, m', local, b, p) ensures Good(w, i.tool, m', b, p) {
      WantNames(w, i, local, b, p);
      OneBlob(w, i, src, m, b);
    }
    assert StampOk(w, i.tool, m') by { CloseStamp(w, i.tool, m'); }
    assert MarkerOk(w, ps, i.tool, m') by { assert [MARKER] !in m'; NoMarker(w, ps, i.tool, m'); }
    assert WholeOk(m') by { CloseWhole(m'); }
    CloseMount(w, ps, i.tool, m');
  }

  lemma CloseStamp(w: World, t: Tool, m: Mount)
    requires forall local, b, p {:trigger Named(w, m, local, b, p)} :: Named(w, m, local, b, p) ==> Good(w, t, m, b, p)
    ensures StampOk(w, t, m)
  {
  }

  lemma CloseWhole(m: Mount)
    requires [SEED_STAMP] !in m && [MAKEFILE] in m && m[[MAKEFILE]].Data?
    ensures WholeOk(m)
  {
  }

  lemma TreeView(m: Mount, m': Mount, t: Source, want: string)
    requires TreeOk(t) && m == OnlySrc(m) + FromTree(t) && m' == m[[STAMP] := Data(want)]
    requires forall p :: p in m && m[p].Obj? ==> !Own(p)
    ensures ViewOf(m') == SourceView(t)
    ensures forall p :: p in m' ==> m'[p].Data?
    ensures [STAMP] !in m && [SEED_STAMP] !in m' && [MARKER] !in m' && [MAKEFILE] in m'
  {
    hide Before, IsSrc, Own, AfterStamp, Aside;
    OwnNames();
    forall p ensures p in ViewOf(m') <==> p in SourceView(t) {}
  }

  /** The tarball acquired is the only one the inputs can mean. */
  lemma OneBlob(w: World, i: Inputs, src: Option<Src>, m: Mount, b: string)
    requires WorldOk(w) && InputsOk(w, i) && src.Some? && SrcOk(w, m, i, src) && Matches(w, i, b)
    ensures b == src.value.blob
  {
  }

  lemma CompareDone(w: World, ps: set<Inputs>, store: Store, m: Mount, m': Mount, r: Run, next: Option<Run>, ev: Event)
    requires WorldOk(w) && RunOk(w, ps, m, r) && MountOk(w, ps, r.i.tool, m) && r.pc.Compare?
    requires Complete(w, store, r, m, m', next, ev)
    ensures MountOk(w, ps, r.i.tool, m') && next.Some? && RunOk(w, ps, m', next.value)
  {
    hide MountOk, WorldOk, Want, InputsOk, StampOk, MarkerOk, Quarantined, SeedOk, Stampable, ObjsOf, Before, Own;
    OpenMount(w, ps, r.i.tool, m);
    var pulled := r.pc.pulled;
    NoStampPulled(w, ps, r.i.tool, m, pulled);
    LessObjs(m, r.i.tool);
    NoStampOk(w, ps, r.i.tool, m');
    LessSrc(w, m, r.i, r.src);
    if Holds(m, SEED_STAMP, Want(w, r.i)) { SeedStampable(w, ps, r.i, m, pulled); }
  }

  lemma NoStampPulled(w: World, ps: set<Inputs>, t: Tool, m: Mount, pulled: Mount)
    requires SeedOk(w, ps, t, pulled) && m == OnlySrc(m) + Quarantined(pulled)
    ensures [STAMP] !in m
  {
    hide Quarantined, MountOk, StampOk, MarkerOk, Before;
    OpenMount(w, ps, t, pulled);
    HydratedParts(pulled);
    assert !IsSrc([STAMP]) by { OwnNames(); }
  }

  lemma LessObjs(m: Mount, t: Tool)
    requires ObjsOf(m, t)
    ensures ObjsOf(m - {[SEED_STAMP]}, t)
  {
  }

  lemma LessSrc(w: World, m: Mount, i: Inputs, src: Option<Src>)
    requires InputsOk(w, i) && SrcOk(w, m, i, src)
    ensures SrcOk(w, m - {[SEED_STAMP]}, i, src)
  {
    hide InputsOk, IsSrc, Own, Aside, Before, AfterStamp, Skipped, Want;
    assert !IsSrc([SEED_STAMP]) by { OwnNames(); }
  }

  // ---- extraction ----

  lemma ReadBlob(w: World, m: Mount, r: Run, b: string)
    requires InputsOk(w, r.i) && SrcOk(w, m, r.i, r.src) && r.src.Some? && Reads(m, r.src.value, b)
    ensures b == r.src.value.blob
  {
  }

  lemma TreeKept(w: World, m: Mount, m': Mount, t: Source, i: Inputs, src: Option<Src>)
    requires InputsOk(w, i) && SrcOk(w, m, i, src) && ObjsOf(m, i.tool) && TreeOk(t)
    requires m' == OnlySrc(m) + FromTree(t)
    ensures m' == OnlySrc(m') + FromTree(t) && SrcOk(w, m', i, src) && ObjsOf(m', i.tool) && [STAMP] !in m'
  {
    hide InputsOk, Before, IsSrc, Own, AfterStamp, Aside, Skipped;
    OwnNames();
    assert forall p :: IsSrc(p) ==> p !in t;
    assert OnlySrc(m') == OnlySrc(m);
  }

  lemma ExtractDone(w: World, ps: set<Inputs>, store: Store, m: Mount, m': Mount, r: Run, next: Option<Run>, ev: Event)
    requires WorldOk(w) && RunOk(w, ps, m, r) && MountOk(w, ps, r.i.tool, m) && r.pc.Extract?
    requires Complete(w, store, r, m, m', next, ev)
    ensures MountOk(w, ps, r.i.tool, m') && next.Some? && RunOk(w, ps, m', next.value)
  {
    hide MountOk, Want, InputsOk, StampOk, MarkerOk, TreeOk, Stampable, ObjsOf, Reads, SrcOk;
    OpenMount(w, ps, r.i.tool, m);
    var b :| r.src.Some? && Reads(m, r.src.value, b) && w.unpack(b).Some?
      && m' == OnlySrc(m) + FromTree(w.unpack(b).value)
      && next.value.pc == if r.i.patches.Some? then Patch(w.unpack(b).value) else WriteStamp;
    ReadBlob(w, m, r, b);
    var t := w.unpack(b).value;
    TreeKept(w, m, m', t, r.i, r.src);
    NoStampOk(w, ps, r.i.tool, m');
    if r.i.patches.None? { TreeStampable(w, ps, r.i, m', r.src, t); }
  }

  lemma PatchDone(w: World, ps: set<Inputs>, store: Store, m: Mount, m': Mount, r: Run, next: Option<Run>, ev: Event)
    requires WorldOk(w) && RunOk(w, ps, m, r) && MountOk(w, ps, r.i.tool, m) && r.pc.Patch?
    requires Complete(w, store, r, m, m', next, ev)
    ensures MountOk(w, ps, r.i.tool, m') && next.Some? && RunOk(w, ps, m', next.value)
  {
    hide MountOk, Want, InputsOk, StampOk, MarkerOk, TreeOk, Stampable, ObjsOf, Reads, SrcOk;
    OpenMount(w, ps, r.i.tool, m);
    var t := w.patch(r.pc.tree, r.i.patches.value).value;
    TreeKept(w, m, m', t, r.i, r.src);
    NoStampOk(w, ps, r.i.tool, m');
    TreeStampable(w, ps, r.i, m', r.src, t);
  }

  lemma StampDone(w: World, ps: set<Inputs>, store: Store, m: Mount, m': Mount, r: Run, next: Option<Run>, ev: Event)
    requires WorldOk(w) && RunOk(w, ps, m, r) && MountOk(w, ps, r.i.tool, m) && r.pc.WriteStamp?
    requires Complete(w, store, r, m, m', next, ev)
    ensures MountOk(w, ps, r.i.tool, m') && next.Some? && RunOk(w, ps, m', next.value)
  {
    hide MountOk, WorldOk, Want, InputsOk, StampOk, MarkerOk;
    OpenMount(w, ps, r.i.tool, m');
    LiveWhole(w, m', r.i);
    assert SrcOk(w, m', r.i, r.src) by { StampedSrc(w, m, r.i, r.src, Want(w, r.i)); }
  }

  lemma StampedSrc(w: World, m: Mount, i: Inputs, src: Option<Src>, text: string)
    requires InputsOk(w, i) && SrcOk(w, m, i, src)
    ensures SrcOk(w, m[[STAMP] := Data(text)], i, src)
  {
    hide InputsOk, IsSrc, Own, Before, AfterStamp, Aside, Skipped;
    assert !IsSrc([STAMP]) by { OwnNames(); }
  }
}
