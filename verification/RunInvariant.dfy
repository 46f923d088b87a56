/**
 What holds of a mount and the run that holds it, at every program counter, and
 that every step keeps it, however it ends.
 */
module RunInvariant {
  import opened Wrappers
  import opened Text
  import opened Names
  import opened Specs
  import opened Identity
  import opened Kbuild
  import opened Protocol
  import opened MountInvariant

  ghost predicate Bare(m: Mount) {
    forall p :: p in m ==> IsSrc(p)
  }

  /** The acquired tarball is the one wanted, and still where it was found. */
  ghost predicate SrcOk(w: World, m: Mount, i: Inputs, src: Option<Src>)
    requires InputsOk(w, i)
  {
    match src
    case None => true
    case Some(Context(blob)) => i.src == Local(blob)
    case Some(Cached(path, blob)) =>
      && !i.src.Local? && blob in w.blobs && IsSrc(path) && |path| == 1
      && path in m && m[path] == Data(blob)
      && (i.src.Pinned? ==> w.sha(blob) == i.src.sum)
  }

  /** The stamp this run is about to write would bless nothing it should not. */
  ghost predicate Stampable(w: World, ps: set<Inputs>, m: Mount, i: Inputs) {
    [STAMP] !in m && MountOk(w, ps, i.tool, m[[STAMP] := Data(Want(w, i))])
  }

  ghost predicate Live(w: World, m: Mount, i: Inputs) {
    Holds(m, STAMP, Want(w, i))
  }

  ghost predicate Drafting(w: World, m: Mount, i: Inputs) {
    Live(w, m, i) && [MARKER] !in m
  }

  /** `.config` came out of the base make. */
  ghost predicate BaseMade(w: World, m: Mount, i: Inputs) {
    Blessed(w, m) ==> exists prior :: Holds(m, CONFIG, w.baseMake(i.tool, ViewOf(m), i.words, prior))
  }

  ghost predicate IsDrafted(w: World, m: Mount, i: Inputs) {
    Blessed(w, m) ==> exists prior :: Holds(m, CONFIG, Drafted(w, i.tool, ViewOf(m), i.words, i.config, prior))
  }

  ghost predicate IsResolved(w: World, m: Mount, i: Inputs) {
    Blessed(w, m) ==> ConfigIs(w, i.tool, m, i.words, i.config)
  }

  ghost predicate Settled(w: World, ps: set<Inputs>, m: Mount, i: Inputs) {
    Live(w, m, i) && (Blessed(w, m) ==> ConfigOk(w, ps, i.tool, m, i.words, i.config))
  }

  /** The artifacts come from this run's configuration, or from one an earlier run lends it, whatever the base make found. */
  ghost predicate LentOut(w: World, ps: set<Inputs>, i: Inputs, v: View, out: string) {
    exists config, prior :: Lends(w, i, ps, config) && out == Outcome(w, i.(config := config), v, prior)
  }

  /** What a build may export. */
  ghost predicate OutOk(w: World, ps: set<Inputs>, i: Inputs, out: string) {
    forall b :: Matches(w, i, b) ==>
      TreeOf(w, b, i.patches).Some? && LentOut(w, ps, i, SourceView(TreeOf(w, b, i.patches).value), out)
  }

  /** A stored seed is a mount as it should be, stamped, and without what the walk leaves out. */
  ghost predicate SeedOk(w: World, ps: set<Inputs>, t: Tool, seed: Mount) {
    MountOk(w, ps, t, seed) && [STAMP] in seed && forall p :: p in seed ==> !Skipped(p)
  }

  /** Every seed is right for every toolchain that would look for it there. */
  ghost predicate StoreOk(w: World, ps: set<Inputs>, store: Store) {
    forall loc, t, prefix :: loc in store && t in w.tools && SeedKey(Short(w), prefix, t) == loc.1 ==> SeedOk(w, ps, t, store[loc])
  }

  ghost predicate RunOk(w: World, ps: set<Inputs>, m: Mount, r: Run) {
    && InputsOk(w, r.i) && SeedPinned(r.i) && r.i in ps && SrcOk(w, m, r.i, r.src)
    && match r.pc
       case Begin => r.src.None? && SameInside(r.before, m)
       case Acquire(warm) => r.src.None? && if warm then SameInside(r.before, m) else Bare(m)
       case Nuke(why) => why == Replace ==> r.src.Some?
       case Pull(pulled) => Bare(m) && SeedOk(w, ps, r.i.tool, pulled)
       case Compare(pulled) => m == OnlySrc(m) + Quarantined(pulled) && SeedOk(w, ps, r.i.tool, pulled)
       case Extract => Bare(m) && r.src.Some?
       case Patch(tree) => r.src.Some? && m == OnlySrc(m) + FromTree(tree) && w.unpack(r.src.value.blob) == Some(tree) && r.i.patches.Some?
       case WriteStamp => Stampable(w, ps, m, r.i)
       case Configure => Live(w, m, r.i)
       case RunBase => Drafting(w, m, r.i) && r.i.words != []
       case AppendFragment => Drafting(w, m, r.i) && r.i.words != [] && !Blank(r.i.config) && BaseMade(w, m, r.i)
       case WriteConfig => Drafting(w, m, r.i) && r.i.words == []
       case RunOldDef => Drafting(w, m, r.i) && IsDrafted(w, m, r.i)
       case WriteMarker => Drafting(w, m, r.i) && IsResolved(w, m, r.i)
       case Ready => Settled(w, ps, m, r.i)
       case Make => Settled(w, ps, m, r.i) && [VERSION] !in m
       case Push(out) => Live(w, m, r.i) && OutOk(w, ps, r.i, out)
       case Finish(out) => OutOk(w, ps, r.i, out)
  }

  // ---- partial effects ----

  /** Changes to the protocol's own files that leave stamps and objects alone. */
  ghost predicate OwnEdit(m: Mount, m': Mount) {
    && (forall p :: !Own(p) ==> Get(m', p) == Get(m, p))
    && (forall p :: p in m' && m'[p].Obj? ==> p in m && m[p] == m'[p])
    && Get(m', [STAMP]) == Get(m, [STAMP])
    && ([SEED_STAMP] in m' ==> [SEED_STAMP] in m)
  }

  lemma OwnEditKeeps(m: Mount, m': Mount, t: Tool)
    requires OwnEdit(m, m')
    ensures Keeps(m, m', t)
  {
    hide IsSrc, Own, Before, AfterStamp, Aside, Skipped;
    OwnNames();
    forall p ensures Seen(m, p) == Seen(m', p) {
      if !Own(p) { assert Get(m', p) == Get(m, p); }
    }
    SameView(m, m');
    assert Get(m', [MAKEFILE]) == Get(m, [MAKEFILE]);
  }

  lemma AsideEdit(w: World, ps: set<Inputs>, t: Tool, m: Mount, m': Mount)
    requires MountOk(w, ps, t, m)
    requires forall p :: !Aside(p) ==> Get(m', p) == Get(m, p)
    requires forall p :: p in m' && m'[p].Obj? ==> p in m && m[p] == m'[p]
    ensures MountOk(w, ps, t, m') && (Blessed(w, m') <==> Blessed(w, m))
  {
    hide MountOk, Keeps, Blessed, MarkerOk, Aside, Own, IsSrc, Skipped, AfterStamp, Before;
    OwnNames();
    assert Get(m', [SEED_STAMP]) == Get(m, [SEED_STAMP]);
    assert Get(m', [STAMP]) == Get(m, [STAMP]);
    assert OwnEdit(m, m');
    OwnEditKeeps(m, m', t);
    KeepsOk(w, ps, t, m, m');
  }

  lemma SweptOk(w: World, ps: set<Inputs>, t: Tool, m: Mount, m': Mount)
    requires MountOk(w, ps, t, m) && Swept(m, m')
    ensures MountOk(w, ps, t, m') && SameInside(m, m')
    ensures forall p :: p in m' ==> p in m && m'[p] == m[p]
  {
    forall p | !Aside(p) ensures Get(m', p) == Get(m, p) {}
    AsideEdit(w, ps, t, m, m');
  }

  lemma FetchedOk(w: World, ps: set<Inputs>, t: Tool, m: Mount, m': Mount, part: FilePath)
    requires MountOk(w, ps, t, m) && PartlyFetched(m, m', part) && IsSrc(part)
    ensures MountOk(w, ps, t, m') && SameInside(m, m')
  {
    forall p | !Aside(p) ensures Get(m', p) == Get(m, p) {}
    forall p | p in m' && m'[p].Obj? ensures p in m && m[p] == m'[p] {
      assert p == part || Get(m', p) == Get(m, p);
    }
    AsideEdit(w, ps, t, m, m');
    SameInsideIf(m, m');
  }

  lemma SameInsideIf(m: Mount, m': Mount)
    requires forall p :: !Aside(p) ==> Get(m', p) == Get(m, p)
    ensures SameInside(m, m')
  {
    forall p | !Aside(p) ensures p in m <==> p in m' { assert Get(m', p) == Get(m, p); }
    forall p | !Aside(p) && p in m ensures m[p] == m'[p] { assert Get(m', p) == Get(m, p); }
  }

  /** While the stamp stands, a nuke has only reached names before it. */
  lemma NukedOk(w: World, ps: set<Inputs>, t: Tool, m: Mount, m': Mount)
    requires MountOk(w, ps, t, m) && PartlyNuked(m, m')
    ensures MountOk(w, ps, t, m')
  {
    hide MountOk, Before;
    OwnNames();
    assert MountOk(w, ps, t, m) ==> ObjsOf(m, t) && MarkerOk(w, ps, t, m) by { OpenMount(w, ps, t, m); }
    if [STAMP] !in m' {
      NoStampOk(w, ps, t, m');
    } else {
      var stamp: FilePath := [STAMP];
      assert forall p :: p in m && p !in m' ==> !Before(stamp[0], p[0]);
      NukedKeeps(m, m', t);
      NukedMarker(w, ps, t, m, m');
      KeepsOk(w, ps, t, m, m');
    }
  }

  lemma OpenMount(w: World, ps: set<Inputs>, t: Tool, m: Mount)
    requires MountOk(w, ps, t, m)
    ensures ObjsOf(m, t) && StampOk(w, t, m) && MarkerOk(w, ps, t, m) && WholeOk(m)
  {
  }

  lemma NukedKeeps(m: Mount, m': Mount, t: Tool)
    requires PartlyNuked(m, m') && [STAMP] in m'
    requires forall p :: p in m && AfterStamp(p) && !IsSrc(p) ==> p in m'
    ensures Keeps(m, m', t)
  {
    hide Before, PartlyNuked;
    assert forall p :: p in m' ==> p in m && m'[p] == m[p] by { OpenNuked(m, m'); }
    OwnNames();
    forall p ensures Seen(m, p) == Seen(m', p) {}
    SameView(m, m');
  }

  lemma OpenNuked(m: Mount, m': Mount)
    requires PartlyNuked(m, m')
    ensures forall p :: p in m' ==> p in m && m'[p] == m[p]
  {
  }

  lemma NukedMarker(w: World, ps: set<Inputs>, t: Tool, m: Mount, m': Mount)
    requires MarkerOk(w, ps, t, m) && PartlyNuked(m, m') && [STAMP] in m' && ViewOf(m) == ViewOf(m')
    ensures MarkerOk(w, ps, t, m')
  {
    hide ViewOf, WordsOk, ConfigId, Resolved, Before, ConfigOk;
    if Blessed(w, m') {
      var local, b, p :| Named(w, m', local, b, p);
      assert Named(w, m, local, b, p);
      forall words, config | WordsOk(words) && Holds(m', MARKER, ConfigId(words, config))
        ensures ConfigOk(w, ps, t, m', words, config)
      {
        assert Holds(m, MARKER, ConfigId(words, config));
        SameConfig(w, ps, t, m, m', words, config);
      }
    }
  }

  lemma FilledOk(w: World, ps: set<Inputs>, t: Tool, m: Mount, m': Mount, pulled: Mount)
    requires PartlyFilled(m, m', pulled) && ObjsOf(pulled, t)
    ensures MountOk(w, ps, t, m')
  {
    NoStampOk(w, ps, t, m');
  }

  lemma TornOk(w: World, ps: set<Inputs>, i: Inputs, m: Mount, part: string)
    requires WorldOk(w) && InputsOk(w, i) && Stampable(w, ps, m, i) && part < Want(w, i)
    ensures MountOk(w, ps, i.tool, m[[STAMP] := Data(part)])
  {
    hide Want, WorldOk, InputsOk, MountOk, MarkerOk, StampOk, IsStamp, Named, ObjsOf, WholeOk, IsSrc, Own, Before, AfterStamp, Aside, Skipped;
    OwnNames();
    TornStamp(w, i, part);
    var m' := m[[STAMP] := Data(part)];
    NotBlessed(w, ps, i.tool, m');
    OpenMount(w, ps, i.tool, m[[STAMP] := Data(Want(w, i))]);
    OtherStamp(m, i.tool, Want(w, i), part);
    CloseMount(w, ps, i.tool, m');
  }

  lemma CloseMount(w: World, ps: set<Inputs>, t: Tool, m: Mount)
    requires ObjsOf(m, t) && StampOk(w, t, m) && MarkerOk(w, ps, t, m) && WholeOk(m)
    ensures MountOk(w, ps, t, m)
  {
  }

  lemma OtherStamp(m: Mount, t: Tool, text: string, other: string)
    requires ObjsOf(m[[STAMP] := Data(text)], t) && WholeOk(m[[STAMP] := Data(text)]) && !IsStamp(other)
    ensures ObjsOf(m[[STAMP] := Data(other)], t) && WholeOk(m[[STAMP] := Data(other)])
  {
    hide Own, IsStamp, IsSrc, Before, AfterStamp, Aside, Skipped;
    var whole, m' := m[[STAMP] := Data(text)], m[[STAMP] := Data(other)];
    forall p | p in m' && m'[p].Obj? ensures !Own(p) && m'[p].made.tool == t {
      assert p in whole && whole[p] == m'[p];
    }
    assert [SEED_STAMP] in m' ==> [SEED_STAMP] in whole;
  }

  lemma NotBlessed(w: World, ps: set<Inputs>, t: Tool, m: Mount)
    requires WorldOk(w) && [STAMP] in m && m[[STAMP]].Data? && !IsStamp(m[[STAMP]].s)
    ensures !Blessed(w, m) && StampOk(w, t, m) && MarkerOk(w, ps, t, m)
  {
    forall local, b, p ensures !Named(w, m, local, b, p) {
      if Named(w, m, local, b, p) { NamedIsStamp(w, m, local, b, p); }
    }
  }

  lemma MadeKeeps(m: Mount, m': Mount, t: Tool, own: FilePath)
    requires Made(m, m', Prov(t, ViewOf(m)), own) && (own == [CONFIG] || own == [VERSION])
    requires [MAKEFILE] in m ==> m[[MAKEFILE]].Data?
    requires [MAKEFILE] in m
    ensures Keeps(m, m', t)
    ensures Get(m', [MARKER]) == Get(m, [MARKER])
    ensures own == [VERSION] ==> Get(m', [CONFIG]) == Get(m, [CONFIG])
  {
    hide IsSrc, Own, Before, AfterStamp, Aside, Skipped;
    OwnNames();
    forall p ensures Seen(m, p) == Seen(m', p) {
      assert Get(m', p) == Get(m, p) || p == own || (!Own(p) && (p in m ==> m[p].Obj?) && (p in m' ==> m'[p].Obj?));
    }
    SameView(m, m');
    assert Get(m', [STAMP]) == Get(m, [STAMP]);
    assert Get(m', [MAKEFILE]) == Get(m, [MAKEFILE]);
    assert Get(m', [SEED_STAMP]) == Get(m, [SEED_STAMP]);
    assert Get(m', [MARKER]) == Get(m, [MARKER]);
    forall p | p in m' && m'[p].Obj?
      ensures (p in m && m[p] == m'[p]) || (!Own(p) && m'[p].made == Prov(t, ViewOf(m)))
    {
      assert Get(m', p) == Get(m, p) || p != own;
    }
  }

  /** A live stamp stands on a tree with a Makefile. */
  lemma LiveWhole(w: World, m: Mount, i: Inputs)
    requires WorldOk(w) && InputsOk(w, i) && WholeOk(m) && Live(w, m, i)
    ensures [MAKEFILE] in m && m[[MAKEFILE]].Data? && [SEED_STAMP] !in m
  {
    WantIsStamp(w, i);
  }

  /** A make cut off, with the marker out of the way if `.config` is at stake. */
  lemma MadeOk(w: World, ps: set<Inputs>, m: Mount, m': Mount, i: Inputs, own: FilePath)
    requires WorldOk(w) && InputsOk(w, i) && MountOk(w, ps, i.tool, m) && Live(w, m, i)
    requires own == [VERSION] || (own == [CONFIG] && [MARKER] !in m)
    requires Made(m, m', Provenance(m, i), own)
    ensures MountOk(w, ps, i.tool, m') && Live(w, m', i) && (Blessed(w, m') <==> Blessed(w, m))
    ensures ViewOf(m') == ViewOf(m) && Get(m', [MARKER]) == Get(m, [MARKER])
    ensures own == [VERSION] ==> Get(m', [CONFIG]) == Get(m, [CONFIG])
  {
    hide Want, ViewOf, WorldOk, InputsOk, Own, StampOk, ObjsOf, Made, Resolved;
    LiveWhole(w, m, i);
    MadeKeeps(m, m', i.tool, own);
    assert own == [CONFIG] ==> [MARKER] !in m' by { assert Get(m', [MARKER]) == Get(m, [MARKER]); }
    assert own == [CONFIG] ==> MarkerOk(w, ps, i.tool, m');
    KeepsOk(w, ps, i.tool, m, m');
    assert Get(m', [STAMP]) == Get(m, [STAMP]);
  }

  /** `.config`, `.version` and the marker edited by the step itself. */
  lemma EditOk(w: World, ps: set<Inputs>, m: Mount, m': Mount, i: Inputs)
    requires MountOk(w, ps, i.tool, m) && Live(w, m, i)
    requires forall p :: p != [CONFIG] && p != [VERSION] && p != [MARKER] ==> Get(m', p) == Get(m, p)
    requires forall p :: p in m' && m'[p].Obj? ==> p in m && m[p] == m'[p]
    requires (Get(m', [MARKER]) == Get(m, [MARKER]) && Get(m', [CONFIG]) == Get(m, [CONFIG])) || MarkerOk(w, ps, i.tool, m')
    ensures MountOk(w, ps, i.tool, m') && Live(w, m', i) && (Blessed(w, m') <==> Blessed(w, m)) && ViewOf(m') == ViewOf(m)
  {
    hide MountOk, ViewOf, Blessed, MarkerOk, Want, IsSrc, Own, Before, AfterStamp, Aside, Skipped;
    OwnNames();
    assert Get(m', [STAMP]) == Get(m, [STAMP]);
    assert Get(m', [SEED_STAMP]) == Get(m, [SEED_STAMP]);
    OwnEditKeeps(m, m', i.tool);
    KeepsOk(w, ps, i.tool, m, m');
  }
}
