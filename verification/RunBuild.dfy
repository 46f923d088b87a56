/** Completed steps from the configuration to the export, and the invariant of a run as a whole. */
module RunBuild {
  import opened Wrappers
  import opened Text
  import opened Names
  import opened Specs
  import opened Identity
  import opened Kbuild
  import opened Protocol
  import opened MountInvariant
  import opened RunInvariant
  import opened RunSteps
  import opened RunDone

  /** The cached tarball is not among the files the later steps touch. */
  lemma SrcStays(w: World, m: Mount, m': Mount, i: Inputs, src: Option<Src>)
    requires InputsOk(w, i) && SrcOk(w, m, i, src)
    requires forall p :: IsSrc(p) ==> Get(m', p) == Get(m, p)
    ensures SrcOk(w, m', i, src)
  {
    hide InputsOk, IsSrc;
    if src.Some? && src.value.Cached? { assert Get(m', src.value.path) == Get(m, src.value.path); }
  }

  lemma OwnEdited(m: Mount, m': Mount)
    requires forall p :: p != [CONFIG] && p != [VERSION] && p != [MARKER] ==> Get(m', p) == Get(m, p)
    ensures forall p :: IsSrc(p) ==> Get(m', p) == Get(m, p)
  {
    hide IsSrc, Own, Before, AfterStamp, Aside, Skipped;
    OwnNames();
  }

  lemma MadeSrc(m: Mount, m': Mount, by': Prov, own: FilePath)
    requires Made(m, m', by', own) && (own == [CONFIG] || own == [VERSION])
    ensures forall p :: IsSrc(p) ==> Get(m', p) == Get(m, p)
  {
    hide IsSrc, Own, Before, AfterStamp, Aside, Skipped;
    OwnNames();
    forall p | IsSrc(p) ensures Get(m', p) == Get(m, p) { assert Own(p) && p != own; }
  }

  lemma BlessedGood(w: World, t: Tool, m: Mount)
    requires StampOk(w, t, m) && Blessed(w, m)
    ensures Trusted(m, t)
  {
    var local, b, p :| Named(w, m, local, b, p);
    assert Good(w, t, m, b, p);
  }

  lemma ConfigureDone(w: World, ps: set<Inputs>, store: Store, m: Mount, m': Mount, r: Run, next: Option<Run>, ev: Event)
    requires WorldOk(w) && RunOk(w, ps, m, r) && MountOk(w, ps, r.i.tool, m) && r.pc.Configure?
    requires Complete(w, store, r, m, m', next, ev)
    ensures MountOk(w, ps, r.i.tool, m') && next.Some? && RunOk(w, ps, m', next.value)
  {
    hide MountOk, WorldOk, Want, StampOk, ConfigId, ConfigOk, ObjsOf, SrcOk, Blessed, MarkerOk, Trusted, ViewOf, IsSrc, Blank;
    OpenMount(w, ps, r.i.tool, m);
    if !Holds(m, MARKER, ConfigId(r.i.words, r.i.config)) {
      MarkerCutOk(w, ps, m, m', r.i);
      OwnEdited(m, m');
      SrcStays(w, m, m', r.i, r.src);
    }
  }

  lemma BaseDone(w: World, ps: set<Inputs>, store: Store, m: Mount, m': Mount, r: Run, next: Option<Run>, ev: Event)
    requires WorldOk(w) && RunOk(w, ps, m, r) && MountOk(w, ps, r.i.tool, m) && r.pc.RunBase?
    requires Complete(w, store, r, m, m', next, ev)
    ensures MountOk(w, ps, r.i.tool, m') && next.Some? && RunOk(w, ps, m', next.value)
  {
    hide MountOk, WorldOk, InputsOk, Want, StampOk, MarkerOk, ConfigId, ObjsOf, SrcOk, Blessed, Made, ViewOf, Trusted, Blank;
    var i := r.i;
    OpenMount(w, ps, i.tool, m);
    MadeOk(w, ps, m, m', i, [CONFIG]);
    MadeSrc(m, m', Provenance(m, i), [CONFIG]);
    SrcStays(w, m, m', i, r.src);
    assert [MARKER] !in m' by { assert Get(m', [MARKER]) == Get(m, [MARKER]); }
    if Blessed(w, m') {
      BlessedGood(w, i.tool, m);
      var text := w.baseMake(i.tool, ViewOf(m'), i.words, Prior(m));
      assert Holds(m', CONFIG, text);
      if Blank(i.config) {
        assert text + "" == text;
        assert Drafted(w, i.tool, ViewOf(m'), i.words, i.config, Prior(m)) == text;
      }
    }
  }

  /** The step edits `.config` with no marker in sight. */
  lemma ConfigEdit(w: World, ps: set<Inputs>, m: Mount, m': Mount, i: Inputs, src: Option<Src>, text: string)
    requires InputsOk(w, i) && SrcOk(w, m, i, src) && MountOk(w, ps, i.tool, m) && Drafting(w, m, i)
    requires m' == m[[CONFIG] := Data(text)]
    ensures MountOk(w, ps, i.tool, m') && Drafting(w, m', i) && SrcOk(w, m', i, src)
    ensures ViewOf(m') == ViewOf(m) && (Blessed(w, m') <==> Blessed(w, m)) && Holds(m', CONFIG, text)
  {
    hide MountOk, InputsOk, Want, ViewOf, Blessed, SrcOk, MarkerOk;
    assert [MARKER][0] != [CONFIG][0];
    NoMarker(w, ps, i.tool, m');
    EditOk(w, ps, m, m', i);
    OwnEdited(m, m');
    SrcStays(w, m, m', i, src);
  }

  lemma FragmentDone(w: World, ps: set<Inputs>, store: Store, m: Mount, m': Mount, r: Run, next: Option<Run>, ev: Event)
    requires WorldOk(w) && RunOk(w, ps, m, r) && MountOk(w, ps, r.i.tool, m) && r.pc.AppendFragment?
    requires Complete(w, store, r, m, m', next, ev)
    ensures MountOk(w, ps, r.i.tool, m') && next.Some? && RunOk(w, ps, m', next.value)
  {
    hide MountOk, WorldOk, InputsOk, Want, SrcOk, Blessed, ViewOf, Blank;
    var i := r.i;
    var text := Prior(m).value + ("\n" + i.config);
    ConfigEdit(w, ps, m, m', i, r.src, text);
    if Blessed(w, m') {
      var prior :| Holds(m, CONFIG, w.baseMake(i.tool, ViewOf(m), i.words, prior));
      assert text == Drafted(w, i.tool, ViewOf(m), i.words, i.config, prior);
    }
  }

  lemma WriteConfigDone(w: World, ps: set<Inputs>, store: Store, m: Mount, m': Mount, r: Run, next: Option<Run>, ev: Event)
    requires WorldOk(w) && RunOk(w, ps, m, r) && MountOk(w, ps, r.i.tool, m) && r.pc.WriteConfig?
    requires Complete(w, store, r, m, m', next, ev)
    ensures MountOk(w, ps, r.i.tool, m') && next.Some? && RunOk(w, ps, m', next.value)
  {
    hide MountOk, WorldOk, InputsOk, Want, SrcOk, Blessed, ViewOf;
    var i := r.i;
    ConfigEdit(w, ps, m, m', i, r.src, i.config);
    assert i.config == Drafted(w, i.tool, ViewOf(m'), i.words, i.config, None);
  }

  lemma OldDefDone(w: World, ps: set<Inputs>, store: Store, m: Mount, m': Mount, r: Run, next: Option<Run>, ev: Event)
    requires WorldOk(w) && RunOk(w, ps, m, r) && MountOk(w, ps, r.i.tool, m) && r.pc.RunOldDef?
    requires Complete(w, store, r, m, m', next, ev)
    ensures MountOk(w, ps, r.i.tool, m') && next.Some? && RunOk(w, ps, m', next.value)
  {
    hide MountOk, WorldOk, InputsOk, Want, StampOk, MarkerOk, ObjsOf, SrcOk, Blessed, Made, ViewOf, Trusted, Drafted;
    var i := r.i;
    OpenMount(w, ps, i.tool, m);
    MadeOk(w, ps, m, m', i, [CONFIG]);
    MadeSrc(m, m', Provenance(m, i), [CONFIG]);
    SrcStays(w, m, m', i, r.src);
    assert [MARKER] !in m' by { assert Get(m', [MARKER]) == Get(m, [MARKER]); }
    if Blessed(w, m') {
      BlessedGood(w, i.tool, m);
      var prior :| Holds(m, CONFIG, Drafted(w, i.tool, ViewOf(m), i.words, i.config, prior));
      assert Holds(m', CONFIG, Resolved(w, i.tool, ViewOf(m'), i.words, i.config, prior));
    }
  }

  /** The new marker says what `.config` came from. */
  lemma MarkedOk(w: World, ps: set<Inputs>, m: Mount, m': Mount, i: Inputs)
    requires InputsOk(w, i) && IsResolved(w, m, i)
    requires m' == m[[MARKER] := Data(ConfigId(i.words, i.config))]
    requires ViewOf(m') == ViewOf(m) && (Blessed(w, m') ==> Blessed(w, m))
    ensures MarkerOk(w, ps, i.tool, m')
    ensures Blessed(w, m') ==> ConfigOk(w, ps, i.tool, m', i.words, i.config)
  {
    hide ViewOf, ConfigId, Resolved, Blessed;
    assert [MARKER][0] != [CONFIG][0];
    if Blessed(w, m') {
      assert ConfigIs(w, i.tool, m', i.words, i.config) by { SameIs(w, i.tool, m, m', i.words, i.config); }
      forall words, config | WordsOk(words) && Holds(m', MARKER, ConfigId(words, config))
        ensures ConfigOk(w, ps, i.tool, m', words, config)
      {
        ConfigIdApart(words, config, i.words, i.config);
      }
    }
  }

  lemma MarkerDone(w: World, ps: set<Inputs>, store: Store, m: Mount, m': Mount, r: Run, next: Option<Run>, ev: Event)
    requires WorldOk(w) && RunOk(w, ps, m, r) && MountOk(w, ps, r.i.tool, m) && r.pc.WriteMarker?
    requires Complete(w, store, r, m, m', next, ev)
    ensures MountOk(w, ps, r.i.tool, m') && next.Some? && RunOk(w, ps, m', next.value)
  {
    hide MountOk, WorldOk, InputsOk, Want, StampOk, MarkerOk, ObjsOf, SrcOk, Blessed, ViewOf, ConfigOk, ConfigId, IsResolved;
    MarkerEdit(m, m', ConfigId(r.i.words, r.i.config));
    SameStampBlessed(w, m, m');
    MarkedOk(w, ps, m, m', r.i);
    EditOk(w, ps, m, m', r.i);
    OwnEdited(m, m');
    SrcStays(w, m, m', r.i, r.src);
  }

  lemma ReadyDone(w: World, ps: set<Inputs>, store: Store, m: Mount, m': Mount, r: Run, next: Option<Run>, ev: Event)
    requires WorldOk(w) && RunOk(w, ps, m, r) && MountOk(w, ps, r.i.tool, m) && r.pc.Ready?
    requires Complete(w, store, r, m, m', next, ev)
    ensures MountOk(w, ps, r.i.tool, m') && next.Some? && RunOk(w, ps, m', next.value)
  {
    hide MountOk, WorldOk, InputsOk, Want, SrcOk, Blessed, ViewOf, ConfigOk;
    VersionCutOk(w, ps, m, r.i);
    OwnEdited(m, m');
    SrcStays(w, m, m', r.i, r.src);
    assert [VERSION][0] != [CONFIG][0] && [VERSION][0] != [STAMP][0];
    if Blessed(w, m') { SameConfig(w, ps, r.i.tool, m, m', r.i.words, r.i.config); }
  }

  /** What a build exports from a blessed tree with its configuration settled. */
  lemma BuiltOut(w: World, ps: set<Inputs>, m: Mount, m': Mount, i: Inputs, out: string)
    requires WorldOk(w) && InputsOk(w, i) && MountOk(w, ps, i.tool, m) && Settled(w, ps, m, i) && [VERSION] !in m
    requires Built(w, m, m', i, out)
    ensures OutOk(w, ps, i, out)
  {
    hide WorldOk, InputsOk, Want, MarkerOk, ObjsOf, WholeOk, Made, ViewOf, Trusted, Matches, TreeOf, SourceView, Resolved, ConfigOk, Outcome, Lends;
    forall b | Matches(w, i, b)
      ensures TreeOf(w, b, i.patches).Some?
      ensures LentOut(w, ps, i, SourceView(TreeOf(w, b, i.patches).value), out)
    {
      MatchNamed(w, i, b, m);
      assert Named(w, m, i.src.Local?, b, i.patches);
      assert Good(w, i.tool, m, b, i.patches);
      var v := SourceView(TreeOf(w, b, i.patches).value);
      if w.needsConfig(i.job) {
        SettledOut(w, ps, m, i, b, out);
      } else {
        assert Lends(w, i, ps, i.config) && i.(config := i.config) == i by { OwnLent(w, i, ps); }
        PlainOut(w, i, v);
        assert out == Outcome(w, i.(config := i.config), v, None);
      }
    }
  }

  lemma OwnLent(w: World, i: Inputs, ps: set<Inputs>)
    ensures Lends(w, i, ps, i.config) && i.(config := i.config) == i
  {
  }

  lemma PlainOut(w: World, i: Inputs, v: View)
    requires !w.needsConfig(i.job)
    ensures Outcome(w, i, v, None) == w.build(i.tool, v, "", i.job)
  {
  }

  /** The configuration a settled mount builds from is the run's own, or one that an earlier run lends it. */
  lemma SettledOut(w: World, ps: set<Inputs>, m: Mount, i: Inputs, b: string, out: string)
    requires InputsOk(w, i) && Live(w, m, i) && ConfigOk(w, ps, i.tool, m, i.words, i.config)
    requires TreeOf(w, b, i.patches).Some? && ViewOf(m) == SourceView(TreeOf(w, b, i.patches).value)
    requires w.needsConfig(i.job) && Prior(m).Some? && out == w.build(i.tool, ViewOf(m), Prior(m).value, i.job)
    ensures LentOut(w, ps, i, SourceView(TreeOf(w, b, i.patches).value), out)
  {
    hide InputsOk, Want, ViewOf, TreeOf, SourceView, Resolved;
    var config := LentConfig(w, ps, m, i);
    var prior :| Holds(m, CONFIG, Resolved(w, i.tool, ViewOf(m), i.words, config, prior));
    assert out == Outcome(w, i.(config := config), SourceView(TreeOf(w, b, i.patches).value), prior);
  }

  lemma LentConfig(w: World, ps: set<Inputs>, m: Mount, i: Inputs) returns (config: string)
    requires Live(w, m, i) && ConfigOk(w, ps, i.tool, m, i.words, i.config) && [CONFIG] in m
    ensures Lends(w, i, ps, config) && ConfigIs(w, i.tool, m, i.words, config)
  {
    hide Want, ConfigIs;
    if ConfigIs(w, i.tool, m, i.words, i.config) {
      config := i.config;
    } else {
      config :| Longer(w, ps, i.tool, m, i.words, i.config, config) && ConfigIs(w, i.tool, m, i.words, config);
      var j :| j in ps && j.tool == i.tool && Holds(m, STAMP, Want(w, j)) && j.words == i.words && j.config == config && i.config < config;
      assert Continues(w, i, j);
    }
  }

  lemma MakeDone(w: World, ps: set<Inputs>, store: Store, m: Mount, m': Mount, r: Run, next: Option<Run>, ev: Event)
    requires WorldOk(w) && RunOk(w, ps, m, r) && MountOk(w, ps, r.i.tool, m) && r.pc.Make?
    requires Complete(w, store, r, m, m', next, ev)
    ensures MountOk(w, ps, r.i.tool, m') && next.Some? && RunOk(w, ps, m', next.value)
  {
    hide MountOk, WorldOk, InputsOk, Want, SrcOk, Made, OutOk, Settled, Trusted, ViewOf;
    var i := r.i;
    var out :| Built(w, m, m', i, out) && next == To(r, Push(out));
    assert Live(w, m, i) by { OpenSettled(w, ps, m, i); }
    BuiltOut(w, ps, m, m', i, out);
    MadeOk(w, ps, m, m', i, [VERSION]);
    MadeSrc(m, m', Provenance(m, i), [VERSION]);
    SrcStays(w, m, m', i, r.src);
  }

  lemma OpenSettled(w: World, ps: set<Inputs>, m: Mount, i: Inputs)
    requires Settled(w, ps, m, i)
    ensures Live(w, m, i)
  {
  }

  // ---- seeds ----

  lemma PackedView(w: World, t: Tool, m: Mount)
    requires WorldOk(w) && StampOk(w, t, m) && Blessed(w, m)
    ensures ViewOf(Packed(m)) == ViewOf(m)
  {
    hide Before, Own, AfterStamp;
    var local, b, p :| Named(w, m, local, b, p);
    assert Good(w, t, m, b, p);
    var tree := TreeOf(w, b, p).value;
    assert TreeOk(tree);
    forall q ensures Seen(Packed(m), q) == Seen(m, q) {
      if Seen(m, q).Some? { assert q in ViewOf(m) && q in SourceView(tree); }
    }
    SameView(Packed(m), m);
  }

  /** A packed mount is as it should be wherever it is unpacked. */
  lemma PackedOk(w: World, ps: set<Inputs>, i: Inputs, m: Mount)
    requires WorldOk(w) && InputsOk(w, i) && MountOk(w, ps, i.tool, m) && Live(w, m, i)
    ensures SeedOk(w, ps, i.tool, Packed(m))
  {
    hide WorldOk, InputsOk, Want, ViewOf, Own, Before, AfterStamp, Aside, IsSrc, Skipped, IsStamp, StampOk, MarkerOk, ObjsOf, WholeOk, Blessed, Keeps;
    OwnNames();
    var k := Packed(m);
    assert Get(k, [STAMP]) == Get(m, [STAMP]);
    SameStampBlessed(w, m, k);
    OpenMount(w, ps, i.tool, m);
    PackedRest(w, i.tool, m);
    if Blessed(w, m) {
      PackedView(w, i.tool, m);
      assert Keeps(m, k, i.tool) by { PackedKeeps(m, i.tool); }
      assert Get(k, [MARKER]) == Get(m, [MARKER]) && Get(k, [CONFIG]) == Get(m, [CONFIG]);
      KeepsOk(w, ps, i.tool, m, k);
    } else {
      Unblessed(w, ps, i.tool, k);
      CloseMount(w, ps, i.tool, k);
    }
  }

  lemma PackedKeeps(m: Mount, t: Tool)
    requires ViewOf(Packed(m)) == ViewOf(m)
    ensures Keeps(m, Packed(m), t)
  {
    hide ViewOf, Own, Before, AfterStamp, Aside, IsSrc, Skipped;
    OwnNames();
  }

  lemma PackedRest(w: World, t: Tool, m: Mount)
    requires ObjsOf(m, t) && WholeOk(m)
    ensures ObjsOf(Packed(m), t) && WholeOk(Packed(m))
  {
    hide Own, Before, AfterStamp, Aside, IsSrc, Skipped, IsStamp;
    OwnNames();
  }

  lemma Unblessed(w: World, ps: set<Inputs>, t: Tool, m: Mount)
    requires !Blessed(w, m)
    ensures StampOk(w, t, m) && MarkerOk(w, ps, t, m)
  {
  }

  /** What a push puts in the store. */
  lemma PushedOk(w: World, ps: set<Inputs>, i: Inputs, m: Mount, store: Store)
    requires WorldOk(w) && InputsOk(w, i) && SeedPinned(i) && i.seed.Some? && StoreOk(w, ps, store)
    requires MountOk(w, ps, i.tool, m) && Live(w, m, i)
    ensures StoreOk(w, ps, store[LocOf(w, i) := Packed(m)])
  {
    hide SeedOk, MountOk, Live, SeedKey, ToolOk, Preimage, Packed;
    PackedOk(w, ps, i, m);
    ShortOk(w);
    assert i.tool.(base := i.seed.value.shown) == i.tool;
    forall t, prefix | t in w.tools && SeedKey(Short(w), prefix, t) == LocOf(w, i).1 ensures t == i.tool {
      SeedKeyApart(Short(w), prefix, t, i.seed.value.prefix, i.tool);
    }
  }

  // ---- a run as a whole ----

  /** Every completed step keeps the mount, the run and, through what it stores, the seeds. */
  lemma DoneOk(w: World, ps: set<Inputs>, store: Store, m: Mount, m': Mount, r: Run, next: Option<Run>, ev: Event)
    requires WorldOk(w) && RunOk(w, ps, m, r) && MountOk(w, ps, r.i.tool, m) && StoreOk(w, ps, store)
    requires Complete(w, store, r, m, m', next, ev)
    ensures MountOk(w, ps, r.i.tool, m') && (next.Some? ==> RunOk(w, ps, m', next.value) && next.value.i == r.i)
    ensures StoreOk(w, ps, Stored(store, ev))
    ensures ev.Export? ==> ev.i == r.i && OutOk(w, ps, ev.i, ev.out)
  {
    hide WorldOk, InputsOk, MountOk, Made, Swept, OutOk, Want, ViewOf, Stampable, SrcOk, SeedOk, StoreOk, Settled, Drafting, IsDrafted, IsResolved, BaseMade, Live, Extracted, Patched, Configured, Built, Acquired, Packed, LocOf, Holds, ConfigId, Quarantined, OnlySrc, FromTree, Present, SameInside, Bare, Blank, Prior;
    match r.pc
    case Begin => BeginDone(w, ps, store, m, m', r, next, ev);
    case Acquire(_) => AcquireDone(w, ps, store, m, m', r, next, ev);
    case Nuke(_) => NukeDone(w, ps, store, m, m', r, next, ev);
    case Pull(_) => PullDone(w, ps, store, m, m', r, next, ev);
    case Compare(_) => CompareDone(w, ps, store, m, m', r, next, ev);
    case Extract => ExtractDone(w, ps, store, m, m', r, next, ev);
    case Patch(_) => PatchDone(w, ps, store, m, m', r, next, ev);
    case WriteStamp => StampDone(w, ps, store, m, m', r, next, ev);
    case Configure => ConfigureDone(w, ps, store, m, m', r, next, ev);
    case RunBase => BaseDone(w, ps, store, m, m', r, next, ev);
    case AppendFragment => FragmentDone(w, ps, store, m, m', r, next, ev);
    case WriteConfig => WriteConfigDone(w, ps, store, m, m', r, next, ev);
    case RunOldDef => OldDefDone(w, ps, store, m, m', r, next, ev);
    case WriteMarker => MarkerDone(w, ps, store, m, m', r, next, ev);
    case Ready => ReadyDone(w, ps, store, m, m', r, next, ev);
    case Make => MakeDone(w, ps, store, m, m', r, next, ev);
    case Push(_) => if ev.Put? { PushedOk(w, ps, r.i, m, store); }
    case Finish(_) =>
  }
}
