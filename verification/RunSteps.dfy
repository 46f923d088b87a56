/** Every step of a run, completed or cut short, keeps the mount and the run as they should be. */
module RunSteps {
  import opened Wrappers
  import opened Text
  import opened Names
  import opened Specs
  import opened Identity
  import opened Kbuild
  import opened Protocol
  import opened MountInvariant
  import opened RunInvariant

  // ---- cut short ----

  lemma ScribbledOk(w: World, ps: set<Inputs>, m: Mount, m': Mount, i: Inputs)
    requires MountOk(w, ps, i.tool, m) && Drafting(w, m, i) && Scribbled(m, m', CONFIG)
    ensures MountOk(w, ps, i.tool, m')
  {
    hide MountOk, Want, ViewOf;
    OwnNames();
    if m' != m {
      assert MarkerOk(w, ps, i.tool, m') by { NoMarker(w, ps, i.tool, m'); }
      EditOk(w, ps, m, m', i);
    }
  }

  lemma NoMarker(w: World, ps: set<Inputs>, t: Tool, m: Mount)
    requires [MARKER] !in m
    ensures MarkerOk(w, ps, t, m)
  {
  }

  lemma MarkerCutOk(w: World, ps: set<Inputs>, m: Mount, m': Mount, i: Inputs)
    requires MountOk(w, ps, i.tool, m) && Live(w, m, i)
    requires m' == m - {[MARKER]}
    ensures MountOk(w, ps, i.tool, m') && Live(w, m', i) && (Blessed(w, m') <==> Blessed(w, m)) && ViewOf(m') == ViewOf(m)
  {
    hide MountOk, Want, ViewOf, Blessed, MarkerOk, ConfigId;
    NoMarker(w, ps, i.tool, m');
    EditOk(w, ps, m, m', i);
  }

  lemma MarkerEdit(m: Mount, m': Mount, text: string)
    requires m' == m[[MARKER] := Data(text)]
    ensures ViewOf(m') == ViewOf(m) && Get(m', [STAMP]) == Get(m, [STAMP])
    ensures forall p :: p != [MARKER] ==> Get(m', p) == Get(m, p)
  {
    hide IsSrc, Own, Before, AfterStamp, Aside, Skipped, ViewOf;
    OwnNames();
    forall p ensures Seen(m, p) == Seen(m', p) {}
    SameView(m, m');
  }

  lemma SameStampBlessed(w: World, m: Mount, m': Mount)
    requires Get(m', [STAMP]) == Get(m, [STAMP])
    ensures Blessed(w, m') <==> Blessed(w, m)
  {
    hide Digest, SrcName;
    forall local, b, p ensures Named(w, m', local, b, p) <==> Named(w, m, local, b, p) {
      assert Get(m', [STAMP]) == Get(m, [STAMP]);
    }
  }

  lemma SameIs(w: World, t: Tool, m: Mount, m': Mount, words: seq<string>, config: string)
    requires ConfigIs(w, t, m, words, config) && ViewOf(m') == ViewOf(m) && [CONFIG] in m' && m'[[CONFIG]] == m[[CONFIG]]
    ensures ConfigIs(w, t, m', words, config)
  {
    hide ViewOf, Resolved;
    var prior :| Holds(m, CONFIG, Resolved(w, t, ViewOf(m), words, config, prior));
    assert Holds(m', CONFIG, Resolved(w, t, ViewOf(m'), words, config, prior));
  }

  /** A marker cut short can only pass for one of a leading part of the run's own configuration. */
  lemma TornMarkerOk(w: World, ps: set<Inputs>, m: Mount, m': Mount, i: Inputs, part: string)
    requires InputsOk(w, i) && i in ps && MountOk(w, ps, i.tool, m) && Drafting(w, m, i) && IsResolved(w, m, i)
    requires part < ConfigId(i.words, i.config) && m' == m[[MARKER] := Data(part)]
    ensures MountOk(w, ps, i.tool, m')
  {
    hide MountOk, InputsOk, Want, ViewOf, Blessed, MarkerOk, ConfigId, IsResolved;
    MarkerEdit(m, m', part);
    SameStampBlessed(w, m, m');
    TornMarker(w, ps, m, m', i, part);
    EditOk(w, ps, m, m', i);
  }

  lemma TornMarker(w: World, ps: set<Inputs>, m: Mount, m': Mount, i: Inputs, part: string)
    requires InputsOk(w, i) && i in ps && Live(w, m, i) && IsResolved(w, m, i)
    requires part < ConfigId(i.words, i.config) && m' == m[[MARKER] := Data(part)]
    requires ViewOf(m') == ViewOf(m) && Get(m', [STAMP]) == Get(m, [STAMP]) && (Blessed(w, m') <==> Blessed(w, m))
    ensures MarkerOk(w, ps, i.tool, m')
  {
    hide Want, ViewOf, Blessed, ConfigId, Resolved, ConfigIs;
    assert [MARKER][0] != [CONFIG][0];
    if Blessed(w, m') {
      assert [CONFIG] in m by { IsHeld(w, i.tool, m, i.words, i.config); }
      SameIs(w, i.tool, m, m', i.words, i.config);
      forall words, config | WordsOk(words) && Holds(m', MARKER, ConfigId(words, config))
        ensures ConfigOk(w, ps, i.tool, m', words, config)
      {
        ConfigIdPrefix(words, config, i.words, i.config);
        assert config != i.config && (|config| == |i.config| ==> config == i.config);
        assert Longer(w, ps, i.tool, m', words, config, i.config);
      }
    }
  }

  lemma IsHeld(w: World, t: Tool, m: Mount, words: seq<string>, config: string)
    requires ConfigIs(w, t, m, words, config)
    ensures [CONFIG] in m
  {
  }

  lemma VersionCutOk(w: World, ps: set<Inputs>, m: Mount, i: Inputs)
    requires MountOk(w, ps, i.tool, m) && Live(w, m, i)
    ensures var m' := m - {[VERSION]};
      MountOk(w, ps, i.tool, m') && Live(w, m', i) && (Blessed(w, m') <==> Blessed(w, m)) && ViewOf(m') == ViewOf(m)
  {
    hide MountOk, Want, ViewOf, Blessed, MarkerOk;
    var m' := m - {[VERSION]};
    assert [VERSION][0] != [MARKER][0] && [VERSION][0] != [CONFIG][0];
    assert Get(m', [MARKER]) == Get(m, [MARKER]) && Get(m', [CONFIG]) == Get(m, [CONFIG]);
    EditOk(w, ps, m, m', i);
  }

  lemma PackingOk(w: World, ps: set<Inputs>, t: Tool, m: Mount, m': Mount)
    requires MountOk(w, ps, t, m)
    requires exists name, text :: HasPrefix(name, ".kbf-seed-") && m' == m[[name] := Data(text)]
    ensures MountOk(w, ps, t, m')
  {
    hide MountOk;
    var name, text :| HasPrefix(name, ".kbf-seed-") && m' == m[[name] := Data(text)];
    assert Aside([name]);
    forall p | !Aside(p) ensures Get(m', p) == Get(m, p) {}
    AsideEdit(w, ps, t, m, m');
  }

  lemma PartNames(src: Origin)
    requires !src.Local? && UrlOk(src.url)
    ensures IsSrc(PartAt(src)) && IsSrc(CachedAt(src)) && PartAt(src) != CachedAt(src)
  {
    var ext := SourceExt(src.url).value;
    assert PartAt(src)[0] == ".kbf-src" + (".tar" + ext + ".part");
    assert CachedAt(src)[0] == ".kbf-src" + (".tar" + ext);
    assert |PartAt(src)[0]| != |CachedAt(src)[0]|;
  }

  lemma SourceCut(w: World, ps: set<Inputs>, m: Mount, m': Mount, r: Run)
    requires WorldOk(w) && RunOk(w, ps, m, r) && MountOk(w, ps, r.i.tool, m) && r.pc.Acquire? && Partial(w, r, m, m')
    ensures MountOk(w, ps, r.i.tool, m') && (r.pc.warm ==> SameInside(r.before, m'))
  {
    hide MountOk;
    if !r.i.src.Local? {
      PartNames(r.i.src);
      FetchedOk(w, ps, r.i.tool, m, m', PartAt(r.i.src));
    }
  }

  /** However a run ends, it leaves a mount as it should be. */
  lemma CutOk(w: World, ps: set<Inputs>, m: Mount, m': Mount, r: Run)
    requires WorldOk(w) && RunOk(w, ps, m, r) && MountOk(w, ps, r.i.tool, m) && Partial(w, r, m, m')
    ensures MountOk(w, ps, r.i.tool, m')
  {
    hide WorldOk, InputsOk, MountOk, Made, PartlyNuked, PartlyFilled, PartlyFetched, Swept, Scribbled, OutOk, Want, ViewOf, Stampable;
    match r.pc
    case Begin => SweptOk(w, ps, r.i.tool, m, m');
    case Acquire(_) => SourceCut(w, ps, m, m', r);
    case Nuke(_) => NukedOk(w, ps, r.i.tool, m, m');
    case Pull(pulled) =>
      OpenMount(w, ps, r.i.tool, pulled);
      FilledOk(w, ps, r.i.tool, m, m', pulled);
    case Compare(_) =>
    case Extract => FilledOk(w, ps, r.i.tool, m, m', map[]);
    case Patch(_) => FilledOk(w, ps, r.i.tool, m, m', map[]);
    case WriteStamp =>
      if m' != m {
        var part :| part < Want(w, r.i) && m' == m[[STAMP] := Data(part)];
        TornOk(w, ps, r.i, m, part);
      }
    case Configure => if m' != m { MarkerCutOk(w, ps, m, m', r.i); }
    case RunBase => MadeOk(w, ps, m, m', r.i, [CONFIG]);
    case AppendFragment => ScribbledOk(w, ps, m, m', r.i);
    case WriteConfig => ScribbledOk(w, ps, m, m', r.i);
    case RunOldDef => MadeOk(w, ps, m, m', r.i, [CONFIG]);
    case WriteMarker =>
      if m' != m {
        var part :| part < ConfigId(r.i.words, r.i.config) && m' == m[[MARKER] := Data(part)];
        TornMarkerOk(w, ps, m, m', r.i, part);
      }
    case Ready => if m' != m { VersionCutOk(w, ps, m, r.i); }
    case Make => MadeOk(w, ps, m, m', r.i, [VERSION]);
    case Push(_) => PackingOk(w, ps, r.i.tool, m, m');
    case Finish(_) =>
  }

  // ---- completed ----

  lemma BeginDone(w: World, ps: set<Inputs>, store: Store, m: Mount, m': Mount, r: Run, next: Option<Run>, ev: Event)
    requires WorldOk(w) && RunOk(w, ps, m, r) && MountOk(w, ps, r.i.tool, m) && r.pc.Begin?
    requires Complete(w, store, r, m, m', next, ev)
    ensures MountOk(w, ps, r.i.tool, m') && next.Some? && RunOk(w, ps, m', next.value)
  {
    hide MountOk, WorldOk, Swept, Want, SameInside;
    SweptOk(w, ps, r.i.tool, m, m');
    assert SameInside(r.before, m') by { SameTwice(r.before, m, m'); }
  }

  lemma SameTwice(a: Mount, b: Mount, c: Mount)
    requires SameInside(a, b) && SameInside(b, c)
    ensures SameInside(a, c)
  {
  }

  lemma AcquireDone(w: World, ps: set<Inputs>, store: Store, m: Mount, m': Mount, r: Run, next: Option<Run>, ev: Event)
    requires WorldOk(w) && RunOk(w, ps, m, r) && MountOk(w, ps, r.i.tool, m) && r.pc.Acquire?
    requires Complete(w, store, r, m, m', next, ev)
    ensures MountOk(w, ps, r.i.tool, m') && next.Some? && RunOk(w, ps, m', next.value)
  {
    hide MountOk, WorldOk, Want, SameInside;
    if m' != m {
      var src := next.value.src.value;
      PartNames(r.i.src);
      forall p | !Aside(p) ensures Get(m', p) == Get(m, p) {}
      AsideEdit(w, ps, r.i.tool, m, m');
    } else if !r.i.src.Local? {
      PartNames(r.i.src);
    }
  }

  lemma BareOk(w: World, ps: set<Inputs>, t: Tool, m: Mount)
    requires MountOk(w, ps, t, m)
    ensures MountOk(w, ps, t, OnlySrc(m)) && Bare(OnlySrc(m))
  {
    hide MountOk;
    OwnNames();
    OpenMount(w, ps, t, m);
    NoStampOk(w, ps, t, OnlySrc(m));
  }

  lemma StoredOk(w: World, ps: set<Inputs>, store: Store, i: Inputs)
    requires WorldOk(w) && InputsOk(w, i) && SeedPinned(i) && StoreOk(w, ps, store)
    requires i.seed.Some? && LocOf(w, i) in store
    ensures SeedOk(w, ps, i.tool, store[LocOf(w, i)])
  {
    hide WorldOk, SeedOk, SeedKey;
    assert i.tool.(base := i.seed.value.shown) == i.tool;
    assert LocOf(w, i).1 == SeedKey(Short(w), i.seed.value.prefix, i.tool);
  }

  lemma NukeDone(w: World, ps: set<Inputs>, store: Store, m: Mount, m': Mount, r: Run, next: Option<Run>, ev: Event)
    requires WorldOk(w) && RunOk(w, ps, m, r) && MountOk(w, ps, r.i.tool, m) && r.pc.Nuke? && StoreOk(w, ps, store)
    requires Complete(w, store, r, m, m', next, ev)
    ensures MountOk(w, ps, r.i.tool, m') && next.Some? && RunOk(w, ps, m', next.value)
  {
    hide MountOk, WorldOk, Want, SameInside, StoreOk, LocOf, SeedOk;
    BareOk(w, ps, r.i.tool, m);
    if r.i.seed.Some? && LocOf(w, r.i) in store { StoredOk(w, ps, store, r.i); }
  }

  lemma HydratedParts(pulled: Mount)
    requires [STAMP] in pulled && [SEED_STAMP] !in pulled
    ensures var q := Quarantined(pulled);
      && [STAMP] !in q && [SEED_STAMP] in q && q[[SEED_STAMP]] == pulled[[STAMP]]
      && forall p :: p != [STAMP] && p != [SEED_STAMP] ==> Get(q, p) == Get(pulled, p)
  {
    var a: FilePath, b: FilePath := [STAMP], [SEED_STAMP];
    assert a[0] != b[0];
  }

  lemma OnlySrcTwice(m: Mount, q: Mount)
    ensures OnlySrc(OnlySrc(m) + q) + q == OnlySrc(m) + q
  {
  }

  lemma PullDone(w: World, ps: set<Inputs>, store: Store, m: Mount, m': Mount, r: Run, next: Option<Run>, ev: Event)
    requires WorldOk(w) && RunOk(w, ps, m, r) && MountOk(w, ps, r.i.tool, m) && r.pc.Pull?
    requires Complete(w, store, r, m, m', next, ev)
    ensures MountOk(w, ps, r.i.tool, m') && next.Some? && RunOk(w, ps, m', next.value)
  {
    hide MountOk, WorldOk, Want, InputsOk, Quarantined, StampOk, MarkerOk, ObjsOf, Skipped, OnlySrc, SrcOk, Bare;
    var pulled := r.pc.pulled;
    OpenMount(w, ps, r.i.tool, m);
    OpenMount(w, ps, r.i.tool, pulled);
    OnlySrcTwice(m, Quarantined(pulled));
    PulledObjs(w, r.i.tool, m, pulled);
    NoStampOk(w, ps, r.i.tool, m');
    SrcKept(w, m, m', r.i, r.src, pulled);
  }

  lemma PulledObjs(w: World, t: Tool, m: Mount, pulled: Mount)
    requires ObjsOf(m, t) && ObjsOf(pulled, t) && [STAMP] in pulled && [SEED_STAMP] !in pulled
    ensures ObjsOf(OnlySrc(m) + Quarantined(pulled), t) && [STAMP] !in OnlySrc(m) + Quarantined(pulled)
  {
    OwnNames();
    HydratedParts(pulled);
    var m', q := OnlySrc(m) + Quarantined(pulled), Quarantined(pulled);
    forall p | p in m' && m'[p].Obj? ensures !Own(p) && m'[p].made.tool == t {
      if p in q {
        assert p != [SEED_STAMP] ==> Get(q, p) == Get(pulled, p);
        assert [STAMP] in pulled && m'[p] == q[p];
      }
    }
  }

  lemma SrcPath(path: FilePath, pulled: Mount)
    requires IsSrc(path) && |path| == 1
    requires [STAMP] in pulled && [SEED_STAMP] !in pulled && forall p :: p in pulled ==> !Skipped(p)
    ensures path !in Quarantined(pulled)
  {
    hide Quarantined, Before;
    HydratedParts(pulled);
    assert Skipped(path);
    assert !IsSrc([STAMP]) && !IsSrc([SEED_STAMP]) by { OwnNames(); }
    assert Get(Quarantined(pulled), path) == Get(pulled, path);
  }

  /** The cached tarball stays while a seed is unpacked around it. */
  lemma SrcKept(w: World, m: Mount, m': Mount, i: Inputs, src: Option<Src>, pulled: Mount)
    requires InputsOk(w, i) && SrcOk(w, m, i, src)
    requires [STAMP] in pulled && [SEED_STAMP] !in pulled && forall p :: p in pulled ==> !Skipped(p)
    requires m' == OnlySrc(m) + Quarantined(pulled)
    ensures SrcOk(w, m', i, src)
  {
    hide InputsOk, Quarantined;
    if src.Some? && src.value.Cached? {
      SrcPath(src.value.path, pulled);
    }
  }
}
