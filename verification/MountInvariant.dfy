/**
 What every mount and every stored seed satisfies, whatever happened to it, and
 why each kind of change keeps it.
 */
module MountInvariant {
  import opened Wrappers
  import opened Text
  import opened Names
  import opened Specs
  import opened Identity
  import opened Kbuild
  import opened Protocol

  function SrcName(w: World, local: bool, b: string): string {
    if local then "local:" + w.sha(b) else w.sha(b)
  }

  /** The live stamp is the one for this tarball and this patch series. */
  predicate Named(w: World, m: Mount, local: bool, b: string, p: Option<Series>) {
    && b in w.blobs && (p.Some? ==> p.value in w.series)
    && Holds(m, STAMP, Stamp(SrcName(w, local, b), Digest(w, p)))
  }

  ghost predicate Blessed(w: World, m: Mount) {
    exists local, b, p :: Named(w, m, local, b, p)
  }

  /** The source is complete and patched, and every object was made from it by `t`. */
  ghost predicate Good(w: World, t: Tool, m: Mount, b: string, p: Option<Series>) {
    TreeOf(w, b, p).Some? && ViewOf(m) == SourceView(TreeOf(w, b, p).value) && Trusted(m, t)
  }

  /** A live stamp is never wrong about the tree. */
  ghost predicate StampOk(w: World, t: Tool, m: Mount) {
    forall local, b, p {:trigger Named(w, m, local, b, p)} :: Named(w, m, local, b, p) ==> Good(w, t, m, b, p)
  }

  /** `.config` is what the pair resolves to on this tree. */
  ghost predicate ConfigIs(w: World, t: Tool, m: Mount, words: seq<string>, config: string) {
    exists prior :: Holds(m, CONFIG, Resolved(w, t, ViewOf(m), words, config, prior))
  }

  /** An earlier run on this tree, with this list, had a configuration that goes on where `config` ends. */
  predicate Longer(w: World, ps: set<Inputs>, t: Tool, m: Mount, words: seq<string>, config: string, longer: string) {
    exists j :: j in ps && j.tool == t && Holds(m, STAMP, Want(w, j)) && j.words == words && j.config == longer && config < longer
  }

  /** `.config` is missing, what the pair resolves to on this tree, or what a longer configuration of an earlier run does. */
  ghost predicate ConfigOk(w: World, ps: set<Inputs>, t: Tool, m: Mount, words: seq<string>, config: string) {
    [CONFIG] in m ==>
      ConfigIs(w, t, m, words, config)
      || exists longer :: Longer(w, ps, t, m, words, config, longer) && ConfigIs(w, t, m, words, longer)
  }

  /** Under a live stamp the marker is never wrong about `.config`. */
  ghost predicate MarkerOk(w: World, ps: set<Inputs>, t: Tool, m: Mount) {
    Blessed(w, m) ==>
      forall words, config :: WordsOk(words) && Holds(m, MARKER, ConfigId(words, config)) ==> ConfigOk(w, ps, t, m, words, config)
  }

  /** Objects are the toolchain's own, and never among the protocol's files. */
  ghost predicate ObjsOf(m: Mount, t: Tool) {
    forall p :: p in m && m[p].Obj? ==> !Own(p) && m[p].made.tool == t
  }

  ghost predicate IsStamp(text: string) {
    exists src, d :: ' ' !in src && DigestOk(d) && text == Stamp(src, d)
  }

  /** A whole stamp stands on a tree, and no quarantined stamp stands beside it. */
  ghost predicate WholeOk(m: Mount) {
    [STAMP] in m ==>
      && [SEED_STAMP] !in m
      && (m[[STAMP]].Data? && IsStamp(m[[STAMP]].s) ==> [MAKEFILE] in m && m[[MAKEFILE]].Data?)
  }

  ghost predicate MountOk(w: World, ps: set<Inputs>, t: Tool, m: Mount) {
    ObjsOf(m, t) && StampOk(w, t, m) && MarkerOk(w, ps, t, m) && WholeOk(m)
  }

  // ---- views ----

  function Seen(m: Mount, p: FilePath): Option<string> {
    if p in m && AfterStamp(p) && !Own(p) && m[p].Data? then Some(m[p].s) else None
  }

  lemma SameView(m: Mount, m': Mount)
    requires forall p :: Seen(m, p) == Seen(m', p)
    ensures ViewOf(m) == ViewOf(m')
  {
    var v, v' := ViewOf(m), ViewOf(m');
    assert v.Keys == v'.Keys by {
      forall p ensures p in v <==> p in v' { assert Seen(m, p) == Seen(m', p); }
    }
    forall p | p in v ensures v[p] == v'[p] { assert Seen(m, p) == Seen(m', p); }
  }

  // ---- stamps ----

  lemma ShortOk(w: World)
    requires WorldOk(w)
    ensures HashOk(Short(w))
  {
    forall x ensures |Short(w)(x)| == 16 && All(Short(w)(x), Hex) {
      assert Sha256Ok(w.sha(x));
    }
  }

  lemma DigestFits(w: World, p: Option<Series>)
    requires WorldOk(w)
    ensures DigestOk(Digest(w, p))
    ensures p.Some? ==> |Digest(w, p)| == 16
  {
    ShortOk(w);
    if p.Some? { assert |Short(w)(Concat(p.value))| == 16 && All(Short(w)(Concat(p.value)), Hex); }
  }

  lemma ShaHex(w: World, b: string)
    requires WorldOk(w)
    ensures Sha256Ok(w.sha(b)) && Hex(w.sha(b)[0]) && ' ' !in w.sha(b)
  {
    assert Sha256Ok(w.sha(b));
    var h := w.sha(b);
    assert forall i :: 0 <= i < |h| ==> Hex(h[i]);
  }

  lemma SrcNameToken(w: World, local: bool, b: string)
    requires WorldOk(w)
    ensures ' ' !in SrcName(w, local, b)
  {
    ShaHex(w, b);
  }

  lemma SrcIdToken(w: World, i: Inputs)
    requires WorldOk(w) && InputsOk(w, i)
    ensures ' ' !in SrcId(w, i.src)
  {
    hide WorldOk;
    match i.src
    case Pinned(_, sum) => assert forall k :: 0 <= k < |sum| ==> Hex(sum[k]);
    case Unpinned(url) =>
    case Local(blob) => ShaHex(w, blob);
  }

  lemma DigestApart(w: World, p: Option<Series>, q: Option<Series>)
    requires WorldOk(w) && Digest(w, p) == Digest(w, q)
    requires (p.Some? ==> p.value in w.series) && (q.Some? ==> q.value in w.series)
    ensures p == q
  {
    DigestFits(w, p);
    DigestFits(w, q);
  }

  /** Whoever wants a stamp that names a tarball asks for that tarball with those patches. */
  lemma WantNames(w: World, i: Inputs, local: bool, b: string, p: Option<Series>)
    requires WorldOk(w) && InputsOk(w, i) && b in w.blobs && (p.Some? ==> p.value in w.series)
    requires Want(w, i) == Stamp(SrcName(w, local, b), Digest(w, p))
    ensures Matches(w, i, b) && p == i.patches && local == i.src.Local?
  {
    SrcIdToken(w, i);
    SrcNameToken(w, local, b);
    StampApart(SrcId(w, i.src), Digest(w, i.patches), SrcName(w, local, b), Digest(w, p));
    DigestApart(w, p, i.patches);
    NameSays(w, i, local, b);
  }

  lemma NameSays(w: World, i: Inputs, local: bool, b: string)
    requires WorldOk(w) && InputsOk(w, i) && b in w.blobs && SrcId(w, i.src) == SrcName(w, local, b)
    ensures Matches(w, i, b) && local == i.src.Local?
  {
    var l := "local:";
    ShaHex(w, b);
    assert SrcName(w, local, b)[0] == if local then l[0] else w.sha(b)[0];
    assert i.src.Unpinned? ==> i.src.url[0] == "https://"[0];
    assert i.src.Pinned? ==> Hex(i.src.sum[0]);
    if i.src.Local? {
      ShaHex(w, i.src.blob);
      assert (l + w.sha(i.src.blob))[6..] == w.sha(i.src.blob) && (l + w.sha(b))[6..] == w.sha(b);
    }
  }

  lemma MatchNamed(w: World, i: Inputs, b: string, m: Mount)
    requires WorldOk(w) && InputsOk(w, i) && Matches(w, i, b)
    requires Holds(m, STAMP, Want(w, i))
    ensures Named(w, m, i.src.Local?, b, i.patches)
  {
  }

  /** A stamp cut short is no stamp at all. */
  lemma TornStamp(w: World, i: Inputs, part: string)
    requires WorldOk(w) && InputsOk(w, i) && part < Want(w, i)
    ensures !IsStamp(part)
  {
    forall src, d | ' ' !in src && DigestOk(d) && part == Stamp(src, d) ensures false {
      SrcIdToken(w, i);
      DigestFits(w, i.patches);
      StampPrefixFree(src, d, SrcId(w, i.src), Digest(w, i.patches));
    }
  }

  lemma NamedIsStamp(w: World, m: Mount, local: bool, b: string, p: Option<Series>)
    requires WorldOk(w) && Named(w, m, local, b, p)
    ensures IsStamp(m[[STAMP]].s)
  {
    SrcNameToken(w, local, b);
    DigestFits(w, p);
  }

  lemma WantIsStamp(w: World, i: Inputs)
    requires WorldOk(w) && InputsOk(w, i)
    ensures IsStamp(Want(w, i))
  {
    SrcIdToken(w, i);
    DigestFits(w, i.patches);
  }

  // ---- changes that keep a mount as it should be ----

  /** Without a stamp there is little to keep. */
  lemma NoStampOk(w: World, ps: set<Inputs>, t: Tool, m: Mount)
    requires ObjsOf(m, t) && [STAMP] !in m
    ensures MountOk(w, ps, t, m)
  {
  }

  /** `m'` has the stamp, the source and the Makefile of `m`, and no object from elsewhere. */
  ghost predicate Keeps(m: Mount, m': Mount, t: Tool) {
    && ViewOf(m') == ViewOf(m)
    && Get(m', [STAMP]) == Get(m, [STAMP]) && Get(m', [MAKEFILE]) == Get(m, [MAKEFILE])
    && ([STAMP] in m' ==> [SEED_STAMP] in m' ==> [SEED_STAMP] in m)
    && (forall p :: p in m' && m'[p].Obj? ==>
          (p in m && m[p] == m'[p]) || (!Own(p) && m'[p].made == Prov(t, ViewOf(m))))
  }

  lemma SameConfig(w: World, ps: set<Inputs>, t: Tool, m: Mount, m': Mount, words: seq<string>, config: string)
    requires ConfigOk(w, ps, t, m, words, config) && ViewOf(m') == ViewOf(m)
    requires [CONFIG] in m' ==> [CONFIG] in m && m'[[CONFIG]] == m[[CONFIG]]
    requires Get(m', [STAMP]) == Get(m, [STAMP])
    ensures ConfigOk(w, ps, t, m', words, config)
  {
    hide ViewOf, Resolved, Want;
    if [CONFIG] in m' {
      if longer :| Longer(w, ps, t, m, words, config, longer) && ConfigIs(w, t, m, words, longer) {
        assert Longer(w, ps, t, m', words, config, longer) && ConfigIs(w, t, m', words, longer);
      } else {
        assert ConfigIs(w, t, m', words, config);
      }
    }
  }

  lemma KeepsOk(w: World, ps: set<Inputs>, t: Tool, m: Mount, m': Mount)
    requires MountOk(w, ps, t, m) && Keeps(m, m', t)
    requires (Get(m', [MARKER]) == Get(m, [MARKER]) && Get(m', [CONFIG]) == Get(m, [CONFIG])) || MarkerOk(w, ps, t, m')
    ensures MountOk(w, ps, t, m')
    ensures Blessed(w, m') <==> Blessed(w, m)
  {
    hide ViewOf, Digest, SrcName, Resolved, TreeOf, Own, WordsOk, ConfigOk, ConfigId;
    assert Get(m', [STAMP]) == Get(m, [STAMP]);
    forall local, b, p ensures Named(w, m', local, b, p) <==> Named(w, m, local, b, p) {}
    forall local, b, p | Named(w, m', local, b, p) ensures Good(w, t, m', b, p) {
      assert Named(w, m, local, b, p);
    }
    if Blessed(w, m') && Get(m', [MARKER]) == Get(m, [MARKER]) && Get(m', [CONFIG]) == Get(m, [CONFIG]) {
      var local, b, p :| Named(w, m', local, b, p);
      assert Named(w, m, local, b, p);
      forall words, config | WordsOk(words) && Holds(m', MARKER, ConfigId(words, config))
        ensures ConfigOk(w, ps, t, m', words, config)
      {
        assert Get(m', [CONFIG]) == Get(m, [CONFIG]) && Holds(m, MARKER, ConfigId(words, config));
        SameConfig(w, ps, t, m, m', words, config);
      }
    }
  }

  /** Names outside the view. */
  lemma OwnNames()
    ensures Own([STAMP]) && Own([SEED_STAMP]) && Own([MARKER]) && Own([CONFIG]) && Own([VERSION]) && !Own([MAKEFILE])
    ensures !IsSrc([STAMP]) && !IsSrc([SEED_STAMP]) && !IsSrc([MARKER]) && !IsSrc([CONFIG]) && !IsSrc([VERSION]) && !IsSrc([MAKEFILE])
    ensures !Aside([STAMP]) && !Aside([SEED_STAMP]) && !Aside([MARKER]) && !Aside([CONFIG]) && !Aside([VERSION]) && !Aside([MAKEFILE])
    ensures AfterStamp([MAKEFILE]) && Before(STAMP, SEED_STAMP)
    ensures forall p :: IsSrc(p) || Aside(p) ==> Own(p)
    ensures [STAMP] != [SEED_STAMP] && [STAMP] != [MARKER] && [STAMP] != [CONFIG] && [MARKER] != [CONFIG]
    ensures !Skipped([STAMP]) && !Skipped([MARKER]) && !Skipped([CONFIG]) && !Skipped([MAKEFILE]) && !Skipped([SEED_STAMP])
  {
    assert ".kbf-stamp"[5] != ".kbf-src"[5] || ".kbf-stamp"[6] != ".kbf-src"[6];
    assert ".kbf-config-src"[5] == 'c';
    assert Before(STAMP, MAKEFILE) by { assert STAMP[0] < MAKEFILE[0]; }
    SeedAfter();
    OwnAside();
  }

  /** What the step sets aside goes by its own names. */
  lemma OwnAside()
    ensures forall p :: IsSrc(p) || Aside(p) ==> Own(p)
  {
    forall p: FilePath | IsSrc(p) ensures Own(p) { assert p[0][..5] == ".kbf-src"[..5]; }
    forall p: FilePath | Aside(p) ensures Own(p) { if !IsSrc(p) { assert p[0][..5] == ".kbf-seed-"[..5]; } }
  }

  lemma {:induction false} BeforeLonger(a: string, b: string)
    requires b != ""
    ensures Before(a, a + b)
  {
    if a != "" {
      BeforeLonger(a[1..], b);
      assert (a + b)[1..] == a[1..] + b;
    }
  }

  lemma SeedAfter()
    ensures Before(STAMP, SEED_STAMP)
  {
    BeforeLonger(STAMP, ".seed");
    assert STAMP + ".seed" == SEED_STAMP;
  }

  // ---- the order of a directory listing ----

  lemma {:induction false} BeforeIsStrict(a: string, b: string)
    ensures !(Before(a, b) && Before(b, a)) && !Before(a, a)
  {
    if a != "" {
      if b != "" { BeforeIsStrict(a[1..], b[1..]); }
      BeforeIsStrict(a[1..], a[1..]);
    }
  }

  lemma {:induction false} BeforeChains(a: string, b: string, c: string)
    requires Before(a, b) && Before(b, c)
    ensures Before(a, c)
  {
    if a != "" && a[0] == b[0] && b[0] == c[0] {
      BeforeChains(a[1..], b[1..], c[1..]);
    }
  }
}
