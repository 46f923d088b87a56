/**
 The build graph (`KernelLLB`, `llb.go`) and what of it keys BuildKit's vertex
 cache: the proxy and the secrets do not, everything the step's result depends on
 does.
 */
module CacheKey {
  import opened Wrappers
  import opened Text
  import opened Specs
  import opened Identity
  import opened Kbuild

  datatype Proxy = Proxy(http: string, https: string, no: string)

  datatype MountAt = MountAt(at: string, input: Vertex, select: string, cache: Option<string>)

  /** A vertex; a local carries the contents of the files it follows, as its digest does. */
  datatype Vertex =
    | Scratch
    | Image(ref: string)
    | Files(name: string, files: map<string, string>)
    | Lifted(image: string)
    | Exec(base: Vertex, args: seq<string>, env: seq<(string, string)>, mounts: seq<MountAt>,
           proxy: Option<Proxy>, secrets: seq<string>, hostNetwork: bool, ignoreCache: bool)

  /** The build context and the source directory, file by file; a patch directory is one entry. */
  datatype Contents = Contents(context: string -> string, src: string -> string)

  // ---- the graph ----

  function ProxyOf(s: Spec): Option<Proxy> {
    if s.httpsProxy == "" && s.httpProxy == "" && s.noProxy == "" then None
    else Some(Proxy(s.httpProxy, s.httpsProxy, "localhost,127.0.0.1" + if s.noProxy != "" then "," + s.noProxy else ""))
  }

  function Taken(files: string -> string, names: set<string>): map<string, string> {
    map n | n in names :: files(n)
  }

  function Toolchain(s: Spec, c: Contents): Vertex {
    if s.toolchainReady && s.proxyCAFile == "" then Image(s.base)
    else
      var ca := s.proxyCAFile != "";
      Exec(Image(s.base), ["bash", "-c", if s.toolchainReady then "ca-only" else "toolchain"],
           [("DEBIAN_FRONTEND", "noninteractive")] + (if ca then [("CA_FILE", s.proxyCAFile)] else []),
           if ca then [MountAt("/certs", Files("context", Taken(c.context, {s.proxyCAFile})), "", None)] else [],
           ProxyOf(s), [], s.networkHost, s.ignoreCache)
  }

  function SourceId(s: Spec): string {
    if s.sourceLocalName != "" then "local:" + s.sourceLocalName
    else if s.sourceSHA256 == "" then s.sourceURL
    else s.sourceSHA256
  }

  function Followed(s: Spec): set<string> {
    {s.configName} + (if s.expectName != "" then {s.expectName} else {}) + (if s.applyPatches then {"patches"} else {})
  }

  function StepEnv(s: Spec): seq<(string, string)> {
    var local := s.sourceLocalName != "";
    [ ("SOURCE_DATE_EPOCH", s.sourceDateEpoch), ("KBUILD_BUILD_USER", "builder"), ("KBUILD_BUILD_HOST", "linux"),
      ("TZ", "UTC"), ("SRC_ID", SourceId(s)),
      ("SRC_URL", if local then "" else s.sourceURL), ("SRC_SHA256", if local then "" else s.sourceSHA256),
      ("SRC_LOCAL", s.sourceLocalName), ("KARCH", ArchOrDefault(s)), ("CROSS_COMPILE", CrossOrDefault(s)),
      ("TARGETS", Join(TargetsOrDefault(s), ',')), ("APPLY_PATCHES", if s.applyPatches then "1" else "0"),
      ("BASE_MAKE", s.baseMake) ]
  }

  function StepMounts(s: Spec, hash: string -> string, c: Contents): seq<MountAt> {
    var ctx := Files("context", Taken(c.context, Followed(s)));
    [ MountAt("/helper", if s.helperRef != "" then Lifted(s.helperRef) else Files("helper", map[]), "", None),
      MountAt("/kernel.config", ctx, s.configName, None),
      MountAt("/build", Scratch, "", Some(MountId(hash, ToolOf(s)))) ]
    + (if s.applyPatches then [MountAt("/patches", ctx, "patches", None)] else [])
    + (if s.expectName != "" then [MountAt("/kernel.expect", ctx, s.expectName, None)] else [])
    + (if s.sourceLocalName != "" then [MountAt("/src", Files("src", Taken(c.src, {s.sourceLocalName})), "", None)] else [])
  }

  /** The compile vertex; `action` is the random word that makes a push run. */
  function KernelLLB(s: Spec, hash: string -> string, c: Contents, action: string): Option<Vertex> {
    if !Valid(s) || '@' !in s.base then None
    else Some(Exec(Toolchain(s, c), ["/helper/kbuild-step"],
                   StepEnv(s) + (if s.seedPush then [("SEED_PUSH", "1"), ("SEED_ACTION", action)] else []),
                   StepMounts(s, hash, c), ProxyOf(s), ["seed_access_key", "seed_secret_key", "seed_cfg"],
                   s.networkHost, s.ignoreCache))
  }

  // ---- the key ----

  /** A vertex without what BuildKit leaves out of its key. */
  function Key(v: Vertex): Vertex {
    match v
    case Exec(base, args, env, mounts, _, _, host, _) => Exec(Key(base), args, env, KeyMounts(mounts), None, [], host, false)
    case _ => v
  }

  function KeyMounts(ms: seq<MountAt>): seq<MountAt> {
    if ms == [] then [] else [ms[0].(input := Key(ms[0].input))] + KeyMounts(ms[1..])
  }

  /** What a seed and a proxy may change of a build. */
  predicate SameButRoutes(s: Spec, r: Spec) {
    r == s.(httpsProxy := r.httpsProxy, httpProxy := r.httpProxy, noProxy := r.noProxy,
            seedURL := r.seedURL, seedPrefix := r.seedPrefix, seedRegion := r.seedRegion)
  }

  lemma ToolchainNeutral(s: Spec, r: Spec, c: Contents)
    requires SameButRoutes(s, r)
    ensures Key(Toolchain(s, c)) == Key(Toolchain(r, c))
  {
    hide ProxyOf, Taken, KeyMounts;
  }

  /** Moving the proxy or the seed does not touch the key, of the toolchain vertex or of the compile vertex. */
  lemma RoutesAreNeutral(s: Spec, r: Spec, hash: string -> string, c: Contents, action: string, action': string)
    requires SameButRoutes(s, r) && !s.seedPush
    requires KernelLLB(s, hash, c, action).Some? && KernelLLB(r, hash, c, action').Some?
    ensures Key(KernelLLB(s, hash, c, action).value) == Key(KernelLLB(r, hash, c, action').value)
    ensures Key(Toolchain(s, c)) == Key(Toolchain(r, c))
  {
    hide Valid, ProxyOf, Toolchain, KeyMounts, StepEnv, StepMounts;
    ToolchainNeutral(s, r, c);
    assert StepEnv(s) == StepEnv(r) by { EnvNeutral(s, r); }
    assert StepMounts(s, hash, c) == StepMounts(r, hash, c) by { MountsNeutral(s, r, hash, c); }
  }

  lemma EnvNeutral(s: Spec, r: Spec)
    requires SameButRoutes(s, r)
    ensures StepEnv(s) == StepEnv(r)
  {
    hide Join;
  }

  lemma MountsNeutral(s: Spec, r: Spec, hash: string -> string, c: Contents)
    requires SameButRoutes(s, r)
    ensures StepMounts(s, hash, c) == StepMounts(r, hash, c)
  {
    hide MountId, Taken;
  }

  // ---- the key says it all ----

  /** The step's inputs, as its environment and its mounts give them to it; `series` lists a patch directory's files. */
  function InputsOf(s: Spec, c: Contents, series: string -> Series): Inputs {
    Inputs(ToolOf(s),
           if s.sourceLocalName != "" then Local(c.src(s.sourceLocalName))
           else if s.sourceSHA256 == "" then Unpinned(s.sourceURL) else Pinned(s.sourceURL, s.sourceSHA256),
           if s.applyPatches then Some(series(c.context("patches"))) else None,
           Fields(s.baseMake), c.context(s.configName),
           s.sourceDateEpoch + "\n" + Join(TargetsOrDefault(s), ',')
             + "\n" + if s.expectName == "" then "" else c.context(s.expectName),
           None)
  }

  lemma {:induction false} KeyMountsAt(ms: seq<MountAt>, k: nat)
    ensures |KeyMounts(ms)| == |ms|
    ensures k < |ms| ==> KeyMounts(ms)[k] == ms[k].(input := Key(ms[k].input))
  {
    if ms != [] { KeyMountsAt(ms[1..], if k > 0 then k - 1 else 0); }
  }

  lemma KeysSplit(s: Spec, c: Contents, r: Spec, d: Contents, hash: string -> string, a: string, b: string)
    requires KernelLLB(s, hash, c, a).Some? && KernelLLB(r, hash, d, b).Some?
    requires Key(KernelLLB(s, hash, c, a).value) == Key(KernelLLB(r, hash, d, b).value)
    ensures Key(Toolchain(s, c)) == Key(Toolchain(r, d))
    ensures StepEnv(s) == StepEnv(r)
    ensures KeyMounts(StepMounts(s, hash, c)) == KeyMounts(StepMounts(r, hash, d))
  {
    hide Valid, ProxyOf, Toolchain, KeyMounts, StepMounts, Join;
    var es, er := Key(KernelLLB(s, hash, c, a).value).env, Key(KernelLLB(r, hash, d, b).value).env;
    assert es[..13] == StepEnv(s) && er[..13] == StepEnv(r);
  }

  lemma EnvSays(s: Spec, r: Spec)
    requires StepEnv(s) == StepEnv(r)
    ensures s.sourceDateEpoch == r.sourceDateEpoch && s.sourceLocalName == r.sourceLocalName
    ensures s.sourceLocalName == "" ==> s.sourceURL == r.sourceURL && s.sourceSHA256 == r.sourceSHA256
    ensures Join(TargetsOrDefault(s), ',') == Join(TargetsOrDefault(r), ',')
    ensures s.applyPatches == r.applyPatches && s.baseMake == r.baseMake
  {
    hide Join;
    var e, f := StepEnv(s), StepEnv(r);
    assert e[0] == f[0] && e[5] == f[5] && e[6] == f[6] && e[7] == f[7] && e[10] == f[10] && e[11] == f[11] && e[12] == f[12];
    assert e[11].1[0] == f[11].1[0];
  }

  lemma TakenSays(f: string -> string, g: string -> string, ns: set<string>, ms: set<string>, n: string)
    requires Taken(f, ns) == Taken(g, ms) && n in ns
    ensures n in ms && f(n) == g(n)
  {
    assert n in Taken(f, ns);
    assert Taken(f, ns)[n] == f(n);
  }

  /** Where the mounts after the fixed three stand. */
  function ExpectAt(s: Spec): nat { if s.applyPatches then 4 else 3 }
  function SrcAt(s: Spec): nat { ExpectAt(s) + if s.expectName != "" then 1 else 0 }

  lemma MountsSay(s: Spec, c: Contents, r: Spec, d: Contents, hash: string -> string)
    requires KeyMounts(StepMounts(s, hash, c)) == KeyMounts(StepMounts(r, hash, d))
    requires s.applyPatches == r.applyPatches && s.sourceLocalName == r.sourceLocalName
    ensures MountId(hash, ToolOf(s)) == MountId(hash, ToolOf(r)) && s.configName == r.configName
    ensures Taken(c.context, Followed(s)) == Taken(d.context, Followed(r))
    ensures s.expectName == r.expectName
    ensures s.sourceLocalName != "" ==> c.src(s.sourceLocalName) == d.src(s.sourceLocalName)
  {
    hide MountId, Taken, Followed;
    var ms, rs := StepMounts(s, hash, c), StepMounts(r, hash, d);
    KeyMountsAt(ms, 1);
    KeyMountsAt(rs, 1);
    KeyMountsAt(ms, 2);
    KeyMountsAt(rs, 2);
    KeyMountsAt(ms, ExpectAt(s));
    KeyMountsAt(rs, ExpectAt(s));
    KeyMountsAt(ms, SrcAt(s));
    KeyMountsAt(rs, SrcAt(s));
    ExpectSays(s, c, r, d, hash);
    if s.sourceLocalName != "" {
      assert ms[SrcAt(s)].input == Files("src", Taken(c.src, {s.sourceLocalName}));
      assert rs[SrcAt(s)].input == Files("src", Taken(d.src, {s.sourceLocalName}));
      TakenSays(c.src, d.src, {s.sourceLocalName}, {s.sourceLocalName}, s.sourceLocalName);
    }
  }

  lemma ExpectSays(s: Spec, c: Contents, r: Spec, d: Contents, hash: string -> string)
    requires KeyMounts(StepMounts(s, hash, c)) == KeyMounts(StepMounts(r, hash, d))
    requires s.applyPatches == r.applyPatches && s.sourceLocalName == r.sourceLocalName
    ensures s.expectName == r.expectName
  {
    hide MountId, Taken, Followed;
    var ms, rs, k := StepMounts(s, hash, c), StepMounts(r, hash, d), ExpectAt(s);
    KeyMountsAt(ms, k);
    KeyMountsAt(rs, k);
    assert s.expectName != "" ==> ms[k].at == "/kernel.expect" && ms[k].select == s.expectName;
    assert r.expectName != "" ==> rs[k].at == "/kernel.expect" && rs[k].select == r.expectName;
    assert |ms| == |rs|;
  }

  /**
   Equal keys, equal results: two builds whose compile vertices have one key run the
   step on the same toolchain vertex with the same inputs, so a hit hands out what a
   cold build would give.
   */
  lemma KeyGivesInputs(s: Spec, c: Contents, r: Spec, d: Contents, series: string -> Series,
                       hash: string -> string, a: string, b: string)
    requires HashOk(hash) && NoCollision(hash, Preimage(ToolOf(s)), Preimage(ToolOf(r)))
    requires KernelLLB(s, hash, c, a).Some? && KernelLLB(r, hash, d, b).Some?
    requires Key(KernelLLB(s, hash, c, a).value) == Key(KernelLLB(r, hash, d, b).value)
    ensures InputsOf(s, c, series) == InputsOf(r, d, series)
    ensures Key(Toolchain(s, c)) == Key(Toolchain(r, d)) && StepEnv(s) == StepEnv(r)
  {
    hide Key, KeyMounts, StepEnv, StepMounts, Toolchain, Taken, HashOk, NoCollision, Preimage, Join, Fields, TargetsOrDefault, MountId;
    KeysSplit(s, c, r, d, hash, a, b);
    EnvSays(s, r);
    MountsSay(s, c, r, d, hash);
    assert ToolOf(s) == ToolOf(r) by {
      assert Valid(s) && Valid(r);
      ValidTool(s);
      ValidTool(r);
      MountIdApart(hash, ToolOf(s), ToolOf(r));
    }
    TakenSays(c.context, d.context, Followed(s), Followed(r), s.configName);
    if s.applyPatches { TakenSays(c.context, d.context, Followed(s), Followed(r), "patches"); }
    if s.expectName != "" { TakenSays(c.context, d.context, Followed(s), Followed(r), s.expectName); }
  }

  /** What the graph accepts is what the step protocol takes for inputs. */
  lemma SpecFits(s: Spec, c: Contents, series: string -> Series, hash: string -> string, a: string)
    requires KernelLLB(s, hash, c, a).Some?
    ensures Fits(InputsOf(s, c, series))
  {
    hide StepEnv, StepMounts, Toolchain, ToolOk, WordsOk, Fields;
    assert Valid(s);
    ValidTool(s);
    ValidWords(s);
    if s.sourceLocalName == "" { TokenUrl(s.sourceURL); }
  }

  lemma TokenUrl(u: string)
    requires HasPrefix(u, "https://") && TokenOk(u) && SourceExt(u).Some?
    ensures UrlOk(u)
  {
  }
}
