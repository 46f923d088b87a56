/**
 What the step makes of the vertex it runs as: the environment and the mounts
 (`cmd/kbuild-step/main.go`) say what the build they were made from says (`llb.go`).
 */
module StepReads {
  import opened Wrappers
  import opened Text
  import opened Specs
  import opened Identity
  import opened Kbuild
  import opened CacheKey

  // ---- the reader ----

  type Environment = seq<(string, string)>

  /** `os.Getenv`. */
  function Getenv(env: Environment, name: string): string {
    if env == [] then ""
    else if env[0].0 == name then env[0].1
    else Getenv(env[1..], name)
  }

  function MountOn(ms: seq<MountAt>, at: string): Option<MountAt> {
    if ms == [] then None
    else if ms[0].at == at then Some(ms[0])
    else MountOn(ms[1..], at)
  }

  /** What is read at the mount point, or below it by name. */
  function FileOn(ms: seq<MountAt>, at: string, name: string): Option<string> {
    match MountOn(ms, at)
    case Some(MountAt(_, Files(_, files), select, _)) =>
      var file := if select != "" then select else name;
      if file in files then Some(files[file]) else None
    case _ => None
  }

  function Or(s: Option<string>): string {
    if s.Some? then s.value else ""
  }

  /** The image a toolchain vertex starts from. */
  function ImageOf(v: Vertex): string {
    match v
    case Image(ref) => ref
    case Exec(base, _, _, _, _, _, _, _) => ImageOf(base)
    case _ => ""
  }

  /** Whether the compilers come with the image: nothing is installed. */
  predicate ComesReady(v: Vertex) {
    v.Image? || (v.Exec? && |v.args| == 3 && v.args[2] == "ca-only")
  }

  /** The toolchain the make of this vertex runs; the version is the tarball's. */
  function ToolRead(v: Vertex, version: string): Tool
    requires v.Exec?
  {
    Tool(version, Getenv(v.env, "KARCH"), ImageOf(v.base), Getenv(v.env, "CROSS_COMPILE"), ComesReady(v.base),
         Getenv(v.env, "APPLY_PATCHES") == "1")
  }

  function SourceRead(v: Vertex): Origin
    requires v.Exec?
  {
    var local, url, sum := Getenv(v.env, "SRC_LOCAL"), Getenv(v.env, "SRC_URL"), Getenv(v.env, "SRC_SHA256");
    if local != "" then Local(Or(FileOn(v.mounts, "/src", local)))
    else if sum == "" then Unpinned(url) else Pinned(url, sum)
  }

  /** What the step runs on, as it reads it. */
  function StepReads(v: Vertex, version: string, series: string -> Series): Inputs
    requires v.Exec?
  {
    Inputs(ToolRead(v, version), SourceRead(v),
           if Getenv(v.env, "APPLY_PATCHES") == "1" then Some(series(Or(FileOn(v.mounts, "/patches", "")))) else None,
           Fields(Getenv(v.env, "BASE_MAKE")), Or(FileOn(v.mounts, "/kernel.config", "")),
           Getenv(v.env, "SOURCE_DATE_EPOCH") + "\n" + Getenv(v.env, "TARGETS")
             + "\n" + Or(FileOn(v.mounts, "/kernel.expect", "")),
           None)
  }

  /** The source identity the stamp is made of (`stampWant`); a local tarball is hashed. */
  function IdRead(v: Vertex, sha: string -> string): string
    requires v.Exec?
  {
    var local := Getenv(v.env, "SRC_LOCAL");
    if local != "" then "local:" + sha(Or(FileOn(v.mounts, "/src", local))) else Getenv(v.env, "SRC_ID")
  }

  // ---- the environment ----

  lemma {:induction false} GetenvAt(env: Environment, k: nat, name: string)
    requires k < |env| && env[k].0 == name && forall j :: 0 <= j < k ==> env[j].0 != name
    ensures Getenv(env, name) == env[k].1
  {
    if k > 0 { GetenvAt(env[1..], k - 1, name); }
  }

  lemma EnvRead(s: Spec, rest: Environment)
    ensures var env := StepEnv(s) + rest;
      && Getenv(env, "SOURCE_DATE_EPOCH") == s.sourceDateEpoch
      && Getenv(env, "SRC_URL") == (if s.sourceLocalName != "" then "" else s.sourceURL)
      && Getenv(env, "SRC_SHA256") == (if s.sourceLocalName != "" then "" else s.sourceSHA256)
      && Getenv(env, "SRC_LOCAL") == s.sourceLocalName
      && (s.sourceLocalName == "" ==> Getenv(env, "SRC_ID") == if s.sourceSHA256 == "" then s.sourceURL else s.sourceSHA256)
  {
    hide Join, TargetsOrDefault, ArchOrDefault, CrossOrDefault;
    var env := StepEnv(s) + rest;
    Names();
    GetenvAt(env, 0, "SOURCE_DATE_EPOCH");
    GetenvAt(env, 4, "SRC_ID");
    GetenvAt(env, 5, "SRC_URL");
    GetenvAt(env, 6, "SRC_SHA256");
    GetenvAt(env, 7, "SRC_LOCAL");
  }

  lemma Names()
    ensures |"SRC_ID"| == 6 && |"SRC_URL"| == 7 && |"SRC_LOCAL"| == 9 && |"SRC_SHA256"| == 10 && |"TZ"| == 2
    ensures |"SOURCE_DATE_EPOCH"| == |"KBUILD_BUILD_USER"| == |"KBUILD_BUILD_HOST"| == 17
    ensures |"KARCH"| == 5 && |"CROSS_COMPILE"| == |"APPLY_PATCHES"| == 13 && |"TARGETS"| == 7 && |"BASE_MAKE"| == 9
    ensures "SRC_URL"[0] == 'S' && "TARGETS"[0] == 'T' && "BASE_MAKE"[0] == 'B' && "SRC_LOCAL"[0] == 'S'
    ensures "CROSS_COMPILE"[0] == 'C' && "APPLY_PATCHES"[0] == 'A'
  {
  }

  lemma MakeRead(s: Spec, rest: Environment)
    ensures var env := StepEnv(s) + rest;
      && Getenv(env, "KARCH") == (if s.arch == "" then "x86_64" else s.arch)
      && Getenv(env, "CROSS_COMPILE") == CrossOrDefault(s)
      && Getenv(env, "TARGETS") == Join(TargetsOrDefault(s), ',')
      && Getenv(env, "APPLY_PATCHES") == (if s.applyPatches then "1" else "0")
      && Getenv(env, "BASE_MAKE") == s.baseMake
  {
    hide Join, TargetsOrDefault, CrossOrDefault, SourceId;
    var env := StepEnv(s) + rest;
    Names();
    GetenvAt(env, 8, "KARCH");
    GetenvAt(env, 9, "CROSS_COMPILE");
    GetenvAt(env, 10, "TARGETS");
    GetenvAt(env, 11, "APPLY_PATCHES");
    GetenvAt(env, 12, "BASE_MAKE");
  }

  /** The defaults, in so many words. */
  lemma DefaultsRead(s: Spec, hash: string -> string, c: Contents, a: string)
    requires KernelLLB(s, hash, c, a).Some?
    ensures var env := KernelLLB(s, hash, c, a).value.env;
      && Getenv(env, "KARCH") == (if s.arch == "" then "x86_64" else s.arch)
      && Getenv(env, "KARCH") in ["x86_64", "arm64"]
      && Getenv(env, "CROSS_COMPILE") == (if s.crossCompile != "" then s.crossCompile
                                          else if s.arch == "arm64" then "aarch64-linux-gnu-" else "")
      && (s.targets == [] ==> Getenv(env, "TARGETS") == if s.arch == "arm64" then "vmlinux,image" else "vmlinux")
  {
    hide StepEnv, StepMounts, Toolchain, Getenv;
    Built(s, hash, c, a);
    var rest := KernelLLB(s, hash, c, a).value.env[|StepEnv(s)|..];
    MakeRead(s, rest);
    assert ToolchainValid(s) by { assert Valid(s); }
    assert "vmlinux" + "," + "image" == "vmlinux,image";
  }

  lemma Built(s: Spec, hash: string -> string, c: Contents, a: string)
    requires KernelLLB(s, hash, c, a).Some?
    ensures var v := KernelLLB(s, hash, c, a).value;
      && v.Exec? && v.base == Toolchain(s, c) && v.mounts == StepMounts(s, hash, c) && Valid(s)
      && StepEnv(s) <= v.env && v.env == StepEnv(s) + v.env[|StepEnv(s)|..]
  {
    hide StepEnv, StepMounts, Toolchain, Valid;
  }

  // ---- the mounts ----

  lemma {:induction false} MountOnAt(ms: seq<MountAt>, k: nat, at: string)
    requires k <= |ms| && (k < |ms| ==> ms[k].at == at) && forall j :: 0 <= j < k ==> ms[j].at != at
    ensures MountOn(ms, at) == if k < |ms| then Some(ms[k]) else None
  {
    if k > 0 { MountOnAt(ms[1..], k - 1, at); }
  }

  lemma Points()
    ensures |"/helper"| == 7 && |"/kernel.config"| == 14 && |"/build"| == 6 && |"/patches"| == 8 && |"/kernel.expect"| == 14 && |"/src"| == 4
    ensures "/kernel.config"[8] == 'c' && "/kernel.expect"[8] == 'e'
  {
  }

  lemma TakenHas(f: string -> string, names: set<string>, n: string)
    requires n in names
    ensures n in Taken(f, names) && Taken(f, names)[n] == f(n)
  {
  }

  lemma MountsRead(s: Spec, hash: string -> string, c: Contents)
    requires s.configName != ""
    ensures var ms := StepMounts(s, hash, c);
      && FileOn(ms, "/kernel.config", "") == Some(c.context(s.configName))
      && (s.applyPatches ==> FileOn(ms, "/patches", "") == Some(c.context("patches")))
      && FileOn(ms, "/kernel.expect", "") == (if s.expectName == "" then None else Some(c.context(s.expectName)))
      && (s.sourceLocalName != "" ==> FileOn(ms, "/src", s.sourceLocalName) == Some(c.src(s.sourceLocalName)))
  {
    hide Taken, MountId, Followed;
    var ms := StepMounts(s, hash, c);
    Points();
    Follows(s);
    MountOnAt(ms, 1, "/kernel.config");
    TakenHas(c.context, Followed(s), s.configName);
    if s.applyPatches {
      MountOnAt(ms, 3, "/patches");
      TakenHas(c.context, Followed(s), "patches");
    }
    ExpectRead(s, hash, c);
    if s.sourceLocalName != "" {
      MountOnAt(ms, SrcAt(s), "/src");
      TakenHas(c.src, {s.sourceLocalName}, s.sourceLocalName);
    }
  }

  lemma ExpectRead(s: Spec, hash: string -> string, c: Contents)
    ensures FileOn(StepMounts(s, hash, c), "/kernel.expect", "") ==
      if s.expectName == "" then None else Some(c.context(s.expectName))
  {
    hide Taken, MountId, Followed;
    var ms := StepMounts(s, hash, c);
    Points();
    Follows(s);
    if s.expectName != "" {
      MountOnAt(ms, ExpectAt(s), "/kernel.expect");
      TakenHas(c.context, Followed(s), s.expectName);
    } else {
      MountOnAt(ms, |ms|, "/kernel.expect");
    }
  }

  lemma Follows(s: Spec)
    ensures s.configName in Followed(s) && (s.expectName != "" ==> s.expectName in Followed(s))
    ensures s.applyPatches ==> "patches" in Followed(s)
  {
  }

  // ---- all of it ----

  lemma ToolchainRead(s: Spec, c: Contents)
    ensures ImageOf(Toolchain(s, c)) == s.base && (ComesReady(Toolchain(s, c)) <==> s.toolchainReady)
  {
    hide Taken, ProxyOf;
    assert |"ca-only"| != |"toolchain"|;
  }

  /**
   The step reads back what the build says: toolchain, source, patches, base make,
   configuration and job, defaults included, and the identity its stamp is made of.
   */
  lemma ReadBack(s: Spec, c: Contents, series: string -> Series, hash: string -> string, sha: string -> string, a: string)
    requires KernelLLB(s, hash, c, a).Some?
    ensures var v := KernelLLB(s, hash, c, a).value;
      && v.Exec? && StepReads(v, s.kernelVersion, series) == InputsOf(s, c, series)
      && ToolRead(v, s.kernelVersion) == ToolOf(s)
      && (InputsOf(s, c, series).src.Local? ==> IdRead(v, sha) == "local:" + sha(InputsOf(s, c, series).src.blob))
      && (!InputsOf(s, c, series).src.Local? ==>
            IdRead(v, sha) == if s.sourceSHA256 != "" then s.sourceSHA256 else s.sourceURL)
  {
    hide StepEnv, StepMounts, Toolchain, Getenv, FileOn, Join, Fields, TargetsOrDefault, CrossOrDefault, Valid, KernelLLB;
    Built(s, hash, c, a);
    var v := KernelLLB(s, hash, c, a).value;
    var rest := v.env[|StepEnv(s)|..];
    EnvRead(s, rest);
    MakeRead(s, rest);
    ConfigNamed(s);
    MountsRead(s, hash, c);
    ToolchainRead(s, c);
  }

  lemma ConfigNamed(s: Spec)
    requires Valid(s)
    ensures s.configName != ""
  {
  }

  /** The tree is mounted under the id of the toolchain the step reads. */
  lemma TreeRead(s: Spec, hash: string -> string, c: Contents, a: string)
    requires KernelLLB(s, hash, c, a).Some?
    ensures var v := KernelLLB(s, hash, c, a).value;
      v.Exec? && MountOn(v.mounts, "/build").Some?
      && MountOn(v.mounts, "/build").value.cache == Some(MountId(hash, ToolRead(v, s.kernelVersion)))
  {
    hide StepEnv, Toolchain, Getenv, FileOn, KernelLLB, Taken, Followed, MountId, ToolRead;
    Built(s, hash, c, a);
    var v := KernelLLB(s, hash, c, a).value;
    ReadBack(s, c, _ => [], hash, hash, a);
    Points();
    MountOnAt(v.mounts, 2, "/build");
  }

  /** Proxies reach both vertices as they were given, and local addresses go around them. */
  lemma ProxiesReach(s: Spec, hash: string -> string, c: Contents, a: string)
    requires KernelLLB(s, hash, c, a).Some?
    ensures var v := KernelLLB(s, hash, c, a).value;
      && v.Exec?
      && (v.proxy.Some? <==> s.httpProxy != "" || s.httpsProxy != "" || s.noProxy != "")
      && (v.proxy.Some? ==>
            && v.proxy.value.http == s.httpProxy && v.proxy.value.https == s.httpsProxy
            && v.proxy.value.no == if s.noProxy == "" then "localhost,127.0.0.1" else "localhost,127.0.0.1," + s.noProxy)
      && (v.base.Exec? ==> v.base.proxy == v.proxy)
      && v.secrets == ["seed_access_key", "seed_secret_key", "seed_cfg"]
  {
    hide StepEnv, StepMounts, Valid;
    assert "localhost,127.0.0.1" + "," == "localhost,127.0.0.1,";
  }

  lemma {:induction false} GetenvNot(env: Environment, name: string)
    requires forall j :: 0 <= j < |env| ==> env[j].0 != name
    ensures Getenv(env, name) == ""
  {
    if env != [] { GetenvNot(env[1..], name); }
  }

  /** A push is asked for by name, and only then does the random word make the vertex run again. */
  lemma PushRead(s: Spec, hash: string -> string, c: Contents, a: string)
    requires KernelLLB(s, hash, c, a).Some?
    ensures var v := KernelLLB(s, hash, c, a).value;
      && v.Exec? && (Getenv(v.env, "SEED_PUSH") == "1" <==> s.seedPush)
      && (!s.seedPush ==> forall a' :: KernelLLB(s, hash, c, a') == Some(v))
  {
    hide StepMounts, Toolchain, Valid, Join, TargetsOrDefault, CrossOrDefault, SourceId, ArchOrDefault, Getenv, ProxyOf;
    var v := KernelLLB(s, hash, c, a).value;
    assert |"SEED_PUSH"| == 9 && "SEED_PUSH"[1] == 'E' && "SRC_LOCAL"[1] == 'R' && "BASE_MAKE"[1] == 'A';
    Names();
    if s.seedPush { GetenvAt(v.env, 13, "SEED_PUSH"); } else { GetenvNot(v.env, "SEED_PUSH"); }
  }

  /** A proxy's certificate is there for the toolchain vertex, and the network and the cache are used as asked. */
  lemma CertificateReaches(s: Spec, hash: string -> string, c: Contents, a: string)
    requires KernelLLB(s, hash, c, a).Some?
    ensures var v := KernelLLB(s, hash, c, a).value;
      && v.Exec? && v.args == ["/helper/kbuild-step"]
      && v.hostNetwork == s.networkHost && v.ignoreCache == s.ignoreCache
      && (v.base.Exec? <==> !s.toolchainReady || s.proxyCAFile != "")
      && (v.base.Exec? ==> v.base.hostNetwork == s.networkHost && v.base.ignoreCache == s.ignoreCache)
      && (s.proxyCAFile != "" ==>
            && Getenv(v.base.env, "CA_FILE") == s.proxyCAFile
            && FileOn(v.base.mounts, "/certs", s.proxyCAFile) == Some(c.context(s.proxyCAFile)))
  {
    hide StepEnv, StepMounts, Valid, Taken;
    if s.proxyCAFile != "" {
      TakenHas(c.context, {s.proxyCAFile}, s.proxyCAFile);
      var env := KernelLLB(s, hash, c, a).value.base.env;
      assert |"CA_FILE"| != |"DEBIAN_FRONTEND"|;
      GetenvAt(env, 1, "CA_FILE");
      MountOnAt(KernelLLB(s, hash, c, a).value.base.mounts, 0, "/certs");
    }
  }
}
