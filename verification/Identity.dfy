/**
 The identity strings that keep trees, seeds and configurations apart: the mount
 id and the seed key (`llb.go`), the tree stamp and the configuration marker
 (`cmd/kbuild-step/main.go`).

 Hashes are parameters.  A claim that two hashes tell their inputs apart is a
 claim about the two inputs at hand, never about all strings.
 */
module Identity {
  import opened Wrappers
  import opened Text
  import opened Specs

  // ---- toolchains ----

  /** What an object tree is keyed by: everything that decides which compiler runs on which source line. */
  datatype Tool = Tool(version: string, arch: string, base: string, cross: string, ready: bool, patched: bool)

  function ToolOf(s: Spec): Tool {
    Tool(s.kernelVersion, ArchOrDefault(s), s.base, CrossOrDefault(s), s.toolchainReady, s.applyPatches)
  }

  predicate ToolOk(t: Tool) {
    && t.version != "" && '/' !in t.version && '\0' !in t.version
    && (t.arch == "x86_64" || t.arch == "arm64")
    && '\0' !in t.base && '\0' !in t.cross
  }

  /** The first eight bytes of a SHA-256 in hex. */
  ghost predicate HashOk(hash: string -> string) {
    forall x :: |hash(x)| == 16 && All(hash(x), Hex)
  }

  function Preimage(t: Tool): string {
    t.base + ['\0'] + t.cross + ['\0'] + if t.ready then "ready" else "apt"
  }

  function PatchedSuffix(patched: bool): string {
    if patched then "-patched" else ""
  }

  /** What the mount id and the seed key have in common. */
  function TreeName(hash: string -> string, t: Tool): string {
    t.version + "-" + t.arch + "-" + hash(Preimage(t)) + PatchedSuffix(t.patched)
  }

  function MountId(hash: string -> string, t: Tool): string {
    "kernel-build-" + TreeName(hash, t)
  }

  function SeedKey(hash: string -> string, prefix: string, t: Tool): string {
    prefix + "/linux-" + TreeName(hash, t) + ".tzst"
  }

  ghost predicate NoCollision(hash: string -> string, x: string, y: string) {
    hash(x) == hash(y) ==> x == y
  }

  lemma ValidTool(s: Spec)
    requires Valid(s)
    ensures ToolOk(ToolOf(s))
  {
    VersionChars(s.kernelVersion);
  }

  lemma PreimageApart(t: Tool, u: Tool)
    requires ToolOk(t) && ToolOk(u) && Preimage(t) == Preimage(u)
    ensures t.base == u.base && t.cross == u.cross && t.ready == u.ready
  {
    var mt, mu := if t.ready then "ready" else "apt", if u.ready then "ready" else "apt";
    assert Preimage(t) == t.base + ['\0'] + (t.cross + ['\0'] + mt);
    assert Preimage(u) == u.base + ['\0'] + (u.cross + ['\0'] + mu);
    CutApart(t.base, '\0', t.cross + ['\0'] + mt, u.base, u.cross + ['\0'] + mu);
    CutApart(t.cross, '\0', mt, u.cross, mu);
  }

  /** Two tree names differ unless every part of them agrees. */
  lemma TreeNameApart(hash: string -> string, t: Tool, u: Tool)
    requires HashOk(hash) && ToolOk(t) && ToolOk(u)
    requires TreeName(hash, t) == TreeName(hash, u)
    ensures t.version == u.version && t.arch == u.arch && t.patched == u.patched
    ensures hash(Preimage(t)) == hash(Preimage(u))
  {
    var ht, hu := hash(Preimage(t)), hash(Preimage(u));
    var at, au := t.version + "-" + t.arch + "-", u.version + "-" + u.arch + "-";
    assert TreeName(hash, t) == at + (ht + PatchedSuffix(t.patched));
    assert TreeName(hash, u) == au + (hu + PatchedSuffix(u.patched));
    SuffixApart(at, ht, t.patched, au, hu, u.patched);
    ArchApart(t.version, t.arch, u.version, u.arch);
  }

  /** The hash has no dash, so "-patched" cannot be the end of one. */
  lemma SuffixApart(a: string, h: string, p: bool, b: string, g: string, q: bool)
    requires |h| == |g| == 16 && All(h, Hex) && All(g, Hex)
    requires a + (h + PatchedSuffix(p)) == b + (g + PatchedSuffix(q))
    ensures a == b && h == g && p == q
  {
    var s := a + (h + PatchedSuffix(p));
    assert p ==> s[|s| - 8] == '-' by { if p { assert s[|s| - 8] == (h + PatchedSuffix(p))[16]; } }
    assert q ==> s[|s| - 8] == '-' by { if q { assert s[|s| - 8] == (g + PatchedSuffix(q))[16]; } }
    assert !p ==> s[|s| - 8] == h[8] && Hex(h[8]);
    assert !q ==> s[|s| - 8] == g[8] && Hex(g[8]);
    assert p == q;
    SameTail(a, h + PatchedSuffix(p), b, g + PatchedSuffix(q));
    SameTail(h, PatchedSuffix(p), g, PatchedSuffix(q));
  }

  lemma ArchApart(v: string, a: string, w: string, b: string)
    requires (a == "x86_64" || a == "arm64") && (b == "x86_64" || b == "arm64")
    requires v + "-" + a + "-" == w + "-" + b + "-"
    ensures v == w && a == b
  {
    var s := v + "-" + a + "-";
    assert s[|s| - 4] == (a + "-")[|a| - 3] by { assert s == v + "-" + (a + "-"); }
    assert s[|s| - 4] == (b + "-")[|b| - 3] by { assert s == w + "-" + (b + "-"); }
    assert a == b;
    assert v + "-" + a + "-" == v + ("-" + a + "-") && w + "-" + b + "-" == w + ("-" + b + "-");
    SameTail(v, "-" + a + "-", w, "-" + b + "-");
  }

  /** Two tools share a tree name exactly when they are the same tool. */
  lemma TreeNameIff(hash: string -> string, t: Tool, u: Tool)
    requires HashOk(hash) && ToolOk(t) && ToolOk(u) && NoCollision(hash, Preimage(t), Preimage(u))
    ensures TreeName(hash, t) == TreeName(hash, u) <==> t == u
  {
    if TreeName(hash, t) == TreeName(hash, u) {
      TreeNameApart(hash, t, u);
      PreimageApart(t, u);
    }
  }

  lemma MountIdApart(hash: string -> string, t: Tool, u: Tool)
    requires HashOk(hash) && ToolOk(t) && ToolOk(u) && NoCollision(hash, Preimage(t), Preimage(u))
    ensures MountId(hash, t) == MountId(hash, u) <==> t == u
  {
    TreeNameIff(hash, t, u);
    var n, m := TreeName(hash, t), TreeName(hash, u);
    assert MountId(hash, t)[13..] == n && MountId(hash, u)[13..] == m;
  }

  lemma NoSlash(hash: string -> string, t: Tool)
    requires HashOk(hash) && ToolOk(t)
    ensures '/' !in TreeName(hash, t)
  {
    var h := hash(Preimage(t));
    assert '/' !in h by {
      forall i | 0 <= i < |h| ensures h[i] != '/' { assert Hex(h[i]); }
    }
  }

  lemma LastSlash(p: string, x: string, q: string, y: string)
    requires p + ['/'] + x == q + ['/'] + y && '/' !in x && '/' !in y
    ensures p == q && x == y
  {
    var s := p + ['/'] + x;
    assert s[|p|] == '/' && s[|q|] == '/';
    assert forall i :: |p| < i < |s| ==> s[i] == x[i - |p| - 1];
    assert forall i :: |q| < i < |s| ==> s[i] == y[i - |q| - 1];
    assert |p| == |q|;
    SameTail(p + ['/'], x, q + ['/'], y);
    SameTail(p, ['/'], q, ['/']);
  }

  lemma KeyApart(p: string, n: string, q: string, m: string)
    requires '/' !in n && '/' !in m && p + "/linux-" + n + ".tzst" == q + "/linux-" + m + ".tzst"
    ensures p == q && n == m
  {
    var x, y := "linux-" + n + ".tzst", "linux-" + m + ".tzst";
    assert p + "/linux-" + n + ".tzst" == p + ['/'] + x && q + "/linux-" + m + ".tzst" == q + ['/'] + y;
    LastSlash(p, x, q, y);
    assert n == x[6..|x| - 5] && m == y[6..|y| - 5];
  }

  /** Seed keys keep prefixes apart as well. */
  lemma SeedKeyApart(hash: string -> string, p: string, t: Tool, q: string, u: Tool)
    requires HashOk(hash) && ToolOk(t) && ToolOk(u) && NoCollision(hash, Preimage(t), Preimage(u))
    ensures SeedKey(hash, p, t) == SeedKey(hash, q, u) <==> p == q && t == u
  {
    hide TreeName, HashOk, ToolOk, NoCollision, Preimage;
    NoSlash(hash, t);
    NoSlash(hash, u);
    if SeedKey(hash, p, t) == SeedKey(hash, q, u) {
      KeyApart(p, TreeName(hash, t), q, TreeName(hash, u));
      TreeNameIff(hash, t, u);
    }
  }

  /**
   Toolchains never share a mount: two validated builds have one mount id exactly
   when version, architecture, base image, cross prefix, toolchain mode and the
   patched bit agree.
   */
  lemma MountIdIff(hash: string -> string, s: Spec, r: Spec)
    requires HashOk(hash) && Valid(s) && Valid(r)
    requires NoCollision(hash, Preimage(ToolOf(s)), Preimage(ToolOf(r)))
    ensures MountId(hash, ToolOf(s)) == MountId(hash, ToolOf(r)) <==>
      && s.kernelVersion == r.kernelVersion && ArchOrDefault(s) == ArchOrDefault(r)
      && s.base == r.base && CrossOrDefault(s) == CrossOrDefault(r)
      && s.toolchainReady == r.toolchainReady && s.applyPatches == r.applyPatches
  {
    ValidTool(s);
    ValidTool(r);
    MountIdApart(hash, ToolOf(s), ToolOf(r));
  }

  /** The same for seeds under one prefix. */
  lemma SeedKeyIff(hash: string -> string, s: Spec, r: Spec)
    requires HashOk(hash) && Valid(s) && Valid(r)
    requires NoCollision(hash, Preimage(ToolOf(s)), Preimage(ToolOf(r)))
    ensures SeedKey(hash, s.seedPrefix, ToolOf(s)) == SeedKey(hash, r.seedPrefix, ToolOf(r)) <==>
      && s.seedPrefix == r.seedPrefix
      && s.kernelVersion == r.kernelVersion && ArchOrDefault(s) == ArchOrDefault(r)
      && s.base == r.base && CrossOrDefault(s) == CrossOrDefault(r)
      && s.toolchainReady == r.toolchainReady && s.applyPatches == r.applyPatches
  {
    ValidTool(s);
    ValidTool(r);
    SeedKeyApart(hash, s.seedPrefix, ToolOf(s), r.seedPrefix, ToolOf(r));
  }

  // ---- stamps ----

  /** What the step writes into `.kbf-stamp` for a source identity and a patch digest. */
  function Stamp(src: string, patches: string): string {
    "src=" + src + " patches=" + patches
  }

  /** `readStamp` without a stamp file. */
  const NO_STAMP: string := "none"

  /** A patch digest: the word for no series, or sixteen hex digits. */
  predicate DigestOk(d: string) {
    d == "none" || (|d| == 16 && All(d, Hex))
  }

  lemma StampCut(src: string, patches: string)
    requires ' ' !in src
    ensures Cut(Stamp(src, patches), ' ') == ("src=" + src, "patches=" + patches)
  {
    assert Stamp(src, patches) == ("src=" + src) + [' '] + ("patches=" + patches);
    CutHere("src=" + src, ' ', "patches=" + patches);
  }

  /** A stamp says its source and its patches, and is never the word for none. */
  lemma StampApart(src: string, patches: string, src': string, patches': string)
    requires ' ' !in src && ' ' !in src'
    ensures Stamp(src, patches) == Stamp(src', patches') <==> src == src' && patches == patches'
    ensures Stamp(src, patches) != NO_STAMP
  {
    StampCut(src, patches);
    StampCut(src', patches');
    assert ("src=" + src)[4..] == src && ("src=" + src')[4..] == src';
    assert ("patches=" + patches)[8..] == patches && ("patches=" + patches')[8..] == patches';
    assert Stamp(src, patches)[0] == 's';
  }

  /** No stamp continues another: a torn stamp is not a stamp. */
  lemma StampPrefixFree(src: string, patches: string, src': string, patches': string)
    requires ' ' !in src && ' ' !in src' && DigestOk(patches) && DigestOk(patches')
    requires Stamp(src, patches) <= Stamp(src', patches')
    ensures src == src' && patches == patches'
  {
    StampContinues(src, patches, src', patches');
    DigestPrefixFree(patches, patches');
  }

  lemma DigestPrefixFree(d: string, d': string)
    requires DigestOk(d) && DigestOk(d') && d <= d'
    ensures d == d'
  {
    assert d'[1] == d[1];
    assert |d'| == 16 ==> Hex(d'[1]);
  }

  lemma StampContinues(src: string, patches: string, src': string, patches': string)
    requires ' ' !in src && ' ' !in src' && Stamp(src, patches) <= Stamp(src', patches')
    ensures src == src' && patches <= patches'
  {
    hide Cut, DigestOk;
    var long := Stamp(src', patches');
    var rest := long[|Stamp(src, patches)|..];
    assert long == ("src=" + src) + [' '] + ("patches=" + patches + rest);
    CutHere("src=" + src, ' ', "patches=" + patches + rest);
    StampCut(src', patches');
    assert ("src=" + src)[4..] == src && ("src=" + src')[4..] == src';
    assert ("patches=" + patches')[8..] == patches' && ("patches=" + patches + rest)[8..] == patches + rest;
  }

  // ---- the configuration marker ----

  /** What `configure` writes into `.kbf-config-src`. */
  function ConfigId(baseMake: seq<string>, config: string): string {
    "base-make=" + Join(baseMake, ' ') + ['\0'] + config
  }

  /** The words of a validated BASE_MAKE. */
  predicate WordsOk(words: seq<string>) {
    forall i :: 0 <= i < |words| ==> words[i] != "" && ' ' !in words[i] && '\0' !in words[i]
  }

  lemma ValidWords(s: Spec)
    requires Valid(s)
    ensures WordsOk(Fields(s.baseMake))
  {
  }

  /** The marker says the base-make list and the configuration. */
  lemma ConfigIdApart(words: seq<string>, config: string, words': seq<string>, config': string)
    requires WordsOk(words) && WordsOk(words')
    ensures ConfigId(words, config) == ConfigId(words', config') <==> words == words' && config == config'
  {
    if ConfigId(words, config) == ConfigId(words', config') {
      ConfigIdPrefix(words, config, words', config');
    }
  }

  /**
   Unlike stamps, markers are not prefix-free: exactly the markers of the leading
   parts of a configuration are leading parts of its marker.
   */
  lemma ConfigIdPrefix(words: seq<string>, config: string, words': seq<string>, config': string)
    requires WordsOk(words) && WordsOk(words')
    ensures ConfigId(words, config) <= ConfigId(words', config') <==> words == words' && config <= config'
  {
    var head, head' := "base-make=" + Join(words, ' '), "base-make=" + Join(words', ' ');
    JoinHolds(words, ' ', '\0');
    JoinHolds(words', ' ', '\0');
    if ConfigId(words, config) <= ConfigId(words', config') {
      var long := ConfigId(words', config');
      var rest := long[|ConfigId(words, config)|..];
      assert long == head + ['\0'] + (config + rest);
      CutApart(head, '\0', config + rest, head', config');
      assert head[10..] == Join(words, ' ') && head'[10..] == Join(words', ' ');
      JoinApart(words, words', ' ');
    }
  }
}
