/**
 The two layers a build is described in: the Kernelfile (`ParseKernelfile`,
 `step.go`) and the options over it (`applyOpts`, `cmd/kbuild-frontend/main.go`).
 */
module Kernelfile {
  import opened Wrappers
  import opened Text
  import opened Specs

  const BYTE_ORDER_MARK: char := '\U{FEFF}'

  predicate Blank(c: char) {
    c == ' ' || c == '\t'
  }

  predicate Separator(c: char) {
    Blank(c) || c == ','
  }

  // ---- one line ----

  datatype Line = Nothing | Malformed | Setting(word: string, val: string)

  function DropMark(t: string): string {
    if t != "" && t[0] == BYTE_ORDER_MARK then t[1..] else t
  }

  /** A comment starts at the first "#", if that starts the line or follows a blank. */
  function DropComment(t: string): string {
    var i := IndexOf(t, '#');
    if i < |t| && (i == 0 || Blank(t[i - 1])) then t[..i] else t
  }

  function ReadLine(text: string): Line {
    var t := TrimSpace(DropComment(text));
    if t == "" then Nothing
    else
      var i := RunEnd(t, Blank);
      if i == |t| then Malformed
      else
        var val := TrimSpace(t[i + 1..]);
        if val == "" then Malformed else Setting(t[..i], val)
  }

  datatype Key =
    | Kernel | SourceUrl | Sha256 | Epoch | Config | Expect | BaseMake | Patches | Arch
    | CrossCompile | Targets | ProxyCa | Base | Toolchain

  function Word(k: Key): string {
    match k
    case Kernel => "KERNEL"
    case SourceUrl => "SOURCE_URL"
    case Sha256 => "SHA256"
    case Epoch => "EPOCH"
    case Config => "CONFIG"
    case Expect => "EXPECT"
    case BaseMake => "BASE_MAKE"
    case Patches => "PATCHES"
    case Arch => "ARCH"
    case CrossCompile => "CROSS_COMPILE"
    case Targets => "TARGETS"
    case ProxyCa => "PROXY_CA"
    case Base => "BASE"
    case Toolchain => "TOOLCHAIN"
  }

  function KeyOf(word: string): (k: Option<Key>)
    ensures k.Some? ==> Word(k.value) == word
  {
    match word
    case "KERNEL" => Some(Kernel)
    case "SOURCE_URL" => Some(SourceUrl)
    case "SHA256" => Some(Sha256)
    case "EPOCH" => Some(Epoch)
    case "CONFIG" => Some(Config)
    case "EXPECT" => Some(Expect)
    case "BASE_MAKE" => Some(BaseMake)
    case "PATCHES" => Some(Patches)
    case "ARCH" => Some(Arch)
    case "CROSS_COMPILE" => Some(CrossCompile)
    case "TARGETS" => Some(Targets)
    case "PROXY_CA" => Some(ProxyCa)
    case "BASE" => Some(Base)
    case "TOOLCHAIN" => Some(Toolchain)
    case _ => None
  }

  predicate ValueOk(k: Key, val: string) {
    && (k == Patches ==> val == "on" || val == "off")
    && (k == Toolchain ==> val == "ready" || val == "apt")
    && (k == Targets ==> FieldsFunc(val, Separator) != [])
  }

  // ---- the file as a whole ----

  type Settings = map<Key, string>

  /** One line more: a mistake or a key given twice spoils the file. */
  function AddLine(m: Option<Settings>, line: Line): Option<Settings> {
    if m.None? then None
    else match line
      case Nothing => m
      case Malformed => None
      case Setting(word, val) =>
      match KeyOf(word)
      case None => None
      case Some(k) => if k in m.value || !ValueOk(k, val) then None else Some(m.value[k := val])
  }

  function Gather(lines: seq<string>): Option<Settings> {
    if lines == [] then Some(map[])
    else AddLine(Gather(lines[..|lines| - 1]), ReadLine(lines[|lines| - 1]))
  }

  function Or(m: Settings, k: Key, s: string): string {
    if k in m then m[k] else s
  }

  /** Every field a key stands for has that key's value, or the one it had. */
  function Filled(s: Spec, m: Settings): Spec {
    s.(kernelVersion := Or(m, Kernel, s.kernelVersion),
       sourceURL := Or(m, SourceUrl, s.sourceURL),
       sourceSHA256 := Or(m, Sha256, s.sourceSHA256),
       sourceDateEpoch := Or(m, Epoch, s.sourceDateEpoch),
       configName := Or(m, Config, s.configName),
       expectName := Or(m, Expect, s.expectName),
       baseMake := Or(m, BaseMake, s.baseMake),
       applyPatches := if Patches in m then m[Patches] == "on" else s.applyPatches,
       arch := Or(m, Arch, s.arch),
       crossCompile := Or(m, CrossCompile, s.crossCompile),
       targets := if Targets in m then FieldsFunc(m[Targets], Separator) else s.targets,
       proxyCAFile := Or(m, ProxyCa, s.proxyCAFile),
       base := Or(m, Base, s.base),
       toolchainReady := if Toolchain in m then m[Toolchain] == "ready" else s.toolchainReady)
  }

  /** A new version without an address gets its own; a new tarball without a pin loses the old one. */
  function Settled(s: Spec, m: Settings): Spec {
    var t := Filled(s, m);
    t.(sourceURL := if Kernel in m && SourceUrl !in m then SourceURLFor(t.kernelVersion) else t.sourceURL,
       sourceSHA256 := if (Kernel in m || SourceUrl in m) && Sha256 !in m then "" else t.sourceSHA256)
  }

  /** The file with the byte order mark an editor may have put before it taken off. */
  function Unmarked(lines: seq<string>): seq<string> {
    if lines == [] then [] else [DropMark(lines[0])] + lines[1..]
  }

  /** `broken` says that reading ended with an error after these lines. */
  function Parsed(lines: seq<string>, broken: bool, s: Spec): Option<Spec> {
    match Gather(Unmarked(lines))
    case None => None
    case Some(m) => if broken then None else Some(Settled(s, m))
  }

  // ---- order does not matter ----

  lemma AddSwaps(m: Option<Settings>, x: Line, y: Line)
    ensures AddLine(AddLine(m, x), y) == AddLine(AddLine(m, y), x)
  {
    if m.Some? && x.Setting? && y.Setting? && KeyOf(x.word).Some? && KeyOf(y.word).Some? {
      var k, l := KeyOf(x.word).value, KeyOf(y.word).value;
      assert k != l ==> m.value[k := x.val][l := y.val] == m.value[l := y.val][k := x.val];
    }
  }

  lemma GatherStep(lines: seq<string>, x: string)
    ensures Gather(lines + [x]) == AddLine(Gather(lines), ReadLine(x))
  {
    assert (lines + [x])[..|lines|] == lines;
  }

  /** A line can be read last instead. */
  lemma {:induction false} ReadLast(a: seq<string>, x: string, b: seq<string>)
    ensures Gather(a + [x] + b) == Gather(a + b + [x])
    decreases |b|
  {
    hide AddLine;
    if b == [] {
      assert a + [x] + b == a + b + [x];
    } else {
      var b', y := b[..|b| - 1], b[|b| - 1];
      assert a + [x] + b == (a + [x] + b') + [y] && a + b == (a + b') + [y];
      GatherStep(a + [x] + b', y);
      ReadLast(a, x, b');
      GatherStep(a + b', x);
      GatherStep(a + b', y);
      GatherStep(a + b, x);
      AddSwaps(Gather(a + b'), ReadLine(x), ReadLine(y));
    }
  }

  lemma {:induction false} GatherPermuted(ls: seq<string>, ks: seq<string>)
    requires multiset(ls) == multiset(ks)
    ensures Gather(ls) == Gather(ks)
    decreases |ls|
  {
    if ls == [] {
      assert |multiset(ks)| == 0;
    } else {
      var n := |ls| - 1;
      var x := ls[n];
      assert ls == ls[..n] + [x];
      assert x in multiset(ls) && x in ks;
      var i :| 0 <= i < |ks| && ks[i] == x;
      var a, b := ks[..i], ks[i + 1..];
      assert ks == a + [x] + b;
      assert multiset(ls) == multiset(ls[..n]) + multiset([x]);
      assert multiset(a + [x] + b) == multiset(a) + multiset([x]) + multiset(b);
      assert multiset(a + b) == multiset(a) + multiset(b);
      assert multiset(ls[..n]) == multiset(ls) - multiset([x]) == multiset(ks) - multiset([x]) == multiset(a + b);
      GatherPermuted(ls[..n], a + b);
      ReadLast(a, x, b);
      GatherStep(a + b, x);
    }
  }

  predicate NoMark(lines: seq<string>) {
    lines != [] && lines[0] != "" ==> lines[0][0] != BYTE_ORDER_MARK
  }

  /**
   Kernelfiles whose lines are the same in another order are both rejected, or
   accepted with the same build, derived address and cleared pin included.
   */
  lemma OrderDoesNotMatter(ls: seq<string>, ks: seq<string>, broken: bool, s: Spec)
    requires multiset(ls) == multiset(ks) && NoMark(ls) && NoMark(ks)
    ensures Parsed(ls, broken, s) == Parsed(ks, broken, s)
  {
    assert Unmarked(ls) == ls && Unmarked(ks) == ks;
    GatherPermuted(ls, ks);
  }

  /** A key is refused the second time, wherever the two lines stand. */
  lemma NoDuplicates(lines: seq<string>, i: nat, j: nat)
    requires i < j < |lines| && ReadLine(lines[i]).Setting? && ReadLine(lines[j]).Setting?
    requires ReadLine(lines[i]).word == ReadLine(lines[j]).word
    ensures Gather(lines) == None
  {
    hide ReadLine, AddLine, Gather;
    var a, rest := lines[..i], lines[i + 1..];
    var b, c := lines[i + 1..j], lines[j + 1..];
    assert lines == a + [lines[i]] + rest;
    ReadLast(a, lines[i], rest);
    assert a + rest == (a + b) + [lines[j]] + c;
    ReadLast(a + b, lines[j], c);
    GatherStep(a + rest, lines[i]);
    GatherStep(a + b + c, lines[j]);
    TwiceSpoils(Gather(a + b + c), ReadLine(lines[j]), ReadLine(lines[i]));
  }

  lemma TwiceSpoils(m: Option<Settings>, x: Line, y: Line)
    requires x.Setting? && y.Setting? && x.word == y.word
    ensures AddLine(AddLine(m, x), y) == None
  {
  }

  // ---- the parser ----

  lemma UnmarkedAt(lines: seq<string>, k: nat)
    ensures |Unmarked(lines)| == |lines|
    ensures k < |lines| ==> Unmarked(lines)[k] == if k == 0 then DropMark(lines[0]) else lines[k]
  {
    hide DropMark;
  }

  class Build {
    var spec: Spec

    constructor (spec: Spec)
      ensures this.spec == spec
    {
      this.spec := spec;
    }

    method ParseKernelfile(lines: seq<string>, broken: bool) returns (ok: bool)
      modifies this
      ensures ok <==> Parsed(lines, broken, old(spec)).Some?
      ensures ok ==> spec == Parsed(lines, broken, old(spec)).value
    {
      hide ReadLine, ValueOk, Filled, SourceURLFor, KeyOf, Word, DropMark, Unmarked;
      var sawKernel, sawURL, sawSHA := false, false, false;
      var seen: map<string, nat> := map[];
      ghost var m: Settings := map[];
      ghost var text := Unmarked(lines);
      UnmarkedAt(lines, 0);
      var line := 0;
      FilledNone(spec);
      while line < |lines|
        invariant 0 <= line <= |lines| && text == Unmarked(lines)
        invariant Gather(text[..line]) == Some(m)
        invariant forall word :: word in seen <==> KeyOf(word).Some? && KeyOf(word).value in m
        invariant sawKernel == (Kernel in m) && sawURL == (SourceUrl in m) && sawSHA == (Sha256 in m)
        invariant spec == Filled(old(spec), m)
      {
        var t := if line == 0 then DropMark(lines[line]) else lines[line];
        UnmarkedAt(lines, line);
        assert t == text[line] && text[..line + 1] == text[..line] + [t];
        GatherStep(text[..line], t);
        line := line + 1;
        var read := ReadLine(t);
        if read.Malformed? {
          SpoiltSoFar(text, line);
          return false;
        }
        if read.Setting? {
          var k := KeyOf(read.word);
          if read.word in seen || k.None? || !ValueOk(k.value, read.val) {
            SpoiltSoFar(text, line);
            return false;
          }
          seen := seen[read.word := line];
          SetOne(old(spec), m, k.value, read.val);
          Set(k.value, read.val);
          sawKernel := sawKernel || k.value == Kernel;
          sawURL := sawURL || k.value == SourceUrl;
          sawSHA := sawSHA || k.value == Sha256;
          m := m[k.value := read.val];
        }
      }
      assert text[..line] == text;
      if broken {
        return false;
      }
      ghost var filled := spec;
      if sawKernel && !sawURL {
        spec := spec.(sourceURL := SourceURLFor(spec.kernelVersion));
      }
      if (sawKernel || sawURL) && !sawSHA {
        spec := spec.(sourceSHA256 := "");
      }
      return true;
    }

    /** The field a known key stands for takes the value. */
    method Set(k: Key, val: string)
      modifies this
      ensures spec == WithKey(old(spec), k, val)
    {
      match k
      case Kernel => spec := spec.(kernelVersion := val);
      case SourceUrl => spec := spec.(sourceURL := val);
      case Sha256 => spec := spec.(sourceSHA256 := val);
      case Epoch => spec := spec.(sourceDateEpoch := val);
      case Config => spec := spec.(configName := val);
      case Expect => spec := spec.(expectName := val);
      case BaseMake => spec := spec.(baseMake := val);
      case Patches => spec := spec.(applyPatches := val == "on");
      case Arch => spec := spec.(arch := val);
      case CrossCompile => spec := spec.(crossCompile := val);
      case Targets => spec := spec.(targets := FieldsFunc(val, Separator));
      case ProxyCa => spec := spec.(proxyCAFile := val);
      case Base => spec := spec.(base := val);
      case Toolchain => spec := spec.(toolchainReady := val == "ready");
    }
  }

  function WithKey(s: Spec, k: Key, val: string): Spec {
    match k
    case Kernel => s.(kernelVersion := val)
    case SourceUrl => s.(sourceURL := val)
    case Sha256 => s.(sourceSHA256 := val)
    case Epoch => s.(sourceDateEpoch := val)
    case Config => s.(configName := val)
    case Expect => s.(expectName := val)
    case BaseMake => s.(baseMake := val)
    case Patches => s.(applyPatches := val == "on")
    case Arch => s.(arch := val)
    case CrossCompile => s.(crossCompile := val)
    case Targets => s.(targets := FieldsFunc(val, Separator))
    case ProxyCa => s.(proxyCAFile := val)
    case Base => s.(base := val)
    case Toolchain => s.(toolchainReady := val == "ready")
  }

  lemma FilledNone(s: Spec)
    ensures Filled(s, map[]) == s
  {
  }

  /** A new key changes the filled build where that key points. */
  lemma SetOne(s: Spec, m: Settings, k: Key, val: string)
    requires k !in m
    ensures Filled(s, m[k := val]) == WithKey(Filled(s, m), k, val)
  {
    hide FieldsFunc, Word, WithKey;
    var n := m[k := val];
    forall l, t {:trigger Or(n, l, t)} ensures Or(n, l, t) == if k == l then val else Or(m, l, t) {}
    assert forall l :: l in n <==> l == k || l in m;
    SetFields(s, m, n, k, val);
  }

  lemma SetFields(s: Spec, m: Settings, n: Settings, k: Key, val: string)
    requires k !in m && n == m[k := val]
    requires forall l, t {:trigger Or(n, l, t)} :: Or(n, l, t) == if k == l then val else Or(m, l, t)
    ensures Filled(s, n) == WithKey(Filled(s, m), k, val)
  {
    hide FieldsFunc, Word, Or;
    match k
    case Patches =>
    case Targets =>
    case Toolchain =>
    case _ =>
  }

  lemma {:induction false} SpoiltSoFar(lines: seq<string>, n: nat)
    requires n <= |lines| && Gather(lines[..n]) == None
    ensures Gather(lines) == None
    decreases |lines|
  {
    hide ReadLine;
    if n == |lines| {
      assert lines[..n] == lines;
    } else {
      var k := |lines| - 1;
      assert lines[..k][..n] == lines[..n];
      SpoiltSoFar(lines[..k], n);
    }
  }

  // ---- the options over the file ----

  type Opts = map<string, string>

  function Opt(o: Opts, key: string): string {
    if key in o then o[key] else ""
  }

  function Given(o: Opts, key: string, s: string): string {
    if Opt(o, key) != "" then Opt(o, key) else s
  }

  function First(o: Opts, key: string, other: string, s: string): string {
    Given(o, key, Given(o, other, s))
  }

  predicate BoolOk(o: Opts, key: string) {
    Opt(o, key) in ["", "true", "false"]
  }

  function GivenBool(o: Opts, key: string, b: bool): bool {
    if Opt(o, key) == "" then b else Opt(o, key) == "true"
  }

  /** The version the options leave, and whether they changed it. */
  function NewVersion(o: Opts, s: Spec): string {
    Given(o, "kernel-version", s.kernelVersion)
  }

  function NewURL(o: Opts, s: Spec): string {
    Given(o, "source-url", if NewVersion(o, s) != s.kernelVersion then SourceURLFor(NewVersion(o, s)) else s.sourceURL)
  }

  predicate SourceChanged(o: Opts, s: Spec) {
    NewVersion(o, s) != s.kernelVersion || NewURL(o, s) != s.sourceURL
  }

  /** What the options make of the source fields: a pin goes with the tarball it was for. */
  function NewPin(o: Opts, s: Spec): string {
    Given(o, "source-sha256", if SourceChanged(o, s) then "" else s.sourceSHA256)
  }

  function TargetsOf(o: Opts, s: seq<string>): seq<string> {
    if Opt(o, "targets") != "" then FieldsFunc(Opt(o, "targets"), Separator) else s
  }

  function WithSource(o: Opts, s: Spec): Spec {
    s.(kernelVersion := NewVersion(o, s), sourceURL := NewURL(o, s), sourceSHA256 := NewPin(o, s))
  }

  function WithNames(o: Opts, s: Spec): Spec {
    s.(sourceDateEpoch := Given(o, "source-date-epoch", s.sourceDateEpoch),
       configName := Given(o, "config", s.configName),
       expectName := Given(o, "expect", s.expectName),
       baseMake := Given(o, "base-make", s.baseMake),
       proxyCAFile := Given(o, "proxy-ca", s.proxyCAFile),
       helperRef := Given(o, "helper-ref", s.helperRef),
       sourceLocalName := Given(o, "src-name", s.sourceLocalName),
       base := Given(o, "base", s.base))
  }

  function WithTools(o: Opts, s: Spec): Spec {
    s.(toolchainReady := GivenBool(o, "toolchain-ready", s.toolchainReady),
       arch := Given(o, "arch", s.arch),
       crossCompile := Given(o, "cross-compile", s.crossCompile),
       httpsProxy := First(o, "build-arg:https_proxy", "build-arg:HTTPS_PROXY", s.httpsProxy),
       httpProxy := First(o, "build-arg:http_proxy", "build-arg:HTTP_PROXY", s.httpProxy),
       noProxy := First(o, "build-arg:no_proxy", "build-arg:NO_PROXY", s.noProxy),
       networkHost := s.networkHost || Opt(o, "force-network-mode") == "host")
  }

  /** `archFor` is the reading of a platform name. */
  predicate PlatformOk(o: Opts, archFor: string -> Option<string>) {
    Opt(o, "platform") != "" ==> archFor(Opt(o, "platform")).Some?
  }

  function WithTargets(o: Opts, archFor: string -> Option<string>, s: Spec): Spec
    requires PlatformOk(o, archFor)
  {
    s.(arch := if Opt(o, "platform") != "" then archFor(Opt(o, "platform")).value else s.arch,
       targets := TargetsOf(o, s.targets),
       applyPatches := GivenBool(o, "apply-patches", s.applyPatches),
       ignoreCache := s.ignoreCache || "no-cache" in o,
       seedPush := GivenBool(o, "seed-push", s.seedPush))
  }

  /** What the options make of a build. */
  function Opted(o: Opts, archFor: string -> Option<string>, s: Spec): Option<Spec> {
    if BoolOk(o, "toolchain-ready") && PlatformOk(o, archFor) && BoolOk(o, "apply-patches") && BoolOk(o, "seed-push") then
      Some(WithTargets(o, archFor, WithTools(o, WithNames(o, WithSource(o, s)))))
    else None
  }

  class Options {
    const opts: Opts
    const archFor: string -> Option<string>
    const build: Build

    constructor (opts: Opts, archFor: string -> Option<string>, build: Build)
      ensures this.opts == opts && this.archFor == archFor && this.build == build
    {
      this.opts, this.archFor, this.build := opts, archFor, build;
    }

    /** `optBool`: leave the flag alone, set it, or refuse the spelling. */
    method ReadBool(key: string, b: bool) returns (ok: bool, r: bool)
      ensures ok <==> BoolOk(opts, key)
      ensures ok ==> r == GivenBool(opts, key, b)
      ensures !ok ==> r == b
    {
      var v := Opt(opts, key);
      if v == "" {
        return true, b;
      } else if v == "true" {
        return true, true;
      } else if v == "false" {
        return true, false;
      }
      return false, b;
    }

    /** The source fields: each change drops the pin, an explicit pin comes last. */
    method ApplySource(s0: Spec) returns (s: Spec)
      ensures s == WithSource(opts, s0)
    {
      hide SourceURLFor, Opt;
      var version, url, pin := s0.kernelVersion, s0.sourceURL, s0.sourceSHA256;
      var v := Opt(opts, "kernel-version");
      if v != "" && v != version {
        version, url, pin := v, SourceURLFor(v), "";
      }
      v := Opt(opts, "source-url");
      if v != "" && v != url {
        url, pin := v, "";
      }
      v := Opt(opts, "source-sha256");
      if v != "" {
        pin := v;
      }
      s := s0.(kernelVersion := version, sourceURL := url, sourceSHA256 := pin);
    }

    /** The plain fields, one after the other. */
    method ApplyNames(s0: Spec) returns (s: Spec)
      ensures s == WithNames(opts, s0)
    {
      hide Given;
      s := s0.(sourceDateEpoch := Given(opts, "source-date-epoch", s0.sourceDateEpoch));
      s := s.(configName := Given(opts, "config", s.configName));
      s := s.(expectName := Given(opts, "expect", s.expectName));
      s := s.(baseMake := Given(opts, "base-make", s.baseMake));
      s := s.(proxyCAFile := Given(opts, "proxy-ca", s.proxyCAFile));
      s := s.(helperRef := Given(opts, "helper-ref", s.helperRef));
      s := s.(sourceLocalName := Given(opts, "src-name", s.sourceLocalName));
      s := s.(base := Given(opts, "base", s.base));
    }

    method ApplyTools(s0: Spec) returns (ok: bool, s: Spec)
      ensures ok <==> BoolOk(opts, "toolchain-ready")
      ensures ok ==> s == WithTools(opts, s0)
    {
      hide Given, First, Opt, BoolOk, GivenBool;
      s := s0;
      var ready;
      ok, ready := ReadBool("toolchain-ready", s.toolchainReady);
      if !ok {
        return;
      }
      s := s.(toolchainReady := ready);
      s := s.(arch := Given(opts, "arch", s.arch), crossCompile := Given(opts, "cross-compile", s.crossCompile));
      s := s.(httpsProxy := First(opts, "build-arg:https_proxy", "build-arg:HTTPS_PROXY", s.httpsProxy),
              httpProxy := First(opts, "build-arg:http_proxy", "build-arg:HTTP_PROXY", s.httpProxy),
              noProxy := First(opts, "build-arg:no_proxy", "build-arg:NO_PROXY", s.noProxy));
      if Opt(opts, "force-network-mode") == "host" {
        s := s.(networkHost := true);
      }
    }

    method ApplyTargets(s0: Spec) returns (ok: bool, s: Spec)
      ensures ok <==> PlatformOk(opts, archFor) && BoolOk(opts, "apply-patches") && BoolOk(opts, "seed-push")
      ensures ok ==> s == WithTargets(opts, archFor, s0)
    {
      hide Opt, BoolOk, GivenBool, TargetsOf;
      s := s0;
      var arch, p := s0.arch, Opt(opts, "platform");
      if p != "" {
        if archFor(p).None? {
          return false, s;
        }
        arch := archFor(p).value;
      }
      var targets := TargetsOf(opts, s0.targets);
      var patches, push;
      ok, patches := ReadBool("apply-patches", s0.applyPatches);
      if !ok {
        return;
      }
      var ignore := s0.ignoreCache || "no-cache" in opts;
      ok, push := ReadBool("seed-push", s0.seedPush);
      s := s0.(arch := arch, targets := targets, applyPatches := patches, ignoreCache := ignore, seedPush := push);
    }

    /** Every option in turn; a refused one ends the call, and the build with it. */
    method ApplyOpts() returns (ok: bool)
      modifies build
      ensures ok <==> Opted(opts, archFor, old(build.spec)).Some?
      ensures ok ==> build.spec == Opted(opts, archFor, old(build.spec)).value
    {
      hide WithSource, WithNames, WithTools, WithTargets, BoolOk, PlatformOk;
      var s := ApplySource(build.spec);
      s := ApplyNames(s);
      ok, s := ApplyTools(s);
      if !ok {
        return;
      }
      ok, s := ApplyTargets(s);
      build.spec := s;
    }
  }

  /** Giving the same options again changes nothing. */
  lemma OptsIdempotent(o: Opts, archFor: string -> Option<string>, s: Spec)
    requires Opted(o, archFor, s).Some?
    ensures Opted(o, archFor, Opted(o, archFor, s).value) == Opted(o, archFor, s)
  {
    hide BoolOk, SourceURLFor, FieldsFunc;
  }

  /**
   No stale pin: through both layers, a build that ends up with a pin got it in so
   many words in the last layer that changed the version or the address, or in a
   later one; or else version and address are still those the built-in pin is for.
   */
  lemma PinProvenance(lines: seq<string>, m: Settings, o: Opts, archFor: string -> Option<string>, r: Spec)
    requires Gather(Unmarked(lines)) == Some(m)
    requires Opted(o, archFor, Parsed(lines, false, DEFAULT_SPEC).value) == Some(r)
    ensures var p := Parsed(lines, false, DEFAULT_SPEC).value;
      r.sourceSHA256 != "" && r.sourceSHA256 != Opt(o, "source-sha256") ==>
        && r.kernelVersion == p.kernelVersion && r.sourceURL == p.sourceURL
        && (if Sha256 in m then r.sourceSHA256 == m[Sha256]
            else r.kernelVersion == DEFAULT_VERSION && r.sourceURL == SourceURLFor(DEFAULT_VERSION) && r.sourceSHA256 == DEFAULT_PIN)
  {
    hide SourceURLFor, FieldsFunc, BoolOk, Gather;
  }

  /** An explicit pin is never lost: the options' stands, and the file's while the options leave the source alone. */
  lemma PinKept(lines: seq<string>, m: Settings, o: Opts, archFor: string -> Option<string>, s: Spec, r: Spec)
    requires Gather(Unmarked(lines)) == Some(m)
    requires Opted(o, archFor, Parsed(lines, false, s).value) == Some(r)
    ensures Opt(o, "source-sha256") != "" ==> r.sourceSHA256 == Opt(o, "source-sha256")
    ensures var p := Parsed(lines, false, s).value;
      Opt(o, "source-sha256") == "" && Sha256 in m ==>
        r.sourceSHA256 == if r.kernelVersion == p.kernelVersion && r.sourceURL == p.sourceURL then m[Sha256] else ""
  {
    hide SourceURLFor, FieldsFunc, BoolOk, Gather;
  }
}
