/**
 What one option more makes of a build, name by name (`applyOpts`,
 `cmd/kbuild-frontend/main.go`).  With no option this says what every set of options
 means.
 */
module OptionMeaning {
  import opened Wrappers
  import opened Text
  import opened Specs
  import opened Kernelfile

  /** `o` with an option it did not give. */
  predicate OneMore(o: Opts, key: string, val: string, o': Opts) {
    Opt(o, key) == "" && val != "" && o' == o[key := val]
  }

  lemma OptMore(o: Opts, key: string, val: string, o': Opts)
    requires OneMore(o, key, val, o')
    ensures forall l {:trigger Opt(o', l)} :: Opt(o', l) == if l == key then val else Opt(o, l)
    ensures forall l, s {:trigger Given(o', l, s)} :: Given(o', l, s) == if l == key then val else Given(o, l, s)
    ensures forall l, b {:trigger GivenBool(o', l, b)} :: GivenBool(o', l, b) == if l == key then val == "true" else GivenBool(o, l, b)
    ensures forall l {:trigger BoolOk(o', l)} :: BoolOk(o', l) <==> if l == key then val == "true" || val == "false" else BoolOk(o, l)
    ensures forall l :: l in o' <==> l == key || l in o
  {
  }

  // ---- what an option changes, by its name ----

  function Takes(key: string, name: string, val: string, old': string): string {
    if key == name then val else old'
  }

  /** The plain fields. */
  function NameTaken(t: Spec, key: string, val: string): Spec {
    t.(sourceDateEpoch := Takes(key, "source-date-epoch", val, t.sourceDateEpoch),
       configName := Takes(key, "config", val, t.configName),
       expectName := Takes(key, "expect", val, t.expectName),
       baseMake := Takes(key, "base-make", val, t.baseMake),
       proxyCAFile := Takes(key, "proxy-ca", val, t.proxyCAFile),
       helperRef := Takes(key, "helper-ref", val, t.helperRef),
       sourceLocalName := Takes(key, "src-name", val, t.sourceLocalName),
       base := Takes(key, "base", val, t.base))
  }

  /** A proxy may be spelled either way; the small letters win. */
  function ProxyTaken(o: Opts, small: string, large: string, key: string, val: string, old': string): string {
    if key == small || (key == large && Opt(o, small) == "") then val else old'
  }

  /** The toolchain and the way out; a platform, once given, decides the architecture. */
  function ToolTaken(o: Opts, t: Spec, key: string, val: string): Spec {
    t.(toolchainReady := if key == "toolchain-ready" then val == "true" else t.toolchainReady,
       crossCompile := Takes(key, "cross-compile", val, t.crossCompile),
       httpsProxy := ProxyTaken(o, "build-arg:https_proxy", "build-arg:HTTPS_PROXY", key, val, t.httpsProxy),
       httpProxy := ProxyTaken(o, "build-arg:http_proxy", "build-arg:HTTP_PROXY", key, val, t.httpProxy),
       noProxy := ProxyTaken(o, "build-arg:no_proxy", "build-arg:NO_PROXY", key, val, t.noProxy),
       networkHost := t.networkHost || (key == "force-network-mode" && val == "host"))
  }

  /** What is built and how. */
  function TargetTaken(t: Spec, key: string, val: string): Spec {
    t.(targets := if key == "targets" then FieldsFunc(val, Separator) else t.targets,
       applyPatches := if key == "apply-patches" then val == "true" else t.applyPatches,
       ignoreCache := t.ignoreCache || key == "no-cache",
       seedPush := if key == "seed-push" then val == "true" else t.seedPush)
  }

  function ArchTaken(o: Opts, archFor: string -> Option<string>, t: Spec, key: string, val: string): Spec {
    t.(arch := if key == "platform" && archFor(val).Some? then archFor(val).value
               else if key == "arch" && Opt(o, "platform") == "" then val else t.arch)
  }

  /** The spellings that are refused. */
  predicate Refused(archFor: string -> Option<string>, key: string, val: string) {
    || (key in ["toolchain-ready", "apply-patches", "seed-push"] && val != "true" && val != "false")
    || (key == "platform" && archFor(val).None?)
  }

  // ---- group by group ----

  lemma NamesMore(o: Opts, o': Opts, key: string, val: string, s: Spec)
    requires OneMore(o, key, val, o')
    ensures WithNames(o', s) == NameTaken(WithNames(o, s), key, val)
  {
    hide Opt, Given, OneMore;
    OptMore(o, key, val, o');
  }

  lemma FirstMore(o: Opts, o': Opts, key: string, val: string, small: string, large: string, s: string)
    requires OneMore(o, key, val, o') && small != large
    ensures First(o', small, large, s) == ProxyTaken(o, small, large, key, val, First(o, small, large, s))
  {
    OptMore(o, key, val, o');
  }

  lemma ToolsMore(o: Opts, o': Opts, key: string, val: string, s: Spec)
    requires OneMore(o, key, val, o')
    ensures WithTools(o', s) == ToolTaken(o, WithTools(o, s), key, val).(arch := Takes(key, "arch", val, WithTools(o, s).arch))
  {
    hide Given, GivenBool, BoolOk, OneMore, First, ProxyTaken;
    OptMore(o, key, val, o');
    Spellings();
    FirstMore(o, o', key, val, "build-arg:https_proxy", "build-arg:HTTPS_PROXY", s.httpsProxy);
    FirstMore(o, o', key, val, "build-arg:http_proxy", "build-arg:HTTP_PROXY", s.httpProxy);
    FirstMore(o, o', key, val, "build-arg:no_proxy", "build-arg:NO_PROXY", s.noProxy);
    Ungiven(o, o', key, val);
  }

  lemma Spellings()
    ensures "build-arg:https_proxy" != "build-arg:HTTPS_PROXY" && "build-arg:http_proxy" != "build-arg:HTTP_PROXY"
    ensures "build-arg:no_proxy" != "build-arg:NO_PROXY"
  {
    assert "build-arg:https_proxy"[10] == 'h' && "build-arg:http_proxy"[10] == 'h' && "build-arg:no_proxy"[10] == 'n';
    assert "build-arg:HTTPS_PROXY"[10] == 'H' && "build-arg:HTTP_PROXY"[10] == 'H' && "build-arg:NO_PROXY"[10] == 'N';
  }

  lemma Ungiven(o: Opts, o': Opts, key: string, val: string)
    requires OneMore(o, key, val, o')
    ensures Opt(o, key) != "host" && BoolOk(o, key)
  {
  }

  lemma TakesIs(key: string, name: string, val: string, old': string)
    ensures Takes(key, name, val, old') == if key == name then val else old'
  {
  }

  lemma TargetsTaken(o: Opts, o': Opts, key: string, val: string, ts: seq<string>)
    requires OneMore(o, key, val, o')
    ensures TargetsOf(o', ts) == if key == "targets" then FieldsFunc(val, Separator) else TargetsOf(o, ts)
  {
    hide FieldsFunc;
    OptMore(o, key, val, o');
  }

  /** The architecture once platforms are read. */
  function ArchOf(o: Opts, archFor: string -> Option<string>, arch: string): string
    requires PlatformOk(o, archFor)
  {
    if Opt(o, "platform") != "" then archFor(Opt(o, "platform")).value else arch
  }

  lemma ArchMore(o: Opts, o': Opts, archFor: string -> Option<string>, key: string, val: string, arch: string)
    requires OneMore(o, key, val, o') && PlatformOk(o, archFor) && !Refused(archFor, key, val)
    ensures PlatformOk(o', archFor)
    ensures ArchOf(o', archFor, Takes(key, "arch", val, arch)) ==
      if key == "platform" && archFor(val).Some? then archFor(val).value
      else if key == "arch" && Opt(o, "platform") == "" then val else ArchOf(o, archFor, arch)
  {
    hide BoolOk, GivenBool, Given;
    OptMore(o, key, val, o');
    Ungave(o, o', key, val);
    assert |"arch"| != |"platform"|;
  }

  lemma TargetsMore(o: Opts, o': Opts, archFor: string -> Option<string>, key: string, val: string, s: Spec, u: Spec)
    requires OneMore(o, key, val, o') && PlatformOk(o, archFor) && !Refused(archFor, key, val)
    requires u == s.(arch := Takes(key, "arch", val, s.arch))
    ensures PlatformOk(o', archFor)
    ensures WithTargets(o', archFor, u) == ArchTaken(o, archFor, TargetTaken(WithTargets(o, archFor, s), key, val), key, val)
  {
    hide FieldsFunc, GivenBool, BoolOk, OneMore, Opt, TargetsOf, Takes, PlatformOk, Refused, WithTargets;
    ArchMore(o, o', archFor, key, val, s.arch);
    TargetsTaken(o, o', key, val, s.targets);
    InFields(o, archFor, s);
    InFields(o', archFor, u);
    OptMore(o, key, val, o');
  }

  lemma InFields(o: Opts, archFor: string -> Option<string>, s: Spec)
    requires PlatformOk(o, archFor)
    ensures WithTargets(o, archFor, s) ==
      s.(arch := ArchOf(o, archFor, s.arch), targets := TargetsOf(o, s.targets),
         applyPatches := GivenBool(o, "apply-patches", s.applyPatches),
         ignoreCache := s.ignoreCache || "no-cache" in o,
         seedPush := GivenBool(o, "seed-push", s.seedPush))
  {
    hide GivenBool, TargetsOf, Opt;
  }

  lemma Ungave(o: Opts, o': Opts, key: string, val: string)
    requires OneMore(o, key, val, o')
    ensures Opt(o, key) == "" && val != ""
  {
  }

  /** The options that can be refused are all spelled as they must be. */
  predicate Accepted(o: Opts, archFor: string -> Option<string>) {
    BoolOk(o, "toolchain-ready") && PlatformOk(o, archFor) && BoolOk(o, "apply-patches") && BoolOk(o, "seed-push")
  }

  lemma AcceptedMore(o: Opts, o': Opts, archFor: string -> Option<string>, key: string, val: string)
    requires OneMore(o, key, val, o')
    ensures Accepted(o', archFor) <==> Accepted(o, archFor) && !Refused(archFor, key, val)
  {
    hide BoolOk, OneMore;
    OptMore(o, key, val, o');
    Ungiven(o, o', key, val);
    Ungave(o, o', key, val);
  }

  lemma InGroups(o: Opts, archFor: string -> Option<string>, s: Spec)
    ensures Opted(o, archFor, s) ==
      if Accepted(o, archFor) then Some(WithTargets(o, archFor, WithTools(o, WithNames(o, WithSource(o, s))))) else None
  {
    hide WithSource, WithNames, WithTools, WithTargets, BoolOk, PlatformOk;
  }

  // ---- the later groups leave the fields of the earlier ones alone ----

  /** `s` with the fields of the first two groups as `u` has them. */
  function Renamed(s: Spec, u: Spec): Spec {
    s.(sourceDateEpoch := u.sourceDateEpoch, configName := u.configName, expectName := u.expectName, baseMake := u.baseMake,
       proxyCAFile := u.proxyCAFile, helperRef := u.helperRef, sourceLocalName := u.sourceLocalName, base := u.base,
       kernelVersion := u.kernelVersion, sourceURL := u.sourceURL, sourceSHA256 := u.sourceSHA256)
  }

  lemma ToolsPass(o: Opts, s: Spec, u: Spec)
    requires u == Renamed(s, u)
    ensures WithTools(o, u) == Renamed(WithTools(o, s), u) && Renamed(WithTools(o, s), s) == WithTools(o, s)
  {
    hide Given, First, Opt, GivenBool;
  }

  lemma TargetsPass(o: Opts, archFor: string -> Option<string>, s: Spec, u: Spec)
    requires PlatformOk(o, archFor)
    ensures WithTargets(o, archFor, Renamed(s, u)) == Renamed(WithTargets(o, archFor, s), u)
  {
    hide Opt, GivenBool, TargetsOf;
  }

  /** What the last two groups make of two builds that differ in the fields of the first two only. */
  lemma LastPass(o: Opts, archFor: string -> Option<string>, s: Spec, u: Spec)
    requires PlatformOk(o, archFor) && u == Renamed(s, u)
    ensures WithTargets(o, archFor, WithTools(o, u)) == Renamed(WithTargets(o, archFor, WithTools(o, s)), u)
    ensures WithTargets(o, archFor, WithTools(o, s)) == Renamed(WithTargets(o, archFor, WithTools(o, s)), s)
  {
    hide WithTools, WithTargets, Renamed, PlatformOk;
    ToolsPass(o, s, u);
    TargetsPass(o, archFor, WithTools(o, s), u);
    TargetsPass(o, archFor, WithTools(o, s), s);
  }

  lemma ToolFieldsPass(o: Opts, archFor: string -> Option<string>, s: Spec, key: string, val: string)
    requires PlatformOk(o, archFor)
    ensures WithTargets(o, archFor, ToolTaken(o, s, key, val)) == ToolTaken(o, WithTargets(o, archFor, s), key, val)
  {
    hide Opt, GivenBool, TargetsOf, Takes, ProxyTaken;
  }

  lemma TakenCommute(o: Opts, archFor: string -> Option<string>, t: Spec, key: string, val: string)
    ensures ArchTaken(o, archFor, TargetTaken(ToolTaken(o, t, key, val), key, val), key, val)
      == ToolTaken(o, ArchTaken(o, archFor, TargetTaken(t, key, val), key, val), key, val)
  {
    hide Opt, Takes, ProxyTaken, FieldsFunc;
  }

  // ---- the layer as a whole ----

  /** Everything an option that is not for the source changes of a build. */
  function Taken(o: Opts, archFor: string -> Option<string>, t: Spec, key: string, val: string): Spec {
    NameTaken(ToolTaken(o, ArchTaken(o, archFor, TargetTaken(t, key, val), key, val), key, val), key, val)
  }

  /**
   One option more, its name not one for the source: it is refused, or takes its own
   field and leaves every other; a name the layer does not know changes nothing.
   */
  lemma OptionMeans(o: Opts, o': Opts, archFor: string -> Option<string>, s: Spec, key: string, val: string)
    requires OneMore(o, key, val, o') && key !in ["kernel-version", "source-url", "source-sha256"]
    ensures Opted(o', archFor, s) ==
      if Opted(o, archFor, s).None? || Refused(archFor, key, val) then None
      else Some(Taken(o, archFor, Opted(o, archFor, s).value, key, val))
    ensures Opted(map[], archFor, s) == Some(s)
  {
    hide WithSource, WithNames, WithTools, WithTargets, BoolOk, PlatformOk, OneMore, Opted, Accepted, Refused,
         NameTaken, ToolTaken, TargetTaken, ArchTaken, Renamed;
    NoOptions(archFor, s);
    InGroups(o, archFor, s);
    InGroups(o', archFor, s);
    AcceptedMore(o, o', archFor, key, val);
    if Accepted(o', archFor) {
      assert PlatformOk(o, archFor) by { PlatformAccepted(o, archFor); }
      SourceApart(o, o', key, val, s);
      var a := WithSource(o, s);
      NamesMore(o, o', key, val, a);
      var b, b' := WithNames(o, a), WithNames(o', a);
      ToolsMore(o, o', key, val, b');
      var c := WithTools(o, b');
      TargetsMore(o, o', archFor, key, val, ToolTaken(o, c, key, val), WithTools(o', b')) by { SameArch(o, c, key, val); }
      ToolFieldsPass(o, archFor, c, key, val);
      assert b' == Renamed(b, b') by { NamesOnly(b, key, val); }
      LastPass(o, archFor, b, b');
      var t := WithTargets(o, archFor, WithTools(o, b));
      assert WithTargets(o, archFor, c) == NameTaken(t, key, val) by { NamesAgain(t, b, key, val); }
      TakenCommute(o, archFor, NameTaken(t, key, val), key, val);
      NamesLast(o, archFor, t, key, val);
    }
  }

  lemma PlatformAccepted(o: Opts, archFor: string -> Option<string>)
    requires Accepted(o, archFor)
    ensures PlatformOk(o, archFor)
  {
  }

  lemma SameArch(o: Opts, c: Spec, key: string, val: string)
    ensures ToolTaken(o, c, key, val).arch == c.arch
  {
  }

  lemma NamesOnly(b: Spec, key: string, val: string)
    ensures NameTaken(b, key, val) == Renamed(b, NameTaken(b, key, val))
  {
    hide Takes;
  }

  lemma NamesAgain(t: Spec, b: Spec, key: string, val: string)
    requires t == Renamed(t, b)
    ensures Renamed(t, NameTaken(b, key, val)) == NameTaken(t, key, val)
  {
    hide Takes;
  }

  lemma NamesLast(o: Opts, archFor: string -> Option<string>, t: Spec, key: string, val: string)
    ensures ToolTaken(o, ArchTaken(o, archFor, TargetTaken(NameTaken(t, key, val), key, val), key, val), key, val)
      == Taken(o, archFor, t, key, val)
  {
    hide Takes, ProxyTaken, FieldsFunc, Opt;
  }

  lemma SourceApart(o: Opts, o': Opts, key: string, val: string, s: Spec)
    requires OneMore(o, key, val, o') && key !in ["kernel-version", "source-url", "source-sha256"]
    ensures WithSource(o', s) == WithSource(o, s)
  {
    hide SourceURLFor, Opt, Given, OneMore;
    OptMore(o, key, val, o');
  }

  lemma NoOptions(archFor: string -> Option<string>, s: Spec)
    ensures Opted(map[], archFor, s) == Some(s)
  {
    hide SourceURLFor;
  }

  /** "no-cache" counts even with an empty value, as it is sent. */
  lemma NoCacheEmpty(o: Opts, archFor: string -> Option<string>, s: Spec)
    requires "no-cache" !in o && Opted(o, archFor, s).Some?
    ensures Opted(o["no-cache" := ""], archFor, s) == Some(Opted(o, archFor, s).value.(ignoreCache := true))
  {
    hide WithSource, WithNames, WithTools, BoolOk, PlatformOk, Opted, Accepted;
    var o' := o["no-cache" := ""];
    assert forall l {:trigger Opt(o', l)} :: Opt(o', l) == Opt(o, l);
    assert ReadAlike(o, o') by { AlikeRead(o, o'); }
    InGroups(o, archFor, s);
    InGroups(o', archFor, s);
    SameOptions(o, o', archFor, s);
    SameTools(o, o', WithNames(o, WithSource(o, s)));
    SameTargets(o, o', archFor, WithTools(o, WithNames(o, WithSource(o, s))));
  }

  /** What is read of the options is the same. */
  ghost predicate ReadAlike(o: Opts, o': Opts) {
    && (forall l {:trigger Opt(o', l)} :: Opt(o', l) == Opt(o, l))
    && (forall l, s {:trigger Given(o', l, s)} :: Given(o', l, s) == Given(o, l, s))
    && (forall l, b {:trigger GivenBool(o', l, b)} :: GivenBool(o', l, b) == GivenBool(o, l, b))
    && (forall l {:trigger BoolOk(o', l)} :: BoolOk(o', l) <==> BoolOk(o, l))
    && (forall l, k, s {:trigger First(o', l, k, s)} :: First(o', l, k, s) == First(o, l, k, s))
  }

  lemma AlikeRead(o: Opts, o': Opts)
    requires forall l {:trigger Opt(o', l)} :: Opt(o', l) == Opt(o, l)
    ensures ReadAlike(o, o')
  {
    hide Opt;
  }

  lemma SameOptions(o: Opts, o': Opts, archFor: string -> Option<string>, s: Spec)
    requires ReadAlike(o, o')
    ensures Accepted(o', archFor) == Accepted(o, archFor)
    ensures WithNames(o', WithSource(o', s)) == WithNames(o, WithSource(o, s))
  {
    hide SourceURLFor, Opt, Given, BoolOk, WithNames;
    assert WithSource(o', s) == WithSource(o, s);
    SameNames(o, o', WithSource(o, s));
  }

  lemma SameNames(o: Opts, o': Opts, t: Spec)
    requires ReadAlike(o, o')
    ensures WithNames(o', t) == WithNames(o, t)
  {
    hide Given;
  }

  lemma SameTools(o: Opts, o': Opts, t: Spec)
    requires ReadAlike(o, o')
    ensures WithTools(o', t) == WithTools(o, t)
  {
    hide Opt, First, Given, GivenBool;
  }

  lemma SameTargets(o: Opts, o': Opts, archFor: string -> Option<string>, t: Spec)
    requires ReadAlike(o, o') && Accepted(o, archFor) && Accepted(o', archFor)
    ensures WithTargets(o', archFor, t) == WithTargets(o, archFor, t).(ignoreCache := t.ignoreCache || "no-cache" in o')
  {
    hide Opt, FieldsFunc, BoolOk, GivenBool;
  }

  // ---- the source ----

  /**
   The options for the source: another version brings its own address unless one is
   given, and both drop the pin unless one is given.
   */
  lemma SourceMeans(o: Opts, o': Opts, archFor: string -> Option<string>, s: Spec, key: string, val: string)
    requires OneMore(o, key, val, o') && key in ["kernel-version", "source-url", "source-sha256"] && Opted(o, archFor, s).Some?
    ensures Opted(o', archFor, s).Some?
    ensures var t, r := Opted(o, archFor, s).value, Opted(o', archFor, s).value;
      && (key == "kernel-version" ==>
            r == if val == s.kernelVersion then t
                 else t.(kernelVersion := val,
                         sourceURL := if Opt(o, "source-url") != "" then t.sourceURL else SourceURLFor(val),
                         sourceSHA256 := Opt(o, "source-sha256")))
      && (key == "source-url" ==>
            r == if val == t.sourceURL then t else t.(sourceURL := val, sourceSHA256 := Opt(o, "source-sha256")))
      && (key == "source-sha256" ==> r == t.(sourceSHA256 := val))
  {
    hide WithNames, WithTools, WithTargets, PlatformOk, OneMore, SourceURLFor, Opt, Opted, WithSource, Renamed;
    SourceLast(o, o', archFor, s, key, val);
    SourceMore(o, o', key, val, s);
  }

  /** The source fields are what the first group makes of them, and the rest is as without the option. */
  lemma SourceLast(o: Opts, o': Opts, archFor: string -> Option<string>, s: Spec, key: string, val: string)
    requires OneMore(o, key, val, o') && key in ["kernel-version", "source-url", "source-sha256"] && Opted(o, archFor, s).Some?
    ensures Opted(o', archFor, s).Some?
    ensures var a, a', t := WithSource(o, s), WithSource(o', s), Opted(o, archFor, s).value;
      && Opted(o', archFor, s).value == t.(kernelVersion := a'.kernelVersion, sourceURL := a'.sourceURL, sourceSHA256 := a'.sourceSHA256)
      && t.kernelVersion == a.kernelVersion && t.sourceURL == a.sourceURL && t.sourceSHA256 == a.sourceSHA256
  {
    hide WithNames, WithTools, WithTargets, PlatformOk, OneMore, Opted, WithSource, Renamed, Accepted, Refused,
         NameTaken, ToolTaken, TargetTaken, ArchTaken;
    InGroups(o, archFor, s);
    InGroups(o', archFor, s);
    AcceptedMore(o, o', archFor, key, val);
    NoOther(o, archFor, key, val);
    PlatformAccepted(o, archFor);
    PlatformAccepted(o', archFor);
    var a, a' := WithSource(o, s), WithSource(o', s);
    assert a' == a.(kernelVersion := a'.kernelVersion, sourceURL := a'.sourceURL, sourceSHA256 := a'.sourceSHA256) by {
      SourceOnly(o, o', s);
    }
    var b, b' := WithNames(o, a), WithNames(o, a');
    SourceTail(o, o', archFor, a', key, val);
    SourcePasses(o, a, a');
    LastPass(o, archFor, b, b');
    SourceShows(WithTargets(o, archFor, WithTools(o, b)), b, b', a, a');
  }

  lemma SourceOnly(o: Opts, o': Opts, s: Spec)
    ensures var a, a' := WithSource(o, s), WithSource(o', s);
      a' == a.(kernelVersion := a'.kernelVersion, sourceURL := a'.sourceURL, sourceSHA256 := a'.sourceSHA256)
  {
    hide NewVersion, NewURL, NewPin;
  }

  lemma SourceTail(o: Opts, o': Opts, archFor: string -> Option<string>, a: Spec, key: string, val: string)
    requires OneMore(o, key, val, o') && key in ["kernel-version", "source-url", "source-sha256"]
    requires PlatformOk(o, archFor) && PlatformOk(o', archFor)
    ensures WithTargets(o', archFor, WithTools(o', WithNames(o', a))) == WithTargets(o, archFor, WithTools(o, WithNames(o, a)))
  {
    hide WithNames, WithTools, WithTargets, PlatformOk, OneMore, Refused, NameTaken, ToolTaken, TargetTaken, ArchTaken, Opt, SourceShape;
    NoOther(o, archFor, key, val);
    ShapeOf(key);
    NamesMore(o, o', key, val, a);
    var b := WithNames(o, a);
    NoOtherTaken(o, archFor, b, key, val);
    ToolsMore(o, o', key, val, b);
    var c := WithTools(o, b);
    NoOtherTaken(o, archFor, c, key, val);
    TargetsMore(o, o', archFor, key, val, c, c);
    NoOtherTaken(o, archFor, WithTargets(o, archFor, c), key, val);
  }

  lemma NoOther(o: Opts, archFor: string -> Option<string>, key: string, val: string)
    requires key in ["kernel-version", "source-url", "source-sha256"]
    ensures !Refused(archFor, key, val) && key != "arch" && key != "platform"
  {
  }

  /** The names for the source are none of the others. */
  /** Length and first letter tell the names for the source from the others. */
  predicate SourceShape(key: string) {
    (|key| == 10 || |key| == 13 || |key| == 14) && (key[0] == 's' || key[0] == 'k')
  }

  lemma ShapeOf(key: string)
    requires key in ["kernel-version", "source-url", "source-sha256"]
    ensures SourceShape(key)
  {
  }

  lemma NoOtherTaken(o: Opts, archFor: string -> Option<string>, t: Spec, key: string, val: string)
    requires SourceShape(key)
    ensures NameTaken(t, key, val) == t && ToolTaken(o, t, key, val) == t && TargetTaken(t, key, val) == t
    ensures ArchTaken(o, archFor, t, key, val) == t
  {
    hide NameTaken, ToolTaken;
    NoName(t, key, val);
    NoTool(o, t, key, val);
  }

  lemma NoName(t: Spec, key: string, val: string)
    requires SourceShape(key)
    ensures NameTaken(t, key, val) == t
  {
  }

  lemma NoTool(o: Opts, t: Spec, key: string, val: string)
    requires SourceShape(key)
    ensures ToolTaken(o, t, key, val) == t
  {
    hide Opt;
  }

  lemma SourceMore(o: Opts, o': Opts, key: string, val: string, s: Spec)
    requires OneMore(o, key, val, o')
    ensures var t, r := WithSource(o, s), WithSource(o', s);
      && (key == "kernel-version" ==>
            && r.kernelVersion == val
            && r.sourceURL == (if val == s.kernelVersion || Opt(o, "source-url") != "" then t.sourceURL else SourceURLFor(val))
            && r.sourceSHA256 == if val == s.kernelVersion then t.sourceSHA256 else Opt(o, "source-sha256"))
      && (key == "source-url" ==>
            && r.kernelVersion == t.kernelVersion && r.sourceURL == val
            && r.sourceSHA256 == if val == t.sourceURL then t.sourceSHA256 else Opt(o, "source-sha256"))
      && (key == "source-sha256" ==>
            r.kernelVersion == t.kernelVersion && r.sourceURL == t.sourceURL && r.sourceSHA256 == val)
      && (key == "kernel-version" ==> t.kernelVersion == s.kernelVersion)
  {
    hide Opt, SourceURLFor;
    OptMore(o, key, val, o');
    Ungave(o, o', key, val);
  }

  lemma SourcePasses(o: Opts, a: Spec, a': Spec)
    requires a' == a.(kernelVersion := a'.kernelVersion, sourceURL := a'.sourceURL, sourceSHA256 := a'.sourceSHA256)
    ensures var b, b' := WithNames(o, a), WithNames(o, a');
      && b' == Renamed(b, b')
      && b' == b.(kernelVersion := a'.kernelVersion, sourceURL := a'.sourceURL, sourceSHA256 := a'.sourceSHA256)
      && b.kernelVersion == a.kernelVersion && b.sourceURL == a.sourceURL && b.sourceSHA256 == a.sourceSHA256
  {
    hide Given;
  }

  lemma SourceShows(t: Spec, b: Spec, b': Spec, a: Spec, a': Spec)
    requires t == Renamed(t, b)
    requires b' == b.(kernelVersion := a'.kernelVersion, sourceURL := a'.sourceURL, sourceSHA256 := a'.sourceSHA256)
    requires b.kernelVersion == a.kernelVersion && b.sourceURL == a.sourceURL && b.sourceSHA256 == a.sourceSHA256
    ensures Renamed(t, b') == t.(kernelVersion := a'.kernelVersion, sourceURL := a'.sourceURL, sourceSHA256 := a'.sourceSHA256)
    ensures t.kernelVersion == a.kernelVersion && t.sourceURL == a.sourceURL && t.sourceSHA256 == a.sourceSHA256
  {
  }
}
