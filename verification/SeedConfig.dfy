/**
 The seed configuration travels as a secret: `SeedCfg` (`llb.go`) writes it and
 `loadSeedCfg` (`cmd/kbuild-step/main.go`) reads it back in the step.
 */
module SeedConfig {
  import opened Wrappers
  import opened Text
  import opened Specs
  import opened Identity

  datatype SeedConf = SeedConf(url: string, key: string, region: string, push: bool)

  function Region(s: Spec): string {
    if s.seedRegion == "" then "auto" else s.seedRegion
  }

  function SeedLines(s: Spec, hash: string -> string): seq<string> {
    [ "SEED_URL=" + s.seedURL,
      "SEED_KEY=" + SeedKey(hash, s.seedPrefix, ToolOf(s)),
      "SEED_REGION=" + Region(s),
      "SEED_PUSH=" + if s.seedPush then "1" else "0" ]
  }

  /** One line after the other, each with its newline. */
  function Ended(lines: seq<string>): string {
    if lines == [] then "" else lines[0] + ['\n'] + Ended(lines[1..])
  }

  /** The secret's text, or nothing when seeding is off. */
  function SeedCfg(s: Spec, hash: string -> string): Option<string> {
    if s.seedURL == "" then None else Some(Ended(SeedLines(s, hash)))
  }

  // ---- reading it back ----

  /** What one line does to the configuration read so far. */
  function ReadLine(c: SeedConf, line: string): SeedConf {
    var (k, v) := Cut(TrimSpace(line), '=');
    match k
    case "SEED_URL" => c.(url := v)
    case "SEED_KEY" => c.(key := v)
    case "SEED_REGION" => c.(region := v)
    case "SEED_PUSH" => c.(push := v == "1")
    case _ => c
  }

  function ReadLines(lines: seq<string>): SeedConf {
    if lines == [] then SeedConf("", "", "", false)
    else ReadLine(ReadLines(lines[..|lines| - 1]), lines[|lines| - 1])
  }

  /** What the step makes of the three secrets; the credentials only have to be there. */
  function Loaded(raw: Option<string>, accessKey: bool, secretKey: bool): Option<SeedConf> {
    match raw
    case None => None
    case Some(text) =>
      var c := ReadLines(Split(text, '\n'));
      if c.url == "" || c.key == "" || !accessKey || !secretKey then None else Some(c)
  }

  method LoadSeedCfg(raw: Option<string>, accessKey: bool, secretKey: bool) returns (r: Option<SeedConf>)
    ensures r == Loaded(raw, accessKey, secretKey)
  {
    hide TrimSpace, Cut, Split;
    if raw.None? {
      return None;
    }
    var lines := Split(raw.value, '\n');
    var c := SeedConf("", "", "", false);
    var i := 0;
    while i < |lines|
      invariant 0 <= i <= |lines|
      invariant c == ReadLines(lines[..i])
    {
      var (k, v) := Cut(TrimSpace(lines[i]), '=');
      if k == "SEED_URL" {
        c := c.(url := v);
      } else if k == "SEED_KEY" {
        c := c.(key := v);
      } else if k == "SEED_REGION" {
        c := c.(region := v);
      } else if k == "SEED_PUSH" {
        c := c.(push := v == "1");
      }
      Step(lines, i + 1);
      i := i + 1;
    }
    assert lines[..i] == lines;
    if c.url == "" || c.key == "" {
      return None;
    }
    if !accessKey || !secretKey {
      return None;
    }
    return Some(c);
  }

  lemma SplitNone(c: char)
    ensures Split("", c) == [""]
  {
  }

  lemma {:induction false} SplitEnded(lines: seq<string>)
    requires forall i :: 0 <= i < |lines| ==> '\n' !in lines[i]
    ensures Split(Ended(lines), '\n') == lines + [""]
  {
    hide Split;
    if lines == [] {
      SplitNone('\n');
    } else {
      SplitEnded(lines[1..]);
      SplitHere(lines[0], '\n', Ended(lines[1..]));
      assert lines == [lines[0]] + lines[1..];
    }
  }

  /** A value on a line of its own, whatever "=" it holds, is read back. */
  lemma LineReads(k: string, v: string)
    requires k != "" && !Space(k[0]) && '=' !in k && (v == "" || !Space(v[|v| - 1]))
    ensures Cut(TrimSpace(k + "=" + v), '=') == (k, v)
  {
    TrimNone(k + "=" + v);
    assert k + "=" + v == k + ['='] + v;
    CutHere(k, '=', v);
  }

  predicate NoSpace(s: string) {
    forall i :: 0 <= i < |s| ==> !Space(s[i])
  }

  lemma HexNoSpace(h: string)
    requires All(h, Hex)
    ensures NoSpace(h)
  {
    forall i | 0 <= i < |h| ensures !Space(h[i]) { assert Hex(h[i]); }
  }

  lemma FileNoSpace(f: string)
    requires FileOk(f)
    ensures NoSpace(f)
  {
  }

  lemma UrlNoSpace(u: string)
    requires SeedURLOk(u)
    ensures NoSpace(u)
  {
    assert u == u[..8] + u[8..] && u[..8] == "https://";
  }

  lemma SpecNoSpace(s: Spec)
    requires Valid(s) && s.seedURL != ""
    ensures NoSpace(s.kernelVersion) && NoSpace(ArchOrDefault(s)) && NoSpace(s.seedPrefix)
    ensures NoSpace(s.seedURL) && NoSpace(Region(s))
  {
    hide Contains, Fields, SourceValid, ProxyValid, VersionOk, Value;
    VersionChars(s.kernelVersion);
    FileNoSpace(s.seedPrefix);
    if s.seedRegion != "" { FileNoSpace(s.seedRegion); }
    UrlNoSpace(s.seedURL);
  }

  lemma NameNoSpace(s: Spec, hash: string -> string)
    requires Valid(s) && s.seedURL != "" && HashOk(hash)
    ensures NoSpace(SeedKey(hash, s.seedPrefix, ToolOf(s)))
  {
    hide Valid, NoSpace, Preimage;
    SpecNoSpace(s);
    var t := ToolOf(s);
    var h := hash(Preimage(t));
    HexNoSpace(h);
    assert NoSpace("-") && NoSpace(PatchedSuffix(t.patched)) && NoSpace("/linux-") && NoSpace(".tzst") by { LiteralsNoSpace(t); }
    NoSpaceSum(t.version, "-");
    NoSpaceSum(t.version + "-", t.arch);
    NoSpaceSum(t.version + "-" + t.arch, "-");
    NoSpaceSum(t.version + "-" + t.arch + "-", h);
    NoSpaceSum(t.version + "-" + t.arch + "-" + h, PatchedSuffix(t.patched));
    NoSpaceSum(s.seedPrefix, "/linux-");
    NoSpaceSum(s.seedPrefix + "/linux-", TreeName(hash, t));
    NoSpaceSum(s.seedPrefix + "/linux-" + TreeName(hash, t), ".tzst");
  }

  lemma LiteralsNoSpace(t: Tool)
    ensures NoSpace("-") && NoSpace(PatchedSuffix(t.patched)) && NoSpace("/linux-") && NoSpace(".tzst")
  {
  }

  lemma NoSpaceSum(a: string, b: string)
    requires NoSpace(a) && NoSpace(b)
    ensures NoSpace(a + b)
  {
  }

  /** A key of the configuration sets its field and no other. */
  lemma LineSets(c: SeedConf, v: string)
    requires NoSpace(v)
    ensures ReadLine(c, "SEED_URL=" + v) == c.(url := v)
    ensures ReadLine(c, "SEED_KEY=" + v) == c.(key := v)
    ensures ReadLine(c, "SEED_REGION=" + v) == c.(region := v)
    ensures ReadLine(c, "SEED_PUSH=" + v) == c.(push := v == "1")
    ensures ReadLine(c, "") == c
  {
    hide TrimSpace, Cut;
    LineReads("SEED_URL", v);
    assert "SEED_URL=" + v == "SEED_URL" + "=" + v;
    LineReads("SEED_KEY", v);
    assert "SEED_KEY=" + v == "SEED_KEY" + "=" + v;
    LineReads("SEED_REGION", v);
    assert "SEED_REGION=" + v == "SEED_REGION" + "=" + v;
    LineReads("SEED_PUSH", v);
    assert "SEED_PUSH=" + v == "SEED_PUSH" + "=" + v;
    EmptyLine();
    assert "SEED_URL"[5] != "SEED_KEY"[5];
  }

  /** The four lines as the reader finds them. */
  lemma LinesRead(url: string, key: string, region: string, push: bool)
    requires NoSpace(url) && NoSpace(key) && NoSpace(region)
    ensures ReadLines(["SEED_URL=" + url, "SEED_KEY=" + key, "SEED_REGION=" + region,
                       "SEED_PUSH=" + (if push then "1" else "0"), ""]) == SeedConf(url, key, region, push)
  {
    hide ReadLine, NoSpace;
    var p := if push then "1" else "0";
    DigitNoSpace(push);
    var lines := ["SEED_URL=" + url, "SEED_KEY=" + key, "SEED_REGION=" + region, "SEED_PUSH=" + p, ""];
    var c := SeedConf("", "", "", false);
    assert ReadLines(lines[..0]) == c;
    Step(lines, 1);
    LineSets(c, url);
    Step(lines, 2);
    LineSets(c.(url := url), key);
    Step(lines, 3);
    LineSets(c.(url := url, key := key), region);
    Step(lines, 4);
    LineSets(c.(url := url, key := key, region := region), p);
    Step(lines, 5);
    LineSets(SeedConf(url, key, region, push), p);
    assert lines[..5] == lines;
  }

  lemma DigitNoSpace(push: bool)
    ensures NoSpace(if push then "1" else "0")
  {
  }

  lemma EmptyLine()
    ensures Cut(TrimSpace(""), '=') == ("", "")
  {
  }

  lemma Step(lines: seq<string>, n: nat)
    requires 0 < n <= |lines|
    ensures ReadLines(lines[..n]) == ReadLine(ReadLines(lines[..n - 1]), lines[n - 1])
  {
    assert lines[..n][..n - 1] == lines[..n - 1];
  }

  /**
   The step recovers what the client rendered: address, key, effective region and
   push flag, for every validated build with a seed; and nothing without one.
   */
  lemma SeedCfgRoundTrip(s: Spec, hash: string -> string)
    requires Valid(s) && HashOk(hash)
    ensures Loaded(SeedCfg(s, hash), true, true) ==
      if s.seedURL == "" then None
      else Some(SeedConf(s.seedURL, SeedKey(hash, s.seedPrefix, ToolOf(s)), Region(s), s.seedPush))
  {
    hide Valid, HashOk, TrimSpace, Cut, Split, SeedKey;
    if s.seedURL != "" {
      var key := SeedKey(hash, s.seedPrefix, ToolOf(s));
      SpecNoSpace(s);
      NameNoSpace(s, hash);
      LinesRead(s.seedURL, key, Region(s), s.seedPush);
      var lines := SeedLines(s, hash);
      assert forall i :: 0 <= i < |lines| ==> '\n' !in lines[i];
      SplitEnded(lines);
      assert lines + [""] == ["SEED_URL=" + s.seedURL, "SEED_KEY=" + key, "SEED_REGION=" + Region(s),
                              "SEED_PUSH=" + (if s.seedPush then "1" else "0"), ""];
      assert key != "" by { KeyNotEmpty(s, hash); }
    }
  }

  lemma KeyNotEmpty(s: Spec, hash: string -> string)
    ensures SeedKey(hash, s.seedPrefix, ToolOf(s)) != ""
  {
  }
}
