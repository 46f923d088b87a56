/** The build description and its validation (`spec.go`). */
module Specs {
  import opened Wrappers
  import opened Text

  datatype Spec = Spec(
    base: string,
    kernelVersion: string,
    sourceURL: string,
    sourceSHA256: string,
    sourceLocalName: string,
    sourceDateEpoch: string,
    configName: string,
    expectName: string,
    baseMake: string,
    applyPatches: bool,
    httpsProxy: string,
    httpProxy: string,
    noProxy: string,
    toolchainReady: bool,
    arch: string,
    crossCompile: string,
    targets: seq<string>,
    proxyCAFile: string,
    helperRef: string,
    networkHost: bool,
    ignoreCache: bool,
    seedURL: string,
    seedRegion: string,
    seedPrefix: string,
    seedPush: bool)

  // ---- character classes and expressions ----

  predicate Digit(c: char) {
    '0' <= c <= '9'
  }

  predicate Alnum(c: char) {
    Digit(c) || 'A' <= c <= 'Z' || 'a' <= c <= 'z'
  }

  predicate Hex(c: char) {
    Digit(c) || 'a' <= c <= 'f'
  }

  /** One character of a token: printable ASCII without the space. */
  predicate Printable(c: char) {
    '!' <= c <= '~'
  }

  predicate All(s: string, p: char -> bool) {
    forall i :: 0 <= i < |s| ==> p(s[i])
  }

  predicate FileOk(s: string) {
    s != "" && Alnum(s[0]) && All(s, c => Alnum(c) || c == '.' || c == '_' || c == '/' || c == '-')
  }

  predicate Sha256Ok(s: string) {
    |s| == 64 && All(s, Hex)
  }

  predicate BaseMakeOk(s: string) {
    s != "" && Alnum(s[0]) && All(s, c => Alnum(c) || c == '.' || c == '_' || c == '-')
  }

  predicate CrossOk(s: string) {
    |s| > 1 && s[|s| - 1] == '-' && All(s, c => Alnum(c) || c == '_' || c == '.' || c == '-')
  }

  predicate EpochOk(s: string) {
    s == "0" || (s != "" && s[0] != '0' && All(s, Digit))
  }

  predicate SeedURLOk(s: string) {
    HasPrefix(s, "https://") && |s| > 8
    && All(s[8..], c => Alnum(c) || c in "._~:/?#@!$&'()*+,;=%[]-")
  }

  predicate ImageRefOk(s: string) {
    s != "" && Alnum(s[0]) && All(s, c => Alnum(c) || c in "._:/@-")
  }

  predicate ProxyOk(s: string) {
    exists i :: 0 < i <= |s| - 4 && 'a' <= s[0] <= 'z' && s[i..i + 3] == "://"
      && All(s[..i], c => Digit(c) || 'a' <= c <= 'z' || c in "+.-") && All(s[i + 3..], Printable)
  }

  predicate TokenOk(s: string) {
    s != "" && All(s, Printable)
  }

  /** The end of the run of digits that starts at `i`. */
  function DigitsEnd(s: string, i: nat): (j: nat)
    requires i <= |s|
    ensures i <= j <= |s| && forall k :: i <= k < j ==> Digit(s[k])
    decreases |s| - i
  {
    if i < |s| && Digit(s[i]) then DigitsEnd(s, i + 1) else i
  }

  /** Two or three dotted numbers and perhaps a release candidate number. */
  predicate VersionOk(s: string) {
    var a := DigitsEnd(s, 0);
    a > 0 && a < |s| && s[a] == '.' &&
    var b := DigitsEnd(s, a + 1);
    b > a + 1 &&
    if b < |s| && s[b] == '.' then
      var c := DigitsEnd(s, b + 1);
      c > b + 1 && CandidateOk(s, c)
    else CandidateOk(s, b)
  }

  predicate CandidateOk(s: string, i: nat)
    requires i <= |s|
  {
    i == |s| || (HasPrefix(s[i..], "-rc") && i + 3 < |s| && DigitsEnd(s, i + 3) == |s|)
  }

  function Value(s: string): nat
    requires All(s, Digit)
  {
    if s == "" then 0 else 10 * Value(s[..|s| - 1]) + (s[|s| - 1] as int - '0' as int)
  }

  /** The last second of the year 9999. */
  const LAST_EPOCH: nat := 253402300799

  // ---- defaults ----

  function ArchOrDefault(s: Spec): string {
    if s.arch == "" then "x86_64" else s.arch
  }

  function CrossOrDefault(s: Spec): string {
    if s.crossCompile != "" || ArchOrDefault(s) == "x86_64" then s.crossCompile
    else if ArchOrDefault(s) == "arm64" then "aarch64-linux-gnu-" else ""
  }

  function TargetsOrDefault(s: Spec): seq<string> {
    if s.targets != [] then s.targets
    else if ArchOrDefault(s) == "arm64" then ["vmlinux", "image"] else ["vmlinux"]
  }

  function SourceURLFor(version: string): string {
    if Contains(version, "-rc") then "https://git.kernel.org/torvalds/t/linux-" + version + ".tar.gz"
    else "https://cdn.kernel.org/pub/linux/kernel/v" + Cut(version, '.').0 + ".x/linux-" + version + ".tar.gz"
  }

  function SourceExt(name: string): Option<string> {
    if HasSuffix(name, ".tar.gz") then Some(".gz")
    else if HasSuffix(name, ".tar.xz") then Some(".xz")
    else if HasSuffix(name, ".tar.zst") then Some(".zst")
    else None
  }

  const DEFAULT_VERSION := "6.18.20"
  const DEFAULT_PIN := "a1415e257075c2fadf070f44bbb029469efbde5b6cf07d1433fe72207acff03c"

  const DEFAULT_SPEC: Spec := Spec(
    "docker.io/library/ubuntu:24.04@sha256:33ceb71981b602c1a7443a53469e4dba065f7503eab3078a2d7a57a2ab987517",
    DEFAULT_VERSION, SourceURLFor(DEFAULT_VERSION), DEFAULT_PIN, "", "1785542400", "kernel.config",
    "", "", false, "", "", "", false, "", "", [], "", "", false, false, "", "", "kbuild-seed", false)

  // ---- validation ----

  predicate NoClimb(s: string) {
    !Contains(s, "..")
  }

  predicate SourceValid(s: Spec) {
    && (s.sourceLocalName != "" ==> FileOk(s.sourceLocalName) && NoClimb(s.sourceLocalName) && SourceExt(s.sourceLocalName).Some?)
    && (s.sourceLocalName == "" ==> HasPrefix(s.sourceURL, "https://") && TokenOk(s.sourceURL) && SourceExt(s.sourceURL).Some?)
    && (s.sourceSHA256 != "" ==> Sha256Ok(s.sourceSHA256))
    && (s.seedPush && s.sourceLocalName == "" ==> s.sourceSHA256 != "")
  }

  predicate SeedValid(s: Spec) {
    s.seedURL != "" ==>
      && SeedURLOk(s.seedURL)
      && FileOk(s.seedPrefix) && NoClimb(s.seedPrefix)
      && (s.seedRegion != "" ==> FileOk(s.seedRegion))
  }

  predicate ToolchainValid(s: Spec) {
    && ImageRefOk(s.base) && NoClimb(s.base)
    && (ArchOrDefault(s) == "x86_64" || (ArchOrDefault(s) == "arm64" && s.toolchainReady))
    && (s.crossCompile != "" ==> CrossOk(s.crossCompile) && NoClimb(s.crossCompile))
  }

  predicate BaseMakeValid(s: Spec) {
    forall i :: 0 <= i < |Fields(s.baseMake)| ==> BaseMakeOk(Fields(s.baseMake)[i]) && NoClimb(Fields(s.baseMake)[i])
  }

  predicate NamesValid(s: Spec) {
    && FileOk(s.configName) && NoClimb(s.configName)
    && (s.expectName != "" ==> FileOk(s.expectName) && NoClimb(s.expectName))
    && (s.proxyCAFile != "" ==> FileOk(s.proxyCAFile) && NoClimb(s.proxyCAFile) && '/' !in s.proxyCAFile)
    && (s.helperRef != "" ==> ImageRefOk(s.helperRef) && NoClimb(s.helperRef))
  }

  predicate ProxyValid(s: Spec) {
    && (s.httpsProxy != "" ==> ProxyOk(s.httpsProxy))
    && (s.httpProxy != "" ==> ProxyOk(s.httpProxy))
    && All(s.noProxy, Printable)
  }

  /** `Validate` returns no error. */
  predicate Valid(s: Spec) {
    && VersionOk(s.kernelVersion)
    && NamesValid(s) && BaseMakeValid(s)
    && EpochOk(s.sourceDateEpoch) && (All(s.sourceDateEpoch, Digit) ==> Value(s.sourceDateEpoch) <= LAST_EPOCH)
    && SourceValid(s) && SeedValid(s) && ProxyValid(s) && ToolchainValid(s)
    && forall i :: 0 <= i < |s.targets| ==> s.targets[i] in ["vmlinux", "image", "modules", "config", "kconfigs"]
  }

  /** A validated version holds digits, dots and the letters of "-rc". */
  lemma VersionChars(s: string)
    requires VersionOk(s)
    ensures s != "" && All(s, c => Digit(c) || c in ".-rc")
  {
    var a := DigitsEnd(s, 0);
    var b := DigitsEnd(s, a + 1);
    var c := if b < |s| && s[b] == '.' then DigitsEnd(s, b + 1) else b;
    if c < |s| {
      assert s[c..][..3] == "-rc";
      assert s[c] == '-' && s[c + 1] == 'r' && s[c + 2] == 'c' by {
        assert s[c..][0] == '-' && s[c..][1] == 'r' && s[c..][2] == 'c';
      }
    }
  }

  /** A relative name that stays below its directory and on its line. */
  predicate Stays(name: string) {
    name != "" ==> name[0] != '/' && name[0] != '-' && !Contains(name, "..") && forall c :: c in name ==> c != '\n' && c != ' ' && c != '='
  }

  /** A word that make takes for a target: no option, no assignment, no path. */
  predicate TargetWord(word: string) {
    word != "" && word[0] != '-' && '=' !in word && '/' !in word && ' ' !in word
  }

  /**
   What a validated build cannot be: no name leads out of its directory, no base-make
   word is more than a target, a build for arm64 brings its compilers, and a tree is
   pushed only for a source whose bytes are fixed.
   */
  lemma ValidMeans(s: Spec)
    requires Valid(s)
    ensures s.configName != "" && Stays(s.configName) && Stays(s.expectName) && Stays(s.proxyCAFile) && Stays(s.sourceLocalName)
    ensures s.seedURL != "" ==> s.seedPrefix != "" && Stays(s.seedPrefix) && '\n' !in s.seedRegion
    ensures forall i :: 0 <= i < |Fields(s.baseMake)| ==> TargetWord(Fields(s.baseMake)[i])
    ensures s.arch in ["", "x86_64", "arm64"] && (s.arch == "arm64" ==> s.toolchainReady)
    ensures s.sourceSHA256 != "" ==> |s.sourceSHA256| == 64
    ensures s.seedPush ==> s.sourceLocalName != "" || s.sourceSHA256 != ""
    ensures s.sourceLocalName == "" ==> "https://" <= s.sourceURL && ' ' !in s.sourceURL && '\n' !in s.sourceURL
    ensures forall t :: t in s.targets ==> t in ["vmlinux", "image", "modules", "config", "kconfigs"]
  {
    hide Fields, Contains, VersionOk, EpochOk, SourceExt, ProxyValid;
    FileStays(s.configName);
    FileStays(s.expectName);
    FileStays(s.proxyCAFile);
    FileStays(s.sourceLocalName);
    FileStays(s.seedPrefix);
    FileStays(s.seedRegion);
  }

  lemma FileStays(name: string)
    ensures FileOk(name) && NoClimb(name) ==> Stays(name)
    ensures FileOk(name) ==> name[0] != '/' && name[0] != '-' && forall c :: c in name ==> c != '\n' && c != ' ' && c != '='
  {
    hide Contains;
  }

  // ---- what the expressions accept ----

  predicate Digits(s: string) {
    s != "" && All(s, Digit)
  }

  function Candidate(n: string): string {
    if n == "" then "" else "-rc" + n
  }

  function VersionTail(patch: string, candidate: string): string {
    if patch == "" then Candidate(candidate) else "." + (patch + Candidate(candidate))
  }

  /** One of the forms "6.18", "6.18.20", "7.1-rc3" and "7.1.2-rc3". */
  ghost predicate VersionForm(s: string, major: string, minor: string, patch: string, candidate: string) {
    && Digits(major) && Digits(minor) && All(patch, Digit) && All(candidate, Digit)
    && s == major + ("." + (minor + VersionTail(patch, candidate)))
  }

  lemma {:induction false} DigitsEndAt(s: string, i: nat, j: nat)
    requires i <= j <= |s| && (forall k :: i <= k < j ==> Digit(s[k])) && (j < |s| ==> !Digit(s[j]))
    ensures DigitsEnd(s, i) == j
    decreases j - i
  {
    if i < j { DigitsEndAt(s, i + 1, j); }
  }

  lemma {:induction false} DigitsEndStops(s: string, i: nat)
    requires i <= |s|
    ensures DigitsEnd(s, i) < |s| ==> !Digit(s[DigitsEnd(s, i)])
    decreases |s| - i
  {
    if i < |s| && Digit(s[i]) { DigitsEndStops(s, i + 1); }
  }

  lemma FormCandidate(s: string, i: nat, candidate: string)
    requires i <= |s| && s[i..] == (if candidate == "" then "" else "-rc" + candidate) && All(candidate, Digit)
    ensures CandidateOk(s, i)
  {
    if candidate != "" {
      assert forall k :: 0 <= k < |candidate| ==> s[i + 3 + k] == candidate[k] by {
        assert forall k :: 0 <= k < |candidate| ==> s[i..][3 + k] == candidate[k];
      }
      DigitsEndAt(s, i + 3, |s|);
    }
  }

  /** A run of digits with something else behind it is found whole. */
  lemma DigitsPiece(s: string, i: nat, d: string, rest: string)
    requires i <= |s| && s[i..] == d + rest && All(d, Digit) && (rest != "" ==> !Digit(rest[0]))
    ensures i + |d| <= |s| && DigitsEnd(s, i) == i + |d| && s[i + |d|..] == rest
  {
    var j := i + |d|;
    assert forall k :: i <= k < j ==> s[k] == s[i..][k - i] == d[k - i];
    assert s[j..] == s[i..][|d|..] == rest;
    assert j < |s| ==> s[j] == rest[0];
    DigitsEndAt(s, i, j);
  }

  lemma Shift(s: string, i: nat, c: char, rest: string)
    requires i <= |s| && s[i..] == [c] + rest
    ensures i < |s| && s[i] == c && s[i + 1..] == rest
  {
    assert s[i] == s[i..][0];
    assert s[i + 1..] == s[i..][1..];
  }

  lemma TailStart(patch: string, candidate: string)
    ensures var t := VersionTail(patch, candidate); t != "" ==> !Digit(t[0])
    ensures var c := Candidate(candidate); c != "" ==> !Digit(c[0])
    ensures !Digit('.')
  {
  }

  lemma NoPatchOk(s: string, b: nat, candidate: string)
    requires b <= |s| && All(candidate, Digit) && s[b..] == VersionTail("", candidate)
    ensures CandidateOk(s, b) && (b < |s| ==> s[b] != '.')
  {
    hide CandidateOk, Digit, DigitsEnd, All;
    assert b < |s| ==> s[b] == s[b..][0];
    FormCandidate(s, b, candidate);
  }

  lemma PatchOk(s: string, b: nat, patch: string, candidate: string)
    requires b <= |s| && All(patch, Digit) && All(candidate, Digit) && patch != ""
    requires s[b..] == VersionTail(patch, candidate)
    ensures b < |s| && s[b] == '.' && DigitsEnd(s, b + 1) == b + 1 + |patch| <= |s| && CandidateOk(s, b + 1 + |patch|)
  {
    hide CandidateOk, Digit, DigitsEnd, All, Candidate;
    TailStart(patch, candidate);
    Shift(s, b, '.', patch + Candidate(candidate));
    DigitsPiece(s, b + 1, patch, Candidate(candidate));
    CandidateIs(candidate);
    FormCandidate(s, b + 1 + |patch|, candidate);
  }

  lemma CandidateIs(n: string)
    ensures Candidate(n) == if n == "" then "" else "-rc" + n
  {
  }

  /** What may come behind the second number. */
  lemma TailOk(s: string, b: nat, patch: string, candidate: string)
    requires b <= |s| && All(patch, Digit) && All(candidate, Digit)
    requires s[b..] == VersionTail(patch, candidate)
    ensures if b < |s| && s[b] == '.' then DigitsEnd(s, b + 1) > b + 1 && CandidateOk(s, DigitsEnd(s, b + 1)) else CandidateOk(s, b)
  {
    hide CandidateOk, Digit, DigitsEnd, All, VersionTail;
    if patch == "" { NoPatchOk(s, b, candidate); } else { PatchOk(s, b, patch, candidate); }
  }

  lemma VersionParts(s: string, a: nat, b: nat)
    requires 0 < a < |s| && DigitsEnd(s, 0) == a && s[a] == '.' && DigitsEnd(s, a + 1) == b > a + 1
    requires if b < |s| && s[b] == '.' then DigitsEnd(s, b + 1) > b + 1 && CandidateOk(s, DigitsEnd(s, b + 1)) else CandidateOk(s, b)
    ensures VersionOk(s)
  {
    hide CandidateOk, DigitsEnd;
  }

  lemma MajorPiece(s: string, major: string, minor: string, rest: string)
    requires Digits(major) && Digits(minor) && s == major + ("." + (minor + rest)) && (rest != "" ==> !Digit(rest[0]))
    ensures |major| < |s| && DigitsEnd(s, 0) == |major| && s[|major|] == '.'
    ensures |major| + 1 + |minor| <= |s| && DigitsEnd(s, |major| + 1) == |major| + 1 + |minor|
    ensures s[|major| + 1 + |minor|..] == rest
  {
    hide DigitsEnd, All;
    assert s[0..] == s && ("." + (minor + rest))[0] == '.' && !Digit('.');
    DigitsPiece(s, 0, major, "." + (minor + rest));
    Shift(s, |major|, '.', minor + rest);
    DigitsPiece(s, |major| + 1, minor, rest);
  }

  lemma FormOk(s: string, major: string, minor: string, patch: string, candidate: string)
    requires VersionForm(s, major, minor, patch, candidate)
    ensures VersionOk(s)
  {
    hide CandidateOk, DigitsEnd, VersionTail, VersionOk, Digit, All;
    TailStart(patch, candidate);
    MajorPiece(s, major, minor, VersionTail(patch, candidate));
    TailOk(s, |major| + 1 + |minor|, patch, candidate);
    VersionParts(s, |major|, |major| + 1 + |minor|);
  }

  lemma CandidateForm(s: string, i: nat) returns (candidate: string)
    requires i <= |s| && CandidateOk(s, i)
    ensures All(candidate, Digit) && s[i..] == if candidate == "" then "" else "-rc" + candidate
  {
    candidate := "";
    if i < |s| {
      candidate := s[i + 3..];
      assert s[i..] == s[i..][..3] + s[i..][3..] && s[i..][3..] == candidate;
    }
  }

  lemma Cuts(s: string, i: nat, j: nat)
    requires i < j <= |s|
    ensures s[i..] == [s[i]] + (s[i + 1..j] + s[j..])
  {
  }

  lemma TailForm(s: string, b: nat) returns (patch: string, candidate: string)
    requires b <= |s|
    requires if b < |s| && s[b] == '.' then DigitsEnd(s, b + 1) > b + 1 && CandidateOk(s, DigitsEnd(s, b + 1)) else CandidateOk(s, b)
    ensures All(patch, Digit) && All(candidate, Digit)
    ensures s[b..] == VersionTail(patch, candidate)
  {
    hide CandidateOk;
    if b < |s| && s[b] == '.' {
      var c := DigitsEnd(s, b + 1);
      patch := s[b + 1..c];
      candidate := CandidateForm(s, c);
      Cuts(s, b, c);
    } else {
      patch := "";
      candidate := CandidateForm(s, b);
    }
  }

  lemma OkForm(s: string) returns (major: string, minor: string, patch: string, candidate: string)
    requires VersionOk(s)
    ensures VersionForm(s, major, minor, patch, candidate)
  {
    hide CandidateOk, VersionTail, Digit;
    var a := DigitsEnd(s, 0);
    var b := DigitsEnd(s, a + 1);
    major, minor := s[..a], s[a + 1..b];
    patch, candidate := TailForm(s, b);
    Cuts(s, a, b);
    assert s == major + s[a..];
  }

  /** Exactly those versions are accepted. */
  lemma VersionIff(s: string)
    ensures VersionOk(s) <==> exists major, minor, patch, candidate :: VersionForm(s, major, minor, patch, candidate)
  {
    if VersionOk(s) {
      var major, minor, patch, candidate := OkForm(s);
    }
    if major, minor, patch, candidate :| VersionForm(s, major, minor, patch, candidate) {
      FormOk(s, major, minor, patch, candidate);
    }
  }

  function Decimal(n: nat): string {
    (if n < 10 then "" else Decimal(n / 10)) + [(n % 10 + '0' as int) as char]
  }

  lemma {:induction false} DecimalValue(n: nat)
    ensures Decimal(n) != "" && All(Decimal(n), Digit) && Value(Decimal(n)) == n
    ensures n > 0 ==> Decimal(n)[0] != '0'
  {
    var d := [(n % 10 + '0' as int) as char];
    if n < 10 {
      assert Decimal(n) == d && d[..0] == "";
    } else {
      DecimalValue(n / 10);
      assert Decimal(n)[..|Decimal(n)| - 1] == Decimal(n / 10);
    }
  }

  lemma DivTen(v: nat, q: nat, d: nat)
    requires v == 10 * q + d && d < 10
    ensures v / 10 == q && v % 10 == d
  {
  }

  lemma {:induction false} ValueDecimal(s: string)
    requires Digits(s) && (s[0] != '0' || |s| == 1)
    ensures Decimal(Value(s)) == s && (s[0] != '0' ==> Value(s) > 0)
  {
    var n := |s| - 1;
    var d := s[n] as int - '0' as int;
    if n == 0 {
      assert s[..0] == "" && Value(s) == d;
    } else {
      ValueDecimal(s[..n]);
      DivTen(Value(s), Value(s[..n]), d);
      assert s == s[..n] + [s[n]];
    }
  }

  /** An epoch is accepted exactly if it is the decimal of a second up to the year 9999. */
  lemma EpochIff(s: string)
    ensures EpochOk(s) && (All(s, Digit) ==> Value(s) <= LAST_EPOCH) <==> exists n: nat {:trigger Decimal(n)} :: n <= 253402300799 && s == Decimal(n)
  {
    if n: nat {:trigger Decimal(n)} :| n <= 253402300799 && s == Decimal(n) {
      DecimalValue(n);
    }
    if EpochOk(s) && Value(s) <= LAST_EPOCH {
      ValueDecimal(s);
      assert s == Decimal(Value(s));
    }
  }
}
