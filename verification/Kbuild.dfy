/**
 What the step protocol works on: the persistent mount, the build inputs, and an
 abstract kbuild with the assumptions the protocol rests on.

 A mount is seen as its files.  A file is data (source, stamp, configuration,
 tarball) or an object a make wrote, which remembers the toolchain and the source
 it was made from.
 */
module Kbuild {
  import opened Wrappers
  import opened Text
  import opened Names
  import opened Specs
  import opened Identity

  type FilePath = p: seq<string> | p != [] witness ["file"]

  /** The files of a source tree that the build reads. */
  type View = map<FilePath, string>
  type Source = map<FilePath, string>

  datatype Prov = Prov(tool: Tool, view: View)
  datatype Cell = Data(s: string) | Obj(made: Prov)
  type Mount = map<FilePath, Cell>

  const MARKER: string := ".kbf-config-src"
  const CONFIG: string := ".config"
  const VERSION: string := ".version"
  const MAKEFILE: string := "Makefile"

  function Get(m: Mount, p: FilePath): Option<Cell> {
    if p in m then Some(m[p]) else None
  }

  /** The order of `os.ReadDir`. */
  predicate Before(a: string, b: string) {
    b != "" && (a == "" || a[0] < b[0] || (a[0] == b[0] && Before(a[1..], b[1..])))
  }

  /** The cached source, which a nuke spares. */
  predicate IsSrc(p: FilePath) {
    HasPrefix(p[0], ".kbf-src")
  }

  /** The cached source and seeds being packed. */
  predicate Aside(p: FilePath) {
    IsSrc(p) || HasPrefix(p[0], ".kbf-seed-")
  }

  /** Files of the protocol, never of a source tree. */
  predicate Own(p: FilePath) {
    HasPrefix(p[0], ".kbf-") || p == [CONFIG] || p == [VERSION]
  }

  /** What the pack walk leaves out. */
  predicate Skipped(p: FilePath) {
    LeftOut(p[|p| - 1])
  }

  /** A nuke reaches the stamp before it reaches any of these. */
  predicate AfterStamp(p: FilePath) {
    Before(STAMP, p[0])
  }

  function ViewOf(m: Mount): View {
    map p | p in m && AfterStamp(p) && !Own(p) && m[p].Data? :: m[p].s
  }

  function SourceView(t: Source): View {
    map p | p in t && AfterStamp(p) :: t[p]
  }

  function OnlySrc(m: Mount): Mount {
    map p | p in m && IsSrc(p) :: m[p]
  }

  function FromTree(t: Source): Mount {
    map p | p in t :: Data(t[p])
  }

  predicate Present(m: Mount) {
    [MAKEFILE] in m
  }

  /** What the walk packs; how a seed's paths come back is the business of `SeedTree`. */
  function Packed(m: Mount): Mount {
    map p | p in m && !Skipped(p) :: m[p]
  }

  /** A packed mount as `untarSeed` leaves it in an otherwise empty one. */
  function Quarantined(from: Mount): Mount {
    if [STAMP] !in from then from
    else if [SEED_STAMP] in from then from - {[STAMP]}
    else (from - {[STAMP]})[[SEED_STAMP] := from[[STAMP]]]
  }

  // ---- the world ----

  /** A patch series, file by file. */
  type Series = seq<string>

  function Concat(s: Series): string {
    if s == [] then "" else s[0] + Concat(s[1..])
  }

  /**
   What the step calls out to.  `blobs`, `series` and `tools` are the tarballs,
   patch series and toolchains that ever occur: the hashes have to tell only those
   apart.  The patch digest is taken over a series' files one behind the other, so
   `series` holds no text twice with its files split in two ways.
   */
  datatype World = World(
    sha: string -> string,
    blobs: set<string>,
    series: set<Series>,
    tools: set<Tool>,
    unpack: string -> Option<Source>,
    patch: (Source, Series) -> Option<Source>,
    baseMake: (Tool, View, seq<string>, Option<string>) -> string,
    oldDef: (Tool, View, string) -> string,
    needsConfig: string -> bool,
    build: (Tool, View, string, string) -> string)

  /** Toolchain hashes and patch digests are the first half of a SHA-256. */
  function Short(w: World): string -> string {
    x => if |w.sha(x)| >= 16 then w.sha(x)[..16] else w.sha(x)
  }

  ghost predicate TreeOk(t: Source) {
    [MAKEFILE] in t && forall p :: p in t ==> !Own(p) && !Skipped(p)
  }

  ghost predicate WorldOk(w: World) {
    && (forall x :: Sha256Ok(w.sha(x)))
    && (forall x, y :: x in w.blobs && y in w.blobs && w.sha(x) == w.sha(y) ==> x == y)
    && (forall x, y :: x in w.series && y in w.series && Short(w)(Concat(x)) == Short(w)(Concat(y)) ==> x == y)
    && (forall t :: t in w.tools ==> ToolOk(t))
    && (forall t, u :: t in w.tools && u in w.tools ==> NoCollision(Short(w), Preimage(t), Preimage(u)))
    && (forall b :: w.unpack(b).Some? ==> TreeOk(w.unpack(b).value))
    && (forall t, s :: w.patch(t, s).Some? ==> TreeOk(w.patch(t, s).value))
  }

  // ---- inputs ----

  datatype Origin = Pinned(url: string, sum: string) | Unpinned(url: string) | Local(blob: string)

  /** Where seeds are: `shown` is the base image as it stood when the client rendered the key. */
  datatype Seed = Seed(url: string, prefix: string, shown: string, push: bool)

  /** One run of the step.  `job` stands for the targets, the epoch and the rest of the environment. */
  datatype Inputs = Inputs(
    tool: Tool,
    src: Origin,
    patches: Option<Series>,
    words: seq<string>,
    config: string,
    job: string,
    seed: Option<Seed>)

  type Loc = (string, string)

  function LocOf(w: World, i: Inputs): Loc
    requires i.seed.Some?
  {
    (i.seed.value.url, SeedKey(Short(w), i.seed.value.prefix, i.tool.(base := i.seed.value.shown)))
  }

  predicate UrlOk(url: string) {
    HasPrefix(url, "https://") && ' ' !in url && SourceExt(url).Some?
  }

  /** Validated inputs.  A base that carries a digest is the base; another is resolved first. */
  predicate InputsOk(w: World, i: Inputs) {
    && i.tool in w.tools && '@' in i.tool.base
    && (i.tool.patched <==> i.patches.Some?)
    && (i.patches.Some? ==> i.patches.value in w.series)
    && (i.src.Pinned? ==> UrlOk(i.src.url) && Sha256Ok(i.src.sum))
    && (i.src.Unpinned? ==> UrlOk(i.src.url))
    && (i.src.Local? ==> i.src.blob in w.blobs)
    && WordsOk(i.words)
    && (i.seed.Some? && '@' in i.seed.value.shown ==> i.seed.value.shown == i.tool.base)
    && (i.seed.Some? && i.seed.value.push ==> !i.src.Unpinned?)
  }

  /** What validated inputs satisfy in any world. */
  predicate Fits(i: Inputs) {
    && ToolOk(i.tool) && '@' in i.tool.base && (i.tool.patched <==> i.patches.Some?)
    && (i.src.Pinned? ==> UrlOk(i.src.url) && Sha256Ok(i.src.sum))
    && (i.src.Unpinned? ==> UrlOk(i.src.url))
    && WordsOk(i.words)
    && (i.seed.Some? && '@' in i.seed.value.shown ==> i.seed.value.shown == i.tool.base)
    && (i.seed.Some? && i.seed.value.push ==> !i.src.Unpinned?)
  }

  lemma InputsFit(w: World, i: Inputs)
    requires WorldOk(w) && InputsOk(w, i)
    ensures Fits(i)
  {
  }

  /** The seed key was rendered from a base pinned by digest. */
  predicate SeedPinned(i: Inputs) {
    i.seed.Some? ==> '@' in i.seed.value.shown
  }

  predicate SeedsPinned(past: set<Inputs>) {
    forall i :: i in past ==> SeedPinned(i)
  }

  function SrcId(w: World, src: Origin): string {
    match src
    case Pinned(_, sum) => sum
    case Unpinned(url) => url
    case Local(blob) => "local:" + w.sha(blob)
  }

  function Digest(w: World, patches: Option<Series>): string {
    if patches.None? then "none" else Short(w)(Concat(patches.value))
  }

  /** `stampWant`. */
  function Want(w: World, i: Inputs): string {
    Stamp(SrcId(w, i.src), Digest(w, i.patches))
  }

  /** The tarball the inputs ask for. */
  predicate Matches(w: World, i: Inputs, b: string) {
    b in w.blobs && match i.src
      case Pinned(_, sum) => w.sha(b) == sum
      case Unpinned(_) => false
      case Local(blob) => b == blob
  }

  // ---- what a build from nothing gives ----

  function TreeOf(w: World, b: string, patches: Option<Series>): Option<Source> {
    match w.unpack(b)
    case None => None
    case Some(t) => if patches.None? then Some(t) else w.patch(t, patches.value)
  }

  predicate Blank(s: string) {
    TrimSpace(s) == ""
  }

  /** A configuration counts as none exactly if it is all white space. */
  lemma BlankIff(s: string)
    ensures Blank(s) <==> forall i :: 0 <= i < |s| ==> Space(s[i])
  {
    hide Space;
    if Spaces(s) {
      assert "" + "" + s == s;
      TrimPadded("", "", s);
    }
  }

  /** `.config` as `olddefconfig` finds it, when the base make found `prior`. */
  function Drafted(w: World, t: Tool, v: View, words: seq<string>, config: string, prior: Option<string>): string {
    if words == [] then config
    else w.baseMake(t, v, words, prior) + if Blank(config) then "" else "\n" + config
  }

  /** `.config` as `configure` leaves it. */
  function Resolved(w: World, t: Tool, v: View, words: seq<string>, config: string, prior: Option<string>): string {
    w.oldDef(t, v, Drafted(w, t, v, words, config, prior))
  }

  /** The artifacts, when the base make found `prior`. */
  function Outcome(w: World, i: Inputs, v: View, prior: Option<string>): string {
    w.build(i.tool, v, if w.needsConfig(i.job) then Resolved(w, i.tool, v, i.words, i.config, prior) else "", i.job)
  }

  /** What the inputs give on an empty mount, where there is no `.config` to find. */
  function Cold(w: World, i: Inputs, b: string): string
    requires TreeOf(w, b, i.patches).Some?
  {
    Outcome(w, i, SourceView(TreeOf(w, b, i.patches).value), None)
  }

  /** What an earlier `.config` held does not show in the result. */
  ghost predicate Steady(w: World, i: Inputs, b: string)
    requires TreeOf(w, b, i.patches).Some?
  {
    forall prior :: Outcome(w, i, SourceView(TreeOf(w, b, i.patches).value), prior) == Cold(w, i, b)
  }

  // ---- configurations that continue one another ----

  /** `j` works on the tree of `i` with the same base-make list, and its configuration goes on where the other ends. */
  predicate Continues(w: World, i: Inputs, j: Inputs) {
    j.tool == i.tool && Want(w, j) == Want(w, i) && j.words == i.words && i.config < j.config
  }

  predicate NoneContinues(w: World, i: Inputs, past: set<Inputs>) {
    forall j :: j in past ==> !Continues(w, i, j)
  }

  /** The configurations a marker for `i` can stand beside after these runs. */
  predicate Lends(w: World, i: Inputs, past: set<Inputs>, config: string) {
    config == i.config || exists j :: j in past && Continues(w, i, j) && j.config == config
  }
}
