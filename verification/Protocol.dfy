/**
 The step (`cmd/kbuild-step/main.go`) as a state machine over persistent mounts.

 A step of a run either completes what its program counter names, or ends there:
 killed, failed, or cut off by a failing make or network, with any part of the
 effect done (`Partial`).  A mount is locked while a run holds it, so what a run
 leaves when it ends is all that anyone else can see of it.
 */
module Protocol {
  import opened Wrappers
  import opened Text
  import opened Names
  import opened Specs
  import opened Identity
  import opened Kbuild

  datatype Why = Replace | Clear | Discard

  datatype Pc =
    | Begin
    | Acquire(warm: bool)
    | Nuke(why: Why)
    | Pull(pulled: Mount)
    | Compare(pulled: Mount)
    | Extract
    | Patch(tree: Source)
    | WriteStamp
    | Configure
    | RunBase
    | AppendFragment
    | WriteConfig
    | RunOldDef
    | WriteMarker
    | Ready
    | Make
    | Push(out: string)
    | Finish(out: string)

  /** Where `acquireSource` found the tarball, and what it held. */
  datatype Src = Context(blob: string) | Cached(path: FilePath, blob: string)

  /** `before` is the mount as the run found it. */
  datatype Run = Run(i: Inputs, pc: Pc, src: Option<Src>, before: Mount)

  datatype Slot = Slot(m: Mount, run: Option<Run>)

  datatype Event = Quiet | Began(i: Inputs) | Put(loc: Loc, seed: Mount) | Export(i: Inputs, out: string)

  type Store = map<Loc, Mount>

  // ---- what parts of an effect look like ----

  /** Only files that satisfy `p` differ. */
  ghost predicate Differ(m: Mount, m': Mount, p: FilePath -> bool) {
    forall q :: !p(q) ==> Get(m', q) == Get(m, q)
  }

  predicate SameInside(m: Mount, m': Mount) {
    (map q | q in m && !Aside(q) :: m[q]) == (map q | q in m' && !Aside(q) :: m'[q])
  }

  /** A nuke under way: whole names in order, then perhaps a part of one. */
  ghost predicate PartlyNuked(m: Mount, m': Mount) {
    && (forall p :: p in m' ==> p in m && m'[p] == m[p])
    && (forall p :: p in m && IsSrc(p) ==> p in m')
    && (forall p, q {:trigger p in m, q in m'} :: p in m && p !in m' && q in m' && !IsSrc(q) ==> !Before(q[0], p[0]))
  }

  /** An extraction under way: anything but a live stamp, and no object that is not in `pulled`. */
  ghost predicate PartlyFilled(m: Mount, m': Mount, pulled: Mount) {
    && OnlySrc(m') == OnlySrc(m) && [STAMP] !in m'
    && forall p :: p in m' && m'[p].Obj? ==> p in pulled && m'[p] == pulled[p]
  }

  /** A make under way: it adds, replaces and removes objects, and may leave one file of its own. */
  ghost predicate Made(m: Mount, m': Mount, by': Prov, own: FilePath) {
    forall p {:trigger Get(m', p)} :: Get(m', p) == Get(m, p)
      || (if p == own then p in m' ==> m'[p].Data?
          else !Own(p) && (p in m ==> m[p].Obj?) && (p in m' ==> m'[p] == Obj(by')))
  }

  function Provenance(m: Mount, i: Inputs): Prov {
    Prov(i.tool, ViewOf(m))
  }

  /** Every object in the tree was made from this source by this toolchain. */
  ghost predicate Trusted(m: Mount, t: Tool) {
    forall p :: p in m && m[p].Obj? ==> m[p].made == Prov(t, ViewOf(m))
  }

  predicate Holds(m: Mount, name: string, text: string) {
    [name] in m && m[[name]] == Data(text)
  }

  function CachedAt(src: Origin): FilePath
    requires !src.Local? && UrlOk(src.url)
  {
    [".kbf-src.tar" + SourceExt(src.url).value]
  }

  function PartAt(src: Origin): FilePath
    requires !src.Local? && UrlOk(src.url)
  {
    [".kbf-src.tar" + SourceExt(src.url).value + ".part"]
  }

  /** What a run that ends at its program counter may leave of the mount. */
  ghost predicate Partial(w: World, r: Run, m: Mount, m': Mount)
    requires InputsOk(w, r.i)
  {
    match r.pc
    case Begin => Swept(m, m')
    case Acquire(_) => if r.i.src.Local? then m' == m
                       else PartlyFetched(m, m', PartAt(r.i.src))
    case Nuke(_) => PartlyNuked(m, m')
    case Pull(pulled) => PartlyFilled(m, m', pulled)
    case Compare(_) => m' == m
    case Extract => PartlyFilled(m, m', map[])
    case Patch(_) => PartlyFilled(m, m', map[])
    case WriteStamp => m' == m || exists part :: part < Want(w, r.i) && m' == m[[STAMP] := Data(part)]
    case Configure => m' == m || (!Holds(m, MARKER, ConfigId(r.i.words, r.i.config)) && m' == m - {[MARKER]})
    case RunBase => Made(m, m', Provenance(m, r.i), [CONFIG])
    case AppendFragment => Scribbled(m, m', CONFIG)
    case WriteConfig => Scribbled(m, m', CONFIG)
    case RunOldDef => Made(m, m', Provenance(m, r.i), [CONFIG])
    case WriteMarker =>
      m' == m || exists part :: part < ConfigId(r.i.words, r.i.config) && m' == m[[MARKER] := Data(part)]
    case Ready => m' == m || m' == m - {[VERSION]}
    case Make => Made(m, m', Provenance(m, r.i), [VERSION])
    case Push(_) => exists name, text :: HasPrefix(name, ".kbf-seed-") && m' == m[[name] := Data(text)]
    case Finish(_) => m' == m
  }

  /** The sweep removes seeds whose packing was cut off. */
  ghost predicate Swept(m: Mount, m': Mount) {
    && (forall p :: p in m' ==> p in m && m'[p] == m[p])
    && (forall p :: p in m && p !in m' ==> HasPrefix(p[0], ".kbf-seed-"))
  }

  ghost predicate PartlyFetched(m: Mount, m': Mount, part: FilePath) {
    Differ(m, m', p => p == part) && (part in m' ==> m'[part].Data?)
  }

  ghost predicate Scribbled(m: Mount, m': Mount, name: string) {
    m' == m || exists text :: m' == m[[name] := Data(text)]
  }

  // ---- completed steps ----

  function To(r: Run, pc: Pc): Option<Run> {
    Some(r.(pc := pc))
  }

  /** After the tree is gone and no seed serves: the tarball, acquired already or not. */
  function ColdPc(r: Run): Pc {
    if r.src.None? then Acquire(false) else Extract
  }

  function AfterClear(w: World, store: Store, r: Run): Pc {
    if r.i.seed.Some? && LocOf(w, r.i) in store then Pull(store[LocOf(w, r.i)]) else ColdPc(r)
  }

  function AfterBegin(w: World, m: Mount, i: Inputs): Pc {
    if !Present(m) then Nuke(Clear)
    else if !Holds(m, STAMP, Want(w, i)) then Acquire(true)
    else Configure
  }

  /** `acquireSource`: the local tarball, the cached one when its hash is the pin, or a download that passes. */
  ghost predicate Acquired(w: World, i: Inputs, m: Mount, m': Mount, src: Src)
    requires InputsOk(w, i)
  {
    match i.src
    case Local(blob) => m' == m && src == Context(blob)
    case Unpinned(_) => Fetched(w, i, m, m', src)
    case Pinned(_, sum) =>
      var cached := CachedAt(i.src);
      if cached in m && m[cached].Data? && w.sha(m[cached].s) == sum then
        m' == m && src == Cached(cached, m[cached].s) && src.blob in w.blobs
      else Fetched(w, i, m, m', src) && w.sha(src.blob) == sum
  }

  /** A finished download, moved over the cached tarball. */
  ghost predicate Fetched(w: World, i: Inputs, m: Mount, m': Mount, src: Src)
    requires InputsOk(w, i) && !i.src.Local?
  {
    && src.Cached? && src.path == CachedAt(i.src) && src.blob in w.blobs
    && m' == (m - {PartAt(i.src)})[src.path := Data(src.blob)]
  }

  /** What the extraction reads at the place `acquireSource` returned. */
  predicate Reads(m: Mount, src: Src, b: string) {
    match src
    case Context(blob) => b == blob
    case Cached(path, _) => path in m && m[path] == Data(b)
  }

  ghost predicate Extracted(w: World, m: Mount, m': Mount, r: Run, pc: Pc) {
    exists b :: r.src.Some? && Reads(m, r.src.value, b) && w.unpack(b).Some?
      && m' == OnlySrc(m) + FromTree(w.unpack(b).value)
      && pc == if r.i.patches.Some? then Patch(w.unpack(b).value) else WriteStamp
  }

  ghost predicate Patched(w: World, m: Mount, m': Mount, i: Inputs, tree: Source) {
    && i.patches.Some? && w.patch(tree, i.patches.value).Some?
    && m' == OnlySrc(m) + FromTree(w.patch(tree, i.patches.value).value)
  }

  /** A make of configuration targets: with a trusted tree, what it writes is a function of what it finds. */
  ghost predicate Configured(m: Mount, m': Mount, i: Inputs, text: string) {
    && Made(m, m', Provenance(m, i), [CONFIG])
    && [CONFIG] in m' && m'[[CONFIG]].Data?
    && (Trusted(m, i.tool) ==> m'[[CONFIG]] == Data(text))
  }

  function Prior(m: Mount): Option<string> {
    if [CONFIG] in m && m[[CONFIG]].Data? then Some(m[[CONFIG]].s) else None
  }

  /** The build: it needs `.config`, and in a trusted tree without `.version` gives what a cold build gives. */
  ghost predicate Built(w: World, m: Mount, m': Mount, i: Inputs, out: string) {
    && Made(m, m', Provenance(m, i), [VERSION])
    && (w.needsConfig(i.job) ==> Prior(m).Some?)
    && (Trusted(m, i.tool) && [VERSION] !in m ==>
          out == w.build(i.tool, ViewOf(m), if w.needsConfig(i.job) then Prior(m).value else "", i.job))
  }

  ghost predicate Complete(w: World, store: Store, r: Run, m: Mount, m': Mount, next: Option<Run>, ev: Event)
    requires InputsOk(w, r.i)
  {
    var i := r.i;
    match r.pc
    case Begin => Swept(m, m') && next == To(r, AfterBegin(w, m', i)) && ev == Quiet
    case Acquire(warm) =>
      && ev == Quiet && next.Some? && next.value.src.Some?
      && next == Some(r.(src := next.value.src, pc := if warm then Nuke(Replace) else Extract))
      && Acquired(w, i, m, m', next.value.src.value)
    case Nuke(why) =>
      && m' == OnlySrc(m) && ev == Quiet
      && next == To(r, match why
           case Replace => Nuke(Clear)
           case Clear => AfterClear(w, store, r)
           case Discard => ColdPc(r))
    case Pull(pulled) => m' == OnlySrc(m) + Quarantined(pulled) && next == To(r, Compare(pulled)) && ev == Quiet
    case Compare(_) =>
      && m' == m - {[SEED_STAMP]} && ev == Quiet
      && next == To(r, if Holds(m, SEED_STAMP, Want(w, i)) then WriteStamp else Nuke(Discard))
    case Extract => ev == Quiet && next.Some? && next == To(r, next.value.pc) && Extracted(w, m, m', r, next.value.pc)
    case Patch(tree) => Patched(w, m, m', i, tree) && next == To(r, WriteStamp) && ev == Quiet
    case WriteStamp =>
      && m' == m[[STAMP] := Data(Want(w, i))] && ev == Quiet
      && next == To(r, if Present(m') then Configure else ColdPc(r))
    case Configure =>
      && ev == Quiet
      && if Holds(m, MARKER, ConfigId(i.words, i.config)) then m' == m && next == To(r, Ready)
         else m' == m - {[MARKER]} && next == To(r, if i.words == [] then WriteConfig else RunBase)
    case RunBase =>
      && Configured(m, m', i, w.baseMake(i.tool, ViewOf(m), i.words, Prior(m)))
      && next == To(r, if Blank(i.config) then RunOldDef else AppendFragment) && ev == Quiet
    case AppendFragment =>
      && Prior(m).Some? && m' == m[[CONFIG] := Data(Prior(m).value + ("\n" + i.config))]
      && next == To(r, RunOldDef) && ev == Quiet
    case WriteConfig => m' == m[[CONFIG] := Data(i.config)] && next == To(r, RunOldDef) && ev == Quiet
    case RunOldDef =>
      && Prior(m).Some? && Configured(m, m', i, w.oldDef(i.tool, ViewOf(m), Prior(m).value))
      && next == To(r, WriteMarker) && ev == Quiet
    case WriteMarker =>
      m' == m[[MARKER] := Data(ConfigId(i.words, i.config))] && next == To(r, Ready) && ev == Quiet
    case Ready => m' == m - {[VERSION]} && next == To(r, Make) && ev == Quiet
    case Make => exists out :: Built(w, m, m', i, out) && next == To(r, Push(out)) && ev == Quiet
    case Push(out) =>
      && m' == m && next == To(r, Finish(out))
      && ev == if i.seed.Some? && i.seed.value.push then Put(LocOf(w, i), Packed(m)) else Quiet
    case Finish(out) => m' == m && next == None && ev == Export(i, out)
  }

  /** One step on one mount: a run starts, completes a step, or ends. */
  ghost predicate SlotNext(w: World, id: string, store: Store, s: Slot, s': Slot, ev: Event) {
    match s.run
    case None =>
      && s'.m == s.m && s'.run.Some?
      && var i := s'.run.value.i;
         InputsOk(w, i) && MountId(Short(w), i.tool) == id
         && s'.run == Some(Run(i, Begin, None, s.m)) && ev == Began(i)
    case Some(r) =>
      InputsOk(w, r.i) &&
      (|| (s'.run == None && ev == Quiet && Partial(w, r, s.m, s'.m))
       || Complete(w, store, r, s.m, s'.m, s'.run, ev))
  }

  /** Consecutive states of one mount, nothing being stored or exported on the way. */
  ghost predicate Follows(w: World, id: string, store: Store, trace: seq<Slot>) {
    forall k :: 0 <= k < |trace| - 1 ==> SlotNext(w, id, store, trace[k], trace[k + 1], Quiet)
  }

  lemma FollowsMore(w: World, id: string, store: Store, trace: seq<Slot>, s: Slot)
    requires trace != [] && Follows(w, id, store, trace) && SlotNext(w, id, store, trace[|trace| - 1], s, Quiet)
    ensures Follows(w, id, store, trace + [s])
  {
    hide SlotNext;
    var longer := trace + [s];
    forall k | 0 <= k < |longer| - 1 ensures SlotNext(w, id, store, longer[k], longer[k + 1], Quiet) {
      if k < |trace| - 1 { assert longer[k] == trace[k] && longer[k + 1] == trace[k + 1]; }
    }
  }

  /**
   One state of a mount leads to the other.  If a run holds the mount at the end, it
   held it all the way: a run that ends leaves a mount only a new run can move on.
   */
  ghost predicate Leads(w: World, id: string, store: Store, a: Slot, b: Slot) {
    exists trace :: trace != [] && Follows(w, id, store, trace) && trace[0] == a && trace[|trace| - 1] == b
  }

  // ---- many workers ----

  type Place = (nat, string)

  /** What a run exported, where, and the runs that had begun anywhere by then. */
  datatype Artifact = Artifact(at: Place, i: Inputs, out: string, past: set<Inputs>)

  /**
   Every worker has a mount per id; all share the seed store.  `log` collects what
   was exported, `past` the inputs of every run begun.
   */
  datatype System = System(slots: map<Place, Slot>, store: Store, log: seq<Artifact>, past: set<Inputs>)

  const START: System := System(map[], map[], [], {})

  function SlotAt(s: System, at: Place): Slot {
    if at in s.slots then s.slots[at] else Slot(map[], None)
  }

  function Stored(store: Store, ev: Event): Store {
    match ev
    case Put(loc, seed) => store[loc := seed]
    case _ => store
  }

  function Logged(log: seq<Artifact>, at: Place, past: set<Inputs>, ev: Event): seq<Artifact> {
    match ev
    case Export(i, out) => log + [Artifact(at, i, out, past)]
    case _ => log
  }

  function Past(past: set<Inputs>, ev: Event): set<Inputs> {
    match ev
    case Began(i) => past + {i}
    case _ => past
  }

  ghost predicate Moves(w: World, s: System, s': System, at: Place, slot': Slot, ev: Event) {
    && SlotNext(w, at.1, s.store, SlotAt(s, at), slot', ev)
    && s' == System(s.slots[at := slot'], Stored(s.store, ev), Logged(s.log, at, s.past, ev), Past(s.past, ev))
  }

  ghost predicate Step(w: World, s: System, s': System) {
    exists at, slot', ev :: Moves(w, s, s', at, slot', ev)
  }

  /** Consecutive states of the whole system. */
  ghost predicate Goes(w: World, h: seq<System>) {
    forall k :: 0 <= k < |h| - 1 ==> Step(w, h[k], h[k + 1])
  }

  /** A finite history of the whole system, from nothing. */
  ghost predicate History(w: World, h: seq<System>) {
    h != [] && h[0] == START && Goes(w, h)
  }
}
