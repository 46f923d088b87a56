/**
 Why a base must carry its digest when the seed key is rendered: without one, two
 toolchains share a seed, and a live stamp blesses the other's objects.
 */
module Mixing {
  import opened Wrappers
  import opened Text
  import opened Names
  import opened Specs
  import opened Identity
  import opened Kbuild
  import opened Protocol
  import opened MountInvariant
  import opened RunInvariant
  import opened RunSteps
  import opened RunDone
  import opened RunBuild
  import opened Histories
  import opened Walks
  import opened Exactness

  const IMAGE: FilePath := ["vmlinux"]

  /** Two runs that differ in their base only, one of which pushes the seed both would look for. */
  predicate Sharing(i: Inputs, j: Inputs) {
    && i.seed.Some? && i.seed == j.seed && i.seed.value.push
    && j.tool == i.tool.(base := j.tool.base) && j.src == i.src && j.patches == i.patches
  }

  /** The tarball the two work on gives a tree, without a file where make puts the image. */
  predicate HasTree(w: World, i: Inputs, b: string) {
    Matches(w, i, b) && TreeOf(w, b, i.patches).Some? && IMAGE !in TreeOf(w, b, i.patches).value
  }

  lemma ImageName()
    ensures !Own(IMAGE) && !Skipped(IMAGE) && IMAGE != [STAMP] && IMAGE != [SEED_STAMP] && IMAGE != [VERSION]
    ensures IMAGE != [CONFIG] && IMAGE != [MARKER]
  {
    assert IMAGE[0][0] == 'v';
  }

  /** The mount of the first run once its image is made. */
  function Linked(w: World, i: Inputs, b: string): Mount
    requires TreeOf(w, b, i.patches).Some? && (!i.src.Local? ==> UrlOk(i.src.url))
  {
    var m := Marked(w, Fresh(w, i, b), i);
    (m - {[VERSION]})[IMAGE := Obj(Prov(i.tool, ViewOf(m)))]
  }

  lemma LinkedIs(w: World, i: Inputs, b: string)
    requires WorldOk(w) && InputsOk(w, i) && HasTree(w, i, b)
    ensures !i.src.Local? ==> UrlOk(i.src.url)
    ensures var m := Marked(w, Fresh(w, i, b), i);
      Made(m - {[VERSION]}, Linked(w, i, b), Prov(i.tool, ViewOf(m)), [VERSION])
    ensures var m' := Linked(w, i, b);
      && Holds(m', STAMP, Want(w, i)) && [SEED_STAMP] !in m' && Present(m')
      && IMAGE in m' && m'[IMAGE].Obj? && m'[IMAGE].made.tool == i.tool
  {
    hide WorldOk, InputsOk, TreeOf, Want, Fresh, Marked, ViewOf, Matches, Own, Made;
    UrlThere(w, i);
    BeforeLink(w, i, b);
    ImageName();
    OtherNames();
    var m := Marked(w, Fresh(w, i, b), i);
    ImageMade(m, Prov(i.tool, ViewOf(m)));
  }

  lemma ImageMade(m: Mount, by': Prov)
    requires IMAGE !in m
    ensures Made(m - {[VERSION]}, (m - {[VERSION]})[IMAGE := Obj(by')], by', [VERSION])
  {
    hide Own;
    ImageName();
  }

  lemma BeforeLink(w: World, i: Inputs, b: string)
    requires WorldOk(w) && InputsOk(w, i) && HasTree(w, i, b) && (!i.src.Local? ==> UrlOk(i.src.url))
    ensures var m := Marked(w, Fresh(w, i, b), i);
      Holds(m, STAMP, Want(w, i)) && [SEED_STAMP] !in m && Present(m) && IMAGE !in m
  {
    hide WorldOk, InputsOk, TreeOf, Want, ViewOf, SourceView, Matches, Own, Fresh, Marked;
    FreshIs(w, i, b);
    ImageName();
    OtherNames();
    var m0 := Fresh(w, i, b);
    MarkedIs(w, m0, i);
    assert Get(m0, IMAGE) == None;
    assert Get(Marked(w, m0, i), IMAGE) == Get(m0, IMAGE);
    assert Get(Marked(w, m0, i), [SEED_STAMP]) == Get(m0, [SEED_STAMP]);
  }

  lemma OtherNames()
    ensures [SEED_STAMP] != [CONFIG] && [SEED_STAMP] != [MARKER] && [SEED_STAMP] != [VERSION] && [SEED_STAMP] != [STAMP]
    ensures [STAMP] != [VERSION] && [MAKEFILE] != [VERSION] && IMAGE != [MAKEFILE]
  {
    var a, b, c, d, e, f := [SEED_STAMP], [CONFIG], [MARKER], [VERSION], [STAMP], [MAKEFILE];
    assert a[0][1] != b[0][1] && a[0][5] != c[0][5] && a[0][1] != d[0][1] && |a[0]| != |e[0]|;
    assert e[0][1] != d[0][1] && f[0][0] != d[0][0] && IMAGE[0][0] != f[0][0];
  }

  /** The first run builds and pushes. */
  lemma Pushes(w: World, i: Inputs, b: string) returns (s: System)
    requires WorldOk(w) && InputsOk(w, i) && HasTree(w, i, b) && i.seed.Some? && i.seed.value.push
    ensures !i.src.Local? ==> UrlOk(i.src.url)
    ensures Reachable(w, s) && s.past == {i} && s.store == map[LocOf(w, i) := Packed(Linked(w, i, b))]
    ensures forall other :: other != Home(w, i) ==> SlotAt(s, other) == Slot(map[], None)
  {
    hide Reachable, InputsOk, WorldOk, TreeOf, Leads, Want, ConfigId, Matches, Fresh, Linked, LocOf, Packed, Marked, Made, ViewOf, Prior, Holds;
    var at := Home(w, i);
    var r;
    s, r := Prepared(w, i, b);
    LinkedIs(w, i, b);
    var m0, m1, m2 := Fresh(w, i, b), Marked(w, Fresh(w, i, b), i), Linked(w, i, b);
    var a := Slot(m0, Some(r));
    Stay(w, at.1, s.store, a);
    assert !Holds(m0, MARKER, ConfigId(i.words, i.config)) by { FreshUnmarked(w, i, b); }
    ToReady(w, at.1, s.store, a, m0, r);
    MarkedIs(w, m0, i);
    ToPush(w, at.1, s.store, a, m1, r.(pc := Ready), m2);
    var r' := r.(pc := Push(Output(w, m1, i)));
    s := Lift(w, s, at, Slot(m2, Some(r')));
    s := Exports(w, s, at, m2, r');
  }

  lemma FreshUnmarked(w: World, i: Inputs, b: string)
    requires WorldOk(w) && InputsOk(w, i) && TreeOf(w, b, i.patches).Some? && (!i.src.Local? ==> UrlOk(i.src.url))
    ensures !Holds(Fresh(w, i, b), MARKER, ConfigId(i.words, i.config))
  {
    hide InputsOk, WorldOk, TreeOf, Want, ConfigId, ViewOf, SourceView, Fresh, FromTree;
    FreshIs(w, i, b);
  }

  /** An empty mount hydrated from a seed with the wanted stamp. */
  function Hydrated(w: World, seed: Mount, j: Inputs): Mount {
    ((OnlySrc(map[]) + Quarantined(seed)) - {[SEED_STAMP]})[[STAMP] := Data(Want(w, j))]
  }

  lemma HydratedIs(w: World, seed: Mount, j: Inputs)
    requires Holds(seed, STAMP, Want(w, j)) && [SEED_STAMP] !in seed && Present(seed)
    ensures Holds(OnlySrc(map[]) + Quarantined(seed), SEED_STAMP, Want(w, j))
    ensures var m := Hydrated(w, seed, j);
      Holds(m, STAMP, Want(w, j)) && Present(m) && Get(m, IMAGE) == Get(seed, IMAGE)
  {
    hide Want, Quarantined;
    HydratedParts(seed);
    ImageName();
    OtherNames();
    var q := Quarantined(seed);
    assert OnlySrc(map[]) + q == q;
    assert Get(q, IMAGE) == Get(seed, IMAGE) && Get(q, [MAKEFILE]) == Get(seed, [MAKEFILE]) by {
      assert [MAKEFILE][0][0] == 'M';
      assert [MAKEFILE] != [STAMP] && [MAKEFILE] != [SEED_STAMP];
    }
  }

  /** The second run takes the seed for its own. */
  lemma Pulls(w: World, id: string, store: Store, j: Inputs, seed: Mount) returns (r: Run)
    requires InputsOk(w, j) && j.seed.Some? && LocOf(w, j) in store && store[LocOf(w, j)] == seed
    requires Holds(seed, STAMP, Want(w, j)) && [SEED_STAMP] !in seed && Present(seed)
    ensures Leads(w, id, store, Slot(map[], Some(First(j, map[]))), Slot(Hydrated(w, seed, j), Some(r)))
  {
    hide InputsOk, Leads, Want, LocOf, Quarantined, Holds;
    var a := Slot(map[], Some(First(j, map[])));
    Stay(w, id, store, a);
    Go(w, id, store, a, map[], First(j, map[]), map[], Nuke(Clear));
    r := First(j, map[]).(pc := Nuke(Clear));
    Go(w, id, store, a, map[], r, map[], Pull(seed));
    r := r.(pc := Pull(seed));
    HydratedIs(w, seed, j);
    var m1 := OnlySrc(map[]) + Quarantined(seed);
    Go(w, id, store, a, map[], r, m1, Compare(seed));
    r := r.(pc := Compare(seed));
    Go(w, id, store, a, m1, r, m1 - {[SEED_STAMP]}, WriteStamp);
    r := r.(pc := WriteStamp);
    Go(w, id, store, a, m1 - {[SEED_STAMP]}, r, Hydrated(w, seed, j), Configure);
    r := r.(pc := Configure);
  }

  lemma PackedKeepsImage(m: Mount, want: string)
    requires Holds(m, STAMP, want) && [SEED_STAMP] !in m && Present(m)
    ensures Holds(Packed(m), STAMP, want) && [SEED_STAMP] !in Packed(m) && Present(Packed(m)) && Get(Packed(m), IMAGE) == Get(m, IMAGE)
  {
    hide Before, Own, AfterStamp, Aside, IsSrc, Skipped;
    OwnNames();
    ImageName();
  }

  lemma SameLoc(w: World, i: Inputs, j: Inputs)
    requires Sharing(i, j)
    ensures LocOf(w, i) == LocOf(w, j) && Want(w, i) == Want(w, j)
  {
    assert i.tool.(base := i.seed.value.shown) == j.tool.(base := j.seed.value.shown);
  }

  lemma OtherHome(w: World, i: Inputs, j: Inputs)
    requires WorldOk(w) && InputsOk(w, i) && InputsOk(w, j) && i.tool != j.tool
    ensures Home(w, i) != Home(w, j)
  {
    hide WorldOk, MountId;
    if Home(w, i) == Home(w, j) { OneTool(w, i.tool, j.tool); }
  }

  /**
   The mix: one run pushes its tree under the shared key, the other hydrates from it,
   and its mount has a live stamp over an object of the first toolchain.
   */
  lemma SeedsMix(w: World, i: Inputs, j: Inputs, b: string) returns (s: System)
    requires WorldOk(w) && InputsOk(w, i) && InputsOk(w, j) && HasTree(w, i, b) && Sharing(i, j) && i.tool != j.tool
    ensures Reachable(w, s) && s.past == {i, j}
    ensures var m := MountAt(w, s, 0, j.tool);
      && Named(w, m, j.src.Local?, b, j.patches)
      && IMAGE in m && m[IMAGE].Obj? && m[IMAGE].made.tool == i.tool
  {
    hide Reachable, InputsOk, WorldOk, TreeOf, Leads, Want, Fresh, Linked, LocOf, Packed, Hydrated, MountId, Holds, Present;
    s := Pushes(w, i, b);
    LinkedIs(w, i, b);
    SameLoc(w, i, j);
    OtherHome(w, i, j);
    var m2, at := Linked(w, i, b), Home(w, j);
    PackedKeepsImage(m2, Want(w, i));
    s := Begun(w, s, at, j);
    var r := Pulls(w, at.1, s.store, j, Packed(m2));
    s := Lift(w, s, at, Slot(Hydrated(w, Packed(m2), j), Some(r)));
    HydratedIs(w, Packed(m2), j);
    MatchNamed(w, j, b, Hydrated(w, Packed(m2), j));
  }

  // ---- the guard ----

  /** In every history of these two runs, every object on a mount is of its id's toolchain. */
  ghost predicate NeverMix(w: World, i: Inputs, j: Inputs) {
    forall s, worker, t, q {:trigger q in MountAt(w, s, worker, t)} ::
      Reachable(w, s) && s.past <= {i, j} && t in w.tools && q in MountAt(w, s, worker, t) && MountAt(w, s, worker, t)[q].Obj?
      ==> MountAt(w, s, worker, t)[q].made.tool == t
  }

  /**
   The guard: two toolchains that share a seed never mix exactly if the base carried
   its digest when the key was rendered, which it does only if they are one.
   */
  lemma NeverMixGuard(w: World, i: Inputs, j: Inputs, b: string)
    requires WorldOk(w) && InputsOk(w, i) && InputsOk(w, j) && HasTree(w, i, b) && Sharing(i, j)
    ensures i.tool != j.tool ==> '@' !in i.seed.value.shown && !NeverMix(w, i, j)
    ensures '@' in i.seed.value.shown ==> i.tool == j.tool && NeverMix(w, i, j)
  {
    hide Reachable, WorldOk, HasTree, NeverMix;
    if i.tool != j.tool { Mixed(w, i, j, b); }
    if '@' in i.seed.value.shown { PinnedNeverMix(w, i, j); }
  }

  lemma Mixed(w: World, i: Inputs, j: Inputs, b: string)
    requires WorldOk(w) && InputsOk(w, i) && InputsOk(w, j) && HasTree(w, i, b) && Sharing(i, j) && i.tool != j.tool
    ensures !NeverMix(w, i, j)
  {
    hide Reachable, WorldOk, HasTree, InputsOk, Sharing, Named, MountAt;
    var s := SeedsMix(w, i, j, b);
    assert j.tool in w.tools by { ToolIn(w, j); }
    assert IMAGE in MountAt(w, s, 0, j.tool);
  }

  lemma ToolIn(w: World, j: Inputs)
    requires InputsOk(w, j)
    ensures j.tool in w.tools
  {
  }

  lemma PinnedNeverMix(w: World, i: Inputs, j: Inputs)
    requires WorldOk(w) && Sharing(i, j) && '@' in i.seed.value.shown
    ensures NeverMix(w, i, j)
  {
    hide Reachable, WorldOk, MountAt;
    forall s, worker, t, q {:trigger q in MountAt(w, s, worker, t)} | Reachable(w, s) && s.past <= {i, j} && t in w.tools
      && q in MountAt(w, s, worker, t) && MountAt(w, s, worker, t)[q].Obj?
      ensures MountAt(w, s, worker, t)[q].made.tool == t
    {
      OwnObjects(w, s, worker, t, q);
    }
  }
}
