/**
 A seed is the object tree as a tar stream: `seedPush` walks the mount and
 `untarSeed` extracts the walk into an empty one, with the stamp quarantined
 (`cmd/kbuild-step/main.go`).
 */
module SeedTree {
  import opened Wrappers
  import opened Text
  import opened Names
  import opened FileTree
  import opened Extract
  import opened Batch
  import opened SerialBatch
  import opened UntarPool
  import opened PoolTheorem

  // ---- streams that name each path once, parents first ----

  /** What a fully extracted entry leaves at its name. */
  function NodeOf(e: Entry, id: nat): Node
    requires e.DirE? || e.RegE? || e.SymE?
  {
    match e
    case DirE(_, mode) => Dir(mode)
    case RegE(_, mode, mtime, data, _) => File(Ino.Made(id), data, mode, mtime)
    case SymE(_, target) => Sym(target)
  }

  predicate Plainly(e: Entry) {
    (e.DirE? || e.RegE? || e.SymE?) && EntryOk(e) && e.name != []
  }

  type Simple = e: Entry | Plainly(e) witness SymE(["link"], [])

  /** Each name once, no name before an ancestor of it, and only directories above other names. */
  ghost predicate FreshStream(es: seq<Simple>) {
    && (forall i, j :: 0 <= i < j < |es| ==> es[i].name != es[j].name && !Above(es[j].name, es[i].name))
    && (forall i, j :: 0 <= i < |es| && 0 <= j < |es| && Above(es[i].name, es[j].name) ==> es[i].DirE?)
  }

  predicate Named(es: seq<Simple>, r: Path) {
    exists i :: 0 <= i < |es| && es[i].name == r
  }

  ghost predicate Led(es: seq<Simple>, r: Path) {
    exists i :: 0 <= i < |es| && Above(r, es[i].name)
  }

  /** The tree a fresh stream leaves in a root that held nothing. */
  ghost predicate Leaves(m: nat, es: seq<Simple>, u: Tree) {
    && (forall i :: 0 <= i < |es| ==> Get(u, es[i].name) == Some(NodeOf(es[i], i)))
    && (forall r :: r != [] && !Named(es, r) ==> Get(u, r) == (if Led(es, r) then Some(Dir(DIR_MODE)) else None))
    && Get(u, []) == Some(Dir(m))
  }

  function EmptyMount(m: nat): Tree {
    map[[] := Dir(m)]
  }

  lemma MountSane(m: nat)
    ensures Sane(EmptyMount(m), 0)
  {
  }

  /** `u'` is `u` with the entry at its name and directories on the way to it. */
  ghost predicate Gained(u: Tree, u': Tree, e: Simple, id: nat) {
    forall q :: Get(u', q) == (if q == e.name then Some(NodeOf(e, id))
                               else if Above(q, e.name) then Made755(Get(u, q)) else Get(u, q))
  }

  /** One entry whose name is new and whose way is free of links and files. */
  lemma ApplyFresh(u: Tree, id: nat, e: Simple)
    requires Sane(u, id) && e.name !in u
    requires forall r :: Above(r, e.name) && r in u ==> u[r].Dir?
    ensures Apply(u, id, e).Some?
    ensures Gained(u, Apply(u, id, e).value, e, id)
  {
    forall c | c in u ensures !Above(e.name, c) {}
    if e.SymE? {
      LinkFresh(u, id, e);
    } else {
      SoftFresh(u, id, e);
    }
  }

  lemma SoftFresh(u: Tree, id: nat, e: Soft)
    requires e.name != [] && Sane(u, id) && e.name !in u && !HasChild(u, e.name)
    requires forall r :: Above(r, e.name) && r in u ==> u[r].Dir?
    ensures Finish(u, e, id, 0).Some?
    ensures Gained(u, Finish(u, e, id, 0).value, e, id)
  {
    hide Finish;
    var es: seq<Soft> := [e];
    forall r | AtOrAbove(r, Way(e)) && r in u ensures u[r].Dir? {
      if e.RegE? { AboveParent(r, e.name); }
    }
    assert Gentle(u, es) && [] + [e] == es && FullOf([]) == [];
    StartBatch(u, id);
    assert Clear(es);
    OneMore(u, [], id, e, u);
    forall q ensures Now(u, es, id, FullOf(es), q) == Touch(e, Calls(e), id, Get(u, q), q) {
      assert es[..0] == [] && FullOf(es)[..0] == [];
    }
  }

  lemma LinkFresh(u: Tree, id: nat, e: Simple)
    requires e.SymE? && Sane(u, id) && e.name !in u && !HasChild(u, e.name)
    requires forall r :: Above(r, e.name) && r in u ==> u[r].Dir?
    ensures Apply(u, id, e).Some?
    ensures Gained(u, Apply(u, id, e).value, e, id)
  {
    var up := Parent(e.name);
    forall r ensures Above(r, e.name) <==> AtOrAbove(r, up) { AboveParent(r, e.name); }
    MkdirAllSpec(u, up);
    var t1 := MkdirAll(u, up).value;
    assert AtOrAbove(up, up) && Get(t1, up) == Made755(Get(u, up));
    assert NoLinkAt(t1, up) by {
      forall r | AtOrAbove(r, up) && r in t1 ensures !t1[r].Sym? { assert Get(t1, r) == Made755(Get(u, r)); }
    }
    assert Get(t1, e.name) == None;
    forall c | c in t1 ensures !Above(e.name, c) {
      assert Get(t1, c) == (if AtOrAbove(c, up) then Made755(Get(u, c)) else Get(u, c));
      assert !HasChild(u, e.name);
    }
    RemoveSpec(t1, e.name);
    assert t1 - {e.name} == t1;
    HolderPlain(t1, e.name);
  }

  lemma LeavesNothing(m: nat)
    ensures Leaves(m, [], EmptyMount(m))
  {
  }

  /** Serial extraction of a fresh stream into an empty mount. */
  lemma {:induction false} FreshSerial(m: nat, es: seq<Simple>)
    requires FreshStream(es)
    ensures StreamOk(es) && Serial(EmptyMount(m), es).Some?
    ensures Leaves(m, es, Serial(EmptyMount(m), es).value)
  {
    hide Apply, Sane, FreshStream, Leaves, Gained, NodeOf;
    var t0 := EmptyMount(m);
    if es == [] {
      LeavesNothing(m);
    } else {
      var n := |es| - 1;
      var prev: seq<Simple>, e: Simple := es[..n], es[n];
      assert prev + [e] == es;
      FreshPrefix(es, n);
      FreshSerial(m, prev);
      MountSane(m);
      SerialSane(t0, prev);
      var u := Serial(t0, prev).value;
      NotYet(m, prev, e, u);
      ApplyFresh(u, n, e);
      StillLeaves(m, prev, e, u, Apply(u, n, e).value);
    }
  }

  lemma NotYet(m: nat, prev: seq<Simple>, e: Simple, u: Tree)
    requires FreshStream(prev + [e]) && Leaves(m, prev, u)
    ensures e.name !in u
    ensures forall r :: Above(r, e.name) && r in u ==> u[r].Dir?
  {
    var es := prev + [e];
    assert es[|prev|] == e;
    forall i | 0 <= i < |prev| ensures prev[i].name != e.name && !Above(e.name, prev[i].name) {
      assert es[i] == prev[i];
    }
    assert Get(u, e.name) == None;
    forall r | Above(r, e.name) && r in u ensures u[r].Dir? {
      if r != [] && Named(prev, r) {
        var i :| 0 <= i < |prev| && prev[i].name == r;
        assert es[i] == prev[i] && es[i].DirE?;
        assert Get(u, prev[i].name) == Some(NodeOf(prev[i], i));
      } else if r == [] {
        assert Get(u, []) == Some(Dir(m));
      } else {
        assert Get(u, r) == (if Led(prev, r) then Some(Dir(DIR_MODE)) else None);
      }
    }
  }

  lemma StillLeaves(m: nat, prev: seq<Simple>, e: Simple, u: Tree, u': Tree)
    requires FreshStream(prev + [e])
    requires Leaves(m, prev, u) && e.name !in u
    requires Gained(u, u', e, |prev|)
    ensures Leaves(m, prev + [e], u')
  {
    var es := prev + [e];
    forall i | 0 <= i < |es| ensures Get(u', es[i].name) == Some(NodeOf(es[i], i)) {
      if i < |prev| { assert es[i] == prev[i]; }
    }
    forall r | r != [] && !Named(es, r)
      ensures Get(u', r) == (if Led(es, r) then Some(Dir(DIR_MODE)) else None)
    {
      assert es[|prev|] == e;
      forall i | 0 <= i < |prev| ensures prev[i].name != r { assert es[i] == prev[i]; }
      assert !Named(prev, r);
      LedMore(prev, e, r);
    }
    assert Get(u, []) == Some(Dir(m)) && Above([], e.name);
  }

  lemma LedMore(prev: seq<Simple>, e: Simple, r: Path)
    ensures Led(prev + [e], r) <==> Led(prev, r) || Above(r, e.name)
  {
    var es := prev + [e];
    if Led(prev, r) {
      var i :| 0 <= i < |prev| && Above(r, prev[i].name);
      assert es[i] == prev[i];
    }
    if Above(r, e.name) { assert es[|prev|] == e; }
  }

  lemma FreshPrefix(es: seq<Simple>, n: nat)
    requires FreshStream(es) && n <= |es|
    ensures FreshStream(es[..n])
  {
  }

  lemma FreshGentle(m: nat, es: seq<Simple>, b: nat, k: nat, s0: Tree)
    requires FreshStream(es) && b <= k <= |es| && (forall i :: b <= i < k ==> !Barrier(es[i])) && StreamOk(es)
    requires Leaves(m, es[..b], s0)
    ensures Gentle(s0, BatchOf(es, b, k))
  {
    hide Leaves, NoLinkAt, Way;
    var batch := BatchOf(es, b, k);
    forall i | 0 <= i < |batch| ensures NoLinkAt(s0, Way(batch[i])) {
      assert batch[i] == es[b + i];
      FreshWay(m, es, b, b + i, s0);
    }
    forall i, j | 0 <= i < j < |batch| && batch[i].RegE? && batch[j].DirE? ensures batch[i].name != batch[j].name {
      assert batch[i] == es[b + i] && batch[j] == es[b + j];
    }
  }

  /** A fresh stream meets both hypotheses of the parallel theorem. */
  lemma FreshTame(m: nat, es: seq<Simple>)
    requires FreshStream(es)
    ensures Tame(EmptyMount(m), es)
  {
    hide Leaves, Serial, Gentle, FreshStream, BatchOf, EmptyMount, Sane;
    var t0 := EmptyMount(m);
    MountSane(m);
    forall k | 0 <= k <= |es| && Serial(t0, es[..Start(es, k)]).Some?
      ensures Gentle(Serial(t0, es[..Start(es, k)]).value, Current(es, k))
    {
      var b := Start(es, k);
      FreshPrefix(es, b);
      FreshSerial(m, es[..b]);
      FreshGentle(m, es, b, k, Serial(t0, es[..b]).value);
    }
  }

  lemma FreshWay(m: nat, es: seq<Simple>, b: nat, k: nat, s0: Tree)
    requires FreshStream(es) && b <= k < |es| && !es[k].SymE?
    requires Leaves(m, es[..b], s0)
    ensures NoLinkAt(s0, Way(es[k]))
  {
    var e: Soft := es[k];
    forall r | AtOrAbove(r, Way(e)) && r in s0 ensures !s0[r].Sym? {
      if e.RegE? { AboveParent(r, e.name); }
      if r == [] {
        assert Get(s0, []) == Some(Dir(m));
      } else if Named(es[..b], r) {
        var i :| 0 <= i < b && es[..b][i].name == r;
        assert es[..b][i] == es[i];
        assert Get(s0, es[..b][i].name) == Some(NodeOf(es[..b][i], i));
      } else {
        assert Get(s0, r) == (if Led(es[..b], r) then Some(Dir(DIR_MODE)) else None);
      }
    }
  }

  // ---- the walk and its extraction ----

  /** What a walk visits: a clean local path below the root. */
  type Name = q: Path | q != [] && Plain(q) witness ["file"]

  /** The walk leaves out the cached source and seeds being packed, wherever they are. */
  predicate Skipped(q: Name) {
    LeftOut(Last(q))
  }

  /** `untarSeed` moves the seed's own stamp out of the way. */
  function Quarantine(q: Name): Name {
    if q == [STAMP] then [SEED_STAMP] else q
  }

  function Perm(mode: nat): nat {
    mode % 0x200
  }

  /** A tar header keeps whole seconds, rounding half up. */
  function Seconds(ns: int): int {
    (ns + 500_000_000) / 1_000_000_000 * 1_000_000_000
  }

  /** The entry the walk writes for `q`, under the name `untarSeed` extracts it to. */
  function Packed(n: Node, q: Name, limit: nat): Simple {
    match n
    case Dir(mode) => DirE(Quarantine(q), Perm(mode))
    case File(_, data, mode, mtime) => RegE(Quarantine(q), Perm(mode), Seconds(mtime), data, |data| > limit)
    case Sym(target) => SymE(Quarantine(q), target)
  }

  /** The visited paths that are not skipped. */
  function Walked(order: seq<Name>): (ws: seq<Name>)
    ensures forall q :: q in ws ==> q in order && !Skipped(q)
  {
    if order == [] then []
    else
      var q := order[|order| - 1];
      Walked(order[..|order| - 1]) + if Skipped(q) then [] else [q]
  }

  /** The stream: `seedPush` packs what `untarSeed` reads back. */
  function Pack(t: Tree, names: seq<Name>, limit: nat): (es: seq<Simple>)
    requires forall i :: 0 <= i < |names| ==> names[i] in t
    ensures |es| == |names| && forall i :: 0 <= i < |es| ==> es[i] == Packed(t[names[i]], names[i], limit)
  {
    if names == [] then []
    else
      var n := |names| - 1;
      Pack(t, names[..n], limit) + [Packed(t[names[n]], names[n], limit)]
  }

  /** A directory before what it holds, and nothing twice. */
  ghost predicate TopDown(order: seq<Name>) {
    forall i, j :: 0 <= i < j < |order| ==> order[i] != order[j] && !Above(order[j], order[i])
  }

  /** `WalkDir` visits every path below the root once, top down. */
  ghost predicate WalkOrder(t: Tree, order: seq<Name>) {
    && (forall q: Name :: q in order <==> q in t)
    && TopDown(order)
  }

  /** A mount as the walk finds it: local names, and a stamp that is a file and not already quarantined. */
  ghost predicate Packable(t: Tree) {
    && Wf(t) && (forall q :: q in t ==> Plain(q))
    && [SEED_STAMP] !in t && ([STAMP] in t ==> t[[STAMP]].File?)
  }

  /** What the round trip owes a node. */
  predicate SameNode(n: Node, n': Node) {
    match n
    case Dir(mode) => n' == Dir(Perm(mode))
    case File(_, data, mode, mtime) => n'.File? && n'.data == data && n'.mode == Perm(mode) && n'.mtime == Seconds(mtime)
    case Sym(target) => n' == Sym(target)
  }

  /** A directory the walk skips but whose contents it does not. */
  ghost predicate Hollow(t: Tree, r: Name) {
    r in t && Skipped(r) && exists q: Name :: q in t && Above(r, q) && !Skipped(q)
  }

  /**
   `u` is `t` after the round trip: every packed path is there as it was, nothing
   else is but the directories the packed paths need, and no two files share an inode.
   */
  ghost predicate RoundTripped(t: Tree, u: Tree) {
    && (forall q: Name :: q in t && !Skipped(q) ==> Quarantine(q) in u && SameNode(t[q], u[Quarantine(q)]))
    && (forall r :: r in u && r != [] ==>
          || (exists q: Name :: q in t && !Skipped(q) && Quarantine(q) == r)
          || (Plain(r) && Hollow(t, r)))
    && (forall r: Name :: Hollow(t, r) ==> r in u && u[r] == Dir(DIR_MODE))
    && (forall r, r' :: r in u && r' in u && r != r' && u[r].File? && u[r'].File? ==> u[r].ino != u[r'].ino)
  }

  lemma {:induction false} WalkedKeeps(order: seq<Name>)
    requires TopDown(order)
    ensures TopDown(Walked(order))
    ensures forall q: Name :: q in Walked(order) <==> q in order && !Skipped(q)
  {
    if order != [] {
      var n := |order| - 1;
      WalkedKeeps(order[..n]);
      assert order == order[..n] + [order[n]];
      var ws, all := Walked(order[..n]), Walked(order);
      forall i | 0 <= i < |ws| ensures ws[i] != order[n] && !Above(order[n], ws[i]) {
        assert ws[i] in order[..n];
      }
      forall i, j | 0 <= i < j < |all| ensures all[i] != all[j] && !Above(all[j], all[i]) {
        assert all[i] == ws[i];
        assert j < |ws| ==> all[j] == ws[j];
      }
    }
  }

  /** Renaming the stamp neither merges two names nor puts one above another. */
  lemma QuarantineApart(t: Tree, p: Name, q: Name)
    requires Packable(t) && p in t && q in t
    ensures Quarantine(p) == Quarantine(q) ==> p == q
    ensures Above(Quarantine(p), Quarantine(q)) <==> Above(p, q)
    ensures Above(p, q) ==> t[p].Dir?
  {
    assert Above([SEED_STAMP], q) ==> [SEED_STAMP] in t;
  }

  /** The packed stream names each path once, parents first. */
  lemma PackIsFresh(t: Tree, order: seq<Name>, limit: nat)
    requires Packable(t) && WalkOrder(t, order)
    ensures FreshStream(Pack(t, Walked(order), limit))
  {
    hide Skipped, Quarantine, Walked;
    WalkedKeeps(order);
    var ws := Walked(order);
    var es := Pack(t, ws, limit);
    forall i | 0 <= i < |es| ensures ws[i] in t && es[i].name == Quarantine(ws[i]) && (es[i].DirE? <==> t[ws[i]].Dir?) {}
    forall i, j | 0 <= i < |es| && 0 <= j < |es|
      ensures (i < j ==> es[i].name != es[j].name && !Above(es[j].name, es[i].name))
           && (Above(es[i].name, es[j].name) ==> es[i].DirE?)
    {
      QuarantineApart(t, ws[i], ws[j]);
      QuarantineApart(t, ws[j], ws[i]);
    }
  }

  lemma PackAt(t: Tree, order: seq<Name>, limit: nat)
    requires Packable(t) && WalkOrder(t, order)
    ensures var es, ws := Pack(t, Walked(order), limit), Walked(order);
      && |es| == |ws| && (forall q: Name :: q in ws <==> q in t && !Skipped(q))
      && forall i :: 0 <= i < |ws| ==> es[i] == Packed(t[ws[i]], ws[i], limit) && es[i].name == Quarantine(ws[i])
  {
    hide Skipped, TopDown, Packable, Quarantine, Walked, Pack;
    WalkedKeeps(order);
    var es, ws := Pack(t, Walked(order), limit), Walked(order);
    forall i | 0 <= i < |ws| ensures es[i].name == Quarantine(ws[i]) {
      assert es[i] == Packed(t[ws[i]], ws[i], limit);
    }
  }

  lemma NamedPack(t: Tree, order: seq<Name>, limit: nat, r: Path)
    requires Packable(t) && WalkOrder(t, order)
    ensures Named(Pack(t, Walked(order), limit), r) <==>
      exists q: Name :: q in t && !Skipped(q) && Quarantine(q) == r
  {
    hide Packed, Pack, Walked, TopDown, Packable, Skipped, Quarantine;
    PackAt(t, order, limit);
    var ws, es := Walked(order), Pack(t, Walked(order), limit);
    if Named(es, r) {
      var i :| 0 <= i < |es| && es[i].name == r;
      assert ws[i] in ws && Quarantine(ws[i]) == r;
    }
    if q: Name :| q in t && !Skipped(q) && Quarantine(q) == r {
      assert q in ws;
      var i :| 0 <= i < |ws| && ws[i] == q;
      assert es[i].name == r;
    }
  }

  /**
   What a header keeps of permissions and times: the nine permission bits, and the
   nearest whole second.  Nothing else satisfies this.
   */
  lemma HeaderKeeps(mode: nat, ns: int)
    ensures Perm(mode) <= 511 && (mode - Perm(mode)) % 512 == 0
    ensures Seconds(ns) % 1_000_000_000 == 0 && -500_000_000 <= ns - Seconds(ns) < 500_000_000
  {
  }

  /** By name: the stamp is packed to come back under its other name, the cached source and seeds being packed are not packed. */
  lemma PackedNames(t: Tree, order: seq<Name>, limit: nat, q: Name)
    requires Packable(t) && WalkOrder(t, order) && q in t
    ensures Named(Pack(t, Walked(order), limit), if q == [".kbf-stamp"] then [".kbf-stamp.seed"] else q) <==>
      !(".kbf-src" <= Last(q)) && !(".kbf-seed-" <= Last(q))
  {
    hide Packed, Pack, Walked, TopDown;
    var es, r := Pack(t, Walked(order), limit), Quarantine(q);
    NamedPack(t, order, limit, r);
    if Named(es, r) {
      var q': Name :| q' in t && !Skipped(q') && Quarantine(q') == r;
      QuarantineApart(t, q, q');
    }
  }

  /** The directories that come back without an entry of their own. */
  lemma LedPack(t: Tree, order: seq<Name>, limit: nat, r: Path)
    requires Packable(t) && WalkOrder(t, order) && r != []
    ensures Led(Pack(t, Walked(order), limit), r) && !Named(Pack(t, Walked(order), limit), r)
      <==> Plain(r) && Hollow(t, r)
  {
    hide Packed, Pack, Walked, TopDown, Skipped, Hollow, Led, Named;
    if Led(Pack(t, Walked(order), limit), r) && !Named(Pack(t, Walked(order), limit), r) {
      LedHollow(t, order, limit, r);
    }
    if Plain(r) && Hollow(t, r) { HollowLed(t, order, limit, r); }
  }

  lemma LedHollow(t: Tree, order: seq<Name>, limit: nat, r: Path)
    requires Packable(t) && WalkOrder(t, order) && r != []
    requires Led(Pack(t, Walked(order), limit), r) && !Named(Pack(t, Walked(order), limit), r)
    ensures Plain(r) && Hollow(t, r)
  {
    hide Packed, Pack, Walked, TopDown, Skipped;
    PackAt(t, order, limit);
    NamedPack(t, order, limit, r);
    var ws, es := Walked(order), Pack(t, Walked(order), limit);
    var i :| 0 <= i < |es| && Above(r, es[i].name);
    assert es[i].name == Quarantine(ws[i]) && ws[i] in ws;
    assert Above(r, ws[i]) && r in t && t[r].Dir?;
    var q: Name := r;
    assert Quarantine(q) == r;
  }

  lemma HollowLed(t: Tree, order: seq<Name>, limit: nat, r: Path)
    requires Packable(t) && WalkOrder(t, order) && r != [] && Plain(r) && Hollow(t, r)
    ensures Led(Pack(t, Walked(order), limit), r) && !Named(Pack(t, Walked(order), limit), r)
  {
    hide Packed, Pack, Walked, TopDown, Skipped;
    PackAt(t, order, limit);
    NamedPack(t, order, limit, r);
    var ws, es := Walked(order), Pack(t, Walked(order), limit);
    var q: Name :| q in t && Above(r, q) && !Skipped(q);
    assert q in ws && Quarantine(q) == q;
    var i :| 0 <= i < |ws| && ws[i] == q;
    assert Above(r, es[i].name);
  }

  lemma LeavesRoundTrip(m: nat, t: Tree, order: seq<Name>, limit: nat, u: Tree)
    requires Packable(t) && WalkOrder(t, order)
    requires Leaves(m, Pack(t, Walked(order), limit), u)
    ensures RoundTripped(t, u)
  {
    hide Pack, Walked, Hollow, Led, SameNode, Wf;
    var ws, es := Walked(order), Pack(t, Walked(order), limit);
    forall q: Name | q in t && !Skipped(q) ensures Quarantine(q) in u && SameNode(t[q], u[Quarantine(q)]) {
      PackedBack(m, t, order, limit, u, q);
    }
    forall r | r in u && r != []
      ensures (exists q: Name :: q in t && !Skipped(q) && Quarantine(q) == r) || (Plain(r) && Hollow(t, r))
    {
      NamedPack(t, order, limit, r);
      LedPack(t, order, limit, r);
      if !Named(es, r) { assert Get(u, r) == (if Led(es, r) then Some(Dir(DIR_MODE)) else None); }
    }
    forall r: Name | Hollow(t, r) ensures r in u && u[r] == Dir(DIR_MODE) {
      LedPack(t, order, limit, r);
      assert Get(u, r) == (if Led(es, r) then Some(Dir(DIR_MODE)) else None);
    }
    forall r, r' | r in u && r' in u && r != r' && u[r].File? && u[r'].File? ensures u[r].ino != u[r'].ino {
      var i := Source(m, es, u, r);
      var j := Source(m, es, u, r');
    }
  }

  lemma PackedBack(m: nat, t: Tree, order: seq<Name>, limit: nat, u: Tree, q: Name)
    requires Packable(t) && WalkOrder(t, order)
    requires Leaves(m, Pack(t, Walked(order), limit), u)
    requires q in t && !Skipped(q)
    ensures Quarantine(q) in u && SameNode(t[q], u[Quarantine(q)])
  {
    WalkedKeeps(order);
    var ws, es := Walked(order), Pack(t, Walked(order), limit);
    assert q in ws;
    var i :| 0 <= i < |ws| && ws[i] == q;
    assert Get(u, es[i].name) == Some(NodeOf(es[i], i)) && es[i].name == Quarantine(q);
  }

  /** A file comes from an entry, and its inode says which. */
  lemma Source(m: nat, es: seq<Simple>, u: Tree, r: Path) returns (i: nat)
    requires Leaves(m, es, u) && r in u && u[r].File?
    ensures i < |es| && es[i].name == r && u[r].ino == Made(i)
  {
    assert r != [] by { assert Get(u, []) == Some(Dir(m)); }
    assert !Named(es, r) ==> Get(u, r) == (if Led(es, r) then Some(Dir(DIR_MODE)) else None);
    i :| 0 <= i < |es| && es[i].name == r;
    assert Get(u, es[i].name) == Some(NodeOf(es[i], i));
  }

  /**
   The seed round trip: whatever the number of workers, the sharding and the
   schedule, extracting a packed mount into an empty one succeeds and gives the
   mount back.
   */
  lemma SeedRoundTrip(c: Config, m: nat, t: Tree, order: seq<Name>, limit: nat, acts: seq<Act>)
    requires ConfigOk(c) && Packable(t) && WalkOrder(t, order)
    requires c.es == Pack(t, Walked(order), limit)
    requires Run(c, EmptyMount(m), acts).Some? && Run(c, EmptyMount(m), acts).value.rd.Returned?
    ensures var st := Run(c, EmptyMount(m), acts).value;
      st.rd == Returned(true) && RoundTripped(t, st.fs)
    ensures Tame(EmptyMount(m), c.es)
  {
    hide Run, Tame, FreshStream, Leaves, RoundTripped, Pack, Walked, Serial, ConfigOk, TopDown, Packable;
    PackIsFresh(t, order, limit);
    var es := Pack(t, Walked(order), limit);
    FreshTame(m, es);
    FreshSerial(m, es);
    ParallelIsSerial(c, EmptyMount(m), acts);
    LeavesRoundTrip(m, t, order, limit, Serial(EmptyMount(m), es).value);
  }
}
