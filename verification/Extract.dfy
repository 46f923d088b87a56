/**
 `untarFiltered` and `writeEntry` (`cmd/kbuild-step/main.go`) one entry at a
 time: the reference the parallel pool is measured against.
 */
module Extract {
  import opened Wrappers
  import opened FileTree

  /**
   A stream entry after name stripping and renaming.  `big` says that the size
   is above `untarInlineLimit`; `BadE` is a header or body the reader cannot read.
   */
  datatype Entry =
    | DirE(name: Path, mode: nat)
    | RegE(name: Path, mode: nat, mtime: int, data: Bytes, big: bool)
    | SymE(name: Path, target: Path)
    | LinkE(name: Path, from: Path)
    | BadE

  /** The reader flushes the pool before these; nothing after a `BadE` is read. */
  predicate Barrier(e: Entry) {
    match e
    case DirE(_, _) => false
    case RegE(_, _, _, _, big) => big
    case _ => true
  }

  /** Names are local and clean, and only a directory entry can name the root. */
  predicate EntryOk(e: Entry) {
    e.BadE? || (Plain(e.name) && (e.DirE? || e.name != []))
  }

  /** How many file system calls an entry that goes through no barrier takes. */
  function Calls(e: Entry): nat {
    match e
    case DirE(_, _) => 2
    case RegE(_, _, _, _, _) => 6
    case _ => 0
  }

  /** Call number `s` of writing a regular file whose bytes are `data`. */
  function WriteCall(t: Tree, e: Entry, id: nat, s: nat, data: Bytes): Option<Tree>
    requires e.RegE? && e.name != [] && s < 6
  {
    match s
    case 0 => MkdirAll(t, Parent(e.name))
    case 1 => Remove(t, e.name)
    case 2 => Create(t, e.name, Made(id), e.mode)
    case 3 => Some(WriteData(t, Made(id), data))
    case 4 => Chmod(t, e.name, e.mode)
    case _ => Chtimes(t, e.name, e.mtime)
  }

  function Call(t: Tree, e: Entry, id: nat, s: nat): Option<Tree>
    requires EntryOk(e) && s < Calls(e)
  {
    match e
    case DirE(name, mode) => if s == 0 then MkdirAll(t, name) else Chmod(t, name, mode)
    case RegE(_, _, _, data, _) => WriteCall(t, e, id, s, data)
  }

  /** The calls from number `s` on. */
  function Finish(t: Tree, e: Entry, id: nat, s: nat): Option<Tree>
    requires EntryOk(e) && s <= Calls(e)
    decreases Calls(e) - s
  {
    if s == Calls(e) then Some(t)
    else match Call(t, e, id, s)
      case None => None
      case Some(t') => Finish(t', e, id, s + 1)
  }

  lemma FinishStep(t: Tree, e: Entry, id: nat, s: nat)
    requires EntryOk(e) && s < Calls(e)
    ensures Finish(t, e, id, s) == match Call(t, e, id, s) case None => None case Some(t') => Finish(t', e, id, s + 1)
  {
  }

  /** Make room for a link at `name`: the two calls before `Symlink` and `Link`. */
  function ClearFor(t: Tree, name: Path): Option<Tree>
    requires name != []
  {
    match MkdirAll(t, Parent(name))
    case None => None
    case Some(t') => Remove(t', name)
  }

  /** One entry, start to end. */
  function Apply(t: Tree, id: nat, e: Entry): Option<Tree>
    requires EntryOk(e)
  {
    match e
    case DirE(_, _) => Finish(t, e, id, 0)
    case RegE(_, _, _, _, _) => Finish(t, e, id, 0)
    case SymE(name, target) =>
      (match ClearFor(t, name) case None => None case Some(t') => Symlink(t', target, name))
    case LinkE(name, from) =>
      (match ClearFor(t, name) case None => None case Some(t') => Link(t', from, name))
    case BadE => None
  }

  predicate StreamOk(es: seq<Entry>) {
    forall i :: 0 <= i < |es| ==> EntryOk(es[i])
  }

  /** The whole stream, one entry after the other; `None` at the first failure. */
  function Serial(t0: Tree, es: seq<Entry>): Option<Tree>
    requires StreamOk(es)
  {
    if es == [] then Some(t0)
    else
      var n := |es| - 1;
      match Serial(t0, es[..n])
      case None => None
      case Some(t) => Apply(t, n, es[n])
  }

  lemma {:induction false} SerialPrefix(t0: Tree, es: seq<Entry>, n: nat)
    requires StreamOk(es) && n <= |es| && Serial(t0, es).Some?
    ensures Serial(t0, es[..n]).Some?
    decreases |es|
  {
    if n == |es| {
      assert es[..n] == es;
    } else {
      SerialPrefix(t0, es[..|es| - 1], n);
      assert es[..|es| - 1][..n] == es[..n];
    }
  }

  // ---- stretches between barriers ----

  /** The index after the last barrier before `k`. */
  function Start(es: seq<Entry>, k: nat): (b: nat)
    requires k <= |es|
    ensures b <= k && (b == 0 || Barrier(es[b - 1]))
    ensures forall i :: b <= i < k ==> !Barrier(es[i])
  {
    if k == 0 || Barrier(es[k - 1]) then k else Start(es, k - 1)
  }

  /** No inode of the tree was made by an entry from `b` on. */
  ghost predicate InodesBelow(t: Tree, b: nat) {
    forall q :: q in t && t[q].File? ==> t[q].ino.Made? ==> t[q].ino.entry < b
  }

  // ---- every entry keeps a tree well formed ----

  /** `t'` has everything `t` has, and beyond that only directories. */
  ghost predicate Grown(t: Tree, t': Tree) {
    && (forall q :: q in t ==> q in t' && t'[q] == t[q])
    && (forall q :: q in t' && q !in t ==> t'[q].Dir?)
  }

  lemma {:induction false} WalkWf(t: Tree, cur: Path, rest: Path, mk: bool, links: nat)
    requires Wf(t) && cur in t && t[cur].Dir?
    ensures match Walk(t, cur, rest, mk, links)
      case At(t', p) => Wf(t') && p in t' && Grown(t, t') && (!mk ==> t' == t)
      case _ => true
    decreases links, |rest|
  {
    if rest != [] && rest[0] != "" {
      if rest[0] == "." {
        WalkWf(t, cur, rest[1..], mk, links);
      } else if rest[0] == ".." {
        if cur != [] {
          assert Above(Parent(cur), cur);
          WalkWf(t, Parent(cur), rest[1..], mk, links);
        }
      } else {
        var q := cur + [rest[0]];
        assert Parent(q) == cur;
        if q !in t {
          if mk {
            WfSet(t, q, Dir(DIR_MODE));
            WalkWf(t[q := Dir(DIR_MODE)], q, rest[1..], mk, links);
          }
        } else if t[q].Dir? {
          WalkWf(t, q, rest[1..], mk, links);
        } else if t[q].Sym? && links > 0 {
          WalkWf(t, cur, t[q].target + rest[1..], mk, links - 1);
        }
      }
    }
  }

  lemma HolderWf(t: Tree, p: Path, mk: bool)
    requires p != [] && Wf(t)
    ensures match Holder(t, p, mk)
      case At(t', cur) => Wf(t') && cur in t' && t'[cur].Dir? && Grown(t, t') && (!mk ==> t' == t)
      case _ => true
  {
    WalkWf(t, [], Parent(p), mk, MAX_LINKS);
  }

  /** What every call keeps: the shape, and the bound on inodes. */
  ghost predicate Sane(t: Tree, b: nat) {
    Wf(t) && InodesBelow(t, b)
  }

  lemma MkdirAllSane(t: Tree, p: Path, b: nat)
    requires Sane(t, b) && MkdirAll(t, p).Some?
    ensures Sane(MkdirAll(t, p).value, b)
  {
    if p != [] {
      HolderWf(t, p, true);
      match Holder(t, p, true) {
        case At(t1, cur) =>
          var q := cur + [Last(p)];
          assert Parent(q) == cur;
          if q !in t1 { WfSet(t1, q, Dir(DIR_MODE)); }
      }
    }
  }

  lemma RemoveSane(t: Tree, p: Path, b: nat)
    requires p != [] && Sane(t, b) && Remove(t, p).Some?
    ensures Sane(Remove(t, p).value, b)
  {
    HolderWf(t, p, false);
    match Holder(t, p, false) {
      case At(_, cur) =>
        var q := cur + [Last(p)];
        if q in t { WfRemove(t, q); }
      case _ =>
    }
  }

  lemma PutSane(t: Tree, cur: Path, name: string, n: Node, b: nat)
    requires Sane(t, b) && cur in t && t[cur].Dir? && cur + [name] !in t
    requires n.File? && n.ino.Made? ==> n.ino.entry < b
    ensures Sane(t[cur + [name] := n], b)
  {
    var q := cur + [name];
    assert Parent(q) == cur;
    WfSet(t, q, n);
  }

  lemma WriteCallSane(t: Tree, e: Entry, id: nat, s: nat, data: Bytes, b: nat)
    requires e.RegE? && e.name != [] && s < 6 && id < b
    requires Sane(t, b) && WriteCall(t, e, id, s, data).Some?
    ensures Sane(WriteCall(t, e, id, s, data).value, b)
  {
    match s
    case 0 => MkdirAllSane(t, Parent(e.name), b);
    case 1 => RemoveSane(t, e.name, b);
    case 2 =>
      HolderWf(t, e.name, false);
      var cur := Holder(t, e.name, false).path;
      PutSane(t, cur, Last(e.name), File(Made(id), [], e.mode, 0), b);
    case 3 => WfSameShape(t, WriteData(t, Made(id), data));
    case 4 => WfSameShape(t, Chmod(t, e.name, e.mode).value);
    case _ => WfSameShape(t, Chtimes(t, e.name, e.mtime).value);
  }

  lemma {:induction false} FinishSane(t: Tree, e: Entry, id: nat, s: nat, b: nat)
    requires EntryOk(e) && s <= Calls(e) && id < b
    requires Sane(t, b) && Finish(t, e, id, s).Some?
    ensures Sane(Finish(t, e, id, s).value, b)
    decreases Calls(e) - s
  {
    if s < Calls(e) {
      var t' := Call(t, e, id, s).value;
      match e {
        case DirE(name, mode) =>
          if s == 0 { MkdirAllSane(t, name, b); } else { WfSameShape(t, t'); }
        case RegE(_, _, _, data, _) => WriteCallSane(t, e, id, s, data, b);
      }
      FinishSane(t', e, id, s + 1, b);
    }
  }

  lemma ApplySane(t: Tree, id: nat, e: Entry)
    requires EntryOk(e) && Sane(t, id) && Apply(t, id, e).Some?
    ensures Sane(Apply(t, id, e).value, id + 1)
  {
    assert Sane(t, id + 1);
    match e
    case DirE(_, _) => FinishSane(t, e, id, 0, id + 1);
    case RegE(_, _, _, _, _) => FinishSane(t, e, id, 0, id + 1);
    case SymE(name, target) =>
      MkdirAllSane(t, Parent(name), id + 1);
      RemoveSane(MkdirAll(t, Parent(name)).value, name, id + 1);
      var t' := ClearFor(t, name).value;
      HolderWf(t', name, false);
      PutSane(t', Holder(t', name, false).path, Last(name), Sym(target), id + 1);
    case LinkE(name, from) =>
      MkdirAllSane(t, Parent(name), id + 1);
      RemoveSane(MkdirAll(t, Parent(name)).value, name, id + 1);
      var t' := ClearFor(t, name).value;
      HolderWf(t', name, false);
      HolderWf(t', from, false);
      var n := t'[Holder(t', from, false).path + [Last(from)]];
      PutSane(t', Holder(t', name, false).path, Last(name), n, id + 1);
    case BadE =>
  }

  /** Serial extraction into a sane tree leaves a sane tree. */
  lemma {:induction false} SerialSane(t0: Tree, es: seq<Entry>)
    requires StreamOk(es) && Sane(t0, 0) && Serial(t0, es).Some?
    ensures Sane(Serial(t0, es).value, |es|)
  {
    if es != [] {
      var n := |es| - 1;
      SerialSane(t0, es[..n]);
      ApplySane(Serial(t0, es[..n]).value, n, es[n]);
    }
  }
}
