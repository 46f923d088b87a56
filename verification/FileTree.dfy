/**
 The part of a Unix file system the untar code in `cmd/kbuild-step` relies on.

 A tree maps component paths to nodes; the empty path is the extraction root.
 Every operation below stands for one call on `os.Root`: it resolves symbolic
 links inside the root, and it fails (`None`) exactly when the call would fail
 for a reason that lies in the name space.  A hard link is a second path whose
 node carries the same inode.
 */
module FileTree {
  import opened Wrappers

  type Path = seq<string>
  type Bytes = seq<char>

  /** Inodes that predate an extraction, and the inode made for the stream entry of that index. */
  datatype Ino = Before(n: nat) | Made(entry: nat)

  datatype Node =
    | Dir(mode: nat)
    | File(ino: Ino, data: Bytes, mode: nat, mtime: int)
    | Sym(target: Path)

  type Tree = map<Path, Node>

  /** 0o755, the mode of every directory made on the way to an entry. */
  const DIR_MODE: nat := 0x1ED

  /** How many symbolic links one resolution may follow. */
  const MAX_LINKS: nat := 8

  function Get(t: Tree, p: Path): Option<Node> {
    if p in t then Some(t[p]) else None
  }

  function Parent(p: Path): Path
    requires p != []
  {
    p[..|p| - 1]
  }

  /** `r` is a proper ancestor of `p`. */
  predicate Above(r: Path, p: Path) {
    |r| < |p| && p[..|r|] == r
  }

  predicate AtOrAbove(r: Path, p: Path) {
    r == p || Above(r, p)
  }

  /** The root is a directory, and so is every ancestor of every path. */
  ghost predicate Wf(t: Tree) {
    && [] in t && t[[]].Dir?
    && forall q, r {:trigger q in t, Above(r, q)} :: q in t && Above(r, q) ==> r in t && t[r].Dir?
  }

  /** No component of `p` names anything special, as `filepath.Clean` leaves a local path. */
  predicate Plain(p: Path) {
    forall i :: 0 <= i < |p| ==> p[i] != "" && p[i] != "." && p[i] != ".."
  }

  /** Neither `p` nor an ancestor of it is a symbolic link. */
  ghost predicate NoLinkAt(t: Tree, p: Path) {
    forall r {:trigger AtOrAbove(r, p)} :: AtOrAbove(r, p) && r in t ==> !t[r].Sym?
  }

  // ---- path resolution ----

  datatype Where = At(tree: Tree, path: Path) | Missing | Blocked

  /**
   Resolve `rest` from the directory `cur`, following links; with `mk`, missing
   components become directories on the way.  An empty component stands for an
   absolute link target, which `os.Root` refuses like an escape through "..".
   */
  function Walk(t: Tree, cur: Path, rest: Path, mk: bool, links: nat): Where
    decreases links, |rest|
  {
    if rest == [] then At(t, cur)
    else if rest[0] == "" then Blocked
    else if rest[0] == "." then Walk(t, cur, rest[1..], mk, links)
    else if rest[0] == ".." then
      if cur == [] then Blocked else Walk(t, Parent(cur), rest[1..], mk, links)
    else
      var q := cur + [rest[0]];
      if q !in t then
        if mk then Walk(t[q := Dir(DIR_MODE)], q, rest[1..], mk, links) else Missing
      else match t[q]
        case Dir(_) => Walk(t, q, rest[1..], mk, links)
        case File(_, _, _, _) => if |rest| == 1 then At(t, q) else Blocked
        case Sym(target) => if links == 0 then Blocked else Walk(t, cur, target + rest[1..], mk, links - 1)
  }

  /** The directory that holds the last component of `p`. */
  function Holder(t: Tree, p: Path, mk: bool): Where
    requires p != []
  {
    match Walk(t, [], Parent(p), mk, MAX_LINKS)
    case At(t1, cur) => if cur in t1 && t1[cur].Dir? then At(t1, cur) else Blocked
    case Missing => Missing
    case Blocked => Blocked
  }

  function Last(p: Path): string
    requires p != []
  {
    p[|p| - 1]
  }

  // ---- the calls ----

  predicate HasChild(t: Tree, p: Path) {
    exists q :: q in t && Above(p, q)
  }

  function MkdirAll(t: Tree, p: Path): Option<Tree> {
    if p == [] then Some(t)
    else match Holder(t, p, true)
      case At(t1, cur) =>
        var q := cur + [Last(p)];
        if q !in t1 then Some(t1[q := Dir(DIR_MODE)])
        else (match t1[q]
          case Dir(_) => Some(t1)
          case File(_, _, _, _) => None
          case Sym(_) =>
            match Walk(t1, [], p, false, MAX_LINKS)
            case At(_, r) => if r in t1 && t1[r].Dir? then Some(t1) else None
            case _ => None)
      case _ => None
  }

  /** `root.Remove` with "does not exist" forgiven, as every caller does. */
  function Remove(t: Tree, p: Path): Option<Tree>
    requires p != []
  {
    match Holder(t, p, false)
    case Missing => Some(t)
    case Blocked => None
    case At(_, cur) =>
      var q := cur + [Last(p)];
      if q !in t then Some(t)
      else if t[q].Dir? && HasChild(t, q) then None
      else Some(t - {q})
  }

  /** `OpenFile` with O_CREATE|O_EXCL: never follows or replaces what is there. */
  function Create(t: Tree, p: Path, ino: Ino, mode: nat): Option<Tree>
    requires p != []
  {
    match Holder(t, p, false)
    case At(_, cur) =>
      var q := cur + [Last(p)];
      if q in t then None else Some(t[q := File(ino, [], mode, 0)])
    case _ => None
  }

  /** Writing through the descriptor reaches every path of the inode, and succeeds even if none is left. */
  function WriteData(t: Tree, ino: Ino, data: Bytes): Tree {
    map q | q in t :: if t[q].File? && t[q].ino == ino then t[q].(data := data) else t[q]
  }

  function Chmod(t: Tree, p: Path, mode: nat): Option<Tree> {
    match Walk(t, [], p, false, MAX_LINKS)
    case At(_, r) =>
      if r !in t then None
      else (match t[r]
        case Dir(_) => Some(t[r := Dir(mode)])
        case File(ino, _, _, _) =>
          Some(map q | q in t :: if t[q].File? && t[q].ino == ino then t[q].(mode := mode) else t[q])
        case Sym(_) => None)
    case _ => None
  }

  /** Directory times are not part of a tree, so only a file changes. */
  function Chtimes(t: Tree, p: Path, mtime: int): Option<Tree> {
    match Walk(t, [], p, false, MAX_LINKS)
    case At(_, r) =>
      if r !in t then None
      else (match t[r]
        case Dir(_) => Some(t)
        case File(ino, _, _, _) =>
          Some(map q | q in t :: if t[q].File? && t[q].ino == ino then t[q].(mtime := mtime) else t[q])
        case Sym(_) => None)
    case _ => None
  }

  function Symlink(t: Tree, target: Path, p: Path): Option<Tree>
    requires p != []
  {
    match Holder(t, p, false)
    case At(_, cur) =>
      var q := cur + [Last(p)];
      if q in t then None else Some(t[q := Sym(target)])
    case _ => None
  }

  function Link(t: Tree, existing: Path, p: Path): Option<Tree>
    requires p != []
  {
    if existing == [] then None
    else match (Holder(t, existing, false), Holder(t, p, false))
      case (At(_, c0), At(_, c1)) =>
        var q0, q1 := c0 + [Last(existing)], c1 + [Last(p)];
        if q0 !in t || t[q0].Dir? || q1 in t then None else Some(t[q1 := t[q0]])
      case _ => None
  }

  // ---- ancestors ----

  lemma AboveParent(r: Path, p: Path)
    requires p != []
    ensures Above(r, p) <==> AtOrAbove(r, Parent(p))
  {
    if |r| < |p| { assert p[..|r|] == Parent(p)[..|r|]; }
    if |r| == |p| - 1 { assert Parent(p)[..|r|] == Parent(p); }
  }

  lemma AboveTrans(r: Path, q: Path, p: Path)
    requires Above(r, q) && Above(q, p)
    ensures Above(r, p)
  {
    assert p[..|r|] == p[..|q|][..|r|];
  }

  lemma AboveTotal(r: Path, q: Path, p: Path)
    requires AtOrAbove(r, p) && AtOrAbove(q, p)
    ensures r == q || Above(r, q) || Above(q, r)
  {
    if |r| < |q| { assert q[..|r|] == p[..|r|]; }
    else if |q| < |r| { assert r[..|q|] == p[..|q|]; }
    else { assert r == p[..|r|] && q == p[..|q|]; }
  }

  // ---- what the calls do below a directory that no link leads to ----

  /** What a path holds after its missing ancestors were made. */
  function Made755(n: Option<Node>): Option<Node> {
    if n == None then Some(Dir(DIR_MODE)) else n
  }

  lemma WfSet(t: Tree, q: Path, n: Node)
    requires Wf(t) && q != [] && Parent(q) in t && t[Parent(q)].Dir?
    requires n.Dir? || !HasChild(t, q)
    ensures Wf(t[q := n])
  {
    var t' := t[q := n];
    forall p, r | p in t' && Above(r, p) ensures r in t' && t'[r].Dir? {
      if p == q {
        AboveParent(r, q);
        if r == Parent(q) { assert |r| < |q|; } else { assert Above(r, Parent(q)); }
      } else if r == q {
        assert HasChild(t, q);
      }
    }
  }

  lemma WfRemove(t: Tree, q: Path)
    requires Wf(t) && q != [] && !HasChild(t, q)
    ensures Wf(t - {q})
  {
    var t' := t - {q};
    forall p, r | p in t' && Above(r, p) ensures r in t' && t'[r].Dir? {
      assert r != q;
    }
  }

  /** Only file contents and modes differ: the shape is kept, so the tree stays well formed. */
  lemma WfSameShape(t: Tree, t': Tree)
    requires Wf(t) && t'.Keys == t.Keys
    requires forall q :: q in t ==> (t[q].Dir? ==> t'[q].Dir?)
    ensures Wf(t')
  {
  }

  lemma {:induction false} WalkMk(t: Tree, cur: Path, rest: Path)
    requires Wf(t) && cur in t && t[cur].Dir?
    requires Plain(rest) && NoLinkAt(t, cur + rest)
    ensures match Walk(t, cur, rest, true, MAX_LINKS)
      case At(t', p) =>
        && p == cur + rest && Wf(t') && p in t'
        && (forall q :: Get(t', q) ==
              if AtOrAbove(q, cur + rest) then Made755(Get(t, q)) else Get(t, q))
        && (forall r :: Above(r, cur + rest) && r in t ==> t[r].Dir?)
      case Missing => false
      case Blocked => exists r :: Above(r, cur + rest) && r in t && !t[r].Dir?
    decreases |rest|
  {
    var full := cur + rest;
    if rest == [] {
      assert full == cur;
      forall r | Above(r, cur) ensures r in t && t[r].Dir? {}
    } else {
      var q := cur + [rest[0]];
      assert q + rest[1..] == full;
      assert Parent(q) == cur;
      assert AtOrAbove(q, full) by { assert full[..|q|] == q; }
      assert forall i :: 0 <= i < |rest[1..]| ==> rest[1..][i] == rest[i + 1];
      if q !in t {
        var t1 := t[q := Dir(DIR_MODE)];
        WfSet(t, q, Dir(DIR_MODE));
        WalkMk(t1, q, rest[1..]);
        forall r | Above(r, full) && r in t ensures t[r].Dir? {
          AboveTotal(r, q, full);
          if Above(q, r) { assert false; }
        }
      } else if t[q].Dir? {
        WalkMk(t, q, rest[1..]);
      } else {
        assert t[q].File?;
        if |rest| == 1 {
          assert q == full;
          forall r | Above(r, full) ensures r in t && t[r].Dir? {}
        } else {
          assert Above(q, full);
        }
      }
    }
  }

  lemma {:induction false} WalkPlain(t: Tree, cur: Path, rest: Path)
    requires Wf(t) && cur in t && t[cur].Dir?
    requires Plain(rest) && NoLinkAt(t, cur + rest)
    ensures match Walk(t, cur, rest, false, MAX_LINKS)
      case At(t', p) => t' == t && p == cur + rest && p in t
      case Missing => cur + rest !in t
      case Blocked => exists r :: Above(r, cur + rest) && r in t && !t[r].Dir?
    decreases |rest|
  {
    var full := cur + rest;
    if rest == [] {
      assert full == cur;
    } else {
      var q := cur + [rest[0]];
      assert q + rest[1..] == full;
      assert AtOrAbove(q, full) by { assert full[..|q|] == q; }
      assert forall i :: 0 <= i < |rest[1..]| ==> rest[1..][i] == rest[i + 1];
      if q !in t {
        assert q == full || Above(q, full);
      } else if t[q].Dir? {
        WalkPlain(t, q, rest[1..]);
      } else if |rest| == 1 {
        assert q == full;
      } else {
        assert Above(q, full);
      }
    }
  }

  lemma NoLinkUp(t: Tree, p: Path)
    requires p != [] && NoLinkAt(t, p)
    ensures NoLinkAt(t, Parent(p))
  {
    forall r | AtOrAbove(r, Parent(p)) && r in t ensures !t[r].Sym? {
      AboveParent(r, p);
      assert AtOrAbove(r, p);
    }
  }

  lemma MkdirAllSpec(t: Tree, p: Path)
    requires Wf(t) && Plain(p) && NoLinkAt(t, p)
    ensures MkdirAll(t, p).Some? <==> forall r :: AtOrAbove(r, p) && r in t ==> t[r].Dir?
    ensures MkdirAll(t, p).Some? ==>
      && Wf(MkdirAll(t, p).value)
      && forall q :: Get(MkdirAll(t, p).value, q) ==
           if AtOrAbove(q, p) then Made755(Get(t, q)) else Get(t, q)
  {
    if p == [] {
      forall r | AtOrAbove(r, p) ensures r == [] {}
    } else {
      var up := Parent(p);
      assert [] + up == up && up + [Last(p)] == p;
      NoLinkUp(t, p);
      WalkMk(t, [], up);
      forall r ensures Above(r, p) <==> AtOrAbove(r, up) { AboveParent(r, p); }
      match Walk(t, [], up, true, MAX_LINKS) {
        case At(t1, cur) =>
          assert Get(t1, p) == Get(t, p);
          assert AtOrAbove(p, p);
          if t1[cur].Dir? {
            if p !in t1 {
              WfSet(t1, p, Dir(DIR_MODE));
            }
          } else {
            assert Above(up, p) && Get(t1, up) == Made755(Get(t, up));
          }
        case Blocked =>
          var r :| Above(r, up) && r in t && !t[r].Dir?;
          assert AtOrAbove(r, up);
      }
    }
  }

  /** Reaching the holder of `p` when no link lies above `p`. */
  lemma HolderPlain(t: Tree, p: Path)
    requires p != [] && Wf(t) && Plain(p) && NoLinkAt(t, Parent(p))
    ensures match Holder(t, p, false)
      case At(t', cur) => t' == t && cur == Parent(p) && cur in t && t[cur].Dir? && cur + [Last(p)] == p
      case Missing => Parent(p) !in t
      case Blocked => !(Parent(p) in t && t[Parent(p)].Dir?)
  {
    assert [] + Parent(p) == Parent(p) && Parent(p) + [Last(p)] == p;
    WalkPlain(t, [], Parent(p));
  }

  lemma RemoveSpec(t: Tree, p: Path)
    requires p != [] && Wf(t) && Plain(p) && NoLinkAt(t, Parent(p))
    ensures Remove(t, p).Some? ==>
      && Remove(t, p).value == t - {p} && Wf(t - {p}) && !HasChild(t, p)
    ensures Parent(p) in t && t[Parent(p)].Dir? && !HasChild(t, p) ==> Remove(t, p).Some?
  {
    HolderPlain(t, p);
    AboveParent(Parent(p), p);
    if HasChild(t, p) {
      var q :| q in t && Above(p, q);
      AboveTrans(Parent(p), p, q);
    }
    if p !in t { assert t - {p} == t; }
    if !HasChild(t, p) { WfRemove(t, p); }
  }

  lemma CreateSpec(t: Tree, p: Path, ino: Ino, mode: nat)
    requires p != [] && Wf(t) && Plain(p) && NoLinkAt(t, Parent(p))
    ensures Create(t, p, ino, mode).Some? <==> p !in t && Parent(p) in t && t[Parent(p)].Dir?
    ensures Create(t, p, ino, mode).Some? ==>
      && Create(t, p, ino, mode).value == t[p := File(ino, [], mode, 0)]
      && Wf(t[p := File(ino, [], mode, 0)])
  {
    HolderPlain(t, p);
    if Create(t, p, ino, mode).Some? {
      WfSet(t, p, File(ino, [], mode, 0));
    }
  }

  /** Chmod and Chtimes act on `p` itself when no link lies on the way. */
  lemma FollowPlain(t: Tree, p: Path)
    requires Wf(t) && Plain(p) && NoLinkAt(t, p)
    ensures p in t ==> Walk(t, [], p, false, MAX_LINKS) == At(t, p)
    ensures p !in t ==> !Walk(t, [], p, false, MAX_LINKS).At?
  {
    assert [] + p == p;
    WalkPlain(t, [], p);
  }
}
