/**
 The calls of one stretch between two barriers, in any order the pool allows.

 A batch is a sequence of directory and small-file entries, the first of which
 is entry `b` of the stream; `pr[i]` counts the calls entry `i` has made.  `Now`
 says what a path holds after exactly those calls, whatever order they came in,
 provided no file of the batch lies above another name of it (`Clear`).  A batch
 that is not clear cannot finish, whichever way it is run.
 */
module Batch {
  import opened Wrappers
  import opened FileTree
  import opened Extract

  /** The entries that go through no barrier (their size is the reader's concern). */
  type Soft = e: Entry | (e.DirE? || e.RegE?) && EntryOk(e) witness DirE([], 0)

  /** The paths whose being a link would let a call of `e` leave its own name. */
  function Way(e: Soft): Path
  {
    if e.DirE? then e.name else Parent(e.name)
  }

  /**
   The two hypotheses on a batch started in `s`: no entry's way goes through a
   link, and no directory entry repeats the name of an earlier queued file.
   */
  ghost predicate Gentle(s: Tree, es: seq<Soft>) {
    && (forall i :: 0 <= i < |es| ==> NoLinkAt(s, Way(es[i])))
    && (forall i, j :: 0 <= i < j < |es| && es[i].RegE? && es[j].DirE? ==> es[i].name != es[j].name)
  }

  /** Counts that the pool can produce: same names in stream order, one directory entry at a time. */
  ghost predicate Order(es: seq<Soft>, pr: seq<nat>) {
    && |pr| == |es|
    && (forall i :: 0 <= i < |es| ==> pr[i] <= Calls(es[i]))
    && (forall i, j :: 0 <= i < j < |es| && es[i].name == es[j].name && pr[j] > 0
          ==> pr[i] == Calls(es[i]))
    && (forall i :: 0 <= i < |es| - 1 && es[i].DirE? ==> pr[i] == 2)
  }

  /** No file of the batch lies above another name of the batch. */
  ghost predicate Clear(es: seq<Soft>) {
    forall i, j :: 0 <= i < |es| && 0 <= j < |es| && es[i].RegE? ==> !Above(es[i].name, es[j].name)
  }

  /** What entry `e`, `p` calls in, makes of a path that held `n`. */
  function Touch(e: Soft, p: nat, id: nat, n: Option<Node>, q: Path): Option<Node> {
    if p == 0 then n
    else match e
      case DirE(name, mode) =>
        if q == name then if p == 1 then Made755(n) else Some(Dir(mode))
        else if Above(q, name) then Made755(n) else n
      case RegE(name, mode, mtime, data, _) =>
        if q == name then
          match p
          case 1 => n
          case 2 => None
          case 3 => Some(File(Made(id), [], mode, 0))
          case 4 => Some(File(Made(id), data, mode, 0))
          case 5 => Some(File(Made(id), data, mode, 0))
          case _ => Some(File(Made(id), data, mode, mtime))
        else if Above(q, name) then Made755(n) else n
  }

  /** What `q` holds when the batch started in `s` and its entries are `pr` calls in. */
  ghost function Now(s: Tree, es: seq<Soft>, b: nat, pr: seq<nat>, q: Path): Option<Node>
    requires |pr| == |es|
  {
    if es == [] then Get(s, q)
    else
      var n := |es| - 1;
      Touch(es[n], pr[n], b + n, Now(s, es[..n], b, pr[..n], q), q)
  }

  /** What `s` must look like for the calls `e` has made to have succeeded. */
  ghost predicate Allows(s: Tree, e: Soft, p: nat) {
    && (p >= 1 ==> forall r {:trigger AtOrAbove(r, Way(e))} :: AtOrAbove(r, Way(e)) && r in s ==> s[r].Dir?)
    && (p >= 2 && e.RegE? ==> !HasChild(s, e.name))
  }

  /** Entry `i` is the last one so far to have decided what its name is. */
  ghost predicate Rules(es: seq<Soft>, pr: seq<nat>, i: nat)
    requires |pr| == |es| && i < |es|
  {
    && pr[i] >= (if es[i].DirE? then 1 else 3)
    && forall j :: i < j < |es| && es[j].RegE? && es[j].name == es[i].name ==> pr[j] <= 1
  }

  /** A name decided by entry `i` of the stream is still what that entry made it. */
  ghost predicate Decided(t: Tree, e: Soft, id: nat) {
    e.name in t && (if e.DirE? then t[e.name].Dir? else HasInode(t[e.name], id))
  }

  ghost predicate Kept(t: Tree, es: seq<Soft>, b: nat, pr: seq<nat>)
    requires |pr| == |es|
  {
    forall i {:trigger Rules(es, pr, i)} :: 0 <= i < |es| && Rules(es, pr, i) ==> Decided(t, es[i], b + i)
  }

  ghost predicate Exact(s: Tree, es: seq<Soft>, b: nat, pr: seq<nat>, t: Tree)
    requires |pr| == |es|
  {
    && (forall q :: Get(t, q) == Now(s, es, b, pr, q))
    && (forall i :: 0 <= i < |es| ==> Allows(s, es[i], pr[i]))
  }

  ghost predicate FewerLinks(s: Tree, t: Tree) {
    forall q :: q in t && t[q].Sym? ==> q in s && s[q].Sym?
  }

  /** The invariant of a running batch. */
  ghost predicate Running(s: Tree, es: seq<Soft>, b: nat, pr: seq<nat>, t: Tree) {
    && Gentle(s, es) && Order(es, pr) && Sane(s, b)
    && Wf(t) && FewerLinks(s, t)
    && Kept(t, es, b, pr)
    && (Clear(es) ==> Exact(s, es, b, pr, t))
  }

  lemma NoLinkStill(s: Tree, t: Tree, p: Path)
    requires NoLinkAt(s, p) && FewerLinks(s, t)
    ensures NoLinkAt(t, p)
  {
    forall r | AtOrAbove(r, p) && r in t ensures !t[r].Sym? {}
  }

  // ---- facts about Now ----

  /** Entries after `i` that leave `q` alone do not show in it. */
  lemma {:induction false} NowSuffix(s: Tree, es: seq<Soft>, b: nat, pr: seq<nat>, i: nat, q: Path)
    requires |pr| == |es| && i < |es|
    requires forall j :: i < j < |es| ==> pr[j] == 0 || !AtOrAbove(q, es[j].name)
    ensures Now(s, es, b, pr, q) == Touch(es[i], pr[i], b + i, Now(s, es[..i], b, pr[..i], q), q)
    decreases |es|
  {
    var n := |es| - 1;
    if i < n {
      NowSuffix(s, es[..n], b, pr[..n], i, q);
      assert es[..n][..i] == es[..i] && pr[..n][..i] == pr[..i];
    }
  }

  /** A call that does not change what its entry makes of `q` does not change `q`. */
  lemma {:induction false} NowSame(s: Tree, es: seq<Soft>, b: nat, pr: seq<nat>, pr': seq<nat>, i: nat, q: Path)
    requires |pr| == |pr'| == |es| && i < |es|
    requires pr' == pr[i := pr'[i]]
    requires forall n {:trigger Touch(es[i], pr[i], b + i, n, q)} :: Touch(es[i], pr[i], b + i, n, q) == Touch(es[i], pr'[i], b + i, n, q)
    ensures Now(s, es, b, pr', q) == Now(s, es, b, pr, q)
    decreases |es|
  {
    var n := |es| - 1;
    if i < n {
      assert pr'[..n] == pr[..n][i := pr'[i]];
      NowSame(s, es[..n], b, pr[..n], pr'[..n], i, q);
    } else {
      assert pr'[..n] == pr[..n];
      var before := Now(s, es[..n], b, pr[..n], q);
      assert Touch(es[i], pr[i], b + i, before, q) == Touch(es[i], pr'[i], b + i, before, q);
    }
  }

  /** Making the ancestors of one more file shows at each of them, unless a file has the same name. */
  lemma {:induction false} NowMkdir(s: Tree, es: seq<Soft>, b: nat, pr: seq<nat>, i: nat, q: Path)
    requires |pr| == |es| && i < |es|
    requires es[i].RegE? && pr[i] == 0 && Above(q, es[i].name)
    requires forall k :: 0 <= k < |es| && es[k].RegE? ==> es[k].name != q
    ensures Now(s, es, b, pr[i := 1], q) == Made755(Now(s, es, b, pr, q))
    decreases |es|
  {
    var n := |es| - 1;
    if i < n {
      assert pr[i := 1][..n] == pr[..n][i := 1];
      NowMkdir(s, es[..n], b, pr[..n], i, q);
    } else {
      assert pr[i := 1][..n] == pr[..n];
    }
  }

  /** A path no file of the batch names holds what it held, or a directory. */
  lemma {:induction false} NowNoFile(s: Tree, es: seq<Soft>, b: nat, pr: seq<nat>, q: Path)
    requires |pr| == |es|
    requires forall k :: 0 <= k < |es| && es[k].RegE? ==> es[k].name != q
    requires forall k :: 0 <= k < |es| ==> Allows(s, es[k], pr[k])
    ensures q in s ==> Now(s, es, b, pr, q).Some? && (Now(s, es, b, pr, q).value == s[q] || (s[q].Dir? && Now(s, es, b, pr, q).value.Dir?))
    ensures q !in s ==> Now(s, es, b, pr, q) == None || Now(s, es, b, pr, q).value.Dir?
    ensures (forall k :: 0 <= k < |es| ==> !AtOrAbove(q, es[k].name)) ==> Now(s, es, b, pr, q) == Get(s, q)
    decreases |es|
  {
    if es != [] {
      var n := |es| - 1;
      NowNoFile(s, es[..n], b, pr[..n], q);
      if es[n].DirE? && q == es[n].name && pr[n] >= 1 {
        assert AtOrAbove(q, Way(es[n]));
      }
    }
  }

  /** Once an entry made its ancestors, they are there. */
  lemma {:induction false} NowMade(s: Tree, es: seq<Soft>, b: nat, pr: seq<nat>, i: nat, q: Path)
    requires |pr| == |es| && i < |es|
    requires forall k :: 0 <= k < |es| && es[k].RegE? ==> es[k].name != q
    requires pr[i] >= 1 && Above(q, es[i].name)
    ensures Now(s, es, b, pr, q).Some?
    decreases |es|
  {
    var n := |es| - 1;
    if i < n {
      NowMade(s, es[..n], b, pr[..n], i, q);
    }
  }

  /** Only its own name carries the inode an entry made. */
  lemma {:induction false} NowInode(s: Tree, es: seq<Soft>, b: nat, pr: seq<nat>, i: nat, q: Path)
    requires |pr| == |es| && i < |es|
    requires InodesBelow(s, b)
    ensures match Now(s, es, b, pr, q)
      case Some(File(ino, _, _, _)) => ino == Made(b + i) ==> q == es[i].name
      case _ => true
    decreases |es|
  {
    var n := |es| - 1;
    if i < n {
      NowInode(s, es[..n], b, pr[..n], i, q);
    } else {
      NowInodesBelow(s, es[..n], b, pr[..n], q);
    }
  }

  lemma {:induction false} NowInodesBelow(s: Tree, es: seq<Soft>, b: nat, pr: seq<nat>, q: Path)
    requires |pr| == |es|
    requires InodesBelow(s, b)
    ensures match Now(s, es, b, pr, q)
      case Some(File(ino, _, _, _)) => ino.Made? ==> ino.entry < b + |es|
      case _ => true
  {
    if es != [] {
      var n := |es| - 1;
      NowInodesBelow(s, es[..n], b, pr[..n], q);
    }
  }

  /** Later entries leave the name of an unfinished file alone. */
  lemma OwnName(es: seq<Soft>, pr: seq<nat>, i: nat, s: Tree)
    requires Gentle(s, es) && Order(es, pr) && Clear(es)
    requires i < |es| && es[i].RegE? && pr[i] < 6
    ensures forall j :: i < j < |es| ==> pr[j] == 0 || !AtOrAbove(es[i].name, es[j].name)
  {
  }

  // ---- one call ----

  /** A file's node after call number `s >= 3` of `e`. */
  function Later(n: Node, e: Soft, s: nat): Node
    requires n.File? && e.RegE?
  {
    match s
    case 3 => n.(data := e.data)
    case 4 => n.(mode := e.mode)
    case _ => n.(mtime := e.mtime)
  }

  predicate HasInode(n: Node, id: nat) {
    n.File? && n.ino == Made(id)
  }

  /** What a successful call does to the tree, whatever else is going on. */
  ghost predicate Effect(t: Tree, t': Tree, e: Soft, id: nat, s: nat) {
    if s == 0 then
      && (forall r {:trigger AtOrAbove(r, Way(e))} :: AtOrAbove(r, Way(e)) && r in t ==> t[r].Dir?)
      && forall q :: Get(t', q) == if AtOrAbove(q, Way(e)) then Made755(Get(t, q)) else Get(t, q)
    else if e.DirE? then
      e.name in t && t[e.name].Dir? && t' == t[e.name := Dir(e.mode)]
    else match s
      case 1 => !HasChild(t, e.name) && t' == t - {e.name}
      case 2 => e.name !in t && t' == t[e.name := File(Made(id), [], e.mode, 0)]
      case _ =>
        && t'.Keys == t.Keys
        && (forall q :: q in t ==> t'[q] == (if HasInode(t[q], id) then Later(t[q], e, s) else t[q]))
  }

  /** At its last two calls a file's name carries the inode made for it. */
  ghost predicate Ready(t: Tree, e: Soft, id: nat, s: nat) {
    && (e.DirE? && s == 1 ==> e.name in t && t[e.name].Dir?)
    && (e.RegE? && s >= 4 ==> e.name in t && HasInode(t[e.name], id))
  }

  lemma CallEffect(t: Tree, t': Tree, e: Soft, id: nat, s: nat)
    requires Wf(t) && NoLinkAt(t, Way(e)) && s < Calls(e) && Ready(t, e, id, s)
    requires Call(t, e, id, s) == Some(t')
    ensures Effect(t, t', e, id, s) && Wf(t')
  {
    match e
    case DirE(name, mode) =>
      if s == 0 { MkdirAllSpec(t, name); } else { FollowPlain(t, name); WfSameShape(t, t'); }
    case RegE(name, mode, mtime, data, _) =>
      match s {
        case 0 => MkdirAllSpec(t, Parent(name));
        case 1 => RemoveSpec(t, name);
        case 2 => CreateSpec(t, name, Made(id), mode);
        case 3 => WfSameShape(t, t');
        case 4 => NoLinkName(t, e); FollowPlain(t, name); WfSameShape(t, t');
        case _ => NoLinkName(t, e); FollowPlain(t, name); WfSameShape(t, t');
      }
  }

  lemma NoLinkName(t: Tree, e: Soft)
    requires NoLinkAt(t, Way(e)) && (e.name in t ==> !t[e.name].Sym?)
    ensures NoLinkAt(t, e.name)
  {
    forall r | AtOrAbove(r, e.name) && r in t ensures !t[r].Sym? {
      if r != e.name && e.RegE? {
        AboveParent(r, e.name);
        assert AtOrAbove(r, Way(e));
      }
    }
  }

  lemma EffectLinks(s0: Tree, t: Tree, t': Tree, e: Soft, id: nat, s: nat)
    requires FewerLinks(s0, t) && s < Calls(e) && Effect(t, t', e, id, s)
    ensures FewerLinks(s0, t')
  {
    forall q | q in t' && t'[q].Sym? ensures q in s0 && s0[q].Sym? {
      if s == 0 { assert Get(t', q) == Some(t'[q]); }
      assert q in t && t[q].Sym?;
    }
  }

  /** The names already decided stay decided. */
  lemma EffectKept(t: Tree, t': Tree, es: seq<Soft>, b: nat, pr: seq<nat>, i: nat, s0: Tree)
    requires Gentle(s0, es) && Order(es, pr) && Kept(t, es, b, pr)
    requires i < |es| && pr[i] < Calls(es[i]) && Order(es, pr[i := pr[i] + 1])
    requires Effect(t, t', es[i], b + i, pr[i])
    ensures Kept(t', es, b, pr[i := pr[i] + 1])
  {
    var pr' := pr[i := pr[i] + 1];
    var e := es[i];
    forall k | 0 <= k < |es| && Rules(es, pr', k)
      ensures Decided(t', es[k], b + k)
    {
      var name := es[k].name;
      if k == i {
        if pr[i] == 0 {
          assert AtOrAbove(name, Way(e));
          assert Get(t', name) == Made755(Get(t, name));
        } else if e.RegE? && pr[i] >= 3 {
          assert Rules(es, pr, k);
        }
      } else {
        assert Rules(es, pr, k);
        if pr[i] == 0 { assert Get(t, name) == Some(t[name]) && Get(t', name) == Get(t, name); }
        if pr[i] == 1 && e.RegE? && name == e.name { assert false; }
      }
    }
  }

  // ---- the invariant over calls ----

  lemma AllowsMkdir(s0: Tree, t: Tree, t': Tree, es: seq<Soft>, b: nat, pr: seq<nat>, i: nat)
    requires Gentle(s0, es) && Order(es, pr) && Clear(es) && Exact(s0, es, b, pr, t)
    requires i < |es| && pr[i] == 0 && Effect(t, t', es[i], b + i, 0)
    ensures Allows(s0, es[i], 1)
  {
    var e := es[i];
    forall r | AtOrAbove(r, Way(e)) && r in s0 ensures s0[r].Dir? {
      if e.RegE? { AboveParent(r, e.name); }
      NowNoFile(s0, es, b, pr, r);
      assert Get(t, r) == Now(s0, es, b, pr, r);
    }
  }

  lemma ExactMkdirDir(s0: Tree, t: Tree, t': Tree, es: seq<Soft>, b: nat, pr: seq<nat>, i: nat)
    requires Gentle(s0, es) && Order(es, pr) && Clear(es) && Exact(s0, es, b, pr, t)
    requires i < |es| && es[i].DirE? && pr[i] == 0 && Effect(t, t', es[i], b + i, 0)
    ensures Exact(s0, es, b, pr[i := 1], t')
  {
    AllowsMkdir(s0, t, t', es, b, pr, i);
    var pr' := pr[i := 1];
    assert i == |es| - 1 && pr'[..i] == pr[..i];
    forall q ensures Get(t', q) == Now(s0, es, b, pr', q) {
      assert Get(t, q) == Now(s0, es, b, pr, q);
    }
  }

  lemma ExactMkdirFile(s0: Tree, t: Tree, t': Tree, es: seq<Soft>, b: nat, pr: seq<nat>, i: nat)
    requires Gentle(s0, es) && Order(es, pr) && Clear(es) && Exact(s0, es, b, pr, t)
    requires i < |es| && es[i].RegE? && pr[i] == 0 && Effect(t, t', es[i], b + i, 0)
    ensures Exact(s0, es, b, pr[i := 1], t')
  {
    AllowsMkdir(s0, t, t', es, b, pr, i);
    var pr' := pr[i := 1];
    forall q ensures Get(t', q) == Now(s0, es, b, pr', q) {
      AboveParent(q, es[i].name);
      assert Get(t, q) == Now(s0, es, b, pr, q);
      if Above(q, es[i].name) {
        NowMkdir(s0, es, b, pr, i, q);
      } else {
        NowSame(s0, es, b, pr, pr', i, q);
      }
    }
  }

  lemma ExactChmodDir(s0: Tree, t: Tree, t': Tree, es: seq<Soft>, b: nat, pr: seq<nat>, i: nat)
    requires Gentle(s0, es) && Order(es, pr) && Clear(es) && Exact(s0, es, b, pr, t)
    requires i < |es| && es[i].DirE? && pr[i] == 1 && Effect(t, t', es[i], b + i, 1)
    ensures Exact(s0, es, b, pr[i := 2], t')
  {
    var pr' := pr[i := 2];
    forall q ensures Get(t', q) == Now(s0, es, b, pr', q) {
      assert i == |es| - 1 && pr'[..i] == pr[..i];
      assert Get(t, q) == Now(s0, es, b, pr, q);
    }
  }

  lemma TouchOwn(t: Tree, t': Tree, e: Soft, id: nat, p: nat, n: Option<Node>)
    requires e.RegE? && 1 <= p < 6 && Effect(t, t', e, id, p)
    requires Get(t, e.name) == Touch(e, p, id, n, e.name)
    ensures Get(t', e.name) == Touch(e, p + 1, id, n, e.name)
  {
    if p >= 3 { assert HasInode(t[e.name], id); }
  }

  /** The later calls of a file, seen at its own name ... */
  lemma OwnHere(s0: Tree, t: Tree, t': Tree, es: seq<Soft>, b: nat, pr: seq<nat>, i: nat)
    requires Gentle(s0, es) && Order(es, pr) && Clear(es) && Exact(s0, es, b, pr, t)
    requires i < |es| && es[i].RegE? && 1 <= pr[i] < 6 && Effect(t, t', es[i], b + i, pr[i])
    ensures Get(t', es[i].name) == Now(s0, es, b, pr[i := pr[i] + 1], es[i].name)
  {
    hide Gentle, Clear, Effect, Touch, Allows;
    var e, pr' := es[i], pr[i := pr[i] + 1];
    OwnName(es, pr, i, s0);
    NowSuffix(s0, es, b, pr, i, e.name);
    NowSuffix(s0, es, b, pr', i, e.name);
    assert pr'[..i] == pr[..i];
    assert Get(t, e.name) == Now(s0, es, b, pr, e.name);
    TouchOwn(t, t', e, b + i, pr[i], Now(s0, es[..i], b, pr[..i], e.name));
  }

  /** ... and at every other path. */
  lemma OwnElsewhere(s0: Tree, t: Tree, t': Tree, es: seq<Soft>, b: nat, pr: seq<nat>, i: nat, q: Path)
    requires |pr| == |es| && Exact(s0, es, b, pr, t) && Sane(s0, b)
    requires i < |es| && es[i].RegE? && 1 <= pr[i] < 6 && Effect(t, t', es[i], b + i, pr[i])
    requires q != es[i].name
    ensures Get(t', q) == Now(s0, es, b, pr[i := pr[i] + 1], q)
  {
    NowSame(s0, es, b, pr, pr[i := pr[i] + 1], i, q);
    NowInode(s0, es, b, pr, i, q);
    assert Get(t, q) == Now(s0, es, b, pr, q);
  }

  lemma OwnAllows(s0: Tree, t: Tree, t': Tree, es: seq<Soft>, b: nat, pr: seq<nat>, i: nat)
    requires Gentle(s0, es) && Order(es, pr) && Clear(es) && Exact(s0, es, b, pr, t)
    requires i < |es| && es[i].RegE? && 1 <= pr[i] < 6 && Effect(t, t', es[i], b + i, pr[i])
    ensures Allows(s0, es[i], pr[i] + 1)
  {
    if pr[i] == 1 && HasChild(s0, es[i].name) {
      var c :| c in s0 && Above(es[i].name, c);
      assert Get(t, c) == Now(s0, es, b, pr, c);
      NowNoFile(s0, es, b, pr, c);
    }
  }

  lemma ExactOwn(s0: Tree, t: Tree, t': Tree, es: seq<Soft>, b: nat, pr: seq<nat>, i: nat)
    requires Gentle(s0, es) && Order(es, pr) && Clear(es) && Exact(s0, es, b, pr, t) && Sane(s0, b)
    requires i < |es| && es[i].RegE? && 1 <= pr[i] < 6 && Effect(t, t', es[i], b + i, pr[i])
    ensures Exact(s0, es, b, pr[i := pr[i] + 1], t')
  {
    forall q ensures Get(t', q) == Now(s0, es, b, pr[i := pr[i] + 1], q) {
      if q == es[i].name {
        OwnHere(s0, t, t', es, b, pr, i);
      } else {
        OwnElsewhere(s0, t, t', es, b, pr, i, q);
      }
    }
    OwnAllows(s0, t, t', es, b, pr, i);
  }

  /** Entry `i` is ready for its next call. */
  lemma RunningReady(s0: Tree, t: Tree, es: seq<Soft>, b: nat, pr: seq<nat>, i: nat)
    requires Running(s0, es, b, pr, t)
    requires i < |es| && pr[i] < Calls(es[i]) && Order(es, pr[i := pr[i] + 1])
    ensures NoLinkAt(t, Way(es[i])) && Ready(t, es[i], b + i, pr[i])
  {
    NoLinkStill(s0, t, Way(es[i]));
    if pr[i] >= (if es[i].DirE? then 1 else 3) {
      assert Rules(es, pr, i);
    }
  }

  /** A successful call of any entry keeps the invariant. */
  lemma Advance(s0: Tree, t: Tree, t': Tree, es: seq<Soft>, b: nat, pr: seq<nat>, i: nat)
    requires Running(s0, es, b, pr, t)
    requires i < |es| && pr[i] < Calls(es[i]) && Order(es, pr[i := pr[i] + 1])
    requires Call(t, es[i], b + i, pr[i]) == Some(t')
    ensures Running(s0, es, b, pr[i := pr[i] + 1], t')
  {
    hide Effect, Touch, Now, Kept, Gentle, Allows, Call, Exact, Wf, FewerLinks, Sane, NoLinkAt, Ready;
    RunningReady(s0, t, es, b, pr, i);
    CallEffect(t, t', es[i], b + i, pr[i]);
    EffectLinks(s0, t, t', es[i], b + i, pr[i]);
    EffectKept(t, t', es, b, pr, i, s0);
    if Clear(es) {
      if pr[i] == 0 && es[i].DirE? { ExactMkdirDir(s0, t, t', es, b, pr, i); }
      else if pr[i] == 0 { ExactMkdirFile(s0, t, t', es, b, pr, i); }
      else if es[i].DirE? { ExactChmodDir(s0, t, t', es, b, pr, i); }
      else { ExactOwn(s0, t, t', es, b, pr, i); }
    }
  }

  lemma StartBatch(s0: Tree, b: nat)
    requires Sane(s0, b)
    ensures Running(s0, [], b, [], s0)
  {
  }

  /** The reader takes up one more entry. */
  lemma Extend(s0: Tree, t: Tree, es: seq<Soft>, b: nat, pr: seq<nat>, e: Soft)
    requires Running(s0, es, b, pr, t) && Gentle(s0, es + [e]) && Order(es + [e], pr + [0])
    ensures Running(s0, es + [e], b, pr + [0], t)
  {
    var es', pr' := es + [e], pr + [0];
    forall i | 0 <= i < |es'| && Rules(es', pr', i) ensures Decided(t, es'[i], b + i) {
      assert i < |es|;
      forall j | i < j < |es| && es[j].RegE? && es[j].name == es[i].name ensures pr[j] <= 1 {
        assert es'[j] == es[j] && pr'[j] == pr[j];
      }
      assert Rules(es, pr, i);
    }
    if Clear(es') {
      forall i, j | 0 <= i < |es| && 0 <= j < |es| && es[i].RegE? ensures !Above(es[i].name, es[j].name) {
        assert es'[i] == es[i] && es'[j] == es[j];
      }
      assert es'[..|es|] == es && pr'[..|es|] == pr;
      forall q ensures Get(t, q) == Now(s0, es', b, pr', q) {}
    }
  }

  lemma {:induction false} LastNamed(es: seq<Soft>, k: nat) returns (l: nat)
    requires k < |es|
    ensures k <= l < |es| && es[l].name == es[k].name
    ensures forall j :: l < j < |es| ==> es[j].name != es[k].name
    decreases |es|
  {
    if es[|es| - 1].name == es[k].name {
      l := |es| - 1;
    } else {
      l := LastNamed(es[..|es| - 1], k);
    }
  }

  ghost predicate Done(es: seq<Soft>, pr: seq<nat>) {
    |pr| == |es| && forall i :: 0 <= i < |es| ==> pr[i] == Calls(es[i])
  }

  /** A batch that got all its calls through had no file above another of its names. */
  lemma DoneClear(s0: Tree, t: Tree, es: seq<Soft>, b: nat, pr: seq<nat>)
    requires Running(s0, es, b, pr, t) && Done(es, pr)
    ensures Clear(es)
  {
    forall i, j | 0 <= i < |es| && 0 <= j < |es| && es[i].RegE? && Above(es[i].name, es[j].name)
      ensures false
    {
      var li := LastNamed(es, i);
      var lj := LastNamed(es, j);
      assert Rules(es, pr, li) && Rules(es, pr, lj);
    }
  }

  /** In a clear batch whose start allows the entry, its next call succeeds. */
  lemma CallSucceeds(s0: Tree, t: Tree, es: seq<Soft>, b: nat, pr: seq<nat>, i: nat)
    requires Running(s0, es, b, pr, t) && Clear(es)
    requires i < |es| && pr[i] < Calls(es[i]) && Order(es, pr[i := pr[i] + 1])
    requires Allows(s0, es[i], Calls(es[i]))
    ensures Call(t, es[i], b + i, pr[i]).Some?
  {
    var e := es[i];
    RunningReady(s0, t, es, b, pr, i);
    if pr[i] == 0 {
      forall r | AtOrAbove(r, Way(e)) && r in t ensures t[r].Dir? {
        if e.RegE? { AboveParent(r, e.name); }
        NowNoFile(s0, es, b, pr, r);
        assert Get(t, r) == Now(s0, es, b, pr, r);
      }
      MkdirAllSpec(t, Way(e));
    } else if e.DirE? {
      FollowPlain(t, e.name);
    } else if pr[i] <= 2 {
      var up := Parent(e.name);
      AboveParent(up, e.name);
      NowMade(s0, es, b, pr, i, up);
      NowNoFile(s0, es, b, pr, up);
      assert Get(t, up) == Now(s0, es, b, pr, up);
      if pr[i] == 1 {
        NoChild(s0, t, es, b, pr, i);
        RemoveSpec(t, e.name);
      } else {
        OwnName(es, pr, i, s0);
        NowSuffix(s0, es, b, pr, i, e.name);
        assert Get(t, e.name) == Now(s0, es, b, pr, e.name);
        CreateSpec(t, e.name, Made(b + i), e.mode);
      }
    } else if pr[i] >= 4 {
      NoLinkName(t, e);
      FollowPlain(t, e.name);
    }
  }

  lemma NoChild(s0: Tree, t: Tree, es: seq<Soft>, b: nat, pr: seq<nat>, i: nat)
    requires Running(s0, es, b, pr, t) && Clear(es)
    requires i < |es| && es[i].RegE? && Allows(s0, es[i], 6)
    ensures !HasChild(t, es[i].name)
  {
    var name := es[i].name;
    if HasChild(t, name) {
      var c :| c in t && Above(name, c);
      forall k | 0 <= k < |es| ensures !AtOrAbove(c, es[k].name) {
        if Above(c, es[k].name) { AboveTrans(name, c, es[k].name); }
      }
      assert Get(t, c) == Now(s0, es, b, pr, c);
      NowNoFile(s0, es, b, pr, c);
    }
  }
}
