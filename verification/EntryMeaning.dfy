/**
 What one archive entry does to a tree where no symbolic link leads to its place: when
 it goes through, and what every path holds afterwards (`untarFiltered` and
 `writeEntry`, `cmd/kbuild-step/main.go`).
 */
module EntryMeaning {
  import opened Wrappers
  import opened FileTree
  import opened Extract

  /** A clean place below the root that is reached without a link; a link may stand at the place itself. */
  ghost predicate Place(t: Tree, p: Path) {
    p != [] && Plain(p) && NoLinkAt(t, Parent(p))
  }

  /** The ancestors are directories or not there yet. */
  ghost predicate Reachable(t: Tree, p: Path) {
    forall r :: Above(r, p) && r in t ==> t[r].Dir?
  }

  /** `name` holds `n` now; what was missing above it was made, and nothing else changed. */
  ghost predicate Replaces(t: Tree, t': Tree, name: Path, n: Node) {
    forall q :: Get(t', q) == if q == name then Some(n) else if Above(q, name) then Made755(Get(t, q)) else Get(t, q)
  }

  lemma LinkSpec(t: Tree, from: Path, p: Path)
    requires Wf(t) && Place(t, from) && Place(t, p)
    ensures Link(t, from, p).Some? <==> from in t && !t[from].Dir? && p !in t && Parent(p) in t && t[Parent(p)].Dir?
    ensures Link(t, from, p).Some? ==> Link(t, from, p).value == t[p := t[from]]
  {
    hide NoLinkAt;
    HolderPlain(t, from);
    HolderPlain(t, p);
    if from in t { assert Above(Parent(from), from); }
  }

  lemma SymlinkSpec(t: Tree, target: Path, p: Path)
    requires Wf(t) && Place(t, p)
    ensures Symlink(t, target, p).Some? <==> p !in t && Parent(p) in t && t[Parent(p)].Dir?
    ensures Symlink(t, target, p).Some? ==> Symlink(t, target, p).value == t[p := Sym(target)]
  {
    hide NoLinkAt;
    HolderPlain(t, p);
  }

  /** The tree with room made at `p`. */
  ghost predicate Room(t: Tree, t2: Tree, p: Path) {
    && Wf(t2) && p !in t2 && Parent(p) in t2 && t2[Parent(p)].Dir? && !HasChild(t2, p)
    && forall q :: Get(t2, q) == if q == p then None else if Above(q, p) then Made755(Get(t, q)) else Get(t, q)
  }

  /** Make the ancestors and take away what is there: possible unless something is in the way. */
  lemma MakesRoom(t: Tree, p: Path)
    requires Wf(t) && Place(t, p)
    ensures ClearFor(t, p).Some? <==> Reachable(t, p) && !HasChild(t, p)
    ensures ClearFor(t, p).Some? ==> Room(t, ClearFor(t, p).value, p)
  {
    var up := Parent(p);
    MkdirAllSpec(t, up);
    forall r ensures Above(r, p) <==> AtOrAbove(r, up) { AboveParent(r, p); }
    if MkdirAll(t, up).Some? {
      var t1 := MkdirAll(t, up).value;
      SameChildren(t, t1, p);
      assert NoLinkAt(t1, up) by { forall r | AtOrAbove(r, up) && r in t1 ensures !t1[r].Sym? { assert Get(t1, r) == Made755(Get(t, r)); } }
      assert up in t1 && t1[up].Dir? by { assert AtOrAbove(up, up) && Get(t1, up) == Made755(Get(t, up)); }
      RemoveSpec(t1, p);
      if Remove(t1, p).Some? {
        var t2 := Remove(t1, p).value;
        assert forall q :: Get(t2, q) == if q == p then None else Get(t1, q);
        assert up != p;
        assert !HasChild(t2, p);
      }
    }
  }

  lemma SameChildren(t: Tree, t1: Tree, p: Path)
    requires p != [] && forall q :: Get(t1, q) == if Above(q, p) then Made755(Get(t, q)) else Get(t, q)
    ensures HasChild(t1, p) <==> HasChild(t, p)
  {
    forall q | Above(p, q) ensures q in t1 <==> q in t { assert !Above(q, p) && Get(t1, q) == Get(t, q); }
  }

  lemma RoomPlace(t: Tree, t2: Tree, p: Path, q: Path)
    requires Wf(t) && Room(t, t2, p) && Place(t, q)
    ensures Place(t2, q)
  {
    forall r | AtOrAbove(r, Parent(q)) && r in t2 ensures !t2[r].Sym? {
      assert Get(t2, r) == if r == p then None else if Above(r, p) then Made755(Get(t, r)) else Get(t, r);
    }
  }

  lemma PutReplaces(t: Tree, t2: Tree, p: Path, n: Node)
    requires Room(t, t2, p)
    ensures Replaces(t, t2[p := n], p, n)
  {
  }

  /**
   A hard link: it goes through exactly if what it names is there, is no directory and
   is not itself; then both paths hold one node, inode and all.
   */
  lemma LinkEntry(t: Tree, id: nat, name: Path, from: Path)
    requires Wf(t) && Place(t, name) && Place(t, from)
    ensures Apply(t, id, LinkE(name, from)).Some? <==>
      Reachable(t, name) && !HasChild(t, name) && from != name && from in t && !t[from].Dir?
    ensures Apply(t, id, LinkE(name, from)).Some? ==> Replaces(t, Apply(t, id, LinkE(name, from)).value, name, t[from])
  {
    hide Place, Reachable, HasChild, ClearFor, Link, Wf;
    MakesRoom(t, name);
    assert name != [] by { PlaceNamed(t, name); }
    if ClearFor(t, name).Some? {
      var t2 := ClearFor(t, name).value;
      RoomPlace(t, t2, name, from);
      RoomPlace(t, t2, name, name);
      assert Wf(t2);
      LinkSpec(t2, from, name);
      assert Get(t2, from) == if from == name then None else if Above(from, name) then Made755(Get(t, from)) else Get(t, from);
      assert Reachable(t, name);
      if Above(from, name) && from in t { AboveIsDir(t, from, name); }
      if from in t2 { PutReplaces(t, t2, name, t2[from]); }
    }
  }

  lemma AboveIsDir(t: Tree, r: Path, p: Path)
    requires Reachable(t, p) && Above(r, p) && r in t
    ensures t[r].Dir?
  {
  }

  lemma PlaceNamed(t: Tree, p: Path)
    requires Place(t, p)
    ensures p != [] && EntryOk(LinkE(p, [])) && EntryOk(SymE(p, []))
  {
  }

  /** A symbolic link, whatever it points to. */
  lemma SymEntry(t: Tree, id: nat, name: Path, target: Path)
    requires Wf(t) && Place(t, name)
    ensures Apply(t, id, SymE(name, target)).Some? <==> Reachable(t, name) && !HasChild(t, name)
    ensures Apply(t, id, SymE(name, target)).Some? ==> Replaces(t, Apply(t, id, SymE(name, target)).value, name, Sym(target))
  {
    hide Place, Reachable, HasChild, ClearFor, Symlink, Wf;
    MakesRoom(t, name);
    assert name != [] by { PlaceNamed(t, name); }
    if ClearFor(t, name).Some? {
      var t2 := ClearFor(t, name).value;
      RoomPlace(t, t2, name, name);
      assert Wf(t2);
      SymlinkSpec(t2, target, name);
      PutReplaces(t, t2, name, Sym(target));
    }
  }

  /**
   A regular file replaces what is there: a link in its place is gone, and what it
   pointed to, or was a hard link of, is as it was.
   */
  lemma FileEntry(t: Tree, id: nat, e: Entry)
    requires Wf(t) && e.RegE? && Place(t, e.name) && InodesBelow(t, id)
    ensures EntryOk(e)
    ensures Apply(t, id, e).Some? <==> Reachable(t, e.name) && !HasChild(t, e.name)
    ensures Apply(t, id, e).Some? ==> Replaces(t, Apply(t, id, e).value, e.name, File(Made(id), e.data, e.mode, e.mtime))
  {
    hide Place, Reachable, HasChild, MkdirAll, Remove, Wf, Finish, InodesBelow, NoLinkAt;
    MakesRoom(t, e.name);
    assert EntryOk(e) by { PlaceOk(t, e); }
    FinishStep(t, e, id, 0);
    if MkdirAll(t, Parent(e.name)).Some? {
      FinishStep(MkdirAll(t, Parent(e.name)).value, e, id, 1);
    }
    if ClearFor(t, e.name).Some? {
      var t2 := ClearFor(t, e.name).value;
      RoomPlace(t, t2, e.name, e.name);
      assert FreshIn(t2, id) by { RoomFresh(t, t2, e.name, id); }
      WritesFile(t2, id, e);
      PutReplaces(t, t2, e.name, File(Made(id), e.data, e.mode, e.mtime));
    }
  }

  lemma PlaceOk(t: Tree, e: Entry)
    requires e.RegE? && Place(t, e.name)
    ensures EntryOk(e)
  {
  }

  /** No path has the inode of entry `id`. */
  ghost predicate FreshIn(t: Tree, id: nat) {
    forall q :: q in t && t[q].File? ==> t[q].ino != Made(id)
  }

  lemma RoomFresh(t: Tree, t2: Tree, p: Path, id: nat)
    requires Room(t, t2, p) && InodesBelow(t, id)
    ensures FreshIn(t2, id)
  {
    forall q | q in t2 && t2[q].File? ensures t2[q].ino != Made(id) {
      assert Get(t2, q) == if q == p then None else if Above(q, p) then Made755(Get(t, q)) else Get(t, q);
    }
  }

  /** The four calls that are left once there is room. */
  lemma WritesFile(t2: Tree, id: nat, e: Entry)
    requires e.RegE? && EntryOk(e) && Wf(t2) && Place(t2, e.name) && FreshIn(t2, id)
    requires e.name !in t2 && Parent(e.name) in t2 && t2[Parent(e.name)].Dir? && !HasChild(t2, e.name)
    ensures Finish(t2, e, id, 2) == Some(t2[e.name := File(Made(id), e.data, e.mode, e.mtime)])
  {
    hide MkdirAll, Remove, Create, Finish, HasChild, Wf, NoLinkAt;
    var p := e.name;
    CreateSpec(t2, p, Made(id), e.mode);
    var t3 := t2[p := File(Made(id), [], e.mode, 0)];
    FinishStep(t2, e, id, 2);
    var t4 := t2[p := File(Made(id), e.data, e.mode, 0)];
    assert WriteData(t3, Made(id), e.data) == t4;
    FinishStep(t3, e, id, 3);
    assert Wf(t4) && Walk(t4, [], p, false, MAX_LINKS) == At(t4, p) by { WalksTo(t2, p, t4[p]); }
    assert forall q :: q in t4 && t4[q].File? && t4[q].ino == Made(id) ==> q == p;
    assert (map q | q in t4 :: if t4[q].File? && t4[q].ino == Made(id) then t4[q].(mode := e.mode) else t4[q]) == t4;
    assert Chmod(t4, p, e.mode) == Some(t4);
    FinishStep(t4, e, id, 4);
    var t5 := t2[p := File(Made(id), e.data, e.mode, e.mtime)];
    assert (map q | q in t4 :: if t4[q].File? && t4[q].ino == Made(id) then t4[q].(mtime := e.mtime) else t4[q]) == t5;
    assert Chtimes(t4, p, e.mtime) == Some(t5);
    FinishStep(t4, e, id, 5);
    FinishEnds(t5, e, id);
  }

  lemma FinishEnds(t: Tree, e: Entry, id: nat)
    requires e.RegE? && EntryOk(e)
    ensures Finish(t, e, id, 6) == Some(t)
  {
  }

  lemma WalksTo(t: Tree, p: Path, n: Node)
    requires Wf(t) && Place(t, p) && p !in t && Parent(p) in t && t[Parent(p)].Dir? && !HasChild(t, p) && n.File?
    ensures Wf(t[p := n]) && Walk(t[p := n], [], p, false, MAX_LINKS) == At(t[p := n], p)
  {
    var u := t[p := n];
    WfSet(t, p, n);
    assert NoLinkAt(u, p) by {
      forall r | AtOrAbove(r, p) && r in u ensures !u[r].Sym? {
        if r != p { AboveParent(r, p); }
      }
    }
    FollowPlain(u, p);
  }

  /** A directory is there afterwards with its mode, whether it was before or not. */
  lemma DirEntry(t: Tree, id: nat, name: Path, mode: nat)
    requires Wf(t) && Plain(name) && NoLinkAt(t, name)
    ensures Apply(t, id, DirE(name, mode)).Some? <==> Reachable(t, name) && (name in t ==> t[name].Dir?)
    ensures Apply(t, id, DirE(name, mode)).Some? ==> Replaces(t, Apply(t, id, DirE(name, mode)).value, name, Dir(mode))
  {
    hide MkdirAll, Finish;
    var e := DirE(name, mode);
    MkdirAllSpec(t, name);
    FinishStep(t, e, id, 0);
    if MkdirAll(t, name).Some? {
      var t1 := MkdirAll(t, name).value;
      assert Get(t1, name) == Made755(Get(t, name)) && AtOrAbove(name, name);
      assert NoLinkAt(t1, name) by {
        forall r | AtOrAbove(r, name) && r in t1 ensures !t1[r].Sym? { assert Get(t1, r) == Made755(Get(t, r)); }
      }
      FollowPlain(t1, name);
      assert Chmod(t1, name, mode) == Some(t1[name := Dir(mode)]);
      FinishStep(t1, e, id, 1);
      DirEnds(t1[name := Dir(mode)], e, id);
      assert Replaces(t, t1[name := Dir(mode)], name, Dir(mode));
    }
  }

  lemma DirEnds(t: Tree, e: Entry, id: nat)
    requires e.DirE? && EntryOk(e)
    ensures Finish(t, e, id, 2) == Some(t)
  {
  }

  // ---- links on the way ----

  /** A way through directories alone is walked component by component. */
  lemma {:induction false} WalkFrom(t: Tree, at: Path, way: Path, rest: Path, links: nat)
    requires Wf(t) && Plain(way) && at + way in t && t[at + way].Dir?
    ensures Walk(t, at, way + rest, false, links) == Walk(t, at + way, rest, false, links)
    decreases |way|
  {
    if way == [] {
      assert way + rest == rest && at + way == at;
    } else {
      var q := at + [way[0]];
      assert (way + rest)[1..] == way[1..] + rest && q + way[1..] == at + way;
      assert q in t && t[q].Dir? by {
        if q != at + way { assert Above(q, at + way); }
      }
      assert forall i :: 0 <= i < |way[1..]| ==> way[1..][i] == way[i + 1];
      WalkFrom(t, q, way[1..], rest, links);
    }
  }

  /**
   A link stands for its target as read from the directory the link is in; ".." is the
   directory above, and refused at the root, as an absolute target is.
   */
  lemma LinkStandsFor(t: Tree, dir: Path, name: string, rest: Path, links: nat)
    requires Wf(t) && Plain(dir) && dir in t && t[dir].Dir? && Plain([name])
    ensures dir + [name] in t && t[dir + [name]].Sym? ==>
      Walk(t, [], dir + ([name] + rest), false, links + 1) == Walk(t, [], dir + (t[dir + [name]].target + rest), false, links)
    ensures dir + [name] in t && t[dir + [name]].Sym? ==> Walk(t, [], dir + ([name] + rest), false, 0) == Blocked
    ensures Walk(t, [], dir + ([".."] + rest), false, links) ==
      if dir == [] then Blocked else Walk(t, [], Parent(dir) + rest, false, links)
    ensures Walk(t, [], dir + ([""] + rest), false, links) == Blocked
  {
    assert [] + dir == dir;
    assert Plain([name]) ==> [name][0] != "" && [name][0] != "." && [name][0] != "..";
    WalkFrom(t, [], dir, [name] + rest, links + 1);
    WalkFrom(t, [], dir, [name] + rest, 0);
    WalkFrom(t, [], dir, [".."] + rest, links);
    WalkFrom(t, [], dir, [""] + rest, links);
    assert ([name] + rest)[1..] == rest && ([".."] + rest)[1..] == rest;
    if dir + [name] in t && t[dir + [name]].Sym? {
      WalkFrom(t, [], dir, t[dir + [name]].target + rest, links);
    }
    if dir != [] {
      assert Above(Parent(dir), dir) && [] + Parent(dir) == Parent(dir);
      WalkFrom(t, [], Parent(dir), rest, links);
    }
  }
}
