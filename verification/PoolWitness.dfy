/**
 Both hypotheses of `PoolTheorem.ParallelIsSerial` are needed, and the one on links
 for files as well as for directories: streams that break one of them, and
 schedules on which the pool does not do what the serial loop does.
 */
module PoolWitness {
  import opened Wrappers
  import opened FileTree
  import opened Extract
  import opened Batch
  import opened SerialBatch
  import opened UntarPool
  import opened PoolMoves

  /** One worker, one queued empty file, then one directory entry. */
  function FileThenDir(f: Path, d: Path): Config {
    Config([RegE(f, 0x1A4, 7, [], false), DirE(d, DIR_MODE)], 1, _ => 0)
  }

  /** The reader makes the directory before the worker has started; the worker then writes the file. */
  lemma ReaderAhead(f: Path, d: Path, t0: Tree, t1: Tree, t2: Tree, t3: Tree) returns (acts: seq<Act>)
    requires f != [] && Plain(f) && Plain(d)
    requires MkdirAll(t0, d) == Some(t1) && Chmod(t1, d, DIR_MODE) == Some(t2)
    requires Finish(t2, FileThenDir(f, d).es[0], 0, 0) == Some(t3)
    ensures Succeeds(FileThenDir(f, d), t0, acts, t3)
  {
    hide MkdirAll, Chmod, Finish, Shape, Run, Reaches, Carries, Filled, Succeeds;
    var c := FileThenDir(f, d);
    Begins(c, t0);
    var st := Init(c, t0);
    st := Queues(c, t0, st, 0);
    st := Makes(c, t0, st, t1, t2);
    assert Carries(c, st, Job(0, 0)) by { FirstCarries(c, st); }
    st := WritesOne(c, t0, st, 0, Job(0, 0), t3);
    acts := Closes(c, t0, st);
  }

  lemma FirstCarries(c: Config, st: State)
    requires c.es != [] && Small(c.es[0]) && |c.es[0].data| <= BUF_CAP && 0 in st.mem && st.mem[0] == Filled(c.es[0].data)
    ensures Carries(c, st, Job(0, 0))
  {
    FilledIs(c.es[0].data);
  }

  // ---- the two streams ----

  lemma MkdirThere(t: Tree, p: Path)
    requires Plain(p) && Wf(t) && NoLinkAt(t, p) && p in t && t[p].Dir?
    ensures MkdirAll(t, p) == Some(t)
  {
    MkdirAllSpec(t, p);
    var t1 := MkdirAll(t, p).value;
    forall q ensures Get(t1, q) == Get(t, q) {}
    assert t1.Keys == t.Keys by { forall q ensures q in t1 <==> q in t { assert Get(t1, q) == Get(t, q); } }
    forall q | q in t ensures t1[q] == t[q] { assert Get(t1, q) == Get(t, q); }
    assert t1 == t;
  }

  /** The last three calls, once the file is there. */
  lemma WritesRest(t: Tree, f: Path, d: Path) returns (t': Tree)
    requires f != [] && Plain(f) && Plain(d) && Wf(t) && f in t && t[f].File?
    ensures Finish(t, FileThenDir(f, d).es[0], 0, 3) == Some(t')
  {
    hide MkdirAll, Remove, Create;
    var e := FileThenDir(f, d).es[0];
    var t4 := WriteData(t, Made(0), []);
    WfSameShape(t, t4);
    FileNoLink(t4, f);
    FollowPlain(t4, f);
    var t5 := Chmod(t4, f, e.mode).value;
    WfSameShape(t4, t5);
    FileNoLink(t5, f);
    FollowPlain(t5, f);
    t' := Chtimes(t5, f, e.mtime).value;
    assert Finish(t', e, 0, 6) == Some(t');
    assert Finish(t5, e, 0, 5) == Some(t');
    assert Finish(t4, e, 0, 4) == Some(t');
  }

  /** An empty file is written over a link or an empty directory, its parent being there. */
  lemma WritesOver(t: Tree, f: Path, d: Path) returns (t': Tree)
    requires f != [] && Plain(f) && Plain(d) && Wf(t) && !HasChild(t, f)
    requires NoLinkAt(t, Parent(f)) && Parent(f) in t && t[Parent(f)].Dir?
    ensures Finish(t, FileThenDir(f, d).es[0], 0, 0) == Some(t')
  {
    hide MkdirAll, Remove, Create, WriteData, Chmod, Chtimes;
    var e := FileThenDir(f, d).es[0];
    MkdirThere(t, Parent(f));
    RemoveSpec(t, f);
    var t2 := t - {f};
    assert NoLinkAt(t2, Parent(f));
    CreateSpec(t2, f, Made(0), e.mode);
    var t3 := t2[f := File(Made(0), [], e.mode, 0)];
    t' := WritesRest(t3, f, d);
    assert Finish(t2, e, 0, 2) == Some(t');
    assert Finish(t, e, 0, 1) == Some(t');
  }

  lemma FileNoLink(t: Tree, f: Path)
    requires Wf(t) && f in t && t[f].File?
    ensures NoLinkAt(t, f)
  {
  }

  /** With one entry after the file, the serial loop is the file's calls and then the directory's. */
  lemma SerialOfTwo(f: Path, d: Path, t0: Tree)
    requires f != [] && Plain(f) && Plain(d)
    ensures Serial(t0, FileThenDir(f, d).es) ==
      match Finish(t0, FileThenDir(f, d).es[0], 0, 0)
      case None => None
      case Some(t) => Finish(t, FileThenDir(f, d).es[1], 1, 0)
  {
    hide Finish;
    var es := FileThenDir(f, d).es;
    assert es[..1] == [es[0]] && es[..1][..0] == [];
    assert Serial(t0, es[..1]) == Apply(t0, 0, es[0]);
  }

  /**
   Without the second hypothesis: a directory entry repeats the name of a file
   still queued.  Serially the directory cannot be made over the file; in the
   pool the reader makes it first and the worker replaces it.
   */
  lemma DirectoryOverPendingFile() returns (c: Config, t0: Tree, acts: seq<Act>, t: Tree)
    ensures ConfigOk(c) && |c.es| == 2 && Sane(t0, 0)
    ensures Current(c.es, 2) == c.es && forall i :: 0 <= i < 2 ==> NoLinkAt(t0, Way(Current(c.es, 2)[i]))
    ensures Serial(t0, c.es).None? && Succeeds(c, t0, acts, t)
  {
    hide Run, Finish, MkdirAll, Chmod, Serial, Succeeds, Wf, NoLinkAt, HasChild, Current, Start;
    var f: Path := ["a"];
    t0 := map[[] := Dir(DIR_MODE)];
    c := FileThenDir(f, f);
    CurrentOfTwo(f, f);
    RootOnly(t0, f);
    var t1, t2 := MakeOver(t0, f);
    t := WritesOver(t2, f, f);
    acts := ReaderAhead(f, f, t0, t1, t2, t);
    SerialOfTwo(f, f, t0);
    NoDirAfterFile(t0, f, f);
  }

  lemma RootOnly(t0: Tree, f: Path)
    requires f == ["a"] && t0 == map[[] := Dir(DIR_MODE)]
    ensures Sane(t0, 0) && NoLinkAt(t0, f) && NoLinkAt(t0, []) && Parent(f) == []
    ensures forall r :: r in t0 && AtOrAbove(r, f) && r != f ==> !t0[r].Sym?
  {
  }

  /** The reader's two calls on a tree that holds nothing but its root. */
  lemma MakeOver(t0: Tree, f: Path) returns (t1: Tree, t2: Tree)
    requires f == ["a"] && t0 == map[[] := Dir(DIR_MODE)]
    ensures MkdirAll(t0, f) == Some(t1) && Chmod(t1, f, DIR_MODE) == Some(t2)
    ensures Parent(f) == [] && Wf(t2) && !HasChild(t2, f) && NoLinkAt(t2, []) && [] in t2 && t2[[]].Dir?
  {
    MkdirAllSpec(t0, f);
    t1 := MkdirAll(t0, f).value;
    forall q | q in t1 ensures q == [] || q == f { assert Get(t1, q) != None; }
    assert Get(t1, f) == Some(Dir(DIR_MODE)) && Get(t1, []) == Some(Dir(DIR_MODE));
    FollowPlain(t1, f);
    t2 := Chmod(t1, f, DIR_MODE).value;
    WfSameShape(t1, t2);
  }

  lemma CurrentOfTwo(f: Path, d: Path)
    requires f != [] && Plain(f) && Plain(d)
    ensures Current(FileThenDir(f, d).es, 2) == FileThenDir(f, d).es
  {
    var es := FileThenDir(f, d).es;
    assert Start(es, 2) == 0;
    var r := Current(es, 2);
    assert |r| == 2 && r[0] == es[0] && r[1] == es[1];
  }

  /** Once the file is written, no directory can be made at or below it. */
  lemma NoDirAfterFile(t0: Tree, f: Path, d: Path)
    requires f != [] && Plain(f) && Plain(d) && Sane(t0, 0) && NoLinkAt(t0, Parent(f)) && AtOrAbove(f, d)
    requires forall r :: r in t0 && AtOrAbove(r, d) && r != f ==> !t0[r].Sym?
    ensures match Finish(t0, FileThenDir(f, d).es[0], 0, 0)
      case None => true
      case Some(t) => Finish(t, FileThenDir(f, d).es[1], 1, 0).None?
  {
    var es := FileThenDir(f, d).es;
    match Finish(t0, es[0], 0, 0) {
      case None =>
      case Some(t) =>
        var file: Soft := es[0];
        FileLands(t0, t, file);
        forall r | AtOrAbove(r, d) && r in t ensures !t[r].Sym? {}
        MkdirAllSpec(t, d);
    }
  }

  lemma FileLands(t0: Tree, t: Tree, e: Soft)
    requires e.RegE? && Sane(t0, 0) && NoLinkAt(t0, Parent(e.name)) && Finish(t0, e, 0, 0) == Some(t)
    ensures Wf(t) && FewerLinks(t0, t) && e.name in t && t[e.name].File?
  {
    hide Finish;
    assert Gentle(t0, [e]);
    StartBatch(t0, 0);
    assert FullOf([]) == [] && [] + [e] == [e];
    OneMore(t0, [], 0, e, t0);
    assert Rules([e], FullOf([e]), 0);
  }

  /**
   Without the first hypothesis: a directory entry goes through a link that a
   queued file is about to replace.  Serially the link is gone by then.
   */
  lemma DirectoryThroughPendingLink() returns (c: Config, t0: Tree, acts: seq<Act>, t: Tree)
    ensures ConfigOk(c) && |c.es| == 2 && Sane(t0, 0)
    ensures Current(c.es, 2) == c.es && Current(c.es, 2)[0].name != Current(c.es, 2)[1].name
    ensures Serial(t0, c.es).None? && Succeeds(c, t0, acts, t)
  {
    hide Run, Finish, MkdirAll, Chmod, Serial, Succeeds, Current, Start;
    var f: Path, d: Path := ["l"], ["l", "x"];
    t0 := map[[] := Dir(DIR_MODE), ["d"] := Dir(DIR_MODE), f := Sym(["d"])];
    c := FileThenDir(f, d);
    assert Parent(f) == [] && Parent(d) == f;
    CurrentOfTwo(f, d);
    WellFormedLink(t0);
    var t1 := t0[["d", "x"] := Dir(DIR_MODE)];
    ThroughLink(t0, t1);
    assert Parent(["d", "x"]) == ["d"];
    WfSet(t0, ["d", "x"], Dir(DIR_MODE));
    t := WritesOver(t1, f, d);
    acts := ReaderAhead(f, d, t0, t1, t1, t);
    SerialOfTwo(f, d, t0);
    NoDirAfterFile(t0, f, d);
  }

  lemma WellFormedLink(t0: Tree)
    requires t0 == map[[] := Dir(DIR_MODE), ["d"] := Dir(DIR_MODE), ["l"] := Sym(["d"])]
    ensures Sane(t0, 0)
  {
    forall q, r | q in t0 && Above(r, q) ensures r == [] {}
  }

  lemma ThroughLink(t0: Tree, t1: Tree)
    requires t0 == map[[] := Dir(DIR_MODE), ["d"] := Dir(DIR_MODE), ["l"] := Sym(["d"])]
    requires t1 == t0[["d", "x"] := Dir(DIR_MODE)]
    ensures MkdirAll(t0, ["l", "x"]) == Some(t1) && Chmod(t1, ["l", "x"], DIR_MODE) == Some(t1)
  {
    assert Parent(["l", "x"]) == ["l"] && Last(["l", "x"]) == "x";
    assert ["d"] + ["l"][1..] == ["d"] && [] + ["l"] == ["l"] && [] + ["d"] == ["d"] && ["d"][1..] == [];
    assert Walk(t0, ["d"], [], true, 7) == At(t0, ["d"]);
    assert Walk(t0, [], ["d"], true, 7) == At(t0, ["d"]);
    assert Walk(t0, [], ["l"], true, MAX_LINKS) == At(t0, ["d"]);
    assert Holder(t0, ["l", "x"], true) == At(t0, ["d"]);
    assert ["d"] + ["x"] == ["d", "x"];
    ChmodThroughLink(t1);
    assert t1[["d", "x"] := Dir(DIR_MODE)] == t1;
  }

  lemma ChmodThroughLink(t1: Tree)
    requires t1 == map[[] := Dir(DIR_MODE), ["d"] := Dir(DIR_MODE), ["l"] := Sym(["d"])][["d", "x"] := Dir(DIR_MODE)]
    ensures Walk(t1, [], ["l", "x"], false, MAX_LINKS) == At(t1, ["d", "x"])
  {
    assert ["d"] + ["l", "x"][1..] == ["d", "x"] && ["d", "x"][1..] == ["x"] && ["x"][1..] == [];
    assert [] + ["l"] == ["l"] && [] + ["d"] == ["d"] && ["d"] + ["x"] == ["d", "x"];
    assert Walk(t1, ["d", "x"], [], false, 7) == At(t1, ["d", "x"]);
    assert Walk(t1, ["d"], ["x"], false, 7) == At(t1, ["d", "x"]);
    assert Walk(t1, [], ["d", "x"], false, 7) == At(t1, ["d", "x"]);
  }

  // ---- two files through a link ----

  const L: Path := ["l"]
  const D: Path := ["d"]
  const LX: Path := ["l", "x"]
  const DX: Path := ["d", "x"]

  /** A directory, a link to it, and perhaps a file in it. */
  function Linked(n: Option<Node>): Tree {
    var t: Tree := map[[] := Dir(DIR_MODE), D := Dir(DIR_MODE), L := Sym(D)];
    if n.Some? then t[DX := n.value] else t
  }

  /** Two files with one place to go, on two workers. */
  function Aliases(): Config {
    Config([RegE(LX, 0x1A4, 7, "A", false), RegE(DX, 0x1A4, 7, "B", false)], 2, p => if p == LX then 0 else 1)
  }

  predicate FileOrNone(n: Option<Node>) {
    n.Some? ==> n.value.File?
  }

  lemma Names(n: Option<Node>)
    requires FileOrNone(n)
    ensures L != D && LX != DX && Parent(LX) == L && Parent(DX) == D && Last(LX) == "x" && Last(DX) == "x" && D + ["x"] == DX
    ensures var t := Linked(n);
      && [] in t && t[[]] == Dir(DIR_MODE) && D in t && t[D] == Dir(DIR_MODE) && L in t && t[L] == Sym(D)
      && (DX in t <==> n.Some?) && (n.Some? ==> t[DX] == n.value) && t.Keys <= {[], D, L, DX}
  {
    assert L[0] != D[0] && LX[0] != DX[0];
  }

  /** Both directories of the two names are the one directory. */
  lemma WalkDir(n: Option<Node>, mk: bool)
    requires FileOrNone(n)
    ensures Walk(Linked(n), [], D, mk, MAX_LINKS) == At(Linked(n), D) && Walk(Linked(n), [], D, mk, 7) == At(Linked(n), D)
    ensures Walk(Linked(n), [], L, mk, MAX_LINKS) == At(Linked(n), D)
  {
    Names(n);
    var t := Linked(n);
    assert [] + ["d"] == D && [] + ["l"] == L && D[1..] == [] && L[1..] == [] && D + [] == D;
    assert Walk(t, D, [], mk, 7) == At(t, D) && Walk(t, D, [], mk, MAX_LINKS) == At(t, D);
    assert Walk(t, [], D, mk, 7) == At(t, D);
  }

  /** And so are the two files. */
  lemma WalkFile(n: Option<Node>, name: Path)
    requires n.Some? && n.value.File? && (name == LX || name == DX)
    ensures Walk(Linked(n), [], name, false, MAX_LINKS) == At(Linked(n), DX)
  {
    Names(n);
    var t := Linked(n);
    assert [] + ["d"] == D && [] + ["l"] == L && DX[1..] == ["x"] && LX[1..] == ["x"] && D + ["x"] == DX && ["x"][1..] == [];
    assert forall k: nat :: Walk(t, D, ["x"], false, k) == At(t, DX);
    assert Walk(t, [], DX, false, 7) == At(t, DX) && Walk(t, [], DX, false, MAX_LINKS) == At(t, DX);
  }

  lemma HolderDir(n: Option<Node>, name: Path)
    requires FileOrNone(n) && (name == LX || name == DX)
    ensures Holder(Linked(n), name, false) == At(Linked(n), D) && D + [Last(name)] == DX
    ensures MkdirAll(Linked(n), Parent(name)) == Some(Linked(n))
  {
    hide Walk;
    Names(n);
    WalkDir(n, false);
    WalkDir(n, true);
    WalkRoot(n);
    assert Parent(L) == [] && Parent(D) == [] && Last(L) == "l" && Last(D) == "d" && [] + ["l"] == L && [] + ["d"] == D;
  }

  lemma WalkRoot(n: Option<Node>)
    ensures Walk(Linked(n), [], [], true, MAX_LINKS) == At(Linked(n), [])
  {
  }

  lemma LinkedSet(n: Option<Node>, m: Node)
    requires FileOrNone(n)
    ensures Linked(n)[DX := m] == Linked(Some(m)) && Linked(n) - {DX} == Linked(None) && !HasChild(Linked(n), DX)
    ensures forall q :: q in Linked(n) && Linked(n)[q].File? ==> q == DX
  {
    Names(n);
    forall q | q in Linked(n) ensures !Above(DX, q) {}
  }

  /** Writing either file replaces what is at the one place. */
  lemma AliasWrites(n: Option<Node>, e: Entry, id: nat)
    requires FileOrNone(n) && e.RegE? && (e.name == LX || e.name == DX) && EntryOk(e)
    ensures Finish(Linked(n), e, id, 0) == Some(Linked(Some(File(Made(id), e.data, e.mode, e.mtime))))
  {
    hide Walk, Finish, Linked, MkdirAll, HasChild;
    HolderDir(n, e.name);
    HolderDir(None, e.name);
    var f0 := File(Made(id), [], e.mode, 0);
    LinkedSet(n, f0);
    LinkedSet(None, f0);
    Names(n);
    Names(None);
    FinishStep(Linked(n), e, id, 0);
    FinishStep(Linked(n), e, id, 1);
    assert Remove(Linked(n), e.name) == Some(Linked(None));
    FinishStep(Linked(None), e, id, 2);
    AliasRest(e, id);
  }

  lemma SetOne(f: Node, name: Path, mode: nat, mtime: int)
    requires f.File? && (name == LX || name == DX)
    ensures Chmod(Linked(Some(f)), name, mode) == Some(Linked(Some(f.(mode := mode))))
    ensures Chtimes(Linked(Some(f)), name, mtime) == Some(Linked(Some(f.(mtime := mtime))))
  {
    hide Walk, Linked;
    WalkFile(Some(f), name);
    var t, g, h := Linked(Some(f)), f.(mode := mode), f.(mtime := mtime);
    OneFile(f, g);
    OneFile(f, h);
    assert (map q | q in t :: if t[q].File? && t[q].ino == f.ino then t[q].(mode := mode) else t[q])
      == (map q | q in t :: if t[q].File? then g else t[q]);
    assert (map q | q in t :: if t[q].File? && t[q].ino == f.ino then t[q].(mtime := mtime) else t[q])
      == (map q | q in t :: if t[q].File? then h else t[q]);
  }

  lemma AliasRest(e: Entry, id: nat)
    requires e.RegE? && (e.name == LX || e.name == DX) && EntryOk(e)
    ensures Finish(Linked(Some(File(Made(id), [], e.mode, 0))), e, id, 3)
      == Some(Linked(Some(File(Made(id), e.data, e.mode, e.mtime))))
  {
    hide Walk, Finish, Linked;
    var f0, f1 := File(Made(id), [], e.mode, 0), File(Made(id), e.data, e.mode, 0);
    var f2 := File(Made(id), e.data, e.mode, e.mtime);
    FinishStep(Linked(Some(f0)), e, id, 3);
    OneFile(f0, f1);
    assert WriteData(Linked(Some(f0)), Made(id), e.data) == Linked(Some(f1));
    FinishStep(Linked(Some(f1)), e, id, 4);
    SetOne(f1, e.name, e.mode, e.mtime);
    FinishStep(Linked(Some(f1)), e, id, 5);
    FinishEnd(Linked(Some(f2)), e, id);
  }

  /** The file is the only one, so what is done to all files of its inode is done to it. */
  lemma OneFile(f: Node, g: Node)
    requires f.File? && g.File?
    ensures DX in Linked(Some(f)) && Linked(Some(f))[DX] == f
    ensures (map q | q in Linked(Some(f)) :: if Linked(Some(f))[q].File? then g else Linked(Some(f))[q]) == Linked(Some(g))
    ensures forall q :: q in Linked(Some(f)) && Linked(Some(f))[q].File? ==> q == DX
  {
    Names(Some(f));
    Names(Some(g));
    LinkedSet(None, g);
  }

  lemma LinkedSane()
    ensures Sane(Linked(None), 0) && !NoLinkAt(Linked(None), Parent(LX)) && NoLinkAt(Linked(None), Parent(DX))
  {
    Names(None);
    var t := Linked(None);
    forall q, r | q in t && Above(r, q) ensures r == [] {}
    assert AtOrAbove(L, Parent(LX)) && L in t && t[L].Sym?;
    forall r | AtOrAbove(r, D) && r in t ensures !t[r].Sym? {
      assert r == D || r == [] || r == L;
    }
  }

  lemma AliasesOk()
    ensures ConfigOk(Aliases()) && Current(Aliases().es, 2) == Aliases().es
    ensures Aliases().shard(LX) == 0 && Aliases().shard(DX) == 1
  {
    Names(None);
    var es := Aliases().es;
    assert Start(es, 2) == 0;
    var r := Current(es, 2);
    assert |r| == 2 && r[0] == es[0] && r[1] == es[1];
  }

  lemma AliasSerial(t0: Tree, t1: Tree, t2: Tree)
    requires StreamOk(Aliases().es)
    requires Finish(t0, Aliases().es[0], 0, 0) == Some(t1) && Finish(t1, Aliases().es[1], 1, 0) == Some(t2)
    ensures Serial(t0, Aliases().es) == Some(t2)
  {
    hide Finish;
    var es := Aliases().es;
    assert es[..1] == [es[0]] && es[..1][..0] == [];
    assert Serial(t0, es[..1]) == Apply(t0, 0, es[0]);
  }

  /**
   Without the first hypothesis, for files alone: sharding goes by name, and two names
   lead to one file through a link.  Both loops succeed, and the trees differ: the
   serial one keeps the later entry, the pool whichever worker was last.
   */
  lemma FilesThroughLink() returns (c: Config, t0: Tree, acts: seq<Act>, pooled: Tree, serial: Tree)
    ensures ConfigOk(c) && c.n == 2 && |c.es| == 2 && Sane(t0, 0)
    ensures Current(c.es, 2) == c.es && c.es[0].RegE? && c.es[1].RegE?
    ensures NoLinkAt(t0, Way(Current(c.es, 2)[1])) && !NoLinkAt(t0, Way(Current(c.es, 2)[0]))
    ensures Serial(t0, c.es) == Some(serial) && Succeeds(c, t0, acts, pooled)
    ensures DX in pooled && pooled[DX].File? && pooled[DX].data == c.es[0].data
    ensures DX in serial && serial[DX].File? && serial[DX].data == c.es[1].data
    ensures c.es[0].data != c.es[1].data && pooled != serial
  {
    hide Finish, Shape, Run, Reaches, Carries, Filled, Succeeds, Linked, Serial, NoLinkAt, Start, Current;
    c, t0 := Aliases(), Linked(None);
    AliasesOk();
    LinkedSane();
    var e0, e1 := c.es[0], c.es[1];
    var a, b := File(Made(0), "A", 0x1A4, 7), File(Made(1), "B", 0x1A4, 7);
    AliasWrites(None, e0, 0);
    AliasWrites(Some(a), e1, 1);
    AliasWrites(None, e1, 1);
    AliasWrites(Some(b), e0, 0);
    AliasSerial(t0, Linked(Some(a)), Linked(Some(b)));
    acts := AliasRun(t0, Linked(Some(b)), Linked(Some(a)));
    pooled, serial := Linked(Some(a)), Linked(Some(b));
    OneFile(a, a);
    OneFile(b, b);
  }

  /** The second worker writes before the first. */
  lemma AliasRun(t0: Tree, t1: Tree, t2: Tree) returns (acts: seq<Act>)
    requires ConfigOk(Aliases()) && Aliases().shard(LX) == 0 && Aliases().shard(DX) == 1
    requires Finish(t0, Aliases().es[1], 1, 0) == Some(t1) && Finish(t1, Aliases().es[0], 0, 0) == Some(t2)
    ensures Succeeds(Aliases(), t0, acts, t2)
  {
    hide Finish, Shape, Run, Reaches, Carries, Filled, Succeeds;
    var c := Aliases();
    Begins(c, t0);
    var st := Init(c, t0);
    Sizes(c, st);
    st := Queues(c, t0, st, 0);
    st := Queues(c, t0, st, 1);
    assert Carries(c, st, Job(0, 0)) by { FirstCarries(c, st); }
    st := WritesOne(c, t0, st, 1, Job(1, 1), t1);
    StillThere(c, st);
    st := WritesOne(c, t0, st, 0, Job(0, 0), t2);
    acts := Closes(c, t0, st);
  }

  lemma StillThere(c: Config, st: State)
    requires c == Aliases() && 0 in st.mem && st.mem[0] == Filled(c.es[0].data)
    ensures Carries(c, st, Job(0, 0))
  {
    FirstCarries(c, st);
  }
}
