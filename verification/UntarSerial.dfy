/**
 `writeEntry` and the entry loop of `untarFiltered` (`cmd/kbuild-step/main.go`) as
 the methods they are, without the pool: they do what `Serial` says.
 */
module UntarSerial {
  import opened Wrappers
  import opened FileTree
  import opened Extract

  /** A header as it is read: the name split into components, and what it stands for. */
  datatype Header =
    | DirH(name: Path, mode: nat)
    | RegH(name: Path, mode: nat, mtime: int, data: Bytes, big: bool)
    | SymH(name: Path, target: Path)
    | LinkH(name: Path, from: Path)
    | OtherH(name: Path)
    | BadH

  /**
   `stripComponents`: drop the leading components, and the entry with them if that is
   all there is.  The root, here the empty path, is one component (".").
   */
  function Strip(name: Path, strip: nat): Option<Path> {
    if name == [] then if strip == 0 then Some([]) else None
    else if |name| <= strip then None else Some(name[strip..])
  }

  /** What the loop makes of a header; `rename` may drop it as well. */
  function Meant(h: Header, strip: nat, rename: Path -> Option<Path>): Option<Entry> {
    if h.BadH? then Some(BadE)
    else match Strip(h.name, strip)
      case None => None
      case Some(stripped) =>
        match rename(stripped)
        case None => None
        case Some(name) =>
          match h
          case DirH(_, mode) => Some(DirE(name, mode))
          case RegH(_, mode, mtime, data, big) => Some(RegE(name, mode, mtime, data, big))
          case SymH(_, target) => Some(SymE(name, target))
          case LinkH(_, from) =>
            (match Strip(from, strip) case None => None case Some(f) => Some(LinkE(name, f)))
          case OtherH(_) => None
  }

  /** The entries a stream of headers comes to. */
  function Stream(hs: seq<Header>, strip: nat, rename: Path -> Option<Path>): seq<Entry> {
    if hs == [] then []
    else
      var n := |hs| - 1;
      Stream(hs[..n], strip, rename) + match Meant(hs[n], strip, rename) case None => [] case Some(e) => [e]
  }

  ghost predicate HeadersOk(hs: seq<Header>, strip: nat, rename: Path -> Option<Path>) {
    StreamOk(Stream(hs, strip, rename))
  }

  lemma {:induction false} StreamGrows(hs: seq<Header>, strip: nat, rename: Path -> Option<Path>, n: nat)
    requires n <= |hs|
    ensures Stream(hs[..n], strip, rename) <= Stream(hs, strip, rename)
    decreases |hs|
  {
    if n == |hs| {
      assert hs[..n] == hs;
    } else {
      var k := |hs| - 1;
      assert hs[..k][..n] == hs[..n];
      StreamGrows(hs[..k], strip, rename, n);
    }
  }

  class Root {
    var fs: Tree

    constructor (fs: Tree)
      ensures this.fs == fs
    {
      this.fs := fs;
    }

    /** One call on the root: it fails and changes nothing, or goes through. */
    method Do(t: Option<Tree>) returns (ok: bool)
      modifies this
      ensures ok <==> t.Some?
      ensures fs == if ok then t.value else old(fs)
    {
      if t.Some? {
        fs := t.value;
      }
      return t.Some?;
    }

    /** Make the ancestors, replace what is there, write, and restore mode and time. */
    method WriteEntry(e: Entry, id: nat) returns (ok: bool)
      requires EntryOk(e) && e.RegE?
      modifies this
      ensures ok <==> Apply(old(fs), id, e).Some?
      ensures ok ==> Some(fs) == Apply(old(fs), id, e)
    {
      hide MkdirAll, Remove, Create, WriteData, Chmod, Chtimes;
      FinishStep(fs, e, id, 0);
      ok := Do(MkdirAll(fs, Parent(e.name)));
      if !ok { return; }
      FinishStep(fs, e, id, 1);
      ok := Do(Remove(fs, e.name));
      if !ok { return; }
      FinishStep(fs, e, id, 2);
      ok := Do(Create(fs, e.name, Made(id), e.mode));
      if !ok { return; }
      FinishStep(fs, e, id, 3);
      fs := WriteData(fs, Made(id), e.data);
      FinishStep(fs, e, id, 4);
      ok := Do(Chmod(fs, e.name, e.mode));
      if !ok { return; }
      FinishStep(fs, e, id, 5);
      ok := Do(Chtimes(fs, e.name, e.mtime));
    }

    method MakeDir(e: Entry, id: nat) returns (ok: bool)
      requires EntryOk(e) && e.DirE?
      modifies this
      ensures ok <==> Apply(old(fs), id, e).Some?
      ensures ok ==> Some(fs) == Apply(old(fs), id, e)
    {
      hide MkdirAll, Chmod;
      FinishStep(fs, e, id, 0);
      ok := Do(MkdirAll(fs, e.name));
      if !ok { return; }
      FinishStep(fs, e, id, 1);
      ok := Do(Chmod(fs, e.name, e.mode));
    }

    method MakeLink(e: Entry, id: nat) returns (ok: bool)
      requires EntryOk(e) && (e.SymE? || e.LinkE?)
      modifies this
      ensures ok <==> Apply(old(fs), id, e).Some?
      ensures ok ==> Some(fs) == Apply(old(fs), id, e)
    {
      hide MkdirAll, Remove, Symlink, Link;
      ok := Do(MkdirAll(fs, Parent(e.name)));
      if !ok { return; }
      ok := Do(Remove(fs, e.name));
      if !ok { return; }
      if e.SymE? {
        ok := Do(Symlink(fs, e.target, e.name));
      } else {
        ok := Do(Link(fs, e.from, e.name));
      }
    }

    method Put(e: Entry, id: nat) returns (ok: bool)
      requires EntryOk(e)
      modifies this
      ensures ok <==> Apply(old(fs), id, e).Some?
      ensures ok ==> Some(fs) == Apply(old(fs), id, e)
    {
      hide Finish, ClearFor, Link, Symlink;
      match e
      case DirE(_, _) => ok := MakeDir(e, id);
      case RegE(_, _, _, _, _) => ok := WriteEntry(e, id);
      case SymE(_, _) => ok := MakeLink(e, id);
      case LinkE(_, _) => ok := MakeLink(e, id);
      case BadE => ok := false;
    }

    /** The loop over the headers: success exactly when `Serial` has a result, and then with it. */
    method Untar(hs: seq<Header>, strip: nat, rename: Path -> Option<Path>) returns (ok: bool)
      requires HeadersOk(hs, strip, rename)
      modifies this
      ensures ok <==> Serial(old(fs), Stream(hs, strip, rename)).Some?
      ensures ok ==> Some(fs) == Serial(old(fs), Stream(hs, strip, rename))
    {
      hide Apply, Meant, EntryOk;
      ghost var es := Stream(hs, strip, rename);
      var k, id := 0, 0;
      assert hs[..0] == [];
      while k < |hs|
        invariant 0 <= k <= |hs| && id == |Stream(hs[..k], strip, rename)|
        invariant Stream(hs[..k], strip, rename) <= es
        invariant Serial(old(fs), es[..id]) == Some(fs)
      {
        var meant := Meant(hs[k], strip, rename);
        assert hs[..k + 1][..k] == hs[..k];
        StreamGrows(hs, strip, rename, k + 1);
        if meant.Some? {
          assert es[id] == meant.value && es[..id + 1][..id] == es[..id];
          ok := Put(meant.value, id);
          if !ok {
            assert Serial(old(fs), es[..id + 1]) == None;
            FailsOn(old(fs), es, id + 1);
            return;
          }
          id := id + 1;
        }
        k := k + 1;
      }
      assert hs[..k] == hs && es[..id] == es;
      return true;
    }
  }

  lemma FailsOn(t0: Tree, es: seq<Entry>, n: nat)
    requires StreamOk(es) && n <= |es| && Serial(t0, es[..n]) == None
    ensures Serial(t0, es) == None
  {
    if Serial(t0, es).Some? { SerialPrefix(t0, es, n); }
  }

  // ---- what the headers of an archive mean ----

  /** The leading components go, and nothing else. */
  lemma StripLeading(p: Path, n: Path)
    requires n != []
    ensures Strip(p + n, |p|) == Some(n)
    ensures forall strip: nat :: Strip(n, strip).None? <==> |n| <= strip
    ensures forall strip: nat :: Strip([], strip).None? <==> strip > 0
  {
    assert (p + n)[|p|..] == n;
  }

  /** The header an archive has for an entry, under the directory `p` it wraps everything in. */
  function Wrapped(p: Path, e: Entry): Header {
    match e
    case DirE(name, mode) => DirH(p + name, mode)
    case RegE(name, mode, mtime, data, big) => RegH(p + name, mode, mtime, data, big)
    case SymE(name, target) => SymH(p + name, target)
    case LinkE(name, from) => LinkH(p + name, p + from)
    case BadE => BadH
  }

  function Archive(p: Path, es: seq<Entry>): seq<Header> {
    if es == [] then [] else Archive(p, es[..|es| - 1]) + [Wrapped(p, es[|es| - 1])]
  }

  /** Neither the name nor what a hard link names is the wrapping directory itself. */
  predicate Inside(e: Entry) {
    e.BadE? || (e.name != [] && (e.LinkE? ==> e.from != []))
  }

  function Keep(rename: Path -> Option<Path>, e: Entry): seq<Entry> {
    if e.BadE? then [e]
    else match rename(e.name)
      case None => []
      case Some(n) => [e.(name := n)]
  }

  /** Every entry under its new name, those without one left out. */
  function Renamed(rename: Path -> Option<Path>, es: seq<Entry>): seq<Entry> {
    if es == [] then [] else Renamed(rename, es[..|es| - 1]) + Keep(rename, es[|es| - 1])
  }

  lemma WrappedMeans(p: Path, e: Entry, rename: Path -> Option<Path>)
    requires Inside(e) || p == []
    ensures Meant(Wrapped(p, e), |p|, rename) == if Keep(rename, e) == [] then None else Some(Keep(rename, e)[0])
  {
    if p == [] {
      if !e.BadE? { assert [] + e.name == e.name; }
      if e.LinkE? { assert [] + e.from == e.from; }
    } else if !e.BadE? {
      StripLeading(p, e.name);
      if e.LinkE? { StripLeading(p, e.from); }
    }
  }

  /**
   An archive that wraps its entries in a directory, read with as many components
   stripped, comes to those entries: names, link sources, modes, times and contents,
   each name as it is renamed.
   */
  lemma {:induction false} ArchiveMeans(p: Path, es: seq<Entry>, rename: Path -> Option<Path>)
    requires p == [] || forall e :: e in es ==> Inside(e)
    ensures Stream(Archive(p, es), |p|, rename) == Renamed(rename, es)
  {
    if es != [] {
      var n := |es| - 1;
      ArchiveMeans(p, es[..n], rename);
      WrappedMeans(p, es[n], rename);
      var hs := Archive(p, es);
      assert hs[..|hs| - 1] == Archive(p, es[..n]) && hs[|hs| - 1] == Wrapped(p, es[n]);
    }
  }

  /** No renaming. */
  function Same(n: Path): Option<Path> {
    Some(n)
  }

  lemma {:induction false} RenamedSame(es: seq<Entry>)
    ensures Renamed(Same, es) == es
  {
    if es != [] {
      RenamedSame(es[..|es| - 1]);
      assert es == es[..|es| - 1] + [es[|es| - 1]];
    }
  }

  /** The wrapping directory's own header, or one for nothing the loop knows, is passed over. */
  lemma PassedOver(p: Path, h: Header, strip: nat, rename: Path -> Option<Path>)
    ensures |p| <= strip && (p != [] || strip > 0) && !h.BadH? && h.name == p ==> Meant(h, strip, rename) == None
    ensures h.OtherH? ==> Meant(h, strip, rename) == None
  {
  }

  lemma TarballStream(dir: string, mode: nat, es: seq<Entry>)
    requires forall e :: e in es ==> Inside(e)
    ensures Stream([DirH([dir], mode)] + Archive([dir], es), 1, Same) == es
  {
    hide Archive, Meant, Strip, Same, Renamed;
    var p, top := [dir], [DirH([dir], mode)];
    ArchiveMeans(p, es, Same);
    RenamedSame(es);
    PassedOver(p, top[0], 1, Same);
    assert top[..0] == [];
    StreamJoin(top, Archive(p, es), 1, Same);
  }

  /** A kernel tarball, unpacked without its one directory, gives what its entries would give by themselves. */
  lemma TarballUnwraps(dir: string, mode: nat, es: seq<Entry>, t0: Tree)
    requires StreamOk(es) && forall e :: e in es ==> Inside(e)
    ensures var hs := [DirH([dir], mode)] + Archive([dir], es);
      HeadersOk(hs, 1, Same) && Serial(t0, Stream(hs, 1, Same)) == Serial(t0, es)
  {
    hide Archive, Stream, Serial, StreamOk;
    TarballStream(dir, mode, es);
  }

  lemma {:induction false} StreamJoin(a: seq<Header>, b: seq<Header>, strip: nat, rename: Path -> Option<Path>)
    ensures Stream(a + b, strip, rename) == Stream(a, strip, rename) + Stream(b, strip, rename)
    decreases |b|
  {
    if b == [] {
      assert a + b == a;
    } else {
      var n := |b| - 1;
      assert (a + b)[..|a + b| - 1] == a + b[..n];
      StreamJoin(a, b[..n], strip, rename);
    }
  }
}
