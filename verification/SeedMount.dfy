/**
 What the step protocol takes from the seed round trip: its `Packed` and
 `Quarantined` are what the walk and the extraction do to a mount's files.
 */
module SeedMount {
  import opened Wrappers
  import opened Text
  import opened Names
  import FileTree
  import SeedTree
  import opened Kbuild

  /** The files of a tree as the protocol sees them; `kind` tells objects from data by their bytes. */
  function FilesOf(t: FileTree.Tree, kind: FileTree.Bytes -> Cell): Mount
    requires [] in t ==> !t[[]].File?
  {
    map p | p in t && t[p].File? :: kind(t[p].data)
  }

  lemma SameSkips(q: SeedTree.Name)
    ensures SeedTree.Skipped(q) <==> Skipped(q)
    ensures SeedTree.Quarantine(q) == if q == [STAMP] then [SEED_STAMP] else q
  {
  }

  /** A path other than the stamps comes back exactly if the walk packs it. */
  lemma OtherFile(t: FileTree.Tree, u: FileTree.Tree, kind: FileTree.Bytes -> Cell, p: FilePath)
    requires SeedTree.Packable(t) && SeedTree.RoundTripped(t, u) && [] in u && !u[[]].File?
    requires p != [STAMP] && p != [SEED_STAMP]
    ensures Get(FilesOf(u, kind), p) == Get(Packed(FilesOf(t, kind)), p)
  {
    if p in t {
      var q: SeedTree.Name := p;
      SameSkips(q);
      if !Skipped(p) { assert SeedTree.Quarantine(q) in u && SeedTree.SameNode(t[q], u[SeedTree.Quarantine(q)]); }
    }
    if p in u && u[p].File? {
      assert !(FileTree.Plain(p) && SeedTree.Hollow(t, p));
      var q: SeedTree.Name :| q in t && !SeedTree.Skipped(q) && SeedTree.Quarantine(q) == p;
      SameSkips(q);
      assert SeedTree.SameNode(t[q], u[SeedTree.Quarantine(q)]);
    }
  }

  lemma StampsPacked()
    ensures [STAMP] != [SEED_STAMP] && !Skipped([STAMP])
    ensures !SeedTree.Skipped([STAMP]) && !SeedTree.Skipped([SEED_STAMP])
  {
    assert [STAMP][0] != [SEED_STAMP][0];
    assert STAMP[6] != ".kbf-src"[6] && SEED_STAMP[6] != ".kbf-src"[6] && STAMP[5] == SEED_STAMP[5] == 's';
    assert STAMP[6] != ".kbf-seed-"[6] && SEED_STAMP[6] != ".kbf-seed-"[6];
    SameSkips([STAMP]);
  }

  /** The live stamp goes. */
  lemma StampGone(t: FileTree.Tree, u: FileTree.Tree)
    requires SeedTree.Packable(t) && SeedTree.RoundTripped(t, u)
    ensures [STAMP] !in u
  {
    hide SeedTree.Skipped;
    var a: SeedTree.Name := [STAMP];
    StampsPacked();
    assert forall q: SeedTree.Name :: SeedTree.Quarantine(q) != a;
    assert !SeedTree.Hollow(t, a);
  }

  /** The live stamp goes, and its text comes back under the other name. */
  lemma StampFile(t: FileTree.Tree, u: FileTree.Tree, kind: FileTree.Bytes -> Cell)
    requires SeedTree.Packable(t) && SeedTree.RoundTripped(t, u) && [] in u && !u[[]].File?
    ensures Get(FilesOf(u, kind), [STAMP]) == None
    ensures Get(FilesOf(u, kind), [SEED_STAMP]) == Get(FilesOf(t, kind), [STAMP])
    ensures !Skipped([STAMP])
  {
    hide SeedTree.Skipped, Skipped;
    var a: SeedTree.Name, b: SeedTree.Name := [STAMP], [SEED_STAMP];
    StampsPacked();
    StampGone(t, u);
    if a in t { assert SeedTree.Quarantine(a) in u && SeedTree.SameNode(t[a], u[SeedTree.Quarantine(a)]); }
    if b in u && u[b].File? {
      assert !SeedTree.Hollow(t, b);
      var q: SeedTree.Name :| q in t && !SeedTree.Skipped(q) && SeedTree.Quarantine(q) == b;
      assert q == a;
    }
  }

  /**
   The files of a mount after the round trip are the protocol's: what the walk packs,
   with the stamp quarantined.
   */
  lemma RoundTripIsProtocol(t: FileTree.Tree, u: FileTree.Tree, kind: FileTree.Bytes -> Cell)
    requires SeedTree.Packable(t) && SeedTree.RoundTripped(t, u) && [] in u && !u[[]].File?
    ensures FilesOf(u, kind) == Quarantined(Packed(FilesOf(t, kind)))
  {
    hide FilesOf, SeedTree.RoundTripped, Skipped;
    var m, k := FilesOf(u, kind), Packed(FilesOf(t, kind));
    StampFile(t, u, kind);
    assert [SEED_STAMP] !in FilesOf(t, kind) by { NoSeedStamp(t, kind); }
    forall p: FilePath ensures Get(m, p) == Get(Quarantined(k), p) {
      if p != [STAMP] && p != [SEED_STAMP] { OtherFile(t, u, kind, p); }
    }
    SameMount(m, Quarantined(k));
  }

  lemma NoSeedStamp(t: FileTree.Tree, kind: FileTree.Bytes -> Cell)
    requires SeedTree.Packable(t)
    ensures [SEED_STAMP] !in FilesOf(t, kind)
  {
  }

  lemma SameMount(m: Mount, m': Mount)
    requires forall p :: Get(m, p) == Get(m', p)
    ensures m == m'
  {
    assert m.Keys == m'.Keys by {
      forall p: FilePath ensures p in m <==> p in m' { assert Get(m, p) == Get(m', p); }
    }
    forall p | p in m ensures m[p] == m'[p] { assert Get(m, p) == Get(m', p); }
  }
}
