/**
 The cached tarball as two files of a mount: what `Download` makes of them is the
 acquiring step of the protocol, or what that step leaves when it fails.
 */
module SourceMount {
  import opened Wrappers
  import opened Text
  import opened Specs
  import opened Kbuild
  import opened Protocol
  import opened RunSteps
  import Download

  function FileAt(m: Mount, p: FilePath): Option<string> {
    if p in m && m[p].Data? then Some(m[p].s) else None
  }

  function Put(m: Mount, p: FilePath, file: Option<string>): Mount {
    if file.Some? then m[p := Data(file.value)] else m - {p}
  }

  /** The pin of a URL source, or nothing. */
  function PinOf(src: Origin): string {
    if src.Pinned? then src.sum else ""
  }

  /** The mount with its two files as a call leaves them. */
  function After(m: Mount, src: Origin, k: Download.Kept): Mount
    requires !src.Local? && UrlOk(src.url)
  {
    Put(Put(m, PartAt(src), k.part), CachedAt(src), k.cached)
  }

  /** What the call does with the two files of this mount. */
  function Called(w: World, src: Origin, m: Mount, net: Download.Net): Download.Kept
    requires !src.Local? && UrlOk(src.url)
  {
    Download.Acquired(w.sha, PinOf(src), net, Download.Kept(true, FileAt(m, CachedAt(src)), FileAt(m, PartAt(src))))
  }

  predicate PlainFiles(m: Mount, src: Origin)
    requires !src.Local? && UrlOk(src.url)
  {
    (CachedAt(src) in m ==> m[CachedAt(src)].Data?) && (PartAt(src) in m ==> m[PartAt(src)].Data?)
  }

  lemma PutBack(m: Mount, p: FilePath)
    requires p in m ==> m[p].Data?
    ensures Put(m, p, FileAt(m, p)) == m
  {
  }

  /** Success is the protocol's acquiring step; failure is what that step can leave when it is cut off. */
  lemma CallIsStep(w: World, i: Inputs, m: Mount, net: Download.Net)
    requires InputsOk(w, i) && !i.src.Local? && UrlOk(i.src.url) && PlainFiles(m, i.src)
    ensures var k := Called(w, i.src, m, net);
      && (k.ok && k.cached.value in w.blobs ==>
            Acquired(w, i, m, After(m, i.src, k), Cached(CachedAt(i.src), k.cached.value)))
      && (!k.ok ==> PartlyFetched(m, After(m, i.src, k), PartAt(i.src)))
  {
    hide InputsOk, CachedAt, PartAt, UrlOk, Download.Attempts;
    PinThere(w, i);
    assert CachedAt(i.src) != PartAt(i.src) by { PartNames(i.src); }
    PutBack(m, PartAt(i.src));
    PutBack(m, CachedAt(i.src));
    var k := Called(w, i.src, m, net);
    var m' := After(m, i.src, k);
    if !k.ok {
      assert k.cached == FileAt(m, CachedAt(i.src));
      forall q | q != PartAt(i.src) ensures Get(m', q) == Get(m, q) {}
    }
  }

  lemma PinThere(w: World, i: Inputs)
    requires InputsOk(w, i)
    ensures i.src.Pinned? ==> i.src.sum != ""
  {
  }
}
