/**
 What a nuke that is killed early leaves: `.config` goes before the marker that
 vouches for it.  While only runs with that configuration follow, every one of them
 fails in make, and none of them mends it.
 */
module Wedge {
  import opened Wrappers
  import opened Text
  import opened Names
  import opened Specs
  import opened Identity
  import opened Kbuild
  import opened Protocol
  import opened MountInvariant
  import opened RunInvariant
  import opened RunSteps
  import opened Histories
  import opened Walks
  import opened Exactness

  /** The stamp and the marker these inputs ask for, and no `.config`. */
  predicate Wedged(w: World, m: Mount, i: Inputs) {
    Stamped(w, m, i) && Holds(m, MARKER, ConfigId(i.words, i.config)) && [CONFIG] !in m
  }

  /** A tree with its Makefile and the stamp the inputs ask for. */
  predicate Stamped(w: World, m: Mount, i: Inputs) {
    Holds(m, STAMP, Want(w, i)) && Present(m) && m[[MAKEFILE]].Data?
  }

  /** A run that the mount's stamp and marker satisfy, and that needs `.config`. */
  predicate Alike(w: World, i: Inputs, j: Inputs) {
    Want(w, j) == Want(w, i) && j.words == i.words && j.config == i.config && w.needsConfig(j.job)
  }

  // ---- the guard ----

  /** The one state of a stamped mount from which a run that needs `.config` cannot get to its artifacts. */
  predicate Stuck(w: World, m: Mount, i: Inputs) {
    Holds(m, MARKER, ConfigId(i.words, i.config)) && [CONFIG] !in m && w.needsConfig(i.job)
  }

  /** The run can be carried to its artifacts with nothing cutting it off. */
  ghost predicate CanExport(w: World, id: string, store: Store, m: Mount, i: Inputs) {
    exists m', r: Run :: r.pc.Push? && r.i == i && Leads(w, id, store, Slot(m, Some(First(i, m))), Slot(m', Some(r)))
  }

  /** Where a run that meets a wedged mount can be, as long as it lives. */
  ghost predicate Stalled(w: World, m: Mount, r: Run) {
    && (r.pc == Begin || r.pc == Configure || r.pc == Ready || r.pc == Make)
    && Wedged(w, m, r.i) && w.needsConfig(r.i.job)
  }

  lemma SweptWedge(w: World, m: Mount, m': Mount, i: Inputs)
    requires Wedged(w, m, i) && Swept(m, m')
    ensures Wedged(w, m', i)
  {
    hide Want, ConfigId, IsSrc, Own, Before, AfterStamp, Skipped;
    OwnNames();
    forall p | !Aside(p) ensures Get(m', p) == Get(m, p) {}
    assert Get(m', [STAMP]) == Get(m, [STAMP]) && Get(m', [MARKER]) == Get(m, [MARKER]) && Get(m', [MAKEFILE]) == Get(m, [MAKEFILE]);
  }

  lemma MadeWedge(w: World, m: Mount, m': Mount, i: Inputs, by': Prov)
    requires Wedged(w, m, i) && Made(m, m', by', [VERSION])
    ensures Wedged(w, m', i)
  {
    hide Want, ConfigId, IsSrc, Own, Before, AfterStamp, Skipped, Aside;
    OwnNames();
    assert [VERSION][0] != [STAMP][0] && [VERSION][0] != [MARKER][0] && [VERSION][0] != [CONFIG][0] && [VERSION][0] != [MAKEFILE][0];
    assert Get(m', [STAMP]) == Get(m, [STAMP]) && Get(m', [MARKER]) == Get(m, [MARKER]);
    assert Get(m', [CONFIG]) == Get(m, [CONFIG]) && Get(m', [MAKEFILE]) == Get(m, [MAKEFILE]);
  }

  lemma VersionWedge(w: World, m: Mount, i: Inputs)
    requires Wedged(w, m, i)
    ensures Wedged(w, m - {[VERSION]}, i)
  {
    hide Want, ConfigId;
    assert [VERSION][0] != [STAMP][0] && [VERSION][0] != [MARKER][0] && [VERSION][0] != [CONFIG][0] && [VERSION][0] != [MAKEFILE][0];
  }

  /** A stalled run that goes on is stalled still; one that ends leaves the mount as wedged as it was. */
  lemma StalledStays(w: World, id: string, store: Store, s: Slot, s': Slot, ev: Event)
    requires s.run.Some? && InputsOk(w, s.run.value.i) && Stalled(w, s.m, s.run.value)
    requires SlotNext(w, id, store, s, s', ev)
    ensures Wedged(w, s'.m, s.run.value.i) && ev == Quiet
    ensures s'.run.Some? ==> s'.run.value.i == s.run.value.i && Stalled(w, s'.m, s'.run.value)
  {
    hide InputsOk, Want, ConfigId, Made, Swept, Wedged;
    var r := s.run.value;
    OpenWedge(w, s.m, r.i);
    NoBuild(w, s.m, s'.m, r.i);
    if s'.run == None && ev == Quiet && Partial(w, r, s.m, s'.m) {
      match r.pc
      case Begin => SweptWedge(w, s.m, s'.m, r.i);
      case Configure =>
      case Ready => VersionWedge(w, s.m, r.i);
      case Make => MadeWedge(w, s.m, s'.m, r.i, Provenance(s.m, r.i));
    } else {
      match r.pc
      case Begin => SweptWedge(w, s.m, s'.m, r.i); OpenWedge(w, s'.m, r.i);
      case Configure =>
      case Ready => VersionWedge(w, s.m, r.i);
      case Make =>
    }
  }

  lemma OpenWedge(w: World, m: Mount, i: Inputs)
    requires Wedged(w, m, i)
    ensures Holds(m, STAMP, Want(w, i)) && Present(m) && Holds(m, MARKER, ConfigId(i.words, i.config)) && [CONFIG] !in m
  {
  }

  lemma NoBuild(w: World, m: Mount, m': Mount, i: Inputs)
    requires [CONFIG] !in m && w.needsConfig(i.job)
    ensures forall out :: !Built(w, m, m', i, out)
  {
  }

  lemma {:induction false} FollowsStalled(w: World, id: string, store: Store, trace: seq<Slot>)
    requires trace != [] && Follows(w, id, store, trace) && trace[0].run.Some?
    requires InputsOk(w, trace[0].run.value.i) && Stalled(w, trace[0].m, trace[0].run.value)
    ensures var last := trace[|trace| - 1];
      last.run.Some? ==> Stalled(w, last.m, last.run.value) && last.run.value.i == trace[0].run.value.i
  {
    hide InputsOk, Stalled, SlotNext;
    var n := |trace| - 1;
    if n > 0 {
      assert trace[..n][n - 1] == trace[n - 1] && trace[..n][0] == trace[0];
      FollowsStalled(w, id, store, trace[..n]);
      assert SlotNext(w, id, store, trace[n - 1], trace[n], Quiet);
      if trace[n - 1].run.Some? {
        StalledStays(w, id, store, trace[n - 1], trace[n], Quiet);
      } else {
        NoQuietStart(w, id, store, trace[n - 1], trace[n]);
      }
    }
  }

  lemma NoQuietStart(w: World, id: string, store: Store, s: Slot, s': Slot)
    requires SlotNext(w, id, store, s, s', Quiet)
    ensures s.run.Some?
  {
  }

  lemma StuckIsStuck(w: World, id: string, store: Store, m: Mount, i: Inputs)
    requires InputsOk(w, i) && Stamped(w, m, i) && Stuck(w, m, i)
    ensures !CanExport(w, id, store, m, i)
  {
    hide InputsOk, Want, ConfigId, Follows;
    forall m', r: Run, trace: seq<Slot> | r.pc.Push? && r.i == i && trace != [] && Follows(w, id, store, trace)
      && trace[0] == Slot(m, Some(First(i, m))) && trace[|trace| - 1] == Slot(m', Some(r))
      ensures false
    {
      FollowsStalled(w, id, store, trace);
    }
  }

  /**
   The guard: on a stamped tree, a run that nothing cuts off can be carried to its
   artifacts exactly if not: its marker is there, `.config` is not, and it needs it.
   */
  lemma CanExportIff(w: World, id: string, store: Store, m: Mount, i: Inputs)
    requires InputsOk(w, i) && Stamped(w, m, i) && ([CONFIG] in m ==> m[[CONFIG]].Data?)
    ensures CanExport(w, id, store, m, i) <==> !Stuck(w, m, i)
  {
    hide InputsOk, Want, ConfigId, Leads, Made, Marked;
    if Stuck(w, m, i) {
      StuckIsStuck(w, id, store, m, i);
    } else {
      var a := Slot(m, Some(First(i, m)));
      var r := ToWarm(w, id, store, i, m);
      var m1 := if Holds(m, MARKER, ConfigId(i.words, i.config)) then m else Marked(w, m, i);
      if Holds(m, MARKER, ConfigId(i.words, i.config)) {
        ToSkip(w, id, store, a, m, r);
      } else {
        ToReady(w, id, store, a, m, r);
        MarkedIs(w, m, i);
      }
      NothingMade(m1, Prov(i.tool, ViewOf(m1)));
      ToPush(w, id, store, a, m1, r.(pc := Ready), m1 - {[VERSION]});
      assert r.(pc := Push(Output(w, m1, i))).pc.Push?;
    }
  }

  // ---- histories of a wedged mount ----

  ghost predicate WedgedSlot(w: World, i: Inputs, s: Slot) {
    Wedged(w, s.m, i) && (s.run.Some? ==> InputsOk(w, s.run.value.i) && Stalled(w, s.m, s.run.value))
  }

  lemma AlikeWedged(w: World, i: Inputs, j: Inputs, m: Mount)
    requires Alike(w, i, j)
    ensures Wedged(w, m, i) <==> Wedged(w, m, j)
  {
    hide Want, ConfigId;
  }

  lemma StepWedged(w: World, i: Inputs, at: Place, s: System, s': System)
    requires Step(w, s, s') && WedgedSlot(w, i, SlotAt(s, at))
    requires SlotAt(s, at).run.Some? ==> Alike(w, i, SlotAt(s, at).run.value.i)
    requires SlotAt(s', at).run.Some? ==> Alike(w, i, SlotAt(s', at).run.value.i)
    ensures WedgedSlot(w, i, SlotAt(s', at))
    ensures s.log <= s'.log && forall k :: |s.log| <= k < |s'.log| ==> s'.log[k].at != at
  {
    hide InputsOk, Want, ConfigId, Wedged, SlotNext, Alike;
    var where, slot', ev :| Moves(w, s, s', where, slot', ev);
    if where == at {
      var slot := SlotAt(s, at);
      if slot.run.Some? {
        StalledStays(w, at.1, s.store, slot, slot', ev);
        AlikeWedged(w, i, slot.run.value.i, slot'.m);
      } else {
        StartsStalled(w, i, at.1, s.store, slot, slot', ev);
      }
    }
  }

  lemma StartsStalled(w: World, i: Inputs, id: string, store: Store, s: Slot, s': Slot, ev: Event)
    requires s.run.None? && Wedged(w, s.m, i) && SlotNext(w, id, store, s, s', ev)
    requires s'.run.Some? ==> Alike(w, i, s'.run.value.i)
    ensures WedgedSlot(w, i, s') && !ev.Export?
  {
    hide InputsOk, Want, ConfigId;
    AlikeWedged(w, i, s'.run.value.i, s'.m);
  }

  /**
   Nothing mends a wedged mount from within: as long as only runs with its stamp,
   list and configuration that need `.config` hold it, wherever they are cut off, it
   stays as it is and none of them exports anything.
   */
  lemma {:induction false} NoneExports(w: World, i: Inputs, at: Place, h: seq<System>)
    requires h != [] && Goes(w, h) && WedgedSlot(w, i, SlotAt(h[0], at))
    requires forall k :: 0 <= k < |h| && SlotAt(h[k], at).run.Some? ==> Alike(w, i, SlotAt(h[k], at).run.value.i)
    ensures var last := h[|h| - 1];
      && WedgedSlot(w, i, SlotAt(last, at))
      && h[0].log <= last.log && forall k :: |h[0].log| <= k < |last.log| ==> last.log[k].at != at
  {
    hide WedgedSlot, Alike, Step;
    var n := |h| - 1;
    if n > 0 {
      assert h[..n][n - 1] == h[n - 1] && h[..n][0] == h[0];
      assert forall k :: 0 <= k < n ==> h[..n][k] == h[k];
      NoneExports(w, i, at, h[..n]);
      assert Step(w, h[n - 1], h[n]);
      StepWedged(w, i, at, h[n - 1], h[n]);
    }
  }

  // ---- how it comes to that ----

  /** What is left when a nuke is killed right after `.config`. */
  function CutNuke(m: Mount): Mount {
    map p | p in m && (IsSrc(p) || !(p[0] == CONFIG || Before(p[0], CONFIG))) :: m[p]
  }

  lemma CutNukeIs(m: Mount)
    ensures PartlyNuked(m, CutNuke(m))
  {
    hide Before, IsSrc;
    var m' := CutNuke(m);
    forall p, q | p in m && p !in m' && q in m' && !IsSrc(q) ensures !Before(q[0], p[0]) {
      if p[0] != CONFIG && Before(q[0], p[0]) { BeforeChains(q[0], p[0], CONFIG); }
    }
  }

  lemma ConfigFirst()
    ensures !Before(STAMP, CONFIG) && !Before(MARKER, CONFIG) && !Before(MAKEFILE, CONFIG)
    ensures STAMP != CONFIG && MARKER != CONFIG && MAKEFILE != CONFIG
  {
    assert STAMP[1] > CONFIG[1] && MARKER[1] > CONFIG[1] && MAKEFILE[0] > CONFIG[0];
  }

  lemma CutNukeWedges(w: World, m: Mount, i: Inputs)
    requires Stamped(w, m, i) && Holds(m, MARKER, ConfigId(i.words, i.config))
    ensures Wedged(w, CutNuke(m), i)
  {
    hide Want, ConfigId, Before, IsSrc;
    ConfigFirst();
    assert !IsSrc([CONFIG]) by { OwnNames(); }
  }

  /** A run that has resolved its configuration and is then cut off. */
  lemma ConfiguredThenCut(w: World, i: Inputs, b: string) returns (s: System, m: Mount)
    requires WorldOk(w) && InputsOk(w, i) && Matches(w, i, b) && TreeOf(w, b, i.patches).Some?
    ensures Reachable(w, s) && SlotAt(s, Home(w, i)) == Slot(m, None) && s.log == [] && s.past == {i}
    ensures Stamped(w, m, i) && Holds(m, MARKER, ConfigId(i.words, i.config))
  {
    hide Reachable, InputsOk, WorldOk, TreeOf, Leads, Want, ConfigId, Marked, Matches, Fresh, Partial, Stamped;
    var at := Home(w, i);
    var r;
    s, r := Prepared(w, i, b);
    UrlThere(w, i);
    var m0 := Fresh(w, i, b);
    NotMarked(w, i, b);
    Stay(w, at.1, s.store, Slot(m0, Some(r)));
    ToReady(w, at.1, s.store, Slot(m0, Some(r)), m0, r);
    m := Marked(w, m0, i);
    ReadyCut(w, r.(pc := Ready), m);
    End(w, at.1, s.store, Slot(m0, Some(r)), m, r.(pc := Ready), m);
    s := Lift(w, s, at, Slot(m, None));
  }

  lemma ReadyCut(w: World, r: Run, m: Mount)
    requires InputsOk(w, r.i) && r.pc == Ready
    ensures Partial(w, r, m, m)
  {
    hide InputsOk;
  }

  lemma NotMarked(w: World, i: Inputs, b: string)
    requires WorldOk(w) && InputsOk(w, i) && TreeOf(w, b, i.patches).Some?
    ensures !i.src.Local? ==> UrlOk(i.src.url)
    ensures var m := Fresh(w, i, b);
      && !Holds(m, MARKER, ConfigId(i.words, i.config))
      && Stamped(w, Marked(w, m, i), i) && Holds(Marked(w, m, i), MARKER, ConfigId(i.words, i.config))
  {
    hide InputsOk, WorldOk, TreeOf, Want, ConfigId, Settle, ViewOf, SourceView, FromTree;
    UrlThere(w, i);
    FreshIs(w, i, b);
    MarkedIs(w, Fresh(w, i, b), i);
  }

  /** Inputs that differ in their source, which is at hand. */
  function Elsewhere(i: Inputs, b: string): Inputs {
    i.(src := Local(b), seed := None)
  }

  /**
   It comes to that: a run that is cut off once it is configured, and another source
   on the same mount whose nuke is killed right after `.config`.
   */
  lemma WedgeReached(w: World, i: Inputs, b: string, b': string) returns (s: System)
    requires WorldOk(w) && InputsOk(w, i) && Matches(w, i, b) && TreeOf(w, b, i.patches).Some?
    requires b' in w.blobs && Want(w, Elsewhere(i, b')) != Want(w, i)
    ensures Reachable(w, s) && SlotAt(s, Home(w, i)).run == None && Wedged(w, SlotAt(s, Home(w, i)).m, i)
    ensures s.past == {i, Elsewhere(i, b')} && s.log == []
  {
    hide Reachable, InputsOk, WorldOk, TreeOf, Leads, Want, ConfigId, Matches, CutNuke, Stamped, Wedged;
    var at, j := Home(w, i), Elsewhere(i, b');
    assert InputsOk(w, j) && j.src == Local(b') by { ElsewhereOk(w, i, b'); }
    var m;
    s, m := ConfiguredThenCut(w, i, b);
    s := Begun(w, s, at, j);
    NukeCut(w, at.1, s.store, i, j, m, b');
    s := Lift(w, s, at, Slot(CutNuke(m), None));
    CutNukeWedges(w, m, i);
  }

  lemma ElsewhereOk(w: World, i: Inputs, b: string)
    requires InputsOk(w, i) && b in w.blobs
    ensures InputsOk(w, Elsewhere(i, b))
  {
  }

  lemma NukeCut(w: World, id: string, store: Store, i: Inputs, j: Inputs, m: Mount, b: string)
    requires InputsOk(w, j) && j.src == Local(b) && Stamped(w, m, i) && Want(w, j) != Want(w, i)
    ensures Leads(w, id, store, Slot(m, Some(First(j, m))), Slot(CutNuke(m), None))
  {
    hide InputsOk, Leads, Want, CutNuke;
    var a, r := Slot(m, Some(First(j, m))), First(j, m);
    Stay(w, id, store, a);
    assert Swept(m, m);
    Go(w, id, store, a, m, r, m, Acquire(true));
    var r1 := r.(pc := Acquire(true));
    var r2 := r1.(src := Some(Context(b)), pc := Nuke(Replace));
    assert Complete(w, store, r1, m, m, Some(r2), Quiet);
    OneMore(w, id, store, a, Slot(m, Some(r1)), Slot(m, Some(r2)));
    CutNukeIs(m);
    End(w, id, store, a, m, r2, CutNuke(m));
  }

  /** For a pinned source the same tarball, given locally, is another source. */
  lemma LocalIsElsewhere(w: World, i: Inputs, b: string)
    requires WorldOk(w) && InputsOk(w, i) && i.src.Pinned? && b in w.blobs
    ensures Want(w, Elsewhere(i, b)) != Want(w, i)
  {
    hide WorldOk, Stamp;
    if Want(w, Elsewhere(i, b)) == Want(w, i) {
      assert Want(w, i) == Stamp(SrcName(w, true, b), Digest(w, i.patches));
      WantNames(w, i, true, b, i.patches);
    }
  }
}
