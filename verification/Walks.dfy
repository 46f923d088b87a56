/**
 Runs put together step by step: what a run that nothing cuts off can reach, and
 how such a walk of one mount is part of a history of the whole system.
 */
module Walks {
  import opened Wrappers
  import opened Text
  import opened Names
  import opened Specs
  import opened Identity
  import opened Kbuild
  import opened Protocol
  import opened MountInvariant
  import opened RunInvariant
  import opened RunSteps
  import opened RunDone
  import opened RunBuild
  import opened Histories

  // ---- one mount ----

  lemma Stay(w: World, id: string, store: Store, a: Slot)
    ensures Leads(w, id, store, a, a)
  {
    assert Follows(w, id, store, [a]);
  }

  lemma OneMore(w: World, id: string, store: Store, a: Slot, b: Slot, c: Slot)
    requires Leads(w, id, store, a, b) && SlotNext(w, id, store, b, c, Quiet)
    ensures Leads(w, id, store, a, c)
  {
    hide Follows, SlotNext;
    var trace :| trace != [] && Follows(w, id, store, trace) && trace[0] == a && trace[|trace| - 1] == b;
    FollowsMore(w, id, store, trace, c);
    var longer := trace + [c];
    assert longer[0] == a && longer[|longer| - 1] == c;
  }

  /** One step completed. */
  lemma Go(w: World, id: string, store: Store, a: Slot, m: Mount, r: Run, m': Mount, pc: Pc)
    requires Leads(w, id, store, a, Slot(m, Some(r))) && InputsOk(w, r.i)
    requires Complete(w, store, r, m, m', To(r, pc), Quiet)
    ensures Leads(w, id, store, a, Slot(m', To(r, pc)))
  {
    hide Leads, InputsOk, Complete;
    OneMore(w, id, store, a, Slot(m, Some(r)), Slot(m', To(r, pc)));
  }

  /** A run that ends here, with a part of its step done. */
  lemma End(w: World, id: string, store: Store, a: Slot, m: Mount, r: Run, m': Mount)
    requires Leads(w, id, store, a, Slot(m, Some(r))) && InputsOk(w, r.i) && Partial(w, r, m, m')
    ensures Leads(w, id, store, a, Slot(m', None))
  {
    hide Leads, InputsOk, Partial;
    OneMore(w, id, store, a, Slot(m, Some(r)), Slot(m', None));
  }

  // ---- the system ----

  lemma Further(w: World, s: System, at: Place, slot': Slot, ev: Event) returns (s': System)
    requires Reachable(w, s) && SlotNext(w, at.1, s.store, SlotAt(s, at), slot', ev)
    ensures Reachable(w, s') && SlotAt(s', at) == slot'
    ensures forall other :: other != at ==> SlotAt(s', other) == SlotAt(s, other)
    ensures s'.store == Stored(s.store, ev) && s'.log == Logged(s.log, at, s.past, ev) && s'.past == Past(s.past, ev)
  {
    hide SlotNext, InputsOk;
    s' := System(s.slots[at := slot'], Stored(s.store, ev), Logged(s.log, at, s.past, ev), Past(s.past, ev));
    assert Moves(w, s, s', at, slot', ev);
    var h :| History(w, h) && h[|h| - 1] == s;
    var longer := h + [s'];
    forall k | 0 <= k < |longer| - 1 ensures Step(w, longer[k], longer[k + 1]) {
      if k < |h| - 1 { assert Step(w, h[k], h[k + 1]); }
    }
    assert History(w, longer);
  }

  lemma FromStart(w: World)
    ensures Reachable(w, START)
  {
    assert History(w, [START]);
  }

  /** A run begins on a mount no run holds. */
  lemma Begun(w: World, s: System, at: Place, i: Inputs) returns (s': System)
    requires Reachable(w, s) && SlotAt(s, at).run == None && InputsOk(w, i) && MountId(Short(w), i.tool) == at.1
    ensures Reachable(w, s') && SlotAt(s', at) == Slot(SlotAt(s, at).m, Some(Run(i, Begin, None, SlotAt(s, at).m)))
    ensures forall other :: other != at ==> SlotAt(s', other) == SlotAt(s, other)
    ensures s'.store == s.store && s'.log == s.log && s'.past == s.past + {i}
  {
    hide Reachable, InputsOk;
    s' := Further(w, s, at, Slot(SlotAt(s, at).m, Some(Run(i, Begin, None, SlotAt(s, at).m))), Began(i));
  }

  lemma {:induction false} FollowsLifts(w: World, s: System, at: Place, trace: seq<Slot>) returns (s': System)
    requires Reachable(w, s) && trace != [] && trace[0] == SlotAt(s, at) && Follows(w, at.1, s.store, trace)
    ensures Reachable(w, s') && SlotAt(s', at) == trace[|trace| - 1]
    ensures forall other :: other != at ==> SlotAt(s', other) == SlotAt(s, other)
    ensures s'.store == s.store && s'.log == s.log && s'.past == s.past
    decreases |trace|
  {
    hide Reachable, SlotNext;
    if |trace| == 1 {
      s' := s;
    } else {
      var n := |trace| - 1;
      var s1 := FollowsLifts(w, s, at, trace[..n]);
      assert trace[..n][n - 1] == trace[n - 1];
      s' := Further(w, s1, at, trace[n], Quiet);
    }
  }

  /** What one mount can do, the system can. */
  lemma Lift(w: World, s: System, at: Place, b: Slot) returns (s': System)
    requires Reachable(w, s) && Leads(w, at.1, s.store, SlotAt(s, at), b)
    ensures Reachable(w, s') && SlotAt(s', at) == b
    ensures forall other :: other != at ==> SlotAt(s', other) == SlotAt(s, other)
    ensures s'.store == s.store && s'.log == s.log && s'.past == s.past
  {
    hide Reachable, Follows;
    var trace :| trace != [] && Follows(w, at.1, s.store, trace) && trace[0] == SlotAt(s, at) && trace[|trace| - 1] == b;
    s' := FollowsLifts(w, s, at, trace);
  }

  /** A run with its artifacts ready pushes the seed it was asked for, and exports. */
  lemma Exports(w: World, s: System, at: Place, m: Mount, r: Run) returns (s': System)
    requires Reachable(w, s) && SlotAt(s, at) == Slot(m, Some(r)) && r.pc.Push? && InputsOk(w, r.i)
    ensures Reachable(w, s') && SlotAt(s', at) == Slot(m, None)
    ensures forall other :: other != at ==> SlotAt(s', other) == SlotAt(s, other)
    ensures s'.log == s.log + [Artifact(at, r.i, r.pc.out, s.past)] && s'.past == s.past
    ensures s'.store == if r.i.seed.Some? && r.i.seed.value.push then s.store[LocOf(w, r.i) := Packed(m)] else s.store
  {
    hide Reachable, InputsOk, LocOf, Packed;
    var ev := if r.i.seed.Some? && r.i.seed.value.push then Put(LocOf(w, r.i), Packed(m)) else Quiet;
    var s1 := Further(w, s, at, Slot(m, To(r, Finish(r.pc.out))), ev);
    s' := Further(w, s1, at, Slot(m, None), Export(r.i, r.pc.out));
  }

  // ---- from an empty mount to a stamped tree ----

  /** The mount with the tarball where the inputs say it is. */
  function Supplied(i: Inputs, b: string): Mount
    requires !i.src.Local? ==> UrlOk(i.src.url)
  {
    if i.src.Local? then map[] else map[CachedAt(i.src) := Data(b)]
  }

  lemma SuppliedOk(w: World, i: Inputs, b: string, src: Src)
    requires InputsOk(w, i) && Matches(w, i, b)
    requires src == if i.src.Local? then Context(b) else Cached(CachedAt(i.src), b)
    ensures Acquired(w, i, map[], Supplied(i, b), src)
  {
    if !i.src.Local? {
      var none: Mount := map[];
      assert (none - {PartAt(i.src)})[CachedAt(i.src) := Data(b)] == Supplied(i, b);
    }
  }

  lemma SuppliedBare(i: Inputs, b: string)
    requires !i.src.Local? ==> UrlOk(i.src.url)
    ensures forall p :: p in Supplied(i, b) ==> IsSrc(p) && Supplied(i, b)[p].Data?
  {
    if !i.src.Local? { PartNames(i.src); }
  }

  predicate NoSeed(w: World, store: Store, i: Inputs) {
    i.seed.None? || LocOf(w, i) !in store
  }

  function First(i: Inputs, m: Mount): Run {
    Run(i, Begin, None, m)
  }

  lemma ToExtract(w: World, id: string, store: Store, i: Inputs, b: string) returns (r: Run)
    requires WorldOk(w) && InputsOk(w, i) && Matches(w, i, b) && NoSeed(w, store, i)
    ensures Leads(w, id, store, Slot(map[], Some(First(i, map[]))), Slot(Supplied(i, b), Some(r)))
    ensures r.i == i && r.pc == Extract && r.src.Some? && Reads(Supplied(i, b), r.src.value, b)
  {
    hide Leads, WorldOk, Want, LocOf;
    var a := Slot(map[], Some(First(i, map[])));
    Stay(w, id, store, a);
    Go(w, id, store, a, map[], First(i, map[]), map[], Nuke(Clear));
    r := First(i, map[]).(pc := Nuke(Clear));
    Go(w, id, store, a, map[], r, map[], Acquire(false));
    r := r.(pc := Acquire(false));
    var src := if i.src.Local? then Context(b) else Cached(CachedAt(i.src), b);
    SuppliedOk(w, i, b, src);
    var next := r.(src := Some(src), pc := Extract);
    assert Complete(w, store, r, map[], Supplied(i, b), Some(next), Quiet);
    OneMore(w, id, store, a, Slot(map[], Some(r)), Slot(Supplied(i, b), Some(next)));
    r := next;
  }

  lemma Again(m: Mount, t: Source, t': Source)
    requires TreeOk(t)
    ensures OnlySrc(OnlySrc(m) + FromTree(t)) + FromTree(t') == OnlySrc(m) + FromTree(t')
  {
    hide Before, IsSrc, Own, AfterStamp, Aside, Skipped;
    OwnNames();
  }

  /** The mount as a cold preparation leaves it. */
  function Fresh(w: World, i: Inputs, b: string): Mount
    requires TreeOf(w, b, i.patches).Some? && (!i.src.Local? ==> UrlOk(i.src.url))
  {
    (OnlySrc(Supplied(i, b)) + FromTree(TreeOf(w, b, i.patches).value))[[STAMP] := Data(Want(w, i))]
  }

  lemma TreeIsOk(w: World, b: string, p: Option<Series>)
    requires WorldOk(w) && TreeOf(w, b, p).Some?
    ensures TreeOk(TreeOf(w, b, p).value)
    ensures w.unpack(b).Some? && TreeOk(w.unpack(b).value)
  {
  }

  lemma ToStamp(w: World, id: string, store: Store, i: Inputs, b: string) returns (r: Run)
    requires WorldOk(w) && InputsOk(w, i) && Matches(w, i, b) && NoSeed(w, store, i) && TreeOf(w, b, i.patches).Some?
    ensures Leads(w, id, store, Slot(map[], Some(First(i, map[]))),
      Slot(OnlySrc(Supplied(i, b)) + FromTree(TreeOf(w, b, i.patches).value), Some(r)))
    ensures r.i == i && r.pc == WriteStamp
  {
    hide Leads, WorldOk, Want, Matches, IsSrc, OnlySrc, FromTree, TreeOk, Supplied, Reads, LocOf,
      Acquired, Made, Built, Configured, Swept, Quarantined, ConfigId, Packed;
    var a := Slot(map[], Some(First(i, map[])));
    r := ToExtract(w, id, store, i, b);
    TreeIsOk(w, b, i.patches);
    var m0, t, tree := Supplied(i, b), w.unpack(b).value, TreeOf(w, b, i.patches).value;
    var m := OnlySrc(m0) + FromTree(t);
    var pc := if i.patches.Some? then Patch(t) else WriteStamp;
    assert Extracted(w, m0, m, r, pc);
    Go(w, id, store, a, m0, r, m, pc);
    r := r.(pc := pc);
    if i.patches.Some? {
      Again(m0, t, tree);
      Go(w, id, store, a, m, r, OnlySrc(m) + FromTree(tree), WriteStamp);
    }
    r := r.(pc := WriteStamp);
  }

  lemma FreshIs(w: World, i: Inputs, b: string)
    requires WorldOk(w) && InputsOk(w, i) && TreeOf(w, b, i.patches).Some?
    ensures var m := Fresh(w, i, b);
      && Holds(m, STAMP, Want(w, i)) && ViewOf(m) == SourceView(TreeOf(w, b, i.patches).value) && Present(m)
      && [MARKER] !in m && [VERSION] !in m && [CONFIG] !in m && [SEED_STAMP] !in m
      && (forall p :: p in m ==> m[p].Data?)
      && (forall p :: !Own(p) ==> Get(m, p) == Get(FromTree(TreeOf(w, b, i.patches).value), p))
  {
    hide Before, IsSrc, Own, AfterStamp, Aside, Skipped, WorldOk, InputsOk, Want, TreeOf, Supplied;
    var t := TreeOf(w, b, i.patches).value;
    assert !i.src.Local? ==> UrlOk(i.src.url) by { UrlThere(w, i); }
    OwnNames();
    TreeIsOk(w, b, i.patches);
    SuppliedBare(i, b);
    var m1 := OnlySrc(Supplied(i, b)) + FromTree(t);
    assert OnlySrc(m1) == OnlySrc(Supplied(i, b));
    TreeView(m1, m1[[STAMP] := Data(Want(w, i))], t, Want(w, i));
  }

  lemma UrlThere(w: World, i: Inputs)
    requires InputsOk(w, i)
    ensures !i.src.Local? ==> UrlOk(i.src.url)
  {
  }

  /** A run can always get from nothing to a stamped tree, given its tarball. */
  lemma ToConfigure(w: World, id: string, store: Store, i: Inputs, b: string) returns (r: Run)
    requires WorldOk(w) && InputsOk(w, i) && Matches(w, i, b) && NoSeed(w, store, i) && TreeOf(w, b, i.patches).Some?
    ensures Leads(w, id, store, Slot(map[], Some(First(i, map[]))), Slot(Fresh(w, i, b), Some(r)))
    ensures r.i == i && r.pc == Configure
  {
    hide Leads, WorldOk, Want, Matches, IsSrc, OnlySrc, FromTree, ViewOf, SourceView, TreeOk, TreeOf, LocOf, Supplied,
      Acquired, Made, Built, Configured, Swept, Quarantined, ConfigId, Packed, Present, Own;
    var a := Slot(map[], Some(First(i, map[])));
    r := ToStamp(w, id, store, i, b);
    var m := OnlySrc(Supplied(i, b)) + FromTree(TreeOf(w, b, i.patches).value);
    FreshIs(w, i, b);
    Go(w, id, store, a, m, r, Fresh(w, i, b), Configure);
    r := r.(pc := Configure);
  }

  /** A run on a tree with its stamp goes straight to the configuration. */
  lemma ToWarm(w: World, id: string, store: Store, i: Inputs, m: Mount) returns (r: Run)
    requires InputsOk(w, i) && Holds(m, STAMP, Want(w, i)) && Present(m)
    ensures Leads(w, id, store, Slot(m, Some(First(i, m))), Slot(m, Some(r)))
    ensures r == First(i, m).(pc := Configure)
  {
    hide Leads, InputsOk, Want, Present;
    var a := Slot(m, Some(First(i, m)));
    Stay(w, id, store, a);
    assert Swept(m, m);
    Go(w, id, store, a, m, First(i, m), m, Configure);
    r := First(i, m).(pc := Configure);
  }

  // ---- the configuration ----

  /** The protocol's own files are not in the view. */
  lemma OwnEdits(m: Mount, m': Mount)
    requires forall p :: p != [CONFIG] && p != [MARKER] && p != [VERSION] ==> Get(m', p) == Get(m, p)
    ensures ViewOf(m') == ViewOf(m)
    ensures [STAMP] != [CONFIG] && [STAMP] != [MARKER] && [STAMP] != [VERSION]
    ensures [MAKEFILE] != [CONFIG] && [MAKEFILE] != [MARKER] && [MAKEFILE] != [VERSION]
    ensures [CONFIG] != [MARKER] && [CONFIG] != [VERSION] && [MARKER] != [VERSION]
  {
    hide IsSrc, Own, Before, AfterStamp, Aside, Skipped;
    OwnNames();
    assert [CONFIG][0] != [VERSION][0] && [MARKER][0] != [VERSION][0] && [STAMP][0] != [VERSION][0];
    forall p ensures Seen(m, p) == Seen(m', p) {
      if p != [CONFIG] && p != [MARKER] && p != [VERSION] { assert Get(m', p) == Get(m, p); }
    }
    SameView(m, m');
  }

  lemma ConfigWritten(m: Mount, i: Inputs, text: string)
    ensures Configured(m, m[[CONFIG] := Data(text)], i, text)
    ensures ViewOf(m[[CONFIG] := Data(text)]) == ViewOf(m)
  {
    hide ViewOf, Own;
    OwnEdits(m, m[[CONFIG] := Data(text)]);
  }

  /** The mount with `.config` drafted and the marker out of the way. */
  function Draft(w: World, m: Mount, i: Inputs): Mount {
    (m - {[MARKER]})[[CONFIG] := Data(Drafted(w, i.tool, ViewOf(m), i.words, i.config, Prior(m)))]
  }

  lemma ToUnmarked(w: World, id: string, store: Store, a: Slot, m: Mount, r: Run)
    requires Leads(w, id, store, a, Slot(m, Some(r))) && InputsOk(w, r.i) && r.pc == Configure
    requires !Holds(m, MARKER, ConfigId(r.i.words, r.i.config))
    ensures Leads(w, id, store, a, Slot(m - {[MARKER]}, Some(r.(pc := if r.i.words == [] then WriteConfig else RunBase))))
    ensures ViewOf(m - {[MARKER]}) == ViewOf(m) && Prior(m - {[MARKER]}) == Prior(m)
  {
    hide Leads, InputsOk, ViewOf, ConfigId;
    OwnEdits(m, m - {[MARKER]});
    Go(w, id, store, a, m, r, m - {[MARKER]}, if r.i.words == [] then WriteConfig else RunBase);
  }

  /** `configure` up to `olddefconfig`, when the base make finds what `.config` holds. */
  lemma ToOldDef(w: World, id: string, store: Store, a: Slot, m: Mount, r: Run)
    requires Leads(w, id, store, a, Slot(m, Some(r))) && InputsOk(w, r.i) && r.pc == Configure
    requires !Holds(m, MARKER, ConfigId(r.i.words, r.i.config))
    ensures Leads(w, id, store, a, Slot(Draft(w, m, r.i), Some(r.(pc := RunOldDef))))
  {
    hide Leads, InputsOk, ViewOf, Configured, Blank, ConfigId, Holds, Prior;
    var i, m1 := r.i, m - {[MARKER]};
    ToUnmarked(w, id, store, a, m, r);
    if i.words == [] {
      Go(w, id, store, a, m1, r.(pc := WriteConfig), Draft(w, m, i), RunOldDef);
    } else {
      var text := w.baseMake(i.tool, ViewOf(m), i.words, Prior(m));
      var m2 := m1[[CONFIG] := Data(text)];
      ConfigWritten(m1, i, text);
      Go(w, id, store, a, m1, r.(pc := RunBase), m2, if Blank(i.config) then RunOldDef else AppendFragment);
      if Blank(i.config) {
        assert text + "" == text;
      } else {
        assert Prior(m2) == Some(text) by { PriorOf(m1, text); }
        assert m2[[CONFIG] := Data(text + ("\n" + i.config))] == Draft(w, m, i);
        Go(w, id, store, a, m2, r.(pc := AppendFragment), Draft(w, m, i), RunOldDef);
      }
    }
  }

  lemma PriorOf(m: Mount, text: string)
    ensures Prior(m[[CONFIG] := Data(text)]) == Some(text)
  {
  }

  /** The mount with `.config` resolved and the marker still out of the way. */
  function Settle(w: World, m: Mount, i: Inputs): Mount {
    (m - {[MARKER]})[[CONFIG] := Data(Resolved(w, i.tool, ViewOf(m), i.words, i.config, Prior(m)))]
  }

  lemma SettleIs(w: World, m: Mount, i: Inputs)
    ensures ViewOf(Settle(w, m, i)) == ViewOf(m) && ViewOf(Draft(w, m, i)) == ViewOf(m)
    ensures Prior(Settle(w, m, i)) == Some(Resolved(w, i.tool, ViewOf(m), i.words, i.config, Prior(m)))
    ensures Get(Settle(w, m, i), [STAMP]) == Get(m, [STAMP]) && Get(Settle(w, m, i), [MAKEFILE]) == Get(m, [MAKEFILE])
    ensures [MARKER] !in Settle(w, m, i)
  {
    hide ViewOf, Resolved, Drafted;
    OwnEdits(m, Settle(w, m, i));
    OwnEdits(m, Draft(w, m, i));
  }

  lemma DraftIs(w: World, m: Mount, i: Inputs)
    ensures ViewOf(Draft(w, m, i)) == ViewOf(m)
    ensures Prior(Draft(w, m, i)) == Some(Drafted(w, i.tool, ViewOf(m), i.words, i.config, Prior(m)))
    ensures Get(Draft(w, m, i), [STAMP]) == Get(m, [STAMP]) && Get(Draft(w, m, i), [MAKEFILE]) == Get(m, [MAKEFILE])
    ensures [MARKER] !in Draft(w, m, i)
  {
    hide ViewOf, Drafted;
    OwnEdits(m, Draft(w, m, i));
  }

  lemma ToMarker(w: World, id: string, store: Store, a: Slot, m: Mount, r: Run)
    requires Leads(w, id, store, a, Slot(m, Some(r))) && InputsOk(w, r.i) && r.pc == Configure
    requires !Holds(m, MARKER, ConfigId(r.i.words, r.i.config))
    ensures Leads(w, id, store, a, Slot(Settle(w, m, r.i), Some(r.(pc := WriteMarker))))
  {
    hide Leads, InputsOk, ViewOf, Configured, ConfigId, Holds, Drafted;
    var i := r.i;
    ToOldDef(w, id, store, a, m, r);
    SettleIs(w, m, i);
    var m1, text := Draft(w, m, i), Resolved(w, i.tool, ViewOf(m), i.words, i.config, Prior(m));
    ConfigWritten(m1, i, text);
    assert m1[[CONFIG] := Data(text)] == Settle(w, m, i);
    Go(w, id, store, a, m1, r.(pc := RunOldDef), Settle(w, m, i), WriteMarker);
  }

  function Marked(w: World, m: Mount, i: Inputs): Mount {
    Settle(w, m, i)[[MARKER] := Data(ConfigId(i.words, i.config))]
  }

  lemma MarkedIs(w: World, m: Mount, i: Inputs)
    ensures ViewOf(Marked(w, m, i)) == ViewOf(m)
    ensures Prior(Marked(w, m, i)) == Some(Resolved(w, i.tool, ViewOf(m), i.words, i.config, Prior(m)))
    ensures Get(Marked(w, m, i), [STAMP]) == Get(m, [STAMP]) && Get(Marked(w, m, i), [MAKEFILE]) == Get(m, [MAKEFILE])
    ensures forall p :: p != [CONFIG] && p != [MARKER] ==> Get(Marked(w, m, i), p) == Get(m, p)
  {
    hide ViewOf, Resolved, ConfigId;
    OwnEdits(m, Marked(w, m, i));
  }

  lemma ToReady(w: World, id: string, store: Store, a: Slot, m: Mount, r: Run)
    requires Leads(w, id, store, a, Slot(m, Some(r))) && InputsOk(w, r.i) && r.pc == Configure
    requires !Holds(m, MARKER, ConfigId(r.i.words, r.i.config))
    ensures Leads(w, id, store, a, Slot(Marked(w, m, r.i), Some(r.(pc := Ready))))
  {
    hide Leads, InputsOk, ConfigId, Holds, Settle;
    ToMarker(w, id, store, a, m, r);
    Go(w, id, store, a, Settle(w, m, r.i), r.(pc := WriteMarker), Marked(w, m, r.i), Ready);
  }

  /** A marker that is there is believed. */
  lemma ToSkip(w: World, id: string, store: Store, a: Slot, m: Mount, r: Run)
    requires Leads(w, id, store, a, Slot(m, Some(r))) && InputsOk(w, r.i) && r.pc == Configure
    requires Holds(m, MARKER, ConfigId(r.i.words, r.i.config))
    ensures Leads(w, id, store, a, Slot(m, Some(r.(pc := Ready))))
  {
    hide Leads, InputsOk, ConfigId, Holds;
    Go(w, id, store, a, m, r, m, Ready);
  }

  // ---- the build ----

  /** What the run builds from the `.config` that is there. */
  function Output(w: World, m: Mount, i: Inputs): string
    requires w.needsConfig(i.job) ==> Prior(m).Some?
  {
    w.build(i.tool, ViewOf(m), if w.needsConfig(i.job) then Prior(m).value else "", i.job)
  }

  lemma ToPush(w: World, id: string, store: Store, a: Slot, m: Mount, r: Run, m': Mount)
    requires Leads(w, id, store, a, Slot(m, Some(r))) && InputsOk(w, r.i) && r.pc == Ready
    requires w.needsConfig(r.i.job) ==> Prior(m).Some?
    requires Made(m - {[VERSION]}, m', Prov(r.i.tool, ViewOf(m)), [VERSION])
    ensures Leads(w, id, store, a, Slot(m', Some(r.(pc := Push(Output(w, m, r.i))))))
  {
    hide Leads, InputsOk, ViewOf, Made, Trusted, Prior;
    var i, m1 := r.i, m - {[VERSION]};
    OwnEdits(m, m1);
    assert Prior(m1) == Prior(m) by { SamePrior(m, m1); }
    Go(w, id, store, a, m, r, m1, Make);
    assert Built(w, m1, m', i, Output(w, m, i));
    Go(w, id, store, a, m1, r.(pc := Make), m', Push(Output(w, m, i)));
  }

  lemma SamePrior(m: Mount, m': Mount)
    requires Get(m', [CONFIG]) == Get(m, [CONFIG])
    ensures Prior(m') == Prior(m)
  {
  }

  lemma NothingMade(m: Mount, by': Prov)
    ensures Made(m - {[VERSION]}, m - {[VERSION]}, by', [VERSION])
  {
  }
}
