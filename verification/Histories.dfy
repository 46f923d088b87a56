/**
 The main results on the step protocol, over every history of any number of
 workers: runs with arbitrary inputs that complete, fail or are killed anywhere,
 sharing seeds whose keys were rendered from a base pinned by digest.
 */
module Histories {
  import opened Wrappers
  import opened Text
  import opened Names
  import opened Specs
  import opened Identity
  import opened Kbuild
  import opened Protocol
  import opened MountInvariant
  import opened RunInvariant
  import opened RunSteps
  import opened RunBuild

  /** A mount is right for the toolchain its id stands for, and so is the run that holds it. */
  ghost predicate SlotOk(w: World, ps: set<Inputs>, id: string, s: Slot) {
    && (forall t :: t in w.tools && MountId(Short(w), t) == id ==> MountOk(w, ps, t, s.m))
    && (s.run.Some? ==> MountId(Short(w), s.run.value.i.tool) == id && RunOk(w, ps, s.m, s.run.value))
  }

  ghost predicate LogOk(w: World, log: seq<Artifact>) {
    forall k :: 0 <= k < |log| ==> InputsOk(w, log[k].i) && OutOk(w, log[k].past, log[k].i, log[k].out)
  }

  ghost predicate SystemOk(w: World, s: System) {
    && (forall at: Place :: SlotOk(w, s.past, at.1, SlotAt(s, at)))
    && StoreOk(w, s.past, s.store)
    && LogOk(w, s.log)
  }

  // ---- more runs do no harm ----

  lemma MountMore(w: World, ps: set<Inputs>, qs: set<Inputs>, t: Tool, m: Mount)
    requires MountOk(w, ps, t, m) && ps <= qs
    ensures MountOk(w, qs, t, m)
  {
    hide StampOk, ObjsOf, WholeOk, Blessed, WordsOk, ConfigId, ConfigIs, Want;
  }

  lemma ConfigMore(w: World, ps: set<Inputs>, qs: set<Inputs>, t: Tool, m: Mount, words: seq<string>, config: string)
    requires ConfigOk(w, ps, t, m, words, config) && ps <= qs
    ensures ConfigOk(w, qs, t, m, words, config)
  {
    hide ConfigIs, Want;
  }

  lemma SeedMore(w: World, ps: set<Inputs>, qs: set<Inputs>, t: Tool, m: Mount)
    requires SeedOk(w, ps, t, m) && ps <= qs
    ensures SeedOk(w, qs, t, m)
  {
    hide MountOk;
    MountMore(w, ps, qs, t, m);
  }

  lemma StoreMore(w: World, ps: set<Inputs>, qs: set<Inputs>, store: Store)
    requires StoreOk(w, ps, store) && ps <= qs
    ensures StoreOk(w, qs, store)
  {
    hide SeedOk, SeedKey;
    forall loc, t, prefix | loc in store && t in w.tools && SeedKey(Short(w), prefix, t) == loc.1 ensures SeedOk(w, qs, t, store[loc]) {
      SeedMore(w, ps, qs, t, store[loc]);
    }
  }

  lemma OutMore(w: World, ps: set<Inputs>, qs: set<Inputs>, i: Inputs, out: string)
    requires OutOk(w, ps, i, out) && ps <= qs
    ensures OutOk(w, qs, i, out)
  {
    hide Matches, TreeOf, Outcome, SourceView, Continues;
    forall b | Matches(w, i, b) ensures TreeOf(w, b, i.patches).Some? && LentOut(w, qs, i, SourceView(TreeOf(w, b, i.patches).value), out) {
      var v := SourceView(TreeOf(w, b, i.patches).value);
      assert LentOut(w, ps, i, v, out);
      var config, prior :| Lends(w, i, ps, config) && out == Outcome(w, i.(config := config), v, prior);
      assert Lends(w, i, qs, config);
    }
  }

  lemma RunMore(w: World, ps: set<Inputs>, qs: set<Inputs>, m: Mount, r: Run)
    requires RunOk(w, ps, m, r) && ps <= qs
    ensures RunOk(w, qs, m, r)
  {
    hide MountOk, SeedOk, OutOk, ConfigOk, SrcOk, IsResolved, IsDrafted, BaseMade, Blessed, Want, InputsOk, SameInside, Bare;
    match r.pc
    case Pull(pulled) => SeedMore(w, ps, qs, r.i.tool, pulled);
    case Compare(pulled) => SeedMore(w, ps, qs, r.i.tool, pulled);
    case WriteStamp => MountMore(w, ps, qs, r.i.tool, m[[STAMP] := Data(Want(w, r.i))]);
    case Ready => if Blessed(w, m) { ConfigMore(w, ps, qs, r.i.tool, m, r.i.words, r.i.config); }
    case Make => if Blessed(w, m) { ConfigMore(w, ps, qs, r.i.tool, m, r.i.words, r.i.config); }
    case Push(out) => OutMore(w, ps, qs, r.i, out);
    case Finish(out) => OutMore(w, ps, qs, r.i, out);
    case _ =>
  }

  lemma SlotMore(w: World, ps: set<Inputs>, qs: set<Inputs>, id: string, s: Slot)
    requires SlotOk(w, ps, id, s) && ps <= qs
    ensures SlotOk(w, qs, id, s)
  {
    hide MountOk, RunOk, MountId;
    forall t | t in w.tools && MountId(Short(w), t) == id ensures MountOk(w, qs, t, s.m) { MountMore(w, ps, qs, t, s.m); }
    if s.run.Some? { RunMore(w, ps, qs, s.m, s.run.value); }
  }

  // ---- every step ----

  /** One mount id, one toolchain. */
  lemma OneTool(w: World, t: Tool, u: Tool)
    requires WorldOk(w) && t in w.tools && u in w.tools && MountId(Short(w), t) == MountId(Short(w), u)
    ensures t == u
  {
    hide MountId, ToolOk, Preimage;
    ShortOk(w);
    MountIdApart(Short(w), t, u);
  }

  lemma SlotKept(w: World, ps: set<Inputs>, id: string, store: Store, s: Slot, s': Slot, ev: Event)
    requires WorldOk(w) && SlotOk(w, ps, id, s) && StoreOk(w, ps, store) && SlotNext(w, id, store, s, s', ev)
    requires SeedsPinned(Past(ps, ev))
    ensures SlotOk(w, Past(ps, ev), id, s') && StoreOk(w, Past(ps, ev), Stored(store, ev))
    ensures ev.Export? ==> InputsOk(w, ev.i) && OutOk(w, ps, ev.i, ev.out)
  {
    hide WorldOk, InputsOk, MountOk, Partial, Complete, StoreOk, OutOk, MountId, RunOk, SeedPinned, SlotOk;
    var qs := Past(ps, ev);
    match s.run {
      case None =>
        SlotMore(w, ps, qs, id, s);
        StoreMore(w, ps, qs, store);
        StartedOk(w, qs, id, s, s', s'.run.value.i);
      case Some(r) =>
        ToolThere(w, ps, id, s, r);
        forall t | t in w.tools && MountId(Short(w), t) == id ensures t == r.i.tool { OneTool(w, t, r.i.tool); }
        if s'.run == None && ev == Quiet && Partial(w, r, s.m, s'.m) {
          CutOk(w, ps, s.m, s'.m, r);
        } else {
          DoneOk(w, ps, store, s.m, s'.m, r, s'.run, ev);
          assert !ev.Began? by { NoStart(w, store, r, s.m, s'.m, s'.run, ev); }
        }
        NextOk(w, ps, id, r.i, s');
    }
  }

  lemma NoStart(w: World, store: Store, r: Run, m: Mount, m': Mount, next: Option<Run>, ev: Event)
    requires InputsOk(w, r.i) && Complete(w, store, r, m, m', next, ev)
    ensures !ev.Began?
  {
    hide InputsOk, Made, Swept, Acquired, Extracted, Patched, Configured, Built, Holds, ConfigId, OnlySrc, FromTree, Quarantined, Want, Prior, Blank, Present;
  }

  lemma ToolThere(w: World, ps: set<Inputs>, id: string, s: Slot, r: Run)
    requires SlotOk(w, ps, id, s) && s.run == Some(r)
    ensures RunOk(w, ps, s.m, r) && InputsOk(w, r.i) && r.i.tool in w.tools && MountId(Short(w), r.i.tool) == id
    ensures MountOk(w, ps, r.i.tool, s.m)
  {
    hide MountOk, MountId;
    assert InputsOk(w, r.i);
  }

  lemma NextOk(w: World, ps: set<Inputs>, id: string, i: Inputs, s': Slot)
    requires forall t :: t in w.tools && MountId(Short(w), t) == id ==> t == i.tool
    requires MountOk(w, ps, i.tool, s'.m) && MountId(Short(w), i.tool) == id
    requires s'.run.Some? ==> RunOk(w, ps, s'.m, s'.run.value) && s'.run.value.i == i
    ensures SlotOk(w, ps, id, s')
  {
    hide MountOk, RunOk, MountId;
  }

  lemma StartedOk(w: World, qs: set<Inputs>, id: string, s: Slot, s': Slot, i: Inputs)
    requires SlotOk(w, qs, id, s) && InputsOk(w, i) && SeedPinned(i) && i in qs && MountId(Short(w), i.tool) == id
    requires s'.m == s.m && s'.run == Some(Run(i, Begin, None, s.m))
    ensures SlotOk(w, qs, id, s')
  {
    hide MountOk, MountId;
  }

  lemma StepOk(w: World, s: System, s': System)
    requires WorldOk(w) && SystemOk(w, s) && Step(w, s, s') && SeedsPinned(s'.past)
    ensures SystemOk(w, s')
  {
    hide WorldOk, SlotOk, StoreOk, SlotNext, InputsOk, OutOk, SeedPinned;
    var at, slot', ev :| Moves(w, s, s', at, slot', ev);
    SlotKept(w, s.past, at.1, s.store, SlotAt(s, at), slot', ev);
    forall other: Place ensures SlotOk(w, s'.past, other.1, SlotAt(s', other)) {
      assert SlotAt(s', other) == if other == at then slot' else SlotAt(s, other);
      if other != at { SlotMore(w, s.past, s'.past, other.1, SlotAt(s, other)); }
    }
  }

  lemma StartOk(w: World)
    ensures SystemOk(w, START)
  {
  }

  lemma StepPast(w: World, s: System, s': System)
    requires Step(w, s, s')
    ensures s.past <= s'.past
  {
    hide SlotNext;
  }

  /** Every reachable state, whatever ran, was killed or failed on the way to it. */
  lemma {:induction false} HistoryOk(w: World, h: seq<System>)
    requires WorldOk(w) && History(w, h) && SeedsPinned(h[|h| - 1].past)
    ensures SystemOk(w, h[|h| - 1])
  {
    hide WorldOk, SystemOk, Step, SeedPinned;
    if |h| == 1 {
      StartOk(w);
    } else {
      var n := |h| - 1;
      assert h[..n][n - 1] == h[n - 1];
      StepPast(w, h[n - 1], h[n]);
      HistoryOk(w, h[..n]);
      StepOk(w, h[n - 1], h[n]);
    }
  }

  ghost predicate Reachable(w: World, s: System) {
    exists h :: History(w, h) && h[|h| - 1] == s
  }

  lemma ReachableOk(w: World, s: System)
    requires WorldOk(w) && Reachable(w, s) && SeedsPinned(s.past)
    ensures SystemOk(w, s)
  {
    hide WorldOk, SystemOk, Step, SeedsPinned;
    var h :| History(w, h) && h[|h| - 1] == s;
    HistoryOk(w, h);
  }

  // ---- what that means ----

  function MountAt(w: World, s: System, worker: nat, t: Tool): Mount {
    SlotAt(s, (worker, MountId(Short(w), t))).m
  }

  lemma ReachableMount(w: World, s: System, worker: nat, t: Tool)
    requires WorldOk(w) && Reachable(w, s) && SeedsPinned(s.past) && t in w.tools
    ensures MountOk(w, s.past, t, MountAt(w, s, worker, t))
  {
    hide WorldOk, Reachable, RunOk, MountOk, SeedsPinned;
    ReachableOk(w, s);
    assert SlotOk(w, s.past, MountId(Short(w), t), SlotAt(s, (worker, MountId(Short(w), t))));
  }

  /**
   Live stamps are never wrong: in every reachable state, on every worker, a stamp
   for a tarball and a patch series stands on exactly that source, complete and
   patched, with every object made from it by the mount's own toolchain.
   */
  lemma LiveStamp(w: World, s: System, worker: nat, t: Tool, local: bool, b: string, p: Option<Series>)
    requires WorldOk(w) && Reachable(w, s) && SeedsPinned(s.past) && t in w.tools
    requires Named(w, MountAt(w, s, worker, t), local, b, p)
    ensures var m := MountAt(w, s, worker, t);
      && TreeOf(w, b, p).Some? && ViewOf(m) == SourceView(TreeOf(w, b, p).value)
      && forall q :: q in m && m[q].Obj? ==> m[q].made == Prov(t, ViewOf(m))
  {
    hide WorldOk, Reachable, SeedsPinned, MarkerOk, WholeOk, ObjsOf;
    ReachableMount(w, s, worker, t);
    assert Good(w, t, MountAt(w, s, worker, t), b, p);
  }

  /**
   Under a live stamp, a marker for a base-make list and a configuration is only
   there when `.config` is missing, what that pair resolves to on that tree, or what
   the list and a longer configuration do that an earlier run on that source had.
   */
  lemma LiveMarker(w: World, s: System, worker: nat, t: Tool, local: bool, b: string, p: Option<Series>,
                   words: seq<string>, config: string)
    requires WorldOk(w) && Reachable(w, s) && SeedsPinned(s.past) && t in w.tools && WordsOk(words)
    requires Named(w, MountAt(w, s, worker, t), local, b, p)
    requires Holds(MountAt(w, s, worker, t), MARKER, ConfigId(words, config))
    ensures var m := MountAt(w, s, worker, t);
      [CONFIG] in m ==>
        || ConfigIs(w, t, m, words, config)
        || exists j :: j in s.past && j.tool == t && Holds(m, STAMP, Want(w, j)) && j.words == words && config < j.config
             && ConfigIs(w, t, m, words, j.config)
  {
    hide WorldOk, Reachable, SeedsPinned, ViewOf, ConfigId, StampOk, WholeOk, ObjsOf, ConfigIs, Want;
    ReachableMount(w, s, worker, t);
    assert ConfigOk(w, s.past, t, MountAt(w, s, worker, t), words, config);
  }

  /** Toolchains never mix: every object on a mount was made by the toolchain the mount's id stands for. */
  lemma OwnObjects(w: World, s: System, worker: nat, t: Tool, q: FilePath)
    requires WorldOk(w) && Reachable(w, s) && SeedsPinned(s.past) && t in w.tools
    requires q in MountAt(w, s, worker, t) && MountAt(w, s, worker, t)[q].Obj?
    ensures MountAt(w, s, worker, t)[q].made.tool == t
  {
    hide WorldOk, Reachable, SeedsPinned, MarkerOk, StampOk, WholeOk;
    ReachableMount(w, s, worker, t);
  }

  /** Nor do they through seeds. */
  lemma SeedObjects(w: World, s: System, loc: Loc, prefix: string, t: Tool, q: FilePath)
    requires WorldOk(w) && Reachable(w, s) && SeedsPinned(s.past) && t in w.tools && loc.1 == SeedKey(Short(w), prefix, t)
    requires loc in s.store && q in s.store[loc] && s.store[loc][q].Obj?
    ensures s.store[loc][q].made.tool == t
  {
    hide WorldOk, Reachable, SeedsPinned, MarkerOk, StampOk, WholeOk;
    ReachableOk(w, s);
    assert SeedOk(w, s.past, t, s.store[loc]);
  }

  /**
   Whatever was exported is the cold result, up to what the base make found on the
   mount and to a longer configuration that an earlier run had on that source.
   */
  lemma Exported(w: World, s: System, k: nat, b: string)
    requires WorldOk(w) && Reachable(w, s) && SeedsPinned(s.past) && k < |s.log| && Matches(w, s.log[k].i, b)
    ensures var a := s.log[k];
      TreeOf(w, b, a.i.patches).Some? && LentOut(w, a.past, a.i, SourceView(TreeOf(w, b, a.i.patches).value), a.out)
  {
    hide WorldOk, Reachable, SeedsPinned, Matches, Outcome, SlotOk, StoreOk;
    ReachableOk(w, s);
    assert OutOk(w, s.log[k].past, s.log[k].i, s.log[k].out);
  }

  /**
   Cache transparency: over every history, a run with pinned or local source exports
   what the same inputs export from an empty mount, provided an earlier `.config`
   does not show in the result and no earlier run on that source with that list had
   a configuration that goes on where this one ends.
   */
  lemma Transparent(w: World, s: System, k: nat, b: string)
    requires WorldOk(w) && Reachable(w, s) && SeedsPinned(s.past) && k < |s.log|
    requires Matches(w, s.log[k].i, b) && NoneContinues(w, s.log[k].i, s.log[k].past)
    requires TreeOf(w, b, s.log[k].i.patches).Some? ==> Steady(w, s.log[k].i, b)
    ensures TreeOf(w, b, s.log[k].i.patches).Some?
    ensures s.log[k].out == Cold(w, s.log[k].i, b)
  {
    hide WorldOk, Reachable, SeedsPinned, Matches, Outcome, Continues, SourceView;
    Exported(w, s, k, b);
    var a := s.log[k];
    var config, prior :| Lends(w, a.i, a.past, config)
      && a.out == Outcome(w, a.i.(config := config), SourceView(TreeOf(w, b, a.i.patches).value), prior);
    assert config == a.i.config && a.i.(config := config) == a.i;
  }

  /** A configuration without a base make never looks at an earlier one. */
  lemma PlainSteady(w: World, i: Inputs, b: string)
    requires TreeOf(w, b, i.patches).Some?
    requires i.words == [] || forall v, prior :: w.baseMake(i.tool, v, i.words, prior) == w.baseMake(i.tool, v, i.words, None)
    ensures Steady(w, i, b)
  {
  }
}
