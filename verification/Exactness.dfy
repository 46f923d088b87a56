/**
 Transparency is not empty and its conditions are exact: from nothing, a run can be
 carried to its export; what an earlier `.config` can do to the result some history
 does; and so with what a longer configuration can.
 */
module Exactness {
  import opened Wrappers
  import opened Text
  import opened Names
  import opened Specs
  import opened Identity
  import opened Kbuild
  import opened Protocol
  import opened MountInvariant
  import opened RunInvariant
  import opened RunDone
  import opened RunBuild
  import opened Histories
  import opened Walks

  function Home(w: World, i: Inputs): Place {
    (0, MountId(Short(w), i.tool))
  }

  /** A run that is ready builds and exports. */
  lemma Finishes(w: World, s: System, at: Place, m: Mount, r: Run) returns (s': System)
    requires Reachable(w, s) && SlotAt(s, at) == Slot(m, Some(r)) && InputsOk(w, r.i) && r.pc == Ready
    requires w.needsConfig(r.i.job) ==> Prior(m).Some?
    ensures Reachable(w, s') && s'.past == s.past
    ensures s'.log == s.log + [Artifact(at, r.i, Output(w, m, r.i), s.past)]
  {
    hide Reachable, InputsOk, Leads, Prior, Made, ViewOf;
    var a := Slot(m, Some(r));
    Stay(w, at.1, s.store, a);
    NothingMade(m, Prov(r.i.tool, ViewOf(m)));
    ToPush(w, at.1, s.store, a, m, r, m - {[VERSION]});
    var r' := r.(pc := Push(Output(w, m, r.i)));
    var s1 := Lift(w, s, at, Slot(m - {[VERSION]}, Some(r')));
    s' := Exports(w, s1, at, m - {[VERSION]}, r');
  }

  /** Configure and build over a tree without a marker in the way. */
  lemma BuildOver(w: World, s: System, at: Place, m: Mount, r: Run) returns (s': System)
    requires Reachable(w, s) && SlotAt(s, at) == Slot(m, Some(r)) && InputsOk(w, r.i) && r.pc == Configure
    requires !Holds(m, MARKER, ConfigId(r.i.words, r.i.config))
    ensures Reachable(w, s') && s'.past == s.past
    ensures s'.log == s.log + [Artifact(at, r.i, Outcome(w, r.i, ViewOf(m), Prior(m)), s.past)]
  {
    hide Reachable, InputsOk, Leads, ViewOf, Holds, Marked, Resolved;
    var a := Slot(m, Some(r));
    Stay(w, at.1, s.store, a);
    ToReady(w, at.1, s.store, a, m, r);
    MarkedIs(w, m, r.i);
    var r' := r.(pc := Ready);
    var s1 := Lift(w, s, at, Slot(Marked(w, m, r.i), Some(r')));
    s' := Finishes(w, s1, at, Marked(w, m, r.i), r');
  }

  /** A cold run as far as its configuration. */
  lemma Prepared(w: World, i: Inputs, b: string) returns (s: System, r: Run)
    requires WorldOk(w) && InputsOk(w, i) && Matches(w, i, b) && TreeOf(w, b, i.patches).Some?
    ensures Reachable(w, s) && s.log == [] && s.past == {i} && s.store == map[]
    ensures SlotAt(s, Home(w, i)) == Slot(Fresh(w, i, b), Some(r)) && r.i == i && r.pc == Configure
    ensures forall other :: other != Home(w, i) ==> SlotAt(s, other) == Slot(map[], None)
  {
    hide Reachable, InputsOk, WorldOk, Matches, TreeOf, Leads, Fresh;
    UrlThere(w, i);
    FromStart(w);
    s := Begun(w, START, Home(w, i), i);
    r := ToConfigure(w, Home(w, i).1, s.store, i, b);
    s := Lift(w, s, Home(w, i), Slot(Fresh(w, i, b), Some(r)));
  }

  /** From nothing, a run with its tarball at hand exports the cold result. */
  lemma ColdRun(w: World, i: Inputs, b: string) returns (s: System)
    requires WorldOk(w) && InputsOk(w, i) && Matches(w, i, b) && TreeOf(w, b, i.patches).Some?
    ensures Reachable(w, s) && s.log == [Artifact(Home(w, i), i, Cold(w, i, b), {i})] && s.past == {i}
  {
    hide Reachable, InputsOk, WorldOk, Matches, TreeOf, ViewOf, SourceView, Outcome;
    UrlThere(w, i);
    var r;
    s, r := Prepared(w, i, b);
    FreshIs(w, i, b);
    s := BuildOver(w, s, Home(w, i), Fresh(w, i, b), r);
  }

  /** Inputs for the same tree with a configuration of its own. */
  function Configuring(i: Inputs, config: string): Inputs {
    i.(words := [], config := config, seed := None)
  }

  /** An earlier run with any configuration, cut off before it resolved it. */
  lemma LeavesConfig(w: World, i: Inputs, b: string, text: string) returns (s: System, m: Mount)
    requires WorldOk(w) && InputsOk(w, i) && Matches(w, i, b) && TreeOf(w, b, i.patches).Some?
    ensures Reachable(w, s) && s.log == [] && s.past == {Configuring(i, text)}
    ensures SlotAt(s, Home(w, i)) == Slot(m, None)
    ensures Holds(m, STAMP, Want(w, i)) && Present(m) && [MARKER] !in m && Prior(m) == Some(text)
    ensures ViewOf(m) == SourceView(TreeOf(w, b, i.patches).value)
  {
    hide Reachable, InputsOk, WorldOk, TreeOf, ViewOf, SourceView, Made, Leads, Want, Draft, Fresh, Prior;
    var j := Configuring(i, text);
    OtherConfig(w, i, text);
    UrlThere(w, j);
    var r;
    s, r := Prepared(w, j, b);
    FreshIs(w, j, b);
    var m0 := Fresh(w, j, b);
    var a := Slot(m0, Some(r));
    Stay(w, Home(w, i).1, s.store, a);
    ToOldDef(w, Home(w, i).1, s.store, a, m0, r);
    m := Draft(w, m0, j);
    DraftIs(w, m0, j);
    Untouched(m, Provenance(m, j));
    End(w, Home(w, i).1, s.store, a, m, r.(pc := RunOldDef), m);
    s := Lift(w, s, Home(w, i), Slot(m, None));
  }

  lemma OtherConfig(w: World, i: Inputs, text: string)
    requires InputsOk(w, i)
    ensures InputsOk(w, Configuring(i, text)) && Want(w, Configuring(i, text)) == Want(w, i)
  {
  }

  lemma Untouched(m: Mount, by': Prov)
    requires Prior(m).Some?
    ensures Made(m, m, by', [CONFIG])
  {
  }

  /** Any earlier `.config` can be the one a base make finds. */
  lemma WarmRun(w: World, i: Inputs, b: string, text: string) returns (s: System)
    requires WorldOk(w) && InputsOk(w, i) && Matches(w, i, b) && TreeOf(w, b, i.patches).Some?
    ensures Reachable(w, s) && s.past == {Configuring(i, text), i}
    ensures s.log == [Artifact(Home(w, i), i, Outcome(w, i, SourceView(TreeOf(w, b, i.patches).value), Some(text)), s.past)]
  {
    hide Reachable, InputsOk, WorldOk, Matches, TreeOf, ViewOf, SourceView, Outcome, Want, Leads, Present;
    var at := Home(w, i);
    var m;
    s, m := LeavesConfig(w, i, b, text);
    s := Begun(w, s, at, i);
    var r := ToWarm(w, at.1, s.store, i, m);
    s := Lift(w, s, at, Slot(m, Some(r)));
    s := BuildOver(w, s, at, m, r);
  }

  // ---- the first condition: no earlier `.config` shows ----

  /** Whatever these inputs export is their cold result, in every history where no configuration of an earlier run continues theirs. */
  ghost predicate AlwaysCold(w: World, i: Inputs, b: string)
    requires TreeOf(w, b, i.patches).Some?
  {
    forall s, k :: Reachable(w, s) && SeedsPinned(s.past) && 0 <= k < |s.log| && s.log[k].i == i && NoneContinues(w, i, s.log[k].past)
      ==> s.log[k].out == Cold(w, i, b)
  }

  lemma SelfContinues(w: World, i: Inputs, text: string)
    requires SeedPinned(i)
    ensures SeedsPinned({i}) && NoneContinues(w, i, {i})
    ensures SeedsPinned({Configuring(i, text), i})
    ensures i.words != [] ==> NoneContinues(w, i, {Configuring(i, text), i})
  {
  }

  lemma ColdInSteady(w: World, i: Inputs, b: string)
    requires WorldOk(w) && InputsOk(w, i) && Matches(w, i, b) && TreeOf(w, b, i.patches).Some? && Steady(w, i, b)
    ensures AlwaysCold(w, i, b)
  {
    hide Reachable, InputsOk, WorldOk, Matches, TreeOf, Outcome, SourceView, NoneContinues, SeedsPinned;
    forall s, k | Reachable(w, s) && SeedsPinned(s.past) && 0 <= k < |s.log| && s.log[k].i == i && NoneContinues(w, i, s.log[k].past)
      ensures s.log[k].out == Cold(w, i, b)
    {
      Transparent(w, s, k, b);
    }
  }

  /**
   Exactly when an earlier `.config` does no harm: for pinned or local inputs, every
   history in which no earlier configuration continues theirs exports the cold
   result if and only if the result is the same for every earlier `.config`.
   */
  lemma TransparentIff(w: World, i: Inputs, b: string)
    requires WorldOk(w) && InputsOk(w, i) && SeedPinned(i) && Matches(w, i, b) && TreeOf(w, b, i.patches).Some?
    ensures AlwaysCold(w, i, b) <==> Steady(w, i, b)
  {
    hide Reachable, InputsOk, WorldOk, Matches, TreeOf, SourceView, NoneContinues, SeedsPinned;
    if Steady(w, i, b) {
      ColdInSteady(w, i, b);
    }
    if AlwaysCold(w, i, b) && i.words != [] {
      forall prior ensures Outcome(w, i, SourceView(TreeOf(w, b, i.patches).value), prior) == Cold(w, i, b) {
        if prior.Some? {
          var s := WarmRun(w, i, b, prior.value);
          SelfContinues(w, i, prior.value);
          assert s.log[0].i == i;
        }
      }
    }
  }

  // ---- the second condition: no earlier configuration continues this one ----

  /** A base make that does not look at an earlier `.config`, or none at all. */
  ghost predicate Indifferent(w: World, i: Inputs) {
    i.words == [] || forall v, prior :: w.baseMake(i.tool, v, i.words, prior) == w.baseMake(i.tool, v, i.words, None)
  }

  /** A cold run that has resolved its configuration and is about to write its marker. */
  lemma AtMarker(w: World, j: Inputs, b: string) returns (s: System, m: Mount, r: Run)
    requires WorldOk(w) && InputsOk(w, j) && Matches(w, j, b) && TreeOf(w, b, j.patches).Some?
    ensures Reachable(w, s) && s.log == [] && s.past == {j}
    ensures SlotAt(s, Home(w, j)) == Slot(m, Some(r)) && r.i == j && r.pc == WriteMarker
    ensures Holds(m, STAMP, Want(w, j)) && Present(m)
    ensures ViewOf(m) == SourceView(TreeOf(w, b, j.patches).value)
    ensures Prior(m) == Some(Resolved(w, j.tool, ViewOf(m), j.words, j.config, None))
  {
    hide Reachable, InputsOk, WorldOk, TreeOf, ViewOf, SourceView, Leads, Want, Resolved, Settle, ConfigId, Fresh, Prior, Matches;
    s, r := Prepared(w, j, b);
    UrlThere(w, j);
    FreshIs(w, j, b);
    var m0, id := Fresh(w, j, b), Home(w, j).1;
    assert Prior(m0) == None by { NoPrior(m0); }
    Stay(w, id, s.store, Slot(m0, Some(r)));
    ToMarker(w, id, s.store, Slot(m0, Some(r)), m0, r);
    SettleIs(w, m0, j);
    m, r := Settle(w, m0, j), r.(pc := WriteMarker);
    s := Lift(w, s, Home(w, j), Slot(m, Some(r)));
  }

  lemma NoPrior(m: Mount)
    requires [CONFIG] !in m
    ensures Prior(m) == None
  {
  }

  /** A run cut off while it wrote its marker, after the part that is the marker of a shorter configuration. */
  lemma LeavesMarker(w: World, i: Inputs, j: Inputs, b: string) returns (s: System, m: Mount)
    requires WorldOk(w) && InputsOk(w, j) && Matches(w, j, b) && TreeOf(w, b, j.patches).Some? && Continues(w, i, j)
    ensures Reachable(w, s) && s.log == [] && s.past == {j}
    ensures SlotAt(s, Home(w, j)) == Slot(m, None)
    ensures Holds(m, STAMP, Want(w, j)) && Present(m) && Holds(m, MARKER, ConfigId(i.words, i.config))
    ensures ViewOf(m) == SourceView(TreeOf(w, b, j.patches).value)
    ensures Prior(m) == Some(Resolved(w, j.tool, ViewOf(m), j.words, j.config, None))
  {
    hide Reachable, InputsOk, WorldOk, TreeOf, ViewOf, SourceView, Want, Resolved, ConfigId, Prior, Matches, Partial;
    var m1, r;
    s, m1, r := AtMarker(w, j, b);
    var part := ConfigId(i.words, i.config);
    assert part < ConfigId(j.words, j.config) by { ShorterId(i, j); }
    m := m1[[MARKER] := Data(part)];
    TornIs(m1, part);
    TornPartial(w, r, m1, part);
    s := Further(w, s, Home(w, j), Slot(m, None), Quiet);
  }

  lemma TornPartial(w: World, r: Run, m: Mount, part: string)
    requires InputsOk(w, r.i) && r.pc == WriteMarker && part < ConfigId(r.i.words, r.i.config)
    ensures Partial(w, r, m, m[[MARKER] := Data(part)])
  {
    hide InputsOk, ConfigId;
  }

  lemma TornIs(m: Mount, part: string)
    ensures var m' := m[[MARKER] := Data(part)];
      && ViewOf(m') == ViewOf(m) && Prior(m') == Prior(m) && Holds(m', MARKER, part)
      && Get(m', [STAMP]) == Get(m, [STAMP]) && Get(m', [MAKEFILE]) == Get(m, [MAKEFILE])
  {
    hide ViewOf;
    OwnEdits(m, m[[MARKER] := Data(part)]);
  }

  lemma ShorterId(i: Inputs, j: Inputs)
    requires j.words == i.words && i.config < j.config
    ensures ConfigId(i.words, i.config) < ConfigId(j.words, j.config)
  {
    var head := "base-make=" + Join(i.words, ' ') + ['\0'];
    assert ConfigId(i.words, i.config) == head + i.config && ConfigId(j.words, j.config) == head + j.config;
  }

  /** The next run believes that marker, and builds with the longer configuration. */
  lemma BelievesMarker(w: World, i: Inputs, j: Inputs, b: string) returns (s: System)
    requires WorldOk(w) && InputsOk(w, i) && InputsOk(w, j) && Matches(w, j, b) && TreeOf(w, b, j.patches).Some? && Continues(w, i, j)
    ensures Reachable(w, s) && s.past == {j, i}
    ensures s.log == [Artifact(Home(w, i), i, Outcome(w, i.(config := j.config), SourceView(TreeOf(w, b, j.patches).value), None), s.past)]
  {
    hide Reachable, InputsOk, WorldOk, Matches, TreeOf, ViewOf, SourceView, Want, Leads, Present, Resolved, ConfigId;
    var at := Home(w, i);
    var m;
    s, m := LeavesMarker(w, i, j, b);
    s := Begun(w, s, at, i);
    var a := Slot(m, Some(First(i, m)));
    var r := ToWarm(w, at.1, s.store, i, m);
    ToSkip(w, at.1, s.store, a, m, r);
    s := Lift(w, s, at, Slot(m, Some(r.(pc := Ready))));
    s := Finishes(w, s, at, m, r.(pc := Ready));
  }

  /** Among histories of these runs, whatever `i` exports is its cold result. */
  ghost predicate ColdAmong(w: World, i: Inputs, b: string, runs: set<Inputs>)
    requires TreeOf(w, b, i.patches).Some?
  {
    forall s, k :: Reachable(w, s) && s.past <= runs && 0 <= k < |s.log| && s.log[k].i == i ==> s.log[k].out == Cold(w, i, b)
  }

  /** A longer configuration makes no difference. */
  predicate Harmless(w: World, i: Inputs, b: string, j: Inputs)
    requires TreeOf(w, b, i.patches).Some?
  {
    Continues(w, i, j) ==> Outcome(w, i.(config := j.config), SourceView(TreeOf(w, b, i.patches).value), None) == Cold(w, i, b)
  }

  lemma PriorHidden(w: World, i: Inputs, config: string, v: View, prior: Option<string>)
    requires Indifferent(w, i)
    ensures Outcome(w, i.(config := config), v, prior) == Outcome(w, i.(config := config), v, None)
  {
  }

  lemma ColdIfHarmless(w: World, i: Inputs, b: string, s: System, k: nat)
    requires WorldOk(w) && Matches(w, i, b) && TreeOf(w, b, i.patches).Some? && Indifferent(w, i)
    requires Reachable(w, s) && SeedsPinned(s.past) && k < |s.log| && s.log[k].i == i
    requires forall j :: j in s.log[k].past ==> Harmless(w, i, b, j)
    ensures s.log[k].out == Cold(w, i, b)
  {
    hide WorldOk, Reachable, SeedsPinned, Matches, TreeOf, Outcome, SourceView, Continues, Indifferent;
    Exported(w, s, k, b);
    var v := SourceView(TreeOf(w, b, i.patches).value);
    var config, prior :| Lends(w, i, s.log[k].past, config) && s.log[k].out == Outcome(w, i.(config := config), v, prior);
    PriorHidden(w, i, config, v, prior);
    if config == i.config {
      assert i.(config := config) == i;
    } else {
      var j :| j in s.log[k].past && Continues(w, i, j) && j.config == config;
      assert Harmless(w, i, b, j);
    }
  }

  lemma {:induction false} LogPast(w: World, h: seq<System>, k: nat)
    requires History(w, h) && k < |h[|h| - 1].log|
    ensures h[|h| - 1].log[k].past <= h[|h| - 1].past
    decreases |h|
  {
    hide SlotNext;
    if |h| > 1 {
      var n := |h| - 1;
      assert h[..n][n - 1] == h[n - 1] && Step(w, h[n - 1], h[n]);
      StepPast(w, h[n - 1], h[n]);
      var at, slot', ev :| Moves(w, h[n - 1], h[n], at, slot', ev);
      if k < |h[n - 1].log| { LogPast(w, h[..n], k); }
    }
  }

  /**
   Exactly when an earlier run's configuration does no harm: among any set of runs,
   every history exports the cold result of pinned or local inputs whose base make
   looks at no earlier `.config`, if and only if every configuration in the set that
   continues theirs, with the same list on the same source, gives the same result.
   */
  lemma ContinuationIff(w: World, i: Inputs, b: string, runs: set<Inputs>)
    requires WorldOk(w) && InputsOk(w, i) && Matches(w, i, b) && TreeOf(w, b, i.patches).Some? && Indifferent(w, i)
    requires i in runs && SeedsPinned(runs) && forall j :: j in runs ==> InputsOk(w, j)
    ensures ColdAmong(w, i, b, runs) <==> forall j :: j in runs ==> Harmless(w, i, b, j)
  {
    hide Reachable, InputsOk, WorldOk, Matches, TreeOf, SourceView, Continues, Indifferent, Outcome;
    if forall j :: j in runs ==> Harmless(w, i, b, j) {
      forall s, k | Reachable(w, s) && s.past <= runs && 0 <= k < |s.log| && s.log[k].i == i ensures s.log[k].out == Cold(w, i, b) {
        assert s.log[k].past <= s.past by { ReachableLog(w, s, k); }
        ColdIfHarmless(w, i, b, s, k);
      }
    }
    if ColdAmong(w, i, b, runs) {
      forall j | j in runs ensures Harmless(w, i, b, j) {
        if Continues(w, i, j) {
          SameAsked(w, i, j, b);
          var s := BelievesMarker(w, i, j, b);
          assert s.past <= runs && s.log[0].i == i;
        }
      }
    }
  }

  lemma ReachableLog(w: World, s: System, k: nat)
    requires Reachable(w, s) && k < |s.log|
    ensures s.log[k].past <= s.past
  {
    hide Goes;
    var h :| History(w, h) && h[|h| - 1] == s;
    LogPast(w, h, k);
  }

  lemma SameAsked(w: World, i: Inputs, j: Inputs, b: string)
    requires WorldOk(w) && InputsOk(w, i) && InputsOk(w, j) && Matches(w, i, b) && Continues(w, i, j)
    ensures Matches(w, j, b) && j.patches == i.patches
  {
    hide WorldOk, Stamp;
    assert Want(w, i) == Stamp(SrcName(w, i.src.Local?, b), Digest(w, i.patches));
    WantNames(w, j, i.src.Local?, b, i.patches);
  }
}
