/**
 The guard behind the first condition of transparency: without a base make an
 earlier `.config` never shows; with any base-make list there is a kbuild in which
 it does.
 */
module BaseMakes {
  import opened Wrappers
  import opened Text
  import opened Names
  import opened Specs
  import opened Identity
  import opened Kbuild
  import opened Protocol
  import opened MountInvariant
  import opened Histories
  import opened Walks
  import opened Exactness

  function Zeros(n: nat): (z: string)
    ensures |z| == n && All(z, Hex)
  {
    if n == 0 then "" else Zeros(n - 1) + "0"
  }

  function TarballOf(i: Inputs): string {
    if i.src.Local? then i.src.blob else "tarball"
  }

  function Tiny(): Source {
    map[[MAKEFILE] := "all:"]
  }

  /** The inputs' own tarball, series and toolchain, and a kbuild whose base make merges into the `.config` it finds. */
  function MergingWorld(i: Inputs): World {
    World(x => if i.src.Pinned? then i.src.sum else Zeros(64),
          {TarballOf(i)}, if i.patches.Some? then {i.patches.value} else {}, {i.tool},
          b => Some(Tiny()), (t, s) => Some(Tiny()),
          (t: Tool, v: View, words: seq<string>, prior: Option<string>) =>
            if prior.None? then "merged" else "merged into " + prior.value,
          (t, v, config) => config, job => true, (t, v, config, job) => config)
  }

  lemma TinyOk()
    ensures TreeOk(Tiny())
  {
    hide Own, Skipped, IsSrc, Aside, AfterStamp, Before;
    OwnNames();
  }

  lemma MergingWorldOk(i: Inputs)
    requires Fits(i)
    ensures WorldOk(MergingWorld(i))
  {
    hide TreeOk, Zeros, Preimage, ToolOk, UrlOk, Tiny, WordsOk;
    TinyOk();
    var w := MergingWorld(i);
    assert forall x :: Sha256Ok(w.sha(x));
    assert forall t :: t in w.tools ==> t == i.tool;
    assert forall b :: w.unpack(b) == Some(Tiny());
  }

  lemma MergingInputsOk(i: Inputs)
    requires Fits(i) && !i.src.Unpinned?
    ensures InputsOk(MergingWorld(i), i) && Matches(MergingWorld(i), i, TarballOf(i))
    ensures TreeOf(MergingWorld(i), TarballOf(i), i.patches).Some?
  {
    hide ToolOk, UrlOk, Tiny, WordsOk, Zeros;
  }

  /** In that world the same inputs export one thing cold and another after a run that was cut off. */
  lemma MergingShows(i: Inputs) returns (cold: System, warm: System)
    requires Fits(i) && SeedPinned(i) && !i.src.Unpinned? && i.words != []
    ensures Reachable(MergingWorld(i), cold) && Reachable(MergingWorld(i), warm)
    ensures |cold.log| == |warm.log| == 1 && cold.log[0].i == warm.log[0].i == i
    ensures cold.log[0].out != warm.log[0].out
    ensures SeedsPinned(warm.past) && NoneContinues(MergingWorld(i), i, warm.log[0].past)
    ensures cold.log[0].out == Cold(MergingWorld(i), i, TarballOf(i))
  {
    hide Reachable, WorldOk, InputsOk, Matches, Fits, Tiny, SourceView;
    var w, b := MergingWorld(i), TarballOf(i);
    MergingWorldOk(i);
    MergingInputsOk(i);
    cold := ColdRun(w, i, b);
    warm := WarmRun(w, i, b, "CONFIG_X=y");
    SelfContinues(w, i, "CONFIG_X=y");
    var rest := if Blank(i.config) then "" else "\n" + i.config;
    assert cold.log[0].out == "merged" + rest;
    assert warm.log[0].out == "merged into " + "CONFIG_X=y" + rest;
    assert |warm.log[0].out| > |cold.log[0].out|;
  }

  /** The one literal case: a fragment target alone. */
  lemma KvmGuest() returns (i: Inputs)
    ensures Fits(i) && SeedPinned(i) && i.src.Local? && i.words == ["kvm_guest.config"]
  {
    i := Inputs(Tool("6.1", "x86_64", "base@d", "", false, false), Local("tarball"), None,
                ["kvm_guest.config"], "", "vmlinux", None);
    assert i.tool.base[4] == '@';
  }

  /** In every world, where no earlier configuration continues theirs, the inputs export the cold result. */
  ghost predicate ColdEverywhere(i: Inputs) {
    forall w, b {:trigger Matches(w, i, b)} ::
      WorldOk(w) && InputsOk(w, i) && Matches(w, i, b) && TreeOf(w, b, i.patches).Some? ==> AlwaysCold(w, i, b)
  }

  /** The guard: caching is transparent in every world exactly for inputs without a base make. */
  lemma GuardIff(i: Inputs)
    requires Fits(i) && SeedPinned(i) && !i.src.Unpinned?
    ensures ColdEverywhere(i) <==> i.words == []
  {
    hide WorldOk, InputsOk, Matches, TreeOf, AlwaysCold, Fits;
    if i.words == [] {
      forall w, b {:trigger Matches(w, i, b)} | WorldOk(w) && InputsOk(w, i) && Matches(w, i, b) && TreeOf(w, b, i.patches).Some?
        ensures AlwaysCold(w, i, b)
      {
        PlainSteady(w, i, b);
        ColdInSteady(w, i, b);
      }
    } else {
      MergingWorldOk(i);
      MergingInputsOk(i);
      NotCold(i);
    }
  }

  lemma NotCold(i: Inputs)
    requires Fits(i) && SeedPinned(i) && !i.src.Unpinned? && i.words != []
    requires TreeOf(MergingWorld(i), TarballOf(i), i.patches).Some?
    ensures !AlwaysCold(MergingWorld(i), i, TarballOf(i))
  {
    hide Reachable, Fits, Outcome, NoneContinues, SeedsPinned, MergingWorld, Cold;
    var cold, warm := MergingShows(i);
    assert warm.log[0].i == i;
  }
}
