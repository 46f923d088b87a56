# Kernel build frontend: a verified model

This project models the parts of kernelbuild-buildkit in which a mistake would be
silent: a kernel linked from two compilers' objects, a tree a stamp should not have
blessed, a file lost in a parallel extraction, a pin kept for another tarball. It
proves that they do not happen, or exactly when they do.

`dafny verify dfyconfig.toml` checks everything.

## What is modelled

**Extraction.** `FileTree` is the part of a Unix file system the untar code relies on:
a map from component paths to directories, files and symbolic links, hard links sharing
an inode, every call on `os.Root` resolving links. `Extract` is what one tar entry and
the one-at-a-time loop do; `UntarSerial` has that loop in the form it is written in, and
says what the headers of an archive come to. `EntryMeaning` says what every path holds
after an entry, and what links on the way stand for.
`UntarPool` is the write pool with its reader as a state machine: bounded queues, one
worker per shard, the pending counter, the sticky error, recycled buffers. A run is any
sequence of steps of the reader and the workers, one file system call each, so a claim
about every run is a claim about every schedule, number of workers and sharding. `Batch`
and `SerialBatch` say what the calls between two barriers come to in whatever order;
`PoolLive`, `PoolBuffers`, `PoolLanes`, `PoolRefines`, `PoolTheorem` and `PoolWitness`
build the theorems; `PoolMoves` writes out runs for the counterexamples. `SeedTree` is
the walk of `seedPush` read back by `untarSeed`, and `SeedMount` says that this is what
the step protocol takes it for. `Names` has the file names the two share.

**The step protocol.** `Kbuild` has mounts, inputs, and make behind assumptions;
`Protocol` is the step as a state machine over persistent mounts. A step of a run
completes, or the run ends there with any part of the effect done: that is a kill, a
failing make, a lost network. Many workers each have a mount per id and share a seed
store; a history is any finite interleaving. `MountInvariant`, `RunInvariant`,
`RunSteps`, `RunDone` and `RunBuild` carry the invariant through every program counter;
`Histories` has the theorems, over every history whose seed keys were rendered from a
base with its digest, and `Sources` those on the tarball, over every history. `Walks`
builds histories: with them `Exactness` and `BaseMakes` show that the conditions of
transparency are exact, `Mixing` what unpinned seed keys do, and `Wedge` which mounts a
run cannot build on. `StepRun` has `nukeTree`, `prepareTree`, `configure` and `run` as
methods on a mount, each proved to be a walk through the machine, so the theorems are
about them, and `SourceMount` says that the download of `Download` is the machine's
acquiring step. The methods also say when they succeed: with no call failing of itself, and
seeds stored as the walk packs them, exactly when a tree can be had and the
configuration is not missing under its marker.

**Identities.** `Text` and `Specs` are Go's string functions, the build description and
its validation. `Identity` has mount ids, seed keys, stamps and markers, `SeedConfig`
the secret that carries a seed's address, `CacheKey` the build graph and its cache key.
`StepReads` reads the step's environment and mounts back into the build they came from.

**Downloads and descriptions.** `Download` is the resumable fetch (ranges and their
answers as in sections 14.2, 15.3.7 and 15.5.17 of RFC 9110, Retry-After as in section
10.2.3) and the cached tarball. `Kernelfile` is the parser and the option layer over it;
`LineMeaning`, `FileMeaning` and `OptionMeaning` say, in the words as they are written,
what each line and each option means, without the parser.

## Assumptions

- Hashes are parameters. Two different values are only assumed to have different hashes
  when both occur: the blobs, patch series and toolchains of a world are finite sets.
- Two series that both occur do not concatenate to the same text: the stamp has the digest
  of the concatenation only, so a series split elsewhere has the same stamp, though each
  file is parsed on its own (cmd/kbuild-step/main.go:958-968).
- Make: over a complete source with objects of the same toolchain made from that source,
  config targets and builds give what they give cold; cut off, they leave objects of that
  toolchain and source; a build that needs `.config` fails without it; make leaves source
  and protocol files alone.
- Source trees hold a `Makefile` and no file named like the protocol's. Top-level names
  that sort before `.kbf-stamp` are not build inputs: a nuke removes them while the old
  stamp still stands.
- A toolchain is fixed by its identity. For `TOOLCHAIN apt` the archive can move under
  the same base; the source says so itself (llb.go:302-308).
- Inside a stretch between two flushes, extraction is compared with the serial loop under
  two hypotheses (`SerialBatch.Tame`): no entry's way goes through a symbolic link that
  stood when the stretch began, directory entries' own paths included, and no directory
  entry names a file queued before it. Seeds meet both. Both are needed, the first one for
  directories (`PoolWitness.DirectoryThroughPendingLink`) and for files alone: two names
  for one file are two shards (`PoolWitness.FilesThroughLink`).

## What came out

- **A base-make list that looks at an earlier `.config` is not transparent.** A list of
  fragments alone (`kvm_guest.config`) merges into whatever `.config` the mount holds, so
  the same inputs export different kernels warm and cold. In a given kbuild the exact
  condition is that the result is the same for every earlier `.config`
  (`Exactness.TransparentIff`); over all of them it is that there is no base make
  (`BaseMakes.GuardIff`).
- **Stamps are prefix-free, markers are not.** A torn stamp is never a stamp. A torn marker
  is the marker of the leading part of its configuration (`Identity.ConfigIdPrefix`), and
  the next run with that part believes it and exports the longer configuration's kernel
  (`Exactness.BelievesMarker`). It does no harm exactly if every longer configuration that
  ran with the same list on the same source gives the same result
  (`Exactness.ContinuationIff`).
- **A nuke removes `.config` before `.kbf-config-src` and the stamp.** Killed in between, it
  leaves a mount (`Wedge.WedgeReached`) on which a run with the old source, list and
  configuration skips `olddefconfig` and fails in make, and so does every run like it until
  something else changes (`Wedge.NoneExports`). It never compiles a wrong configuration. A
  run can be carried through exactly if not: its marker is there, `.config` is not, and its
  job needs it (`Wedge.CanExportIff`).
- **The seed key is rendered before the base is pinned** (client.go:147-151, gateway.go:41-47).
  With a base that does not carry its digest two compilers share a seed key while their
  mounts differ, and one of them comes to hold the other's objects under a live stamp
  (`Mixing.SeedsMix`); with one that does they never mix (`Mixing.NeverMixGuard`).
- **Only the first "#" of a Kernelfile line is looked at.** Behind a value that holds one, a
  comment is no comment but a part of the value (`LineMeaning.CommentIff`), against
  step.go:49-50.
- **A skipped directory's contents are still packed.** The walk leaves out names with
  `.kbf-src` or `.kbf-seed-` but does not skip what is below them; such a directory comes
  back with mode 0755 (`SeedTree.Hollow` in the round trip).
- **The patch digest is taken over the concatenated series**, so file boundaries are not
  part of the stamp.
- The comment in cmd/kbuild-step/untarpool.go:19-22 puts directories behind the barrier;
  the code does not (cmd/kbuild-step/main.go:849-857). The model follows the code.

## Model

| member | source | states |
|---|---|---|
| PoolTheorem.ParallelIsSerial | cmd/kbuild-step/untarpool.go:50-150 | when the pool returns, on a tame stream and under any schedule, it returns success exactly if the one-at-a-time loop succeeds, and then the two trees are equal: contents, modes, file times, links, later duplicates |
| PoolTheorem.NoSpuriousFailure | cmd/kbuild-step/untarpool.go:55-84 | if the serial loop gets through the stream, no reachable state of the pool has failed, in a worker or in the reader |
| PoolTheorem.EveryRunCompletes | cmd/kbuild-step/untarpool.go:109-124 | every run can be carried on until close has returned |
| PoolTheorem.RunAgrees | cmd/kbuild-step/main.go:814-906 | every reachable state of the pool that has not failed stands for a state of the serial loop, with shards in order, exact counting and owned buffers |
| PoolWitness.DirectoryOverPendingFile | cmd/kbuild-step/main.go:849-857 | without the directory hypothesis the theorem is false: a directory entry over a queued file, and a run of the pool that succeeds where the serial loop fails |
| PoolWitness.DirectoryThroughPendingLink | cmd/kbuild-step/main.go:849-857 | without the link hypothesis the theorem is false: a directory entry through a link a queued file is about to replace, and a run of the pool that succeeds where the serial loop fails |
| PoolWitness.FilesThroughLink | cmd/kbuild-step/untarpool.go:100-106 | nor do queued files alone do without it: one file named directly and through a directory link, two workers, and a run of the pool that succeeds, as the serial loop does, with the other contents |
| PoolLive.PendingIsExact | cmd/kbuild-step/untarpool.go:39-42 | in every reachable state the pending counter is the number of jobs announced and not yet done |
| PoolLive.FlushWaits | cmd/kbuild-step/untarpool.go:109-114 | a flush is past its wait only when every earlier job is done: no queue holds a job and no worker has one |
| PoolLive.NeverStuck | cmd/kbuild-step/untarpool.go:50-70 | in every reachable state before close has returned some step is possible, a failed pool included |
| PoolLive.RunsEnd | cmd/kbuild-step/untarpool.go:50-124 | a measure falls on every step, so a run is no longer than a bound in the number of entries and workers |
| PoolBuffers.BuffersHaveOneOwner | cmd/kbuild-step/untarpool.go:57-67 | in every reachable state two holders (free pool, reader, queue slot, worker) never hold one buffer, and the bytes a worker is about to write are the bytes of its entry |
| PoolBuffers.RunOwned | cmd/kbuild-step/untarpool.go:88-107 | the ownership invariant holds in every reachable state, whatever sizes the entries have and whichever buffers the pool hands out |
| PoolLanes.RunLanes | cmd/kbuild-step/untarpool.go:100-106 | what is queued and being written in a shard is in stream order the tail of the shard's files so far |
| Batch.Advance | cmd/kbuild-step/untarpool.go:128-150 | any successful call of any entry of a stretch, in any order the pool allows, keeps what a path holds a function of the counts of calls made |
| Batch.DoneClear | cmd/kbuild-step/main.go:909-935 | a stretch all of whose calls went through had no file above another of its names |
| SerialBatch.BatchIsSerial | cmd/kbuild-step/main.go:828-906 | however the calls of a stretch were interleaved to their end, the serial loop gets there too, with the same tree |
| Extract.SerialSane | cmd/kbuild-step/main.go:814-906 | serial extraction keeps a tree well formed: every ancestor of every path a directory, inodes only from entries read |
| UntarSerial.Root.WriteEntry | cmd/kbuild-step/main.go:909-935 | the six calls in turn: success exactly if the entry applies, and then with its tree |
| UntarSerial.Root.Untar | cmd/kbuild-step/main.go:814-906 | the loop over the headers: success exactly if serial extraction of the entries they come to succeeds, and then with its tree |
| UntarSerial.ArchiveMeans | cmd/kbuild-step/main.go:828-848 | an archive that wraps its entries in a directory, read with as many components stripped, comes to those entries, names and link sources, modes, times and contents, each under its new name |
| UntarSerial.TarballUnwraps | cmd/kbuild-step/main.go:937-943 | a tarball in one directory, read with one component stripped, extracts as its entries would by themselves; the directory's own header is passed over |
| UntarSerial.StripLeading | cmd/kbuild-step/main.go:937-943 | the leading components go and nothing else, and a name goes as a whole exactly if nothing is left |
| EntryMeaning.FileEntry | cmd/kbuild-step/main.go:909-935 | where no link leads to its place, a regular file goes through exactly if its ancestors are directories or missing and nothing is below it; then it is there under its own inode, in place of any link, and every other path is as it was but for the ancestors made |
| EntryMeaning.LinkEntry | cmd/kbuild-step/main.go:886-904 | a hard link goes through exactly if what it names is there, no directory and not itself; then both paths hold one node, inode and all |
| EntryMeaning.SymEntry | cmd/kbuild-step/main.go:871-885 | the same for a symbolic link, which holds its target as given |
| EntryMeaning.DirEntry | cmd/kbuild-step/main.go:849-857 | a directory goes through exactly if nothing else stands at its place or above, and has its mode afterwards |
| SeedTree.SeedRoundTrip | cmd/kbuild-step/main.go:1350-1386 | packing a mount and extracting it into an empty one succeeds under every schedule and gives back every packed path, its contents, permissions, link target and time, nothing else but directories those need, and no shared inodes |
| SeedTree.HeaderKeeps | cmd/kbuild-step/main.go:1367-1370 | of permissions the nine bits, of times the nearest whole second, which is all that comes back |
| SeedTree.PackedNames | cmd/kbuild-step/main.go:1354-1357 | by name: what is packed, what is left out, and what the stamp comes back as |
| SeedTree.PackIsFresh | cmd/kbuild-step/main.go:1350-1386 | the walk's stream names each path once, parents first, with the stamp renamed |
| SeedTree.FreshTame | cmd/kbuild-step/main.go:1315-1326 | such a stream meets both hypotheses of the parallel theorem |
| SeedTree.FreshSerial | cmd/kbuild-step/main.go:1319-1326 | serial extraction of such a stream into an empty mount succeeds and leaves exactly its entries and their ancestors |
| SeedMount.RoundTripIsProtocol | cmd/kbuild-step/main.go:1315-1326 | the files of a mount after the round trip are the packed ones with the stamp under its quarantined name, as the protocol has it |
| Identity.MountIdIff | llb.go:239-246 | two validated builds have one mount id exactly if version, architecture, base, cross prefix, toolchain mode and patched bit agree, their hashes not colliding |
| Identity.SeedKeyIff | llb.go:38-40 | the same for seed keys, which also keep prefixes apart |
| Identity.PreimageApart | llb.go:301-314 | the hashed text says base, effective cross prefix and toolchain mode |
| Identity.StampApart | cmd/kbuild-step/main.go:702-741 | two stamps are equal exactly if source and patches are, and none is the word for no stamp |
| Identity.StampPrefixFree | cmd/kbuild-step/main.go:710-741 | no stamp continues another, so a torn stamp is no stamp |
| Identity.ConfigIdApart | cmd/kbuild-step/main.go:337-339 | two markers are equal exactly if base-make list and configuration are |
| Identity.ConfigIdPrefix | cmd/kbuild-step/main.go:390-392 | a marker continues another exactly if the lists are equal and the configuration continues the other: markers are not prefix-free |
| Specs.VersionChars | spec.go:70 | a validated version holds digits, dots and the letters of a release candidate suffix only |
| Specs.VersionIff | spec.go:70 | accepted are exactly two or three dotted numbers with or without a release candidate number |
| Specs.EpochIff | spec.go:78 | an epoch is accepted exactly if it is the decimal of a second up to the year 9999 |
| Specs.ValidMeans | spec.go:100-205 | what a validated build cannot be: no name leads out of its directory, no base-make word is an option, an assignment or a path, arm64 brings its compilers, and a push has its source fixed |
| SeedConfig.SeedCfgRoundTrip | llb.go:30-46 | for every validated build the step reads back the address, key, effective region and push flag that were rendered, "=" in the address or not, and nothing when seeding is off |
| SeedConfig.LoadSeedCfg | cmd/kbuild-step/main.go:1210-1241 | the loop over the lines computes the reading the round trip is about, and nothing without both credentials |
| Histories.Transparent | cmd/kbuild-step/main.go:92-205 | over every history with pinned seed keys, whatever a run with pinned or local source exports is what the same inputs export from an empty mount, if an earlier `.config` does not show in the result and no earlier run with that list on that source had a configuration that continues theirs |
| Histories.Exported | cmd/kbuild-step/main.go:133-198 | without those conditions the export is still the cold result up to what the base make found as `.config` and to an earlier run's longer configuration |
| Exactness.TransparentIff | cmd/kbuild-step/main.go:328-395 | every history in which no earlier configuration continues theirs exports the cold result of given inputs if and only if the result is the same for every earlier `.config` |
| Exactness.ContinuationIff | cmd/kbuild-step/main.go:337-395 | among any set of runs, every history exports the cold result of inputs whose base make looks at no earlier `.config` if and only if each configuration in the set that continues theirs, with the same list on the same source, gives the same result |
| Exactness.BelievesMarker | cmd/kbuild-step/main.go:338-342 | a run cut off while it writes its marker leaves the marker of a shorter configuration, and a run with that one exports the longer one's result |
| Exactness.ColdRun | cmd/kbuild-step/main.go:230-323 | from nothing, a run with its tarball at hand can be carried to the export of the cold result |
| Exactness.WarmRun | cmd/kbuild-step/main.go:362-386 | for any text some history lets a run's base make find that text as `.config` and export what follows |
| BaseMakes.MergingShows | cmd/kbuild-step/main.go:362-371 | for any inputs with a base-make list there is a world with two histories in which they export one thing cold and another warm |
| BaseMakes.GuardIff | cmd/kbuild-step/main.go:362-386 | inputs export their cold result in every world, where no earlier configuration continues theirs, if and only if their base-make list is empty |
| Wedge.WedgeReached | cmd/kbuild-step/main.go:752-766 | for any inputs, another source on the same mount and a nuke killed right after `.config` leave the old stamp and marker with no `.config` and no run |
| Wedge.NoneExports | cmd/kbuild-step/main.go:340-343 | as long as only runs with that stamp, list and configuration that need `.config` hold such a mount, wherever they are cut off, it stays so and none of them exports |
| Wedge.CanExportIff | cmd/kbuild-step/main.go:340-343 | a run on a stamped tree can be carried to its export uncut if and only if not: its marker is there, `.config` is missing and its job needs it |
| Histories.PlainSteady | cmd/kbuild-step/main.go:384-386 | without a base make, or with one that does not look at an earlier `.config`, the condition holds |
| Kbuild.BlankIff | cmd/kbuild-step/main.go:371 | a configuration counts as none exactly if it is all white space |
| Histories.LiveStamp | cmd/kbuild-step/main.go:230-323 | in every reachable state after runs with pinned seed keys a live stamp for a tarball and a series stands on exactly that source, complete and patched, with every object made from it by the mount's toolchain |
| Histories.LiveMarker | cmd/kbuild-step/main.go:328-395 | in every reachable state with such a stamp a marker, torn ones included, is only there when `.config` is missing, what its pair resolves to on that tree, or what the list and a longer configuration do that an earlier run on that source had |
| Histories.OwnObjects | llb.go:239-246 | in every reachable state after runs with pinned seed keys every object on a mount was made by the toolchain the mount's id stands for |
| Histories.SeedObjects | llb.go:38-40 | the same for every seed and the toolchain its key stands for |
| Mixing.SeedsMix | client.go:147-151 | two runs that differ in their base and share a seed key have a history in which the second one's mount holds the first one's image under a live stamp for its own source |
| Mixing.NeverMixGuard | gateway.go:41-47 | a base with its digest when the key is rendered means one toolchain and no such history; two toolchains that share a key mean no digest, and such a history |
| Sources.VerifiedSource | cmd/kbuild-step/main.go:405-449 | whenever a run holds an acquired tarball under a pin, the file it will read is there and hashes to the pin |
| Sources.NothingLost | cmd/kbuild-step/main.go:238-258 | while a replacement is acquired, and if the run ends there, every file of the warm mount but the cached source, and left-over seed archives, is as it was |
| Sources.ExtractsAcquired | cmd/kbuild-step/main.go:299-310 | what the extraction reads is what was acquired: the local tarball, or the one with the pinned hash |
| Histories.HistoryOk | cmd/kbuild-step/main.go:92-206 | the whole invariant holds of every worker, every mount, every seed and every export at the end of every history with pinned seed keys |
| RunBuild.DoneOk | cmd/kbuild-step/main.go:230-395 | every completed step, from the stamp comparison to the export, keeps the mount, the run and the seeds as they should be |
| RunSteps.CutOk | cmd/kbuild-step/main.go:230-395 | however much of a step was done when a run ended, any proper part of a stamp, a marker or `.config` included, the mount is still as it should be |
| RunSteps.TornMarkerOk | cmd/kbuild-step/main.go:390-392 | any proper part of a marker, beside a configuration just resolved, vouches for no more than the invariant allows |
| RunInvariant.NukedOk | cmd/kbuild-step/main.go:752-766 | a nuke cut off anywhere leaves a mount whose live stamp, if still there, is right |
| RunInvariant.TornOk | cmd/kbuild-step/main.go:316-318 | a stamp cut off while it is written blesses nothing |
| RunDone.SeedStampable | cmd/kbuild-step/main.go:285-296 | a pulled seed whose quarantined stamp is the wanted one may be stamped: it is the mount it was packed from |
| RunDone.TreeStampable | cmd/kbuild-step/main.go:299-318 | a tree just extracted and patched may be stamped |
| RunBuild.PushedOk | cmd/kbuild-step/main.go:1350-1425 | a pushed seed is right for every toolchain that would look for it under its key |
| MountInvariant.WantNames | cmd/kbuild-step/main.go:712-741 | inputs that want a stamp naming a tarball ask for that tarball, in that mode, with those patches |
| StepRun.Mounted.NukeTree | cmd/kbuild-step/main.go:752-766 | the loop over the sorted names leaves the cached source only; it fails exactly if a removal fails, and then a prefix of the names is gone with a part of the next |
| StepRun.SweptIff | cmd/kbuild-step/main.go:113-119 | of the files exactly the top-level ones named ".kbf-seed-*.tmp" are swept |
| StepRun.Step.PrepareTree | cmd/kbuild-step/main.go:230-323 | every way through is a walk of the state machine to a tree with the wanted stamp, or to the end of the run; with no call failing of itself there is one exactly if the mount had it, a stored seed fits, or the tarball unpacks and the series applies; with a pin no tarball meets, a warm tree with another stamp ends the run with every file but the cached source as it was |
| StepRun.TarballIs | cmd/kbuild-step/main.go:405-449 | for pinned and local inputs the tarball of that condition is the one they ask for |
| StepRun.OfflineOk | cmd/kbuild-step/main.go:405-449 | all inputs, a pin that no tarball meets included, have surroundings in which those methods apply |
| StepRun.Step.Configure | cmd/kbuild-step/main.go:328-395 | a walk from a stamped tree to the marker of this list and configuration, beside the `.config` it found under that marker or else one that was made; it succeeds whenever no call fails of itself |
| StepRun.Step.Go | cmd/kbuild-step/main.go:92-206 | with no call failing of itself, the run exports exactly if a tree can be had and not: the marker of its configuration is there, `.config` is missing and its job needs it; on a mount and seeds as earlier runs may leave them, what it exports is the cold result up to what the base make found and an earlier longer configuration, and however it ends the mount is as it should be |
| Download.Partial.Fetch | cmd/kbuild-step/main.go:542-629 | the loop ends as the attempts one after the other do: how, with which file, after which pauses |
| Download.AttemptsExact | cmd/kbuild-step/main.go:538-629 | against an honest server that fails in any way, the file is a part of the content before and after every attempt and all of it on success |
| Download.AttemptEnds | cmd/kbuild-step/main.go:574-627 | a clean whole body or rest ends the call with it; a lost connection, 429, 500 and above, a body that broke off, or 416 with something on file do not end it before the fifth; any other reply ends it with the file as it was |
| Download.NextFile | cmd/kbuild-step/main.go:574-627 | what the next attempt finds on file after each of those replies |
| Download.OneCleanAnswer | cmd/kbuild-step/main.go:547-627 | one clean answer within five attempts and after such trouble only is enough for success |
| Download.PausesBounded | cmd/kbuild-step/main.go:550-557 | at most four pauses, each at least the growing backoff and never beyond it or the cap on Retry-After |
| Download.RetryAfterIs | cmd/kbuild-step/main.go:672-687 | the decimal of a number of seconds, white space around it or not, is read as that number up to thirty, and as none if it does not fit or is negative |
| Download.RetryAfterNone | cmd/kbuild-step/main.go:672-687 | what is not a number asks for nothing |
| Download.HintHeeded | cmd/kbuild-step/main.go:549-556 | after a busy answer the next attempt waits what it asked for, up to thirty seconds, or the growing backoff if that is longer |
| Download.Cache.Acquire | cmd/kbuild-step/main.go:415-449 | the two files end as one function of the call says; success under a pin means the cached tarball has the pinned hash, a failure leaves the cached tarball alone |
| Download.AcquiredContent | cmd/kbuild-step/main.go:415-449 | against an honest server, success leaves that server's content cached, or what was cached before and has the pinned hash |
| Download.AcquiredWhen | cmd/kbuild-step/main.go:415-449 | a cached tarball with the pinned hash is used without a request; any other is replaced if one of five answers comes through clean and meets the pin, and kept otherwise |
| SourceMount.CallIsStep | cmd/kbuild-step/main.go:405-449 | on the files of a mount, a call that succeeds is the protocol's acquiring step, and one that fails leaves what that step may leave when it is cut off |
| Kernelfile.OrderDoesNotMatter | step.go:55-169 | files with the same lines in another order are both rejected or give the same build, derived address and cleared pin included |
| Kernelfile.NoDuplicates | step.go:94-97 | a key given twice spoils the file, wherever the two lines stand |
| Kernelfile.Build.ParseKernelfile | step.go:55-169 | the loop accepts exactly the files the reading accepts and leaves the build it says |
| LineMeaning.ReadIff | step.go:77-93 | a line is read as a word and a value exactly if it is laid out so: white space, the word, white space, the whole value, white space, a comment or none |
| LineMeaning.NothingIff | step.go:77-86 | a line is read over exactly if it is white space and a comment or none |
| LineMeaning.CommentIff | step.go:77-84 | a comment behind a value is taken off exactly if the value holds no "#" |
| FileMeaning.FieldsMean | step.go:98-152 | EPOCH, CONFIG, EXPECT, BASE_MAKE, ARCH, CROSS_COMPILE, PROXY_CA and BASE, anywhere in the file, each set their own field to the value and no other |
| FileMeaning.ChoicesMean | step.go:119-152 | PATCHES and TOOLCHAIN take their two words and spoil the file with another; TARGETS is split at blanks and commas and spoils it if nothing is left |
| FileMeaning.SourceMeans | step.go:99-107 | KERNEL brings its own address unless SOURCE_URL is set somewhere, both drop the pin unless SHA256 is, and SHA256 sets it |
| FileMeaning.OnlyTheseWords | step.go:94-157 | another word, or one set twice, spoils the file |
| FileMeaning.SpoiltStays | step.go:84-93 | an empty line changes nothing, a line that is neither empty nor a setting spoils the file, and nothing mends it |
| FileMeaning.FileEdges | step.go:65-74 | an empty file changes nothing, one that cannot be read to its end is refused, and an editor's mark is no part of it |
| Text.FieldsCut | step.go:139 | a separator ends one field and starts the next, which with single fields says what splitting is |
| Kernelfile.PinProvenance | cmd/kbuild-frontend/main.go:166-178 | through both layers a pin was given in so many words in the last layer that changed version or address or later, or version and address are the built-in pin's own |
| Kernelfile.PinKept | step.go:159-167 | an explicit pin is never lost: the options' stands, the file's stands exactly while the options leave version and address alone |
| Kernelfile.Options.ReadBool | cmd/kbuild-frontend/main.go:273-284 | a flag is left alone, set or refused, and untouched when refused |
| Kernelfile.Options.ApplyOpts | cmd/kbuild-frontend/main.go:166-268 | the options are accepted exactly when their reading is, with the build it says |
| OptionMeaning.OptionMeans | cmd/kbuild-frontend/main.go:183-268 | one option more, its name not one for the source: a wrong spelling is refused, otherwise it sets its own field and no other, a platform before an architecture, a proxy in small letters before one in large; an unknown name changes nothing |
| OptionMeaning.SourceMeans | cmd/kbuild-frontend/main.go:166-178 | another version brings its own address unless one is given, both drop the pin unless one is given, and a given pin stands |
| OptionMeaning.NoCacheEmpty | cmd/kbuild-frontend/main.go:253-260 | "no-cache" counts when it is sent with an empty value |
| Kernelfile.OptsIdempotent | cmd/kbuild-frontend/main.go:166-268 | giving the same options again changes nothing |
| CacheKey.RoutesAreNeutral | llb.go:92-109 | changing only proxies and the seed's address, prefix or region leaves the keys of the toolchain and compile vertices unchanged |
| CacheKey.KeyGivesInputs | llb.go:213-264 | equal compile keys mean the same toolchain vertex, environment and step inputs, contents of the mounts included, hence the same cold result |
| StepReads.ReadBack | llb.go:213-264 | from the environment, the mounts and the toolchain vertex the step reads back what the build says: toolchain, source, patches, base make, configuration and job, and the identity its stamp is made of |
| StepReads.TreeRead | llb.go:239-246 | the tree is mounted under the id of the toolchain the step reads |
| StepReads.DefaultsRead | llb.go:328-345 | the defaults: x86_64, the cross prefix of arm64 and none otherwise, vmlinux and on arm64 the image as well |
| StepReads.PushRead | llb.go:281-286 | the step is asked to push exactly if the build is to, and only then does the vertex hold a random word |
| StepReads.ProxiesReach | llb.go:79-109 | proxies reach both vertices as they were given, with local addresses around them |
| StepReads.CertificateReaches | llb.go:111-151 | a proxy's certificate is at hand where the toolchain is made, and network and cache are used as asked |
| CacheKey.SpecFits | spec.go:100-205 | the inputs of every validated build are what the protocol takes for inputs |

## Left out

- Tar, gzip, xz and zstd formats: abstracted as lossless; an entry that cannot be read is one kind of entry.
- FNV and SHA-256: sharding is any function of the name, digests any functions with the assumptions above.
- BuildKit, the gateway, S3 and HTTP clients: only what they promise appears, as parameters of the machines.
- `os.Root` confinement, redirects, address checks and redaction of URLs: security policy.
- `Timestamp`: its range check is part of validation, the calendar is not.
- `resolveTargets`, `validateExpectations`, `bundleKconfigs`, `packModules`: one-pass checks and copies; they can fail a run wherever a run can fail.
- `KernelLLB`'s slices: the appended option lists are one expression here; custom names and read-only flags are left out, and the persistent mount's id counts as part of the vertex.
- Directory times and the tree after a failed call: no call promises anything about either; `MkdirAll` is one step.
- The tree below a mount's files: directories of a mount are not tracked by the step protocol, only by the extraction model.
- A disk error when the download opens its file: it ends the call like any other error.
- PoolTheorem.ParallelIsSerial: the write pool is a state machine rather than a class, because its steps interleave; a buffer given back after a body that cannot be read is not put in the free pool first.
- Histories.Transparent: nothing is said of unpinned URL sources, whose bytes a stamp does not fix; toolchains of mode apt are taken to be fixed by their identity; the quarantined stamp's removal, whose error the code ignores, is taken to succeed.
- StepRun.Step.Go: ends before the push; `Protocol` has it as one atomic put.
- CacheKey.KeyGivesInputs: the helper binary's content is taken to be the same; the random action of a push is part of the key and of no input.
- Kernelfile.Build.ParseKernelfile: error texts and line numbers are not modelled, only that there is an error.
