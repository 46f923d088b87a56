/**
 The main results on parallel extraction: it succeeds exactly when the serial
 loop does and leaves the same tree, every run can be completed, and neither
 hypothesis on the stream can be dropped.
 */
module PoolTheorem {
  import opened Wrappers
  import opened FileTree
  import opened Extract
  import opened Batch
  import opened SerialBatch
  import opened UntarPool
  import opened PoolLive
  import opened PoolBuffers
  import opened PoolLanes
  import opened PoolRefines

  /** Once the pool or the reader has failed, it has failed for good. */
  lemma FailureSticks(c: Config, st: State, act: Act)
    requires ConfigOk(c) && Shape(c, st) && Next(c, st, act).Some?
    ensures st.err.Some? ==> Next(c, st, act).value.err == st.err
    ensures Failing(st.rd) ==> Failing(Next(c, st, act).value.rd)
  {
  }

  /** A successful return saw no worker failure, before or after. */
  ghost predicate CleanReturn(st: State) {
    st.rd == Returned(true) ==> st.err.None?
  }

  lemma StepClean(c: Config, st: State, act: Act)
    requires ConfigOk(c) && Shape(c, st) && Lanes(c, st) && CleanReturn(st) && Next(c, st, act).Some?
    ensures CleanReturn(Next(c, st, act).value)
  {
  }

  lemma StepAgrees(c: Config, t0: Tree, st: State, act: Act)
    requires ConfigOk(c) && Tame(t0, c.es) && Shape(c, st) && Lanes(c, st) && Counted(c, st) && Owned(c, st)
    requires Agrees(c, t0, st) && Next(c, st, act).Some?
    requires Shape(c, Next(c, st, act).value) && Lanes(c, Next(c, st, act).value)
    ensures Agrees(c, t0, Next(c, st, act).value)
  {
    hide Sound, Lanes, Counted, Owned, ReaderOk, WorkerOk, QueueOk, ReadNext, WorkNext, Tame;
    FailureSticks(c, st, act);
    var st' := Next(c, st, act).value;
    if st'.err.None? && !Failing(st'.rd) {
      match act
      case Read(pick, spare) => ReadSound(c, t0, st, pick, spare);
      case Work(w) => WorkSound(c, t0, st, w);
    }
  }

  lemma InitAgrees(c: Config, t0: Tree)
    requires ConfigOk(c) && Tame(t0, c.es)
    ensures Agrees(c, t0, Init(c, t0))
  {
    hide Running;
    var st := Init(c, t0);
    assert c.es[..0] == [];
    StartBatch(t0, 0);
    assert Working(c, st) == [] && Counts(c, st) == [];
  }

  /** All the invariants of a reachable state together. */
  lemma {:induction false} RunAgrees(c: Config, t0: Tree, acts: seq<Act>)
    requires ConfigOk(c) && Tame(t0, c.es) && Run(c, t0, acts).Some?
    ensures var st := Run(c, t0, acts).value;
      Lanes(c, st) && Counted(c, st) && Owned(c, st) && CleanReturn(st) && Agrees(c, t0, st)
  {
    hide Sound, Lanes, Counted, Owned, ReaderOk, WorkerOk, QueueOk, Next, Tame, Agrees;
    RunLanes(c, t0, acts);
    PendingIsExact(c, t0, acts);
    RunOwned(c, t0, acts);
    if acts == [] {
      InitAgrees(c, t0);
    } else {
      var n := |acts| - 1;
      RunAgrees(c, t0, acts[..n]);
      var st := Run(c, t0, acts[..n]).value;
      StepAgrees(c, t0, st, acts[n]);
      StepClean(c, st, acts[n]);
    }
  }

  // ---- a failure of the pool is a failure of the loop ----

  /** The reader fails only at an entry the serial loop does not get through. */
  lemma ReaderFails(c: Config, t0: Tree, st: State, pick: nat, spare: nat)
    requires ConfigOk(c) && Tame(t0, c.es) && Shape(c, st) && Lanes(c, st) && Sound(c, t0, st)
    requires st.err.None? && !Failing(st.rd)
    requires ReadNext(c, st, pick, spare).Some? && Failing(ReadNext(c, st, pick, spare).value.rd)
    ensures st.k < |c.es| && Serial(t0, c.es[..st.k + 1]).None?
  {
    hide Sound, Lanes, Tame, WorkerOk, QueueOk, MkdirAll, Chmod, Apply;
    assert st.k < |c.es|;
    assert c.es[..st.k + 1][..st.k] == c.es[..st.k];
    if st.rd == Ready && c.es[st.k].DirE? {
      MkdirFails(c, t0, st);
    } else if st.rd == Chmodding {
      ChmodFails(c, t0, st);
    } else if st.rd == Inline {
      InlineFails(c, t0, st);
    } else {
      assert st.rd == Ready && c.es[st.k].BadE?;
      BadFails(c, t0, st.k);
    }
  }

  lemma InlineFails(c: Config, t0: Tree, st: State)
    requires ConfigOk(c) && Shape(c, st) && Sound(c, t0, st) && st.rd == Inline && st.k < |c.es|
    requires Apply(st.fs, st.k, c.es[st.k]).None?
    ensures Serial(t0, c.es[..st.k + 1]).None?
  {
    hide Running, Apply;
    assert c.es[..st.k + 1][..st.k] == c.es[..st.k];
  }

  lemma BadFails(c: Config, t0: Tree, k: nat)
    requires StreamOk(c.es) && k < |c.es| && c.es[k].BadE?
    ensures Serial(t0, c.es[..k + 1]).None?
  {
    assert c.es[..k + 1][..k] == c.es[..k];
  }

  lemma MkdirFails(c: Config, t0: Tree, st: State)
    requires ConfigOk(c) && Tame(t0, c.es) && Shape(c, st) && Lanes(c, st) && Sound(c, t0, st)
    requires st.rd == Ready && st.k < |c.es| && c.es[st.k].DirE?
    requires MkdirAll(st.fs, c.es[st.k].name).None?
    ensures Serial(t0, c.es[..st.k + 1]).None?
  {
    hide Running, Lanes, ReaderOk, WorkerOk, QueueOk, MkdirAll, Gentle, Order, Clear, Counts, Sane, Tame, Allows, Serial;
    if Serial(t0, c.es[..st.k + 1]).Some? {
      var b, e := Start(c.es, st.k), AsSoft(c.es[st.k]);
      var s0 := Serial(t0, c.es[..b]).value;
      var n := st.k - b;
      Longer(c, t0, st);
      RunningFacts(s0, Working(c, st) + [e], b, Counts(c, st) + [0], st.fs);
      LongerOrder(c, st, s0, e, 1);
      SerialAllows(t0, c.es, st.k + 1, s0);
      assert (Counts(c, st) + [0])[n := 1] == Counts(c, st) + [1];
      CallSucceeds(s0, st.fs, Working(c, st) + [e], b, Counts(c, st) + [0], n);
    }
  }

  lemma LastOrder(es: seq<Soft>, pr: seq<nat>)
    requires Order(es, pr) && es != [] && es[|es| - 1].DirE? && pr[|es| - 1] == 1
    ensures Order(es, pr[|es| - 1 := 2])
  {
  }

  lemma ChmodSucceeds(c: Config, st: State, s0: Tree)
    requires ConfigOk(c) && Shape(c, st) && st.rd == Chmodding && st.k < |c.es| && c.es[st.k].DirE?
    requires Running(s0, Working(c, st), Start(c.es, st.k), Counts(c, st), st.fs) && Clear(Working(c, st))
    requires forall i :: 0 <= i < |Working(c, st)| ==> Allows(s0, Working(c, st)[i], Calls(Working(c, st)[i]))
    ensures Chmod(st.fs, c.es[st.k].name, c.es[st.k].mode).Some?
  {
    hide Running, ReaderOk, WorkerOk, QueueOk, Chmod, Gentle, Order, Clear, Sane, Counts, Working, Allows;
    var es, pr, n := Working(c, st), Counts(c, st), st.k - Start(c.es, st.k);
    RunningFacts(s0, es, Start(c.es, st.k), pr, st.fs);
    MadeLength(c, st);
    MadeAt(c, st, n);
    LastOrder(es, pr);
    CallSucceeds(s0, st.fs, es, Start(c.es, st.k), pr, n);
  }

  lemma ChmodFails(c: Config, t0: Tree, st: State)
    requires ConfigOk(c) && Tame(t0, c.es) && Shape(c, st) && Lanes(c, st) && Sound(c, t0, st)
    requires st.rd == Chmodding && st.k < |c.es| && c.es[st.k].DirE?
    requires Chmod(st.fs, c.es[st.k].name, c.es[st.k].mode).None?
    ensures Serial(t0, c.es[..st.k + 1]).None?
  {
    hide Running, Lanes, ReaderOk, WorkerOk, QueueOk, Chmod, Gentle, Order, Clear, Sane, Tame, Counts, Working, Serial, Allows;
    if Serial(t0, c.es[..st.k + 1]).Some? {
      var s0 := Serial(t0, c.es[..Start(c.es, st.k)]).value;
      RunningFacts(s0, Working(c, st), Start(c.es, st.k), Counts(c, st), st.fs);
      WorkingCurrent(c, st);
      SerialAllows(t0, c.es, st.k + 1, s0);
      ChmodSucceeds(c, st, s0);
    }
  }

  lemma WorkingCurrent(c: Config, st: State)
    requires ConfigOk(c) && Shape(c, st)
    ensures Reached(st) <= |c.es| && Start(c.es, Reached(st)) == Start(c.es, st.k)
    ensures Working(c, st) == Current(c.es, Reached(st))
  {
  }

  /** The count a write is about to reach keeps same names in order. */
  lemma WriteOrder(c: Config, st: State, w: nat)
    requires ConfigOk(c) && Shape(c, st) && Lanes(c, st) && Owned(c, st) && w < c.n && st.workers[w].Writing?
    requires Order(Working(c, st), Counts(c, st))
    ensures var x := st.workers[w].job.id - Start(c.es, st.k);
      && 0 <= x < |Working(c, st)| && Working(c, st)[x] == c.es[st.workers[w].job.id]
      && Counts(c, st)[x] == st.workers[w].s < 6
      && Order(Working(c, st), Counts(c, st)[x := st.workers[w].s + 1])
  {
    hide Lanes, Owned, ReaderOk, QueueOk, Counts, Working, Progress;
    WriteIsCall(c, st, w);
    var b, id, s := Start(c.es, st.k), st.workers[w].job.id, st.workers[w].s;
    var es, pr, x := Working(c, st), Counts(c, st), id - b;
    MadeLength(c, st);
    MadeAt(c, st, x);
    forall i | 0 <= i < x && es[i].name == es[x].name ensures pr[i] == Calls(es[i]) {
      MadeAt(c, st, i);
      if es[i].RegE? { BeforeHead(c, st, w, b + i); }
    }
  }

  lemma BeforeHead(c: Config, st: State, w: nat, i: nat)
    requires ConfigOk(c) && Shape(c, st) && Lanes(c, st) && w < c.n && st.workers[w].Writing?
    requires i < st.workers[w].job.id && i < |c.es| && InLane(c, w, i)
    ensures Progress(c, st, i) == 6
  {
    assert LaneOf(c, w, Start(c.es, st.k), st.k, Flight(st, w));
    assert Flight(st, w)[0] == st.workers[w].job.id;
  }

  lemma WriteSucceeds(c: Config, st: State, s0: Tree, w: nat)
    requires ConfigOk(c) && Shape(c, st) && Lanes(c, st) && Owned(c, st) && w < c.n && st.workers[w].Writing?
    requires Running(s0, Working(c, st), Start(c.es, st.k), Counts(c, st), st.fs) && Clear(Working(c, st))
    requires forall i :: 0 <= i < |Working(c, st)| ==> Allows(s0, Working(c, st)[i], Calls(Working(c, st)[i]))
    ensures st.workers[w].job.id < |c.es| && Small(c.es[st.workers[w].job.id]) && st.workers[w].s < 6
    ensures Call(st.fs, c.es[st.workers[w].job.id], st.workers[w].job.id, st.workers[w].s).Some?
  {
    hide Running, Lanes, Owned, ReaderOk, WorkerOk, QueueOk, Gentle, Order, Clear, Sane, Counts, Working, Allows, Call;
    var b, id := Start(c.es, st.k), st.workers[w].job.id;
    RunningFacts(s0, Working(c, st), b, Counts(c, st), st.fs);
    WriteOrder(c, st, w);
    WriteIsCall(c, st, w);
    CallSucceeds(s0, st.fs, Working(c, st), b, Counts(c, st), id - b);
  }

  /** A write fails only where the serial loop does not get through the batch. */
  lemma WorkerFails(c: Config, t0: Tree, st: State, w: nat)
    requires ConfigOk(c) && Tame(t0, c.es) && Shape(c, st) && Lanes(c, st) && Owned(c, st) && Sound(c, t0, st)
    requires st.err.None? && WorkNext(c, st, w).Some? && WorkNext(c, st, w).value.err.Some?
    ensures Reached(st) <= |c.es| && Serial(t0, c.es[..Reached(st)]).None?
  {
    hide Running, Lanes, Owned, ReaderOk, QueueOk, WriteCall, Gentle, Order, Clear, Sane, Tame, Counts, Working, Serial, Allows, Call;
    WorkingCurrent(c, st);
    assert st.workers[w].Writing?;
    if Serial(t0, c.es[..Reached(st)]).Some? {
      var s0 := Serial(t0, c.es[..Start(c.es, st.k)]).value;
      RunningFacts(s0, Working(c, st), Start(c.es, st.k), Counts(c, st), st.fs);
      SerialAllows(t0, c.es, Reached(st), s0);
      WriteSucceeds(c, st, s0, w);
      WriteIsCall(c, st, w);
    }
  }

  lemma StepSucceeds(c: Config, t0: Tree, st: State, act: Act)
    requires ConfigOk(c) && Tame(t0, c.es) && Shape(c, st) && Lanes(c, st) && Owned(c, st) && Sound(c, t0, st)
    requires Serial(t0, c.es).Some? && st.err.None? && !Failing(st.rd) && Next(c, st, act).Some?
    ensures Next(c, st, act).value.err.None? && !Failing(Next(c, st, act).value.rd)
  {
    hide Sound, Lanes, Owned, ReaderOk, WorkerOk, QueueOk, Tame, Serial;
    var st' := Next(c, st, act).value;
    match act {
      case Read(pick, spare) =>
        ReaderMoves(c, st, pick, spare);
        if Failing(st'.rd) {
          ReaderFails(c, t0, st, pick, spare);
          SerialPrefix(t0, c.es, st.k + 1);
        }
      case Work(w) =>
        WorkOnly(c, st, w);
        if st'.err.Some? {
          WorkerFails(c, t0, st, w);
          SerialPrefix(t0, c.es, Reached(st));
        }
    }
  }

  /** If the serial loop gets through the stream, no schedule ever fails. */
  lemma {:induction false} NoSpuriousFailure(c: Config, t0: Tree, acts: seq<Act>)
    requires ConfigOk(c) && Tame(t0, c.es) && Run(c, t0, acts).Some? && Serial(t0, c.es).Some?
    ensures Run(c, t0, acts).value.err.None? && !Failing(Run(c, t0, acts).value.rd)
  {
    hide Sound, Lanes, Counted, Owned, Shape, Next, Tame, Serial;
    if acts != [] {
      var n := |acts| - 1;
      NoSpuriousFailure(c, t0, acts[..n]);
      RunAgrees(c, t0, acts[..n]);
      StepSucceeds(c, t0, Run(c, t0, acts[..n]).value, acts[n]);
    }
  }

  /**
   Parallel extraction is serial extraction: on a tame stream, whatever the
   number of workers, the sharding and the schedule, the pool returns success
   exactly when the one-at-a-time loop succeeds, and then with its tree.
   */
  lemma ParallelIsSerial(c: Config, t0: Tree, acts: seq<Act>)
    requires ConfigOk(c) && Tame(t0, c.es)
    requires Run(c, t0, acts).Some? && Run(c, t0, acts).value.rd.Returned?
    ensures var st := Run(c, t0, acts).value;
      && (st.rd.ok <==> Serial(t0, c.es).Some?)
      && (st.rd.ok ==> Serial(t0, c.es) == Some(st.fs))
  {
    hide Lanes, Counted, Owned, Tame, Serial, Running, Next;
    var st := Run(c, t0, acts).value;
    RunAgrees(c, t0, acts);
    assert c.es[..|c.es|] == c.es;
    if Serial(t0, c.es).Some? { NoSpuriousFailure(c, t0, acts); }
  }

  /** Every run can be carried to its end: the pool neither deadlocks nor goes on for ever. */
  lemma {:induction false} EveryRunCompletes(c: Config, t0: Tree, acts: seq<Act>) returns (rest: seq<Act>)
    requires ConfigOk(c) && Run(c, t0, acts).Some?
    ensures Run(c, t0, acts + rest).Some? && Run(c, t0, acts + rest).value.rd.Returned?
    decreases 20 * |c.es| + 3 + c.n - |acts|
  {
    hide Next, Shape;
    var st := Run(c, t0, acts).value;
    if st.rd.Returned? {
      rest := [];
      assert acts + [] == acts;
    } else {
      NeverStuck(c, t0, acts);
      var act :| Next(c, st, act).Some?;
      var longer := acts + [act];
      assert longer[..|acts|] == acts;
      RunsEnd(c, t0, longer);
      var more := EveryRunCompletes(c, t0, longer);
      rest := [act] + more;
      assert acts + rest == longer + more;
    }
  }
}
