/**
 The parallel pool refines the one-at-a-time loop: on a tame stream every
 schedule succeeds exactly when the loop does, and then leaves the same tree.
 */
module PoolRefines {
  import opened Wrappers
  import opened FileTree
  import opened Extract
  import opened Batch
  import opened SerialBatch
  import opened UntarPool
  import opened PoolLive
  import opened PoolBuffers
  import opened PoolLanes

  /** How many calls entry `i` of the current batch has made. */
  function Progress(c: Config, st: State, i: nat): nat
    requires ConfigOk(c) && i < |c.es| && |st.queues| == |st.workers| == c.n
    requires !Barrier(c.es[i])
  {
    if c.es[i].DirE? then 2
    else
      var w := c.shard(c.es[i].name);
      if i !in Flight(st, w) then 6
      else if st.workers[w].Writing? && st.workers[w].job.id == i then st.workers[w].s
      else 0
  }

  function ProgressTo(c: Config, st: State, b: nat, k: nat): (pr: seq<nat>)
    requires ConfigOk(c) && b <= k <= |c.es| && |st.queues| == |st.workers| == c.n
    requires forall i :: b <= i < k ==> !Barrier(c.es[i])
    ensures |pr| == k - b && forall x {:trigger pr[x]} :: 0 <= x < |pr| ==> pr[x] == Progress(c, st, b + x)
  {
    if b == k then [] else ProgressTo(c, st, b, k - 1) + [Progress(c, st, k - 1)]
  }

  /** The batch the pool is working on: a directory entry joins it at its first call. */
  function Reached(st: State): nat {
    if st.rd.Chmodding? then st.k + 1 else st.k
  }

  ghost function Working(c: Config, st: State): seq<Soft>
    requires ConfigOk(c) && Shape(c, st)
  {
    BatchOf(c.es, Start(c.es, st.k), Reached(st))
  }

  ghost function Counts(c: Config, st: State): seq<nat>
    requires ConfigOk(c) && Shape(c, st)
  {
    ProgressTo(c, st, Start(c.es, st.k), st.k) + if st.rd.Chmodding? then [1] else []
  }

  predicate Failing(rd: Reader) {
    match rd
    case Closing(failed) => failed
    case Joining(failed) => failed
    case Returned(ok) => !ok
    case _ => false
  }

  ghost predicate Sound(c: Config, t0: Tree, st: State)
    requires ConfigOk(c) && Shape(c, st)
  {
    var base := Serial(t0, c.es[..Start(c.es, st.k)]);
    && base.Some?
    && Running(base.value, Working(c, st), Start(c.es, st.k), Counts(c, st), st.fs)
    && (st.rd.Inline? || st.rd.Joining? || st.rd.Returned? ==> Serial(t0, c.es[..st.k]) == Some(st.fs))
  }

  /** As long as nothing failed, the tree is where some order of the serial calls leaves it. */
  ghost predicate Agrees(c: Config, t0: Tree, st: State)
    requires ConfigOk(c) && Shape(c, st)
  {
    st.err.None? && !Failing(st.rd) ==> Sound(c, t0, st)
  }

  // ---- progress ----

  lemma LaneOrder(c: Config, st: State, i: nat, j: nat)
    requires ConfigOk(c) && Shape(c, st) && Lanes(c, st)
    requires Start(c.es, st.k) <= i < j < st.k
    requires Small(c.es[i]) && Small(c.es[j]) && c.es[i].name == c.es[j].name && Progress(c, st, j) > 0
    ensures Progress(c, st, i) == 6
  {
    var w := c.shard(c.es[i].name);
    var ids := Flight(st, w);
    assert LaneOf(c, w, Start(c.es, st.k), st.k, ids);
    if i in ids {
      assert ids[0] <= i && InLane(c, w, j);
      HeadWrites(c, st, w, j);
    }
  }

  lemma HeadWrites(c: Config, st: State, w: nat, j: nat)
    requires ConfigOk(c) && j < |c.es| && |st.queues| == |st.workers| == c.n && InLane(c, w, j) && w < c.n
    requires j in Flight(st, w) && Progress(c, st, j) > 0
    ensures Flight(st, w)[0] == j
  {
  }

  /** Entry `i` of the batch, and how far it got. */
  lemma MadeAt(c: Config, st: State, i: nat)
    requires ConfigOk(c) && Shape(c, st) && i < |Working(c, st)|
    ensures var b := Start(c.es, st.k);
      && |Counts(c, st)| == |Working(c, st)| && b + i < |c.es|
      && !Barrier(c.es[b + i]) && Working(c, st)[i] == c.es[b + i]
      && (if b + i < st.k then Counts(c, st)[i] == Progress(c, st, b + i)
          else Counts(c, st)[i] == 1 && Working(c, st)[i].DirE? && i == |Working(c, st)| - 1)
  {
  }

  lemma MadePair(c: Config, st: State, s0: Tree, i: nat, j: nat)
    requires ConfigOk(c) && Shape(c, st) && Lanes(c, st) && Gentle(s0, Working(c, st))
    requires i < j < |Working(c, st)| && |Counts(c, st)| == |Working(c, st)|
    requires Working(c, st)[i].name == Working(c, st)[j].name && Counts(c, st)[j] > 0
    ensures Counts(c, st)[i] == Calls(Working(c, st)[i])
  {
    hide Lanes, NoLinkAt, Working, Counts, ReaderOk, WorkerOk, QueueOk;
    MadeAt(c, st, i);
    MadeAt(c, st, j);
    if Working(c, st)[i].RegE? {
      assert Working(c, st)[j].RegE?;
      LaneOrder(c, st, Start(c.es, st.k) + i, Start(c.es, st.k) + j);
    }
  }

  /** The pool's progress is one that keeps same names in stream order. */
  lemma MadeOrder(c: Config, st: State, s0: Tree)
    requires ConfigOk(c) && Shape(c, st) && Lanes(c, st) && Gentle(s0, Working(c, st))
    ensures Order(Working(c, st), Counts(c, st))
  {
    hide Lanes, Gentle, Working, Counts;
    MadeLength(c, st);
    var es, pr := Working(c, st), Counts(c, st);
    forall i | 0 <= i < |es|
      ensures pr[i] <= Calls(es[i])
      ensures es[i].DirE? && i < |es| - 1 ==> pr[i] == 2
    {
      MadeAt(c, st, i);
      if Start(c.es, st.k) + i < st.k { StepsBelow(c, st, Start(c.es, st.k) + i); }
    }
    forall i, j | 0 <= i < j < |es| && es[i].name == es[j].name && pr[j] > 0 ensures pr[i] == Calls(es[i]) {
      MadePair(c, st, s0, i, j);
    }
  }

  lemma MadeLength(c: Config, st: State)
    requires ConfigOk(c) && Shape(c, st)
    ensures |Counts(c, st)| == |Working(c, st)| == Reached(st) - Start(c.es, st.k)
  {
  }

  lemma StepsBelow(c: Config, st: State, i: nat)
    requires ConfigOk(c) && Shape(c, st) && i < |c.es| && !Barrier(c.es[i])
    ensures Progress(c, st, i) <= Calls(c.es[i])
  {
    if c.es[i].RegE? {
      assert WorkerOk(c, st, c.shard(c.es[i].name));
    }
  }

  lemma {:induction false} SameProgress(c: Config, st: State, st': State, b: nat, k: nat)
    requires ConfigOk(c) && b <= k <= |c.es|
    requires |st.queues| == |st.workers| == |st'.queues| == |st'.workers| == c.n
    requires forall i :: b <= i < k ==> !Barrier(c.es[i])
    requires forall i :: b <= i < k ==> Progress(c, st', i) == Progress(c, st, i)
    ensures ProgressTo(c, st', b, k) == ProgressTo(c, st, b, k)
  {
    if b < k { SameProgress(c, st, st', b, k - 1); }
  }

  lemma RunningFacts(s0: Tree, es: seq<Soft>, b: nat, pr: seq<nat>, t: Tree)
    requires Running(s0, es, b, pr, t)
    ensures |pr| == |es| && Gentle(s0, es) && Order(es, pr) && Sane(s0, b)
  {
  }

  // ---- worker steps ----

  /** What one worker step does to its worker while nothing has failed. */
  lemma WorkMoves(c: Config, st: State, w: nat)
    requires ConfigOk(c) && Shape(c, st) && WorkNext(c, st, w).Some?
    requires st.err.None? && WorkNext(c, st, w).value.err.None?
    ensures var st' := WorkNext(c, st, w).value;
      && w < c.n && |st'.workers| == c.n
      && (st.workers[w].Writing? ==>
            && st'.workers[w] == (if st.workers[w].s == 5 then PutBack(st.workers[w].job)
                                  else Writing(st.workers[w].job, st.workers[w].s + 1)))
      && (!st.workers[w].Writing? ==>
            && st'.fs == st.fs
            && (st'.workers[w].Writing? ==> st.workers[w] == Check(st'.workers[w].job) && st'.workers[w].s == 0)
            && (st.workers[w].Check? ==> st'.workers[w] == Writing(st.workers[w].job, 0)))
  {
  }

  /** Only the entry a worker is writing makes progress. */
  lemma WorkProgress(c: Config, st: State, w: nat, i: nat)
    requires ConfigOk(c) && Shape(c, st) && Lanes(c, st)
    requires WorkNext(c, st, w).Some? && Shape(c, WorkNext(c, st, w).value)
    requires Start(c.es, st.k) <= i < st.k && st.err.None? && WorkNext(c, st, w).value.err.None?
    requires |st.queues| == |st.workers| == c.n && st.k <= |c.es| && w < c.n
    ensures |WorkNext(c, st, w).value.queues| == |WorkNext(c, st, w).value.workers| == c.n
    ensures Progress(c, WorkNext(c, st, w).value, i) ==
      if st.workers[w].Writing? && st.workers[w].job.id == i && c.es[i].RegE? && c.shard(c.es[i].name) == w
      then st.workers[w].s + 1 else Progress(c, st, i)
  {
    hide WorkNext, Progress, Flight, ReaderOk, QueueOk, Quiet;
    var st' := WorkNext(c, st, w).value;
    WorkOnly(c, st, w);
    WorkMoves(c, st, w);
    if c.es[i].RegE? {
      var v := c.shard(c.es[i].name);
      WorkFlight(c, st, w, v);
      assert LaneOf(c, v, Start(c.es, st.k), st.k, Flight(st, v));
      if v == w {
        assert WorkerOk(c, st, w);
        OwnProgress(c, st, st', w, i);
      } else {
        ElseProgress(c, st, st', i);
      }
    } else {
      ElseProgress(c, st, st', i);
    }
  }

  lemma ElseProgress(c: Config, st: State, st': State, i: nat)
    requires ConfigOk(c) && i < |c.es| && !Barrier(c.es[i])
    requires |st.queues| == |st.workers| == |st'.queues| == |st'.workers| == c.n
    requires c.es[i].RegE? ==>
      var v := c.shard(c.es[i].name); Flight(st', v) == Flight(st, v) && st'.workers[v] == st.workers[v]
    ensures Progress(c, st', i) == Progress(c, st, i)
  {
  }

  lemma OwnProgress(c: Config, st: State, st': State, w: nat, i: nat)
    requires ConfigOk(c) && i < |c.es| && InLane(c, w, i) && w < c.n
    requires |st.queues| == |st.workers| == |st'.queues| == |st'.workers| == c.n
    requires forall x, y :: 0 <= x < y < |Flight(st, w)| ==> Flight(st, w)[x] < Flight(st, w)[y]
    requires Flight(st', w) ==
      if (st.workers[w].Check? || st.workers[w].Writing?) && st'.workers[w].PutBack?
      then Flight(st, w)[1..] else Flight(st, w)
    requires st.workers[w].Writing? ==>
      && st.workers[w].s < 6
      && st'.workers[w] == (if st.workers[w].s == 5 then PutBack(st.workers[w].job)
                            else Writing(st.workers[w].job, st.workers[w].s + 1))
    requires !st.workers[w].Writing? ==>
      && (st'.workers[w].Writing? ==> st.workers[w] == Check(st'.workers[w].job) && st'.workers[w].s == 0)
      && (st.workers[w].Check? ==> st'.workers[w] == Writing(st.workers[w].job, 0))
    ensures Progress(c, st', i) ==
      if st.workers[w].Writing? && st.workers[w].job.id == i then st.workers[w].s + 1 else Progress(c, st, i)
  {
    var ids := Flight(st, w);
    if st.workers[w].Writing? {
      assert ids[0] == st.workers[w].job.id;
      if st'.workers[w].PutBack? {
        assert ids == [ids[0]] + ids[1..];
        if i == ids[0] { assert i !in ids[1..]; }
      }
    }
  }

  /** The write in hand is a call of its entry, on the bytes of that entry. */
  lemma WriteIsCall(c: Config, st: State, w: nat)
    requires ConfigOk(c) && Shape(c, st) && Lanes(c, st) && Owned(c, st) && w < c.n && st.workers[w].Writing?
    ensures WorkerOk(c, st, w)
    ensures var job, s := st.workers[w].job, st.workers[w].s;
      && s < 6 && Start(c.es, st.k) <= job.id < st.k && Small(c.es[job.id])
      && c.shard(c.es[job.id].name) == w
      && Progress(c, st, job.id) == s
      && WriteCall(st.fs, c.es[job.id], job.id, s, st.mem[job.buf][..|c.es[job.id].data|])
           == Call(st.fs, c.es[job.id], job.id, s)
  {
    assert WorkerOk(c, st, w);
    var job := st.workers[w].job;
    assert LaneOf(c, w, Start(c.es, st.k), st.k, Flight(st, w)) && Flight(st, w)[0] == job.id;
    assert JobAt(st, AtWorker(w)) == Some(job);
  }

  lemma {:induction false} OneProgress(c: Config, st: State, st': State, b: nat, k: nat, i: nat, p: nat)
    requires ConfigOk(c) && b <= i < k <= |c.es|
    requires |st.queues| == |st.workers| == |st'.queues| == |st'.workers| == c.n
    requires forall x :: b <= x < k ==> !Barrier(c.es[x])
    requires forall x :: b <= x < k ==> Progress(c, st', x) == if x == i then p else Progress(c, st, x)
    ensures ProgressTo(c, st', b, k) == ProgressTo(c, st, b, k)[i - b := p]
  {
    var l, r := ProgressTo(c, st', b, k), ProgressTo(c, st, b, k)[i - b := p];
    forall x | 0 <= x < k - b ensures l[x] == r[x] {
      assert l[x] == Progress(c, st', b + x);
      assert ProgressTo(c, st, b, k)[x] == Progress(c, st, b + x);
    }
  }

  /** The counts after a worker step that did not fail. */
  lemma WorkMade(c: Config, st: State, w: nat)
    requires ConfigOk(c) && Shape(c, st) && Lanes(c, st) && Owned(c, st)
    requires WorkNext(c, st, w).Some? && Shape(c, WorkNext(c, st, w).value)
    requires st.err.None? && WorkNext(c, st, w).value.err.None?
    ensures var st' := WorkNext(c, st, w).value;
      && Working(c, st') == Working(c, st)
      && (st.workers[w].Writing? ==>
            var x := st.workers[w].job.id - Start(c.es, st.k);
            && 0 <= x < |Working(c, st)| && Counts(c, st)[x] == st.workers[w].s
            && Counts(c, st') == Counts(c, st)[x := st.workers[w].s + 1])
      && (!st.workers[w].Writing? ==> Counts(c, st') == Counts(c, st) && st'.fs == st.fs)
  {
    hide WorkNext, Owned, Lanes, Flight, Progress;
    WorkMoves(c, st, w);
    var st' := WorkNext(c, st, w).value;
    var b := Start(c.es, st.k);
    WorkOnly(c, st, w);
    forall i | b <= i < st.k { WorkProgress(c, st, w, i); }
    if st.workers[w].Writing? {
      WriteIsCall(c, st, w);
      var i := st.workers[w].job.id;
      OneProgress(c, st, st', b, st.k, i, st.workers[w].s + 1);
    } else {
      SameProgress(c, st, st', b, st.k);
    }
  }

  lemma WorkSound(c: Config, t0: Tree, st: State, w: nat)
    requires ConfigOk(c) && Shape(c, st) && Lanes(c, st) && Owned(c, st)
    requires WorkNext(c, st, w).Some? && Shape(c, WorkNext(c, st, w).value) && Lanes(c, WorkNext(c, st, w).value)
    requires st.err.None? && WorkNext(c, st, w).value.err.None? && Sound(c, t0, st)
    ensures Sound(c, t0, WorkNext(c, st, w).value)
  {
    hide Running, Lanes, Owned, Working, Counts, WorkNext, ReaderOk, QueueOk, WorkerOk, Serial;
    WorkOnly(c, st, w);
    WorkMade(c, st, w);
    if st.workers[w].Writing? {
      WriteSound(c, Serial(t0, c.es[..Start(c.es, st.k)]).value, st, w);
      WritingNotQuiet(c, st, w);
    }
  }

  lemma WriteSound(c: Config, s0: Tree, st: State, w: nat)
    requires ConfigOk(c) && Shape(c, st) && Lanes(c, st) && Owned(c, st)
    requires w < c.n && st.workers[w].Writing?
    requires WorkNext(c, st, w).Some? && Shape(c, WorkNext(c, st, w).value) && Lanes(c, WorkNext(c, st, w).value)
    requires st.err.None? && WorkNext(c, st, w).value.err.None?
    requires Running(s0, Working(c, st), Start(c.es, st.k), Counts(c, st), st.fs)
    ensures var st' := WorkNext(c, st, w).value;
      Running(s0, Working(c, st), Start(c.es, st.k), Counts(c, st'), st'.fs)
  {
    hide Running, Lanes, Owned, Working, Counts, WorkNext, ReaderOk, QueueOk, WorkerOk, Order, Gentle, WriteCall;
    var st' := WorkNext(c, st, w).value;
    var b := Start(c.es, st.k);
    WorkOnly(c, st, w);
    WorkMade(c, st, w);
    RunningFacts(s0, Working(c, st), b, Counts(c, st), st.fs);
    WriteIsCall(c, st, w);
    WroteCall(c, st, w);
    MadeOrder(c, st', s0);
    var x := st.workers[w].job.id - b;
    WorkingAt(c, st, x);
    Advance(s0, st.fs, st'.fs, Working(c, st), b, Counts(c, st), x);
  }

  lemma WorkingAt(c: Config, st: State, x: nat)
    requires ConfigOk(c) && Shape(c, st) && x < |Working(c, st)|
    ensures Start(c.es, st.k) + x < |c.es| && Working(c, st)[x] == c.es[Start(c.es, st.k) + x]
  {
  }

  lemma WritingNotQuiet(c: Config, st: State, w: nat)
    requires ConfigOk(c) && Shape(c, st) && Lanes(c, st) && w < c.n && st.workers[w].Writing?
    ensures !(st.rd.Inline? || st.rd.Joining? || st.rd.Returned?)
  {
  }

  /** A successful write leaves what its call leaves. */
  lemma WroteCall(c: Config, st: State, w: nat)
    requires ConfigOk(c) && Shape(c, st) && w < c.n && st.workers[w].Writing? && WorkerOk(c, st, w)
    requires WorkNext(c, st, w).Some? && st.err.None? && WorkNext(c, st, w).value.err.None?
    ensures var job := st.workers[w].job;
      WriteCall(st.fs, c.es[job.id], job.id, st.workers[w].s, st.mem[job.buf][..|c.es[job.id].data|])
        == Some(WorkNext(c, st, w).value.fs)
  {
    hide WriteCall;
  }

  // ---- reader steps ----

  /** The batch as it would be with entry `k` in it. */
  lemma Longer(c: Config, t0: Tree, st: State)
    requires ConfigOk(c) && Tame(t0, c.es) && Shape(c, st) && Lanes(c, st)
    requires !st.rd.Chmodding? && Sound(c, t0, st) && st.k < |c.es| && !Barrier(c.es[st.k])
    ensures var b := Start(c.es, st.k);
      && b == Start(c.es, st.k + 1)
      && BatchOf(c.es, b, st.k + 1) == Working(c, st) + [AsSoft(c.es[st.k])]
      && Gentle(Serial(t0, c.es[..b]).value, BatchOf(c.es, b, st.k + 1))
      && Order(Working(c, st), Counts(c, st))
      && Running(Serial(t0, c.es[..b]).value, BatchOf(c.es, b, st.k + 1), b, Counts(c, st) + [0], st.fs)
  {
    hide Running, Lanes, Counts, ReaderOk, QueueOk, WorkerOk, Gentle, Order;
    var b, e := Start(c.es, st.k), AsSoft(c.es[st.k]);
    var s0 := Serial(t0, c.es[..b]).value;
    BatchStep(c.es, b, st.k + 1);
    assert Current(c.es, st.k + 1) == BatchOf(c.es, b, st.k + 1);
    assert Gentle(s0, Current(c.es, st.k + 1));
    RunningFacts(s0, Working(c, st), b, Counts(c, st), st.fs);
    LongerOrder(c, st, s0, e, 0);
    Extend(s0, st.fs, Working(c, st), b, Counts(c, st), e);
  }

  lemma LongerOrder(c: Config, st: State, s0: Tree, e: Soft, p: nat)
    requires ConfigOk(c) && Shape(c, st) && Lanes(c, st) && !st.rd.Chmodding?
    requires Order(Working(c, st), Counts(c, st)) && Gentle(s0, Working(c, st) + [e])
    requires p == 0 || (e.DirE? && p <= 2)
    ensures Order(Working(c, st) + [e], Counts(c, st) + [p])
  {
    var es, pr := Working(c, st), Counts(c, st);
    var b := Start(c.es, st.k);
    forall i | 0 <= i < |es| && es[i].DirE? ensures pr[i] == 2 {
      assert pr[i] == Progress(c, st, b + i);
    }
    forall i | 0 <= i < |es| && p > 0 && es[i].name == e.name ensures pr[i] == Calls(es[i]) {
      assert (es + [e])[i] == es[i] && (es + [e])[|es|] == e;
    }
  }

  /** A directory entry's first call. */
  lemma MkdirSound(c: Config, t0: Tree, st: State, t: Tree)
    requires ConfigOk(c) && Tame(t0, c.es) && Shape(c, st) && Lanes(c, st) && Sound(c, t0, st)
    requires st.rd == Ready && st.k < |c.es| && c.es[st.k].DirE?
    requires MkdirAll(st.fs, c.es[st.k].name) == Some(t)
    requires Shape(c, st.(fs := t, rd := Chmodding))
    ensures Sound(c, t0, st.(fs := t, rd := Chmodding))
  {
    hide Running, Lanes, ReaderOk, QueueOk, WorkerOk, Gentle, Order, Progress, MkdirAll, Tame;
    var st' := st.(fs := t, rd := Chmodding);
    var b, e := Start(c.es, st.k), AsSoft(c.es[st.k]);
    var s0 := Serial(t0, c.es[..b]).value;
    var n := st.k - b;
    Longer(c, t0, st);
    LongerOrder(c, st, s0, e, 1);
    assert (Counts(c, st) + [0])[n := 1] == Counts(c, st) + [1];
    Advance(s0, st.fs, t, Working(c, st) + [e], b, Counts(c, st) + [0], n);
    forall i | b <= i < st.k ensures Progress(c, st', i) == Progress(c, st, i) {
      SameFlights(c, st, st', i);
    }
    SameProgress(c, st, st', b, st.k);
    assert Counts(c, st') == Counts(c, st) + [1];
    assert Working(c, st') == Working(c, st) + [e];
  }

  /** Progress depends on queues and workers only. */
  lemma SameFlights(c: Config, st: State, st': State, i: nat)
    requires ConfigOk(c) && i < |c.es| && !Barrier(c.es[i]) && |st.queues| == |st.workers| == c.n
    requires st'.queues == st.queues && st'.workers == st.workers
    ensures Progress(c, st', i) == Progress(c, st, i)
  {
    if c.es[i].RegE? { SameFlight(c, st, st', c.shard(c.es[i].name)); }
  }

  /** A directory entry's second call. */
  lemma ChmodSound(c: Config, t0: Tree, st: State, t: Tree)
    requires ConfigOk(c) && Tame(t0, c.es) && Shape(c, st) && Lanes(c, st) && Sound(c, t0, st)
    requires st.rd == Chmodding && st.k < |c.es| && c.es[st.k].DirE?
    requires Chmod(st.fs, c.es[st.k].name, c.es[st.k].mode) == Some(t)
    requires var st' := st.(fs := t, k := st.k + 1, rd := Ready); Shape(c, st') && Lanes(c, st')
    ensures Sound(c, t0, st.(fs := t, k := st.k + 1, rd := Ready))
  {
    hide Running, Lanes, ReaderOk, QueueOk, WorkerOk, Gentle, Order, Chmod, Tame, Flight;
    var st' := st.(fs := t, k := st.k + 1, rd := Ready);
    var b := Start(c.es, st.k);
    var s0 := Serial(t0, c.es[..b]).value;
    RunningFacts(s0, Working(c, st), b, Counts(c, st), st.fs);
    forall i | b <= i < st.k ensures Progress(c, st', i) == Progress(c, st, i) {
      SameFlights(c, st, st', i);
    }
    SameProgress(c, st, st', b, st.k);
    assert Counts(c, st') == Counts(c, st)[st.k - b := 2];
    MadeOrder(c, st', s0);
    Advance(s0, st.fs, t, Working(c, st), b, Counts(c, st), st.k - b);
  }

  /** A queued file joins the batch when it is sent. */
  lemma SendSound(c: Config, t0: Tree, st: State, st': State)
    requires ConfigOk(c) && Tame(t0, c.es) && Shape(c, st) && Lanes(c, st) && Sound(c, t0, st)
    requires st.rd.Sending? && st.k < |c.es| && Small(c.es[st.k]) && st.rd.job.id == st.k && Shape(c, st')
    requires st' == st.(queues := Sent(c, st), k := st.k + 1, rd := Ready)
    ensures Sound(c, t0, st')
  {
    hide Running, Lanes, ReaderOk, QueueOk, WorkerOk, Gentle, Order, Tame, Progress;
    var b := Start(c.es, st.k);
    var w := c.shard(c.es[st.k].name);
    Longer(c, t0, st);
    forall i | b <= i < st.k + 1
      ensures Progress(c, st', i) == if i == st.k then 0 else Progress(c, st, i)
    {
      SentProgress(c, st, st', w, i);
    }
    SameProgress(c, st, st', b, st.k);
    assert ProgressTo(c, st', b, st.k + 1) == ProgressTo(c, st', b, st.k) + [Progress(c, st', st.k)];
    assert Counts(c, st') == Counts(c, st) + [0];
    assert Working(c, st') == BatchOf(c.es, b, st.k + 1);
  }

  lemma SentProgress(c: Config, st: State, st': State, w: nat, i: nat)
    requires ConfigOk(c) && Shape(c, st) && Lanes(c, st) && w < c.n && Start(c.es, st.k) <= i <= st.k < |c.es|
    requires st.rd.Sending? && st.rd.job.id == st.k && Small(c.es[st.k]) && w == c.shard(c.es[st.k].name)
    requires st'.workers == st.workers && st'.queues == Sent(c, st)
    ensures Progress(c, st', i) == if i == st.k then 0 else Progress(c, st, i)
  {
    hide ReaderOk, QueueOk, WorkerOk, Progress, Flight;
    if c.es[i].RegE? {
      var v := c.shard(c.es[i].name);
      SendFlight(c, st, w, st.rd.job, v);
      assert Flight(st', v) == Flight(st.(queues := st'.queues), v) by { SameFlight(c, st.(queues := st'.queues), st', v); }
      assert LaneOf(c, w, Start(c.es, st.k), st.k, Flight(st, w));
    }
    SentProgressBody(c, st, st', w, i);
  }

  lemma SentProgressBody(c: Config, st: State, st': State, w: nat, i: nat)
    requires ConfigOk(c) && |st.queues| == |st.workers| == c.n == |st'.queues| && w < c.n && i <= st.k < |c.es|
    requires !Barrier(c.es[i]) && Small(c.es[st.k]) && w == c.shard(c.es[st.k].name)
    requires st'.workers == st.workers
    requires c.es[i].RegE? ==>
      var v := c.shard(c.es[i].name);
      && Flight(st', v) == (if v == w then Flight(st, v) + [st.k] else Flight(st, v))
      && (forall x :: 0 <= x < |Flight(st, w)| ==> Flight(st, w)[x] < st.k)
    ensures Progress(c, st', i) == if i == st.k then 0 else Progress(c, st, i)
  {
    if c.es[i].RegE? && c.shard(c.es[i].name) == w {
      assert i in Flight(st', w) <==> i in Flight(st, w) || i == st.k;
      if st.workers[w].Writing? { assert Flight(st, w)[0] == st.workers[w].job.id; }
    }
  }

  /** With nothing in flight the batch is finished, so the serial loop is where the pool is. */
  lemma QuietSerial(c: Config, t0: Tree, st: State)
    requires ConfigOk(c) && Shape(c, st) && Quiet(c, st) && Sound(c, t0, st) && !st.rd.Chmodding?
    ensures Serial(t0, c.es[..st.k]) == Some(st.fs)
  {
    hide Running, ReaderOk, QueueOk, WorkerOk, Flight, Quiet, Progress;
    QuietFlight(c, st);
    var b := Start(c.es, st.k);
    var pr, full := Counts(c, st), FullOf(Current(c.es, st.k));
    forall i | 0 <= i < |pr| ensures pr[i] == full[i] {
      assert pr[i] == Progress(c, st, b + i);
      QuietProgress(c, st, b + i);
    }
    assert pr == full;
    BatchIsSerial(t0, c.es, st.k, Serial(t0, c.es[..b]).value, st.fs);
  }

  lemma QuietProgress(c: Config, st: State, i: nat)
    requires ConfigOk(c) && i < |c.es| && !Barrier(c.es[i]) && |st.queues| == |st.workers| == c.n
    requires forall w :: 0 <= w < c.n ==> Flight(st, w) == []
    ensures Progress(c, st, i) == Calls(c.es[i])
  {
  }

  /** After a barrier entry a new batch starts. */
  lemma InlineSound(c: Config, t0: Tree, st: State, t: Tree)
    requires ConfigOk(c) && Tame(t0, c.es) && Shape(c, st) && Sound(c, t0, st)
    requires st.rd == Inline && st.k < |c.es| && Barrier(c.es[st.k]) && Apply(st.fs, st.k, c.es[st.k]) == Some(t)
    requires Shape(c, st.(fs := t, k := st.k + 1, rd := Ready))
    ensures Sound(c, t0, st.(fs := t, k := st.k + 1, rd := Ready))
  {
    hide Running, ReaderOk, QueueOk, WorkerOk, Flight, Progress, Apply, Sane;
    assert c.es[..st.k + 1][..st.k] == c.es[..st.k];
    assert Serial(t0, c.es[..st.k + 1]) == Some(t);
    SerialSane(t0, c.es[..st.k + 1]);
    StartBatch(t, st.k + 1);
    var st' := st.(fs := t, k := st.k + 1, rd := Ready);
    assert Start(c.es, st'.k) == st'.k;
    assert Working(c, st') == [] && Counts(c, st') == [];
  }

  /** Steps that leave the tree and the entry alone. */
  lemma StillSound(c: Config, t0: Tree, st: State, st': State)
    requires ConfigOk(c) && Shape(c, st) && Shape(c, st') && Sound(c, t0, st)
    requires st'.fs == st.fs && st'.k == st.k && st'.queues == st.queues && st'.workers == st.workers
    requires !st.rd.Chmodding? && !st'.rd.Chmodding?
    requires st'.rd.Inline? || st'.rd.Joining? || st'.rd.Returned? ==> Serial(t0, c.es[..st.k]) == Some(st.fs)
    ensures Sound(c, t0, st')
  {
    SameProgress(c, st, st', Start(c.es, st.k), st.k);
  }

  /** Every other reader step that does not fail. */
  lemma ReaderRest(c: Config, st: State, pick: nat, spare: nat)
    requires ConfigOk(c) && Shape(c, st) && ReadNext(c, st, pick, spare).Some?
    requires !Failing(ReadNext(c, st, pick, spare).value.rd) && st.err.None?
    ensures var st' := ReadNext(c, st, pick, spare).value;
      || (st.rd == Ready && st.k < |c.es| && c.es[st.k].DirE? && MkdirAll(st.fs, c.es[st.k].name).Some?
          && st' == st.(fs := MkdirAll(st.fs, c.es[st.k].name).value, rd := Chmodding))
      || (st.rd == Chmodding && Chmod(st.fs, c.es[st.k].name, c.es[st.k].mode).Some?
          && st' == st.(fs := Chmod(st.fs, c.es[st.k].name, c.es[st.k].mode).value, k := st.k + 1, rd := Ready))
      || (st.rd.Sending? && st' == st.(queues := Sent(c, st), k := st.k + 1, rd := Ready))
      || (st.rd == Inline && Apply(st.fs, st.k, c.es[st.k]).Some?
          && st' == st.(fs := Apply(st.fs, st.k, c.es[st.k]).value, k := st.k + 1, rd := Ready))
      || ((st.rd == Flushing || st.rd.Closing? || st.rd.Joining?) && !st'.rd.Chmodding?
          && (!st.rd.Joining? ==> st.pending == 0)
          && st'.fs == st.fs && st'.k == st.k && st'.queues == st.queues && st'.workers == st.workers)
      || (!(st.rd.Inline? || st.rd.Joining? || st.rd.Returned? || st'.rd.Inline? || st'.rd.Joining? || st'.rd.Returned?)
          && !st.rd.Chmodding? && !st'.rd.Chmodding?
          && st'.fs == st.fs && st'.k == st.k && st'.queues == st.queues && st'.workers == st.workers)
  {
    hide MkdirAll, Chmod, Apply, WorkerOk, QueueOk, JobOk, Barrier, Blank;
  }

  lemma ReadSound(c: Config, t0: Tree, st: State, pick: nat, spare: nat)
    requires ConfigOk(c) && Tame(t0, c.es) && Shape(c, st) && Lanes(c, st) && Counted(c, st) && Sound(c, t0, st)
    requires ReadNext(c, st, pick, spare).Some?
    requires var st' := ReadNext(c, st, pick, spare).value;
      Shape(c, st') && Lanes(c, st') && !Failing(st'.rd) && st.err.None?
    ensures Sound(c, t0, ReadNext(c, st, pick, spare).value)
  {
    var st' := ReadNext(c, st, pick, spare).value;
    ReaderRest(c, st, pick, spare);
    if st.rd == Ready && st.k < |c.es| && c.es[st.k].DirE? {
      MkdirSound(c, t0, st, st'.fs);
    } else if st.rd == Chmodding {
      ChmodSound(c, t0, st, st'.fs);
    } else if st.rd.Sending? {
      SendSound(c, t0, st, st');
    } else if st.rd == Inline {
      InlineSound(c, t0, st, st'.fs);
    } else {
      if st.rd == Flushing || st.rd.Closing? {
        WaitedQuiet(c, st);
        QuietSerial(c, t0, st);
      }
      StillSound(c, t0, st, st');
    }
  }
}
