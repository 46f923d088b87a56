/**
 The pool always moves on and always comes to an end: the pending counter is
 exact, some step is enabled until `close` returns, and every step lowers a
 measure, so no schedule can go on for ever.
 */
module PoolLive {
  import opened Wrappers
  import opened FileTree
  import opened Extract
  import opened UntarPool

  // ---- sums over the shards ----

  function Total(xs: seq<nat>): nat {
    if xs == [] then 0 else Total(xs[..|xs| - 1]) + xs[|xs| - 1]
  }

  lemma {:induction false} TotalAt(xs: seq<nat>, ys: seq<nat>, w: nat)
    requires |xs| == |ys| && w < |xs|
    requires forall v :: 0 <= v < |xs| && v != w ==> xs[v] == ys[v]
    ensures Total(ys) == Total(xs) - xs[w] + ys[w]
    decreases |xs|
  {
    var n := |xs| - 1;
    if w == n {
      assert xs[..n] == ys[..n];
    } else {
      TotalAt(xs[..n], ys[..n], w);
    }
  }

  lemma {:induction false} TotalZero(xs: seq<nat>)
    ensures Total(xs) == 0 <==> forall v :: 0 <= v < |xs| ==> xs[v] == 0
  {
    if xs != [] {
      var n := |xs| - 1;
      TotalZero(xs[..n]);
      assert forall v :: 0 <= v < n ==> xs[..n][v] == xs[v];
    }
  }

  // ---- the pending counter ----

  /** A worker that has taken a job it has not yet reported done. */
  predicate Busy(w: Worker) {
    w.Check? || w.Writing? || w.PutBack? || w.Finishing?
  }

  /** Announced and not yet done, per shard. */
  function Load(st: State, w: nat): nat
    requires w < |st.queues| && w < |st.workers|
  {
    |st.queues[w]| + if Busy(st.workers[w]) then 1 else 0
  }

  function Loads(st: State): seq<nat>
    requires |st.queues| == |st.workers|
  {
    seq(|st.queues|, w requires 0 <= w < |st.queues| => Load(st, w))
  }

  /** How many jobs were announced to the pool and are not yet done. */
  function InFlight(st: State): nat
    requires |st.queues| == |st.workers|
  {
    Total(Loads(st)) + if st.rd.Sending? then 1 else 0
  }

  ghost predicate Counted(c: Config, st: State)
    requires ConfigOk(c) && Shape(c, st)
  {
    && st.pending == InFlight(st)
    && (st.closed <==> st.rd.Joining? || st.rd.Returned?)
    && (st.closed ==> st.pending == 0)
    && (forall w :: 0 <= w < c.n && st.workers[w].Exited? ==> st.closed)
  }

  lemma SameLoads(c: Config, st: State, st': State)
    requires |st.queues| == |st.workers| && st'.queues == st.queues && st'.workers == st.workers
    ensures Loads(st') == Loads(st)
  {
  }

  lemma SendLoads(c: Config, st: State, w: nat, job: Job)
    requires |st.queues| == |st.workers| && w < |st.queues|
    ensures Total(Loads(st.(queues := st.queues[w := st.queues[w] + [job]]))) == Total(Loads(st)) + 1
  {
    var st' := st.(queues := st.queues[w := st.queues[w] + [job]]);
    TotalAt(Loads(st), Loads(st'), w);
  }

  lemma ReadCounted(c: Config, st: State, pick: nat, spare: nat)
    requires ConfigOk(c) && Shape(c, st) && Counted(c, st)
    requires ReadNext(c, st, pick, spare).Some? && Shape(c, ReadNext(c, st, pick, spare).value)
    ensures Counted(c, ReadNext(c, st, pick, spare).value)
  {
    hide MkdirAll, Chmod, Apply, WorkerOk, QueueOk, Barrier, Blank;
    var st' := ReadNext(c, st, pick, spare).value;
    if st.rd.Sending? {
      SendLoads(c, st, c.shard(c.es[st.k].name), st.rd.job);
      assert Loads(st') == Loads(st.(queues := st'.queues));
    } else {
      SameLoads(c, st, st');
    }
  }

  lemma WorkCounted(c: Config, st: State, w: nat)
    requires ConfigOk(c) && Shape(c, st) && Counted(c, st)
    requires WorkNext(c, st, w).Some? && Shape(c, WorkNext(c, st, w).value)
    ensures Counted(c, WorkNext(c, st, w).value)
  {
    hide WriteCall, QueueOk, ReaderOk, JobOk;
    var st' := WorkNext(c, st, w).value;
    WorkOnly(c, st, w);
    TotalAt(Loads(st), Loads(st'), w);
    if st.workers[w].Finishing? {
      TotalZero(Loads(st));
      assert Loads(st)[w] == Load(st, w);
    }
  }

  /** In every reachable state the counter is the number of jobs announced and not yet done. */
  lemma {:induction false} PendingIsExact(c: Config, t0: Tree, acts: seq<Act>)
    requires ConfigOk(c) && Run(c, t0, acts).Some?
    ensures Counted(c, Run(c, t0, acts).value)
  {
    if acts == [] {
      var st := Init(c, t0);
      TotalZero(Loads(st));
    } else {
      var n := |acts| - 1;
      PendingIsExact(c, t0, acts[..n]);
      var st := Run(c, t0, acts[..n]).value;
      NextShape(c, st, acts[n]);
      match acts[n]
      case Read(pick, spare) => ReadCounted(c, st, pick, spare);
      case Work(w) => WorkCounted(c, st, w);
    }
  }

  /** `flush` and `close` wait for every job announced before them. */
  lemma FlushWaits(c: Config, t0: Tree, acts: seq<Act>, pick: nat, spare: nat)
    requires ConfigOk(c) && Run(c, t0, acts).Some?
    requires var st := Run(c, t0, acts).value;
      (st.rd.Flushing? || st.rd.Closing?) && ReadNext(c, st, pick, spare).Some?
    ensures var st := Run(c, t0, acts).value;
      forall w :: 0 <= w < c.n ==> st.queues[w] == [] && !Busy(st.workers[w])
  {
    PendingIsExact(c, t0, acts);
    var st := Run(c, t0, acts).value;
    TotalZero(Loads(st));
    forall w | 0 <= w < c.n ensures st.queues[w] == [] && !Busy(st.workers[w]) {
      assert Loads(st)[w] == Load(st, w);
    }
  }

  // ---- no deadlock ----

  lemma {:induction false} Bound(s: set<nat>) returns (m: nat)
    ensures forall x :: x in s ==> x < m
  {
    if s == {} {
      m := 0;
    } else {
      var x :| x in s;
      var m' := Bound(s - {x});
      m := if m' > x then m' else x + 1;
      assert forall y :: y in s ==> y == x || y in s - {x};
    }
  }

  /** A worker that is busy, or has something queued, can always take a step. */
  lemma WorkerMoves(c: Config, st: State, w: nat)
    requires ConfigOk(c) && Shape(c, st) && w < c.n
    requires Busy(st.workers[w]) || (st.workers[w].Idle? && (st.queues[w] != [] || st.closed))
    ensures Next(c, st, Work(w)).Some?
  {
  }

  lemma LoadMoves(c: Config, st: State)
    requires ConfigOk(c) && Shape(c, st) && Counted(c, st) && !st.closed
    requires !st.rd.Sending? && st.pending != 0
    ensures exists act :: Next(c, st, act).Some?
  {
    TotalZero(Loads(st));
    var w :| 0 <= w < c.n && Loads(st)[w] != 0;
    assert Load(st, w) != 0;
    WorkerMoves(c, st, w);
  }

  /** Until `close` has returned, some step of the reader or of a worker is enabled. */
  lemma NeverStuck(c: Config, t0: Tree, acts: seq<Act>)
    requires ConfigOk(c) && Run(c, t0, acts).Some? && !Run(c, t0, acts).value.rd.Returned?
    ensures exists act :: Next(c, Run(c, t0, acts).value, act).Some?
  {
    PendingIsExact(c, t0, acts);
    var st := Run(c, t0, acts).value;
    var spare := Bound(st.mem.Keys);
    match st.rd {
      case Sending(job) =>
        var w := c.shard(c.es[st.k].name);
        if |st.queues[w]| >= QUEUE_CAP {
          WorkerMoves(c, st, w);
        } else {
          assert Next(c, st, Read(0, spare)).Some?;
        }
      case Flushing =>
        if st.pending != 0 { LoadMoves(c, st); } else { assert Next(c, st, Read(0, spare)).Some?; }
      case Closing(_) =>
        if st.pending != 0 { LoadMoves(c, st); } else { assert Next(c, st, Read(0, spare)).Some?; }
      case Joining(_) =>
        if w :| 0 <= w < c.n && st.workers[w] != Exited {
          WorkerMoves(c, st, w);
        } else {
          assert Next(c, st, Read(0, spare)).Some?;
        }
      case Returned(_) =>
      case _ =>
        assert Next(c, st, Read(0, spare)).Some?;
    }
  }

  // ---- every step costs something ----

  function WorkerSteps(w: Worker): nat {
    match w
    case Check(_) => 10
    case Writing(_, s) => if s < 6 then 9 - s else 4
    case PutBack(_) => 3
    case Finishing => 2
    case Idle => 1
    case Exited => 0
  }

  function Left(st: State, w: nat): nat
    requires w < |st.queues| && w < |st.workers|
  {
    10 * |st.queues[w]| + WorkerSteps(st.workers[w])
  }

  function Lefts(st: State): seq<nat>
    requires |st.queues| == |st.workers|
  {
    seq(|st.queues|, w requires 0 <= w < |st.queues| => Left(st, w))
  }

  function ReaderLeft(es: seq<Entry>, st: State): int {
    var rest := 20 * (|es| - st.k);
    match st.rd
    case Ready => rest + 3
    case Getting => rest + 2
    case Got(_) => rest + 1
    case Filling(_) => rest
    case Announce(_) => rest - 1
    case Sending(_) => rest - 2
    case Chmodding => rest + 2
    case Flushing => rest + 2
    case Inline => rest + 1
    case Closing(_) => 2
    case Joining(_) => 1
    case Returned(_) => 0
  }

  /** An upper bound on the steps still to come. */
  ghost function Measure(c: Config, st: State): int
    requires ConfigOk(c) && Shape(c, st)
  {
    ReaderLeft(c.es, st) + Total(Lefts(st))
  }

  /** The reader moves on; only a send reaches into a shard. */
  lemma ReaderFalls(c: Config, st: State, pick: nat, spare: nat)
    requires ConfigOk(c) && Shape(c, st) && !st.rd.Sending?
    requires ReadNext(c, st, pick, spare).Some?
    ensures var st' := ReadNext(c, st, pick, spare).value;
      && ReaderLeft(c.es, st') < ReaderLeft(c.es, st)
      && st'.queues == st.queues && st'.workers == st.workers
  {
  }

  lemma ReadFalls(c: Config, st: State, pick: nat, spare: nat)
    requires ConfigOk(c) && Shape(c, st)
    requires ReadNext(c, st, pick, spare).Some? && Shape(c, ReadNext(c, st, pick, spare).value)
    ensures Measure(c, ReadNext(c, st, pick, spare).value) < Measure(c, st)
  {
    if st.rd.Sending? {
      var st' := ReadNext(c, st, pick, spare).value;
      TotalAt(Lefts(st), Lefts(st'), c.shard(c.es[st.k].name));
    } else {
      ReaderFalls(c, st, pick, spare);
      var st' := ReadNext(c, st, pick, spare).value;
      SameLefts(st, st');
    }
  }

  lemma SameLefts(st: State, st': State)
    requires |st.queues| == |st.workers| && st'.queues == st.queues && st'.workers == st.workers
    ensures Lefts(st') == Lefts(st)
  {
  }

  lemma WorkLeft(c: Config, st: State, w: nat)
    requires ConfigOk(c) && Shape(c, st) && WorkNext(c, st, w).Some?
    ensures var st' := WorkNext(c, st, w).value;
      && w < c.n && |st'.queues| == |st'.workers| == c.n && Left(st', w) < Left(st, w)
      && (forall v :: 0 <= v < c.n && v != w ==> Left(st', v) == Left(st, v))
      && st'.k == st.k && st'.rd == st.rd
  {
    hide WriteCall, QueueOk, ReaderOk, JobOk;
    assert w < c.n && WorkerOk(c, st, w);
  }

  lemma WorkFalls(c: Config, st: State, w: nat)
    requires ConfigOk(c) && Shape(c, st)
    requires WorkNext(c, st, w).Some? && Shape(c, WorkNext(c, st, w).value)
    ensures Measure(c, WorkNext(c, st, w).value) < Measure(c, st)
  {
    hide WorkNext, QueueOk, ReaderOk, WorkerOk, Left, Total;
    WorkLeft(c, st, w);
    TotalAt(Lefts(st), Lefts(WorkNext(c, st, w).value), w);
  }

  /** Every run is shorter than what the stream's length and the number of workers allow. */
  lemma {:induction false} RunsEnd(c: Config, t0: Tree, acts: seq<Act>)
    requires ConfigOk(c) && Run(c, t0, acts).Some?
    ensures 0 <= Measure(c, Run(c, t0, acts).value)
    ensures |acts| + Measure(c, Run(c, t0, acts).value) <= 20 * |c.es| + 3 + c.n
  {
    if acts == [] {
      var st := Init(c, t0);
      AllOnes(Lefts(st));
    } else {
      var n := |acts| - 1;
      RunsEnd(c, t0, acts[..n]);
      var st := Run(c, t0, acts[..n]).value;
      NextShape(c, st, acts[n]);
      match acts[n]
      case Read(pick, spare) => ReadFalls(c, st, pick, spare);
      case Work(w) => WorkFalls(c, st, w);
    }
  }

  lemma {:induction false} AllOnes(xs: seq<nat>)
    requires forall v :: 0 <= v < |xs| ==> xs[v] == 1
    ensures Total(xs) == |xs|
  {
    if xs != [] { AllOnes(xs[..|xs| - 1]); }
  }
}
