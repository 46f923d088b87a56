/**
 What each shard still has to write, and in which order: the jobs in flight are
 the last ones of their shard, so a repeated name keeps its stream order.
 */
module PoolLanes {
  import opened Wrappers
  import opened FileTree
  import opened Extract
  import opened Batch
  import opened SerialBatch
  import opened UntarPool
  import opened PoolLive

  function Ids(q: seq<Job>): seq<nat> {
    seq(|q|, i requires 0 <= i < |q| => q[i].id)
  }

  /** The entries of shard `w` not yet fully written, in stream order. */
  function Flight(st: State, w: nat): seq<nat>
    requires w < |st.queues| && w < |st.workers|
  {
    (match st.workers[w]
     case Check(job) => [job.id]
     case Writing(job, _) => [job.id]
     case _ => [])
    + Ids(st.queues[w])
  }

  /** Entry `i` is a queued file of shard `w`. */
  predicate InLane(c: Config, w: nat, i: nat) {
    i < |c.es| && Small(c.es[i]) && c.shard(c.es[i].name) == w
  }

  /** A list of entries is the tail, from its first element on, of a shard's files before `k`. */
  ghost predicate LaneOf(c: Config, w: nat, b: nat, k: nat, ids: seq<nat>) {
    && (forall x :: 0 <= x < |ids| ==> b <= ids[x] < k && InLane(c, w, ids[x]))
    && (forall x, y :: 0 <= x < y < |ids| ==> ids[x] < ids[y])
    && (ids != [] ==> forall i :: ids[0] <= i < k && InLane(c, w, i) ==> i in ids)
  }

  /** Nothing queued and nothing being written. */
  ghost predicate Quiet(c: Config, st: State)
    requires ConfigOk(c) && Shape(c, st)
  {
    forall w :: 0 <= w < c.n ==> st.queues[w] == [] && !Busy(st.workers[w])
  }

  ghost predicate Lanes(c: Config, st: State)
    requires ConfigOk(c) && Shape(c, st)
  {
    && (forall w :: 0 <= w < c.n ==> LaneOf(c, w, Start(c.es, st.k), st.k, Flight(st, w)))
    && (st.rd.Inline? || st.rd.Joining? || st.rd.Returned? ==> Quiet(c, st))
  }

  lemma LaneTail(c: Config, w: nat, b: nat, k: nat, ids: seq<nat>)
    requires LaneOf(c, w, b, k, ids) && ids != []
    ensures LaneOf(c, w, b, k, ids[1..])
  {
    var tail := ids[1..];
    if tail != [] {
      forall i | tail[0] <= i < k && InLane(c, w, i) ensures i in tail {
        assert i in ids && i != ids[0];
      }
    }
  }

  lemma LaneGrow(c: Config, w: nat, b: nat, k: nat, ids: seq<nat>)
    requires LaneOf(c, w, b, k, ids) && b <= k
    ensures InLane(c, w, k) ==> LaneOf(c, w, b, k + 1, ids + [k])
    ensures !InLane(c, w, k) ==> LaneOf(c, w, b, k + 1, ids)
  {
    if InLane(c, w, k) {
      var ids' := ids + [k];
      forall i | ids'[0] <= i < k + 1 && InLane(c, w, i) ensures i in ids' {
        if i < k {
          assert ids != [] && i in ids;
        }
      }
    }
  }

  /** What a worker step does to the entries in flight of its shard. */
  lemma WorkFlight(c: Config, st: State, w: nat, v: nat)
    requires ConfigOk(c) && Shape(c, st) && WorkNext(c, st, w).Some? && v < c.n
    requires Shape(c, WorkNext(c, st, w).value)
    ensures var st' := WorkNext(c, st, w).value;
      Flight(st', v) ==
        if v == w && (st.workers[w].Check? || st.workers[w].Writing?) && st'.workers[w].PutBack?
        then Flight(st, w)[1..] else Flight(st, v)
  {
    var st' := WorkNext(c, st, w).value;
    WorkOnly(c, st, w);
    if v == w && st.workers[w].Idle? && st.queues[w] != [] {
      assert Ids(st.queues[w]) == [st.queues[w][0].id] + Ids(st.queues[w][1..]);
    }
  }

  lemma WorkLanes(c: Config, st: State, w: nat)
    requires ConfigOk(c) && Shape(c, st) && Lanes(c, st)
    requires WorkNext(c, st, w).Some? && Shape(c, WorkNext(c, st, w).value)
    ensures Lanes(c, WorkNext(c, st, w).value)
  {
    hide Start, WriteCall;
    var st' := WorkNext(c, st, w).value;
    WorkOnly(c, st, w);
    forall v | 0 <= v < c.n ensures LaneOf(c, v, Start(c.es, st'.k), st'.k, Flight(st', v)) {
      WorkFlight(c, st, w, v);
      assert LaneOf(c, v, Start(c.es, st.k), st.k, Flight(st, v));
      if Flight(st', v) != Flight(st, v) {
        LaneTail(c, v, Start(c.es, st.k), st.k, Flight(st, v));
      }
    }
  }

  lemma SameFlight(c: Config, st: State, st': State, w: nat)
    requires w < |st.queues| && w < |st.workers|
    requires st'.queues == st.queues && st'.workers == st.workers
    ensures Flight(st', w) == Flight(st, w)
  {
  }

  /** The queues once the reader's job is sent. */
  function Sent(c: Config, st: State): seq<seq<Job>>
    requires st.rd.Sending? && st.k < |c.es| && Small(c.es[st.k]) && c.shard(c.es[st.k].name) < |st.queues|
  {
    var w := c.shard(c.es[st.k].name);
    st.queues[w := st.queues[w] + [st.rd.job]]
  }

  /** A reader step takes up at most one entry, and queues it if it sends. */
  lemma EntryMoves(c: Config, st: State)
    requires ConfigOk(c) && st.k <= |c.es|
    ensures var st' := ReadReady(c, st).value;
      && st'.workers == st.workers && st'.err == st.err && st'.queues == st.queues && st'.k == st.k
      && !st'.rd.Inline? && !st'.rd.Joining? && !st'.rd.Returned?
    ensures st.k < |c.es| ==> var st' := ReadInline(c, st).value;
      && st'.workers == st.workers && st'.err == st.err && st'.queues == st.queues
      && (st'.k == st.k || st'.k == st.k + 1) && !st'.rd.Inline? && !st'.rd.Joining? && !st'.rd.Returned?
    ensures st.k < |c.es| && c.es[st.k].DirE? ==> var st' := ReadChmod(c, st).value;
      && st'.workers == st.workers && st'.err == st.err && st'.queues == st.queues
      && (st'.k == st.k || st'.k == st.k + 1) && !st'.rd.Inline? && !st'.rd.Joining? && !st'.rd.Returned?
  {
    hide MkdirAll, Chmod, Apply;
  }

  lemma ReaderMoves(c: Config, st: State, pick: nat, spare: nat)
    requires ConfigOk(c) && Shape(c, st) && ReadNext(c, st, pick, spare).Some?
    ensures var st' := ReadNext(c, st, pick, spare).value;
      && st'.workers == st.workers && st'.err == st.err
      && (st'.k == st.k || (st'.k == st.k + 1 && (st.rd.Sending? || st.rd.Chmodding? || st.rd.Inline?)))
      && (st.rd.Sending? ==> st'.k == st.k + 1 && st'.queues == Sent(c, st))
      && (!st.rd.Sending? ==> st'.queues == st.queues)
      && (st.rd.Joining? || st.rd.Returned? ==> st'.rd.Returned?)
      && (st'.rd.Inline? ==> st.rd.Flushing?)
      && (st'.rd.Joining? ==> st.rd.Closing?)
      && (st'.rd.Returned? ==> st.rd.Joining?)
  {
    hide ReadReady, ReadInline, ReadChmod, WorkerOk, QueueOk, JobOk, Barrier, Blank, Start;
    if st.rd.Ready? || st.rd.Inline? || st.rd.Chmodding? { EntryMoves(c, st); }
  }

  lemma SendFlight(c: Config, st: State, w: nat, job: Job, v: nat)
    requires |st.queues| == |st.workers| && w < |st.queues| && v < |st.queues|
    ensures Flight(st.(queues := st.queues[w := st.queues[w] + [job]]), v) ==
      if v == w then Flight(st, v) + [job.id] else Flight(st, v)
  {
    assert Ids(st.queues[w] + [job]) == Ids(st.queues[w]) + [job.id];
  }

  lemma QuietFlight(c: Config, st: State)
    requires ConfigOk(c) && Shape(c, st) && Quiet(c, st)
    ensures forall w :: 0 <= w < c.n ==> Flight(st, w) == []
  {
    forall w | 0 <= w < c.n ensures Flight(st, w) == [] {
      assert Ids(st.queues[w]) == [];
    }
  }

  lemma WaitedQuiet(c: Config, st: State)
    requires ConfigOk(c) && Shape(c, st) && Counted(c, st) && st.pending == 0
    ensures Quiet(c, st)
  {
    TotalZero(Loads(st));
    forall w | 0 <= w < c.n ensures st.queues[w] == [] && !Busy(st.workers[w]) {
      assert Loads(st)[w] == Load(st, w);
    }
  }

  lemma ReadLanes(c: Config, st: State, pick: nat, spare: nat)
    requires ConfigOk(c) && Shape(c, st) && Lanes(c, st) && Counted(c, st)
    requires ReadNext(c, st, pick, spare).Some? && Shape(c, ReadNext(c, st, pick, spare).value)
    ensures Lanes(c, ReadNext(c, st, pick, spare).value)
  {
    var st' := ReadNext(c, st, pick, spare).value;
    ReaderMoves(c, st, pick, spare);
    if st.rd.Flushing? || st.rd.Closing? { WaitedQuiet(c, st); }
    if st.rd.Sending? {
      SendLanes(c, st, st');
    } else {
      StillLanes(c, st, st');
    }
  }

  lemma StartKept(es: seq<Entry>, k: nat)
    requires k < |es| && Small(es[k])
    ensures Start(es, k + 1) == Start(es, k)
  {
  }

  /** One shard, when the reader has queued entry `k`. */
  lemma SendLane(c: Config, st: State, st': State, w: nat)
    requires ConfigOk(c) && w < c.n && |st.queues| == |st.workers| == c.n && st.k < |c.es| && Small(c.es[st.k])
    requires st.rd.Sending? && st.rd.job.id == st.k && LaneOf(c, w, Start(c.es, st.k), st.k, Flight(st, w))
    requires st'.workers == st.workers && st'.k == st.k + 1 && st'.queues == Sent(c, st)
    ensures LaneOf(c, w, Start(c.es, st'.k), st'.k, Flight(st', w))
  {
    hide LaneOf, Flight, Start;
    StartKept(c.es, st.k);
    SendFlight(c, st, c.shard(c.es[st.k].name), st.rd.job, w);
    SameFlight(c, st.(queues := st'.queues), st', w);
    LaneGrow(c, w, Start(c.es, st.k), st.k, Flight(st, w));
  }

  lemma SendLanes(c: Config, st: State, st': State)
    requires ConfigOk(c) && Shape(c, st) && Shape(c, st') && Lanes(c, st) && st.rd.Sending?
    requires st'.workers == st.workers && st'.k == st.k + 1 && st'.queues == Sent(c, st)
    ensures forall w :: 0 <= w < c.n ==> LaneOf(c, w, Start(c.es, st'.k), st'.k, Flight(st', w))
  {
    hide LaneOf, WorkerOk, QueueOk, Flight, Sent, Start;
    forall w | 0 <= w < c.n ensures LaneOf(c, w, Start(c.es, st'.k), st'.k, Flight(st', w)) {
      assert LaneOf(c, w, Start(c.es, st.k), st.k, Flight(st, w));
      SendLane(c, st, st', w);
    }
  }

  /** A step that queues nothing moves past a queued file only when nothing is in flight. */
  lemma StillLanes(c: Config, st: State, st': State)
    requires ConfigOk(c) && Shape(c, st) && Shape(c, st') && Lanes(c, st)
    requires st'.workers == st.workers && st'.queues == st.queues
    requires st'.k == st.k || (st'.k == st.k + 1 && (st.rd.Chmodding? || (st.rd.Inline? && Quiet(c, st))))
    ensures forall w :: 0 <= w < c.n ==> LaneOf(c, w, Start(c.es, st'.k), st'.k, Flight(st', w))
  {
    hide Flight, WorkerOk, QueueOk;
    if st.rd.Inline? { QuietFlight(c, st); }
    forall w | 0 <= w < c.n ensures LaneOf(c, w, Start(c.es, st'.k), st'.k, Flight(st', w)) {
      assert LaneOf(c, w, Start(c.es, st.k), st.k, Flight(st, w));
      SameFlight(c, st, st', w);
      LaneGrow(c, w, Start(c.es, st.k), st.k, Flight(st, w));
    }
  }

  /** In every reachable state. */
  lemma {:induction false} RunLanes(c: Config, t0: Tree, acts: seq<Act>)
    requires ConfigOk(c) && Run(c, t0, acts).Some?
    ensures Lanes(c, Run(c, t0, acts).value)
  {
    if acts == [] {
      forall w | 0 <= w < c.n ensures Flight(Init(c, t0), w) == [] {
        assert Ids(Init(c, t0).queues[w]) == [];
      }
    } else {
      var n := |acts| - 1;
      RunLanes(c, t0, acts[..n]);
      PendingIsExact(c, t0, acts[..n]);
      var st := Run(c, t0, acts[..n]).value;
      NextShape(c, st, acts[n]);
      match acts[n]
      case Read(pick, spare) => ReadLanes(c, st, pick, spare);
      case Work(w) => WorkLanes(c, st, w);
    }
  }
}
