/**
 Recycled buffers have one owner at a time, so the bytes a worker writes are the
 bytes `dispatch` read for that entry, whatever the schedule and the mix of sizes.
 */
module PoolBuffers {
  import opened Wrappers
  import opened FileTree
  import opened Extract
  import opened UntarPool

  /** The places a buffer can be: a slot of the free pool, the reader, a queue slot, a worker. */
  datatype Place = InPool(i: nat) | AtReader | InQueue(w: nat, x: nat) | AtWorker(w: nat)

  function Held(st: State, l: Place): Option<nat> {
    match l
    case InPool(i) => if i < |st.free| then Some(st.free[i]) else None
    case AtReader =>
      (match st.rd
       case Got(buf) => Some(buf)
       case Filling(buf) => Some(buf)
       case Announce(buf) => Some(buf)
       case Sending(job) => Some(job.buf)
       case _ => None)
    case InQueue(w, x) => if w < |st.queues| && x < |st.queues[w]| then Some(st.queues[w][x].buf) else None
    case AtWorker(w) =>
      if w >= |st.workers| then None
      else match st.workers[w]
        case Check(job) => Some(job.buf)
        case Writing(job, _) => Some(job.buf)
        case PutBack(job) => Some(job.buf)
        case _ => None
  }

  /** No buffer is in two places. */
  ghost predicate Apart(st: State) {
    forall l, m :: Held(st, l).Some? && Held(st, m).Some? && Held(st, l) == Held(st, m) ==> l == m
  }

  /** The bytes of entry `id` are in buffer `buf`. */
  predicate Carries(c: Config, st: State, id: nat, buf: nat) {
    && id < |c.es| && c.es[id].RegE? && buf in st.mem
    && |c.es[id].data| <= |st.mem[buf]| && st.mem[buf][..|c.es[id].data|] == c.es[id].data
  }

  /** The job at a place, from the moment its buffer was filled until it is put back. */
  function JobAt(st: State, l: Place): Option<Job> {
    match l
    case InPool(_) => None
    case AtReader =>
      (match st.rd
       case Announce(buf) => Some(Job(st.k, buf))
       case Sending(job) => Some(job)
       case _ => None)
    case InQueue(w, x) => if w < |st.queues| && x < |st.queues[w]| then Some(st.queues[w][x]) else None
    case AtWorker(w) =>
      if w >= |st.workers| then None
      else match st.workers[w]
        case Check(job) => Some(job)
        case Writing(job, _) => Some(job)
        case _ => None
  }

  ghost predicate Filled(c: Config, st: State) {
    forall l :: JobAt(st, l).Some? ==> Carries(c, st, JobAt(st, l).value.id, JobAt(st, l).value.buf)
  }

  ghost predicate Owned(c: Config, st: State) {
    Apart(st) && Filled(c, st)
  }

  /** Moving buffers between places keeps them apart, if no two come from the same place. */
  lemma Moved(st: State, st': State, from: Place -> Place)
    requires Apart(st)
    requires forall l :: Held(st', l).Some? ==> Held(st, from(l)) == Held(st', l)
    requires forall l, m :: Held(st', l).Some? && Held(st', m).Some? && from(l) == from(m) ==> l == m
    ensures Apart(st')
  {
    forall l, m | Held(st', l).Some? && Held(st', m).Some? && Held(st', l) == Held(st', m) ensures l == m {
      assert Held(st, from(l)) == Held(st, from(m));
    }
  }

  lemma HeldExists(c: Config, st: State, l: Place)
    requires ConfigOk(c) && Shape(c, st) && Held(st, l).Some?
    ensures Held(st, l).value in st.mem
  {
    match l
    case InQueue(w, x) => assert QueueOk(c, st, w);
    case AtWorker(w) => assert WorkerOk(c, st, w);
    case _ =>
  }

  /** The reader gets a buffer nobody else holds. */
  lemma GetApart(c: Config, st: State, pick: nat, spare: nat)
    requires ConfigOk(c) && Shape(c, st) && Apart(st)
    requires st.rd.Getting? || st.rd.Got?
    requires ReadNext(c, st, pick, spare).Some?
    ensures Apart(ReadNext(c, st, pick, spare).value)
  {
    var st' := ReadNext(c, st, pick, spare).value;
    if st.rd.Getting? && pick < |st.free| {
      Moved(st, st', (l: Place) =>
        match l
        case InPool(i) => if i < pick then l else InPool(i + 1)
        case AtReader => InPool(pick)
        case _ => l);
    } else if st.rd.Got? && st'.rd.buf == st.rd.buf {
      Moved(st, st', l => l);
    } else {
      forall l, m | Held(st', l).Some? && Held(st', m).Some? && Held(st', l) == Held(st', m) ensures l == m {
        if l != AtReader { assert Held(st, l) == Held(st', l); HeldExists(c, st, l); }
        if m != AtReader { assert Held(st, m) == Held(st', m); HeldExists(c, st, m); }
      }
    }
  }

  lemma GetFilled(c: Config, st: State, pick: nat, spare: nat)
    requires ConfigOk(c) && Shape(c, st) && Filled(c, st)
    requires st.rd.Getting? || st.rd.Got?
    requires ReadNext(c, st, pick, spare).Some?
    ensures Filled(c, ReadNext(c, st, pick, spare).value)
  {
    var st' := ReadNext(c, st, pick, spare).value;
    forall l | JobAt(st', l).Some?
      ensures Carries(c, st', JobAt(st', l).value.id, JobAt(st', l).value.buf)
    {
      assert JobAt(st, l) == JobAt(st', l);
    }
  }

  lemma FillOwned(c: Config, st: State)
    requires ConfigOk(c) && Shape(c, st) && Owned(c, st) && st.rd.Filling?
    ensures Owned(c, ReadNext(c, st, 0, 0).value)
  {
    var st' := ReadNext(c, st, 0, 0).value;
    Moved(st, st', l => l);
    forall l | JobAt(st', l).Some?
      ensures Carries(c, st', JobAt(st', l).value.id, JobAt(st', l).value.buf)
    {
      if l != AtReader {
        assert JobAt(st, l) == JobAt(st', l);
        assert Held(st, l) == Some(JobAt(st, l).value.buf) && Held(st, AtReader).Some?;
      }
    }
  }

  lemma SendOwned(c: Config, st: State)
    requires ConfigOk(c) && Shape(c, st) && Owned(c, st) && st.rd.Sending? && ReadNext(c, st, 0, 0).Some?
    ensures Owned(c, ReadNext(c, st, 0, 0).value)
  {
    var st' := ReadNext(c, st, 0, 0).value;
    var w := c.shard(c.es[st.k].name);
    var last := InQueue(w, |st.queues[w]|);
    Moved(st, st', l => if l == last then AtReader else l);
    forall l | JobAt(st', l).Some?
      ensures Carries(c, st', JobAt(st', l).value.id, JobAt(st', l).value.buf)
    {
      assert JobAt(st', l) == JobAt(st, if l == last then AtReader else l);
    }
  }

  /** Every other reader step leaves buffers and jobs where they are. */
  lemma ReaderElse(c: Config, st: State, pick: nat, spare: nat)
    requires ConfigOk(c) && Shape(c, st) && ReadNext(c, st, pick, spare).Some?
    requires !(st.rd.Getting? || st.rd.Got? || st.rd.Filling? || st.rd.Sending?)
    ensures var st' := ReadNext(c, st, pick, spare).value;
      && st'.mem == st.mem && st'.free == st.free && st'.queues == st.queues && st'.workers == st.workers
      && Held(st', AtReader) == Held(st, AtReader) && JobAt(st', AtReader) == JobAt(st, AtReader)
  {
    hide MkdirAll, Chmod, Apply, WorkerOk, QueueOk, JobOk, Barrier, Blank;
  }

  lemma ReadOwned(c: Config, st: State, pick: nat, spare: nat)
    requires ConfigOk(c) && Shape(c, st) && Owned(c, st) && ReadNext(c, st, pick, spare).Some?
    ensures Owned(c, ReadNext(c, st, pick, spare).value)
  {
    if st.rd.Getting? || st.rd.Got? {
      GetApart(c, st, pick, spare);
      GetFilled(c, st, pick, spare);
    } else if st.rd.Filling? {
      FillOwned(c, st);
    } else if st.rd.Sending? {
      SendOwned(c, st);
    } else {
      ReaderElse(c, st, pick, spare);
      StillOwned(c, st, ReadNext(c, st, pick, spare).value);
    }
  }

  lemma StillOwned(c: Config, st: State, st': State)
    requires Owned(c, st)
    requires st'.mem == st.mem && st'.free == st.free && st'.queues == st.queues && st'.workers == st.workers
    requires Held(st', AtReader) == Held(st, AtReader) && JobAt(st', AtReader) == JobAt(st, AtReader)
    ensures Owned(c, st')
  {
    Moved(st, st', l => l);
    forall l | JobAt(st', l).Some?
      ensures Carries(c, st', JobAt(st', l).value.id, JobAt(st', l).value.buf)
    {
      assert JobAt(st, l) == JobAt(st', l);
    }
  }

  /** Where the buffer at a place was before worker `w` took a step. */
  function CameFrom(st: State, w: nat, l: Place): Place
    requires w < |st.workers|
  {
    match st.workers[w]
    case Idle =>
      if l == AtWorker(w) then InQueue(w, 0)
      else if l.InQueue? && l.w == w then InQueue(w, l.x + 1)
      else l
    case PutBack(_) => if l == InPool(|st.free|) then AtWorker(w) else l
    case _ => l
  }

  lemma WorkHeld(c: Config, st: State, w: nat, l: Place)
    requires ConfigOk(c) && Shape(c, st) && WorkNext(c, st, w).Some?
    ensures var st' := WorkNext(c, st, w).value;
      && (Held(st', l).Some? ==> Held(st, CameFrom(st, w, l)) == Held(st', l))
      && (JobAt(st', l).Some? ==> JobAt(st, CameFrom(st, w, l)) == JobAt(st', l))
  {
    hide WriteCall, QueueOk, ReaderOk;
    WorkOnly(c, st, w);
  }

  lemma WorkOwned(c: Config, st: State, w: nat)
    requires ConfigOk(c) && Shape(c, st) && Owned(c, st) && WorkNext(c, st, w).Some?
    ensures Owned(c, WorkNext(c, st, w).value)
  {
    var st' := WorkNext(c, st, w).value;
    WorkOnly(c, st, w);
    forall l, m | Held(st', l).Some? && Held(st', m).Some? && Held(st', l) == Held(st', m) ensures l == m {
      WorkHeld(c, st, w, l);
      WorkHeld(c, st, w, m);
      assert Held(st, CameFrom(st, w, l)) == Held(st, CameFrom(st, w, m));
      WorkPlaces(c, st, w, l, m);
    }
    forall l | JobAt(st', l).Some?
      ensures Carries(c, st', JobAt(st', l).value.id, JobAt(st', l).value.buf)
    {
      WorkHeld(c, st, w, l);
    }
  }

  /** No two places of the new state are fed from the same old one. */
  lemma WorkPlaces(c: Config, st: State, w: nat, l: Place, m: Place)
    requires ConfigOk(c) && Shape(c, st) && WorkNext(c, st, w).Some?
    requires Held(WorkNext(c, st, w).value, l).Some? && Held(WorkNext(c, st, w).value, m).Some?
    requires CameFrom(st, w, l) == CameFrom(st, w, m)
    ensures l == m
  {
    WorkOnly(c, st, w);
  }

  lemma {:induction false} RunOwned(c: Config, t0: Tree, acts: seq<Act>)
    requires ConfigOk(c) && Run(c, t0, acts).Some?
    ensures Owned(c, Run(c, t0, acts).value)
  {
    if acts != [] {
      var n := |acts| - 1;
      RunOwned(c, t0, acts[..n]);
      var st := Run(c, t0, acts[..n]).value;
      match acts[n]
      case Read(pick, spare) => ReadOwned(c, st, pick, spare);
      case Work(w) => WorkOwned(c, st, w);
    }
  }

  /** In every reachable state a buffer is in one place, and a worker writes what was read for its entry. */
  lemma BuffersHaveOneOwner(c: Config, t0: Tree, acts: seq<Act>)
    requires ConfigOk(c) && Run(c, t0, acts).Some?
    ensures var st := Run(c, t0, acts).value;
      && (forall l, m :: Held(st, l).Some? && Held(st, l) == Held(st, m) ==> l == m)
      && (forall w :: 0 <= w < c.n && st.workers[w].Writing? ==>
            var job := st.workers[w].job;
            && Carries(c, st, job.id, job.buf)
            && Held(st, AtWorker(w)) == Some(job.buf))
  {
    RunOwned(c, t0, acts);
    var st := Run(c, t0, acts).value;
    forall w | 0 <= w < c.n && st.workers[w].Writing?
      ensures Carries(c, st, st.workers[w].job.id, st.workers[w].job.buf)
    {
      assert JobAt(st, AtWorker(w)).Some?;
    }
  }
}
