/**
 The write pool of `cmd/kbuild-step/untarpool.go` together with the reader loop
 that feeds it, as a state machine.

 A state holds the reader, one bounded queue and one worker per shard, the
 pending counter, the sticky first error, the recycled buffers and the tree.
 `Next` runs one step of the reader or of one worker; a run is any sequence of
 such steps, so a statement about every run is one about every schedule.
 */
module UntarPool {
  import opened Wrappers
  import opened FileTree
  import opened Extract

  /** A queued write: the entry it is for, and the buffer that holds its bytes. */
  datatype Job = Job(id: nat, buf: nat)

  datatype Worker =
    | Idle
    | Check(job: Job)
    | Writing(job: Job, s: nat)
    | PutBack(job: Job)
    | Finishing
    | Exited

  datatype Reader =
    | Ready
    | Getting
    | Got(buf: nat)
    | Filling(buf: nat)
    | Announce(buf: nat)
    | Sending(job: Job)
    | Chmodding
    | Flushing
    | Inline
    | Closing(failed: bool)
    | Joining(failed: bool)
    | Returned(ok: bool)

  datatype State = State(
    k: nat,
    rd: Reader,
    queues: seq<seq<Job>>,
    workers: seq<Worker>,
    pending: int,
    err: Option<nat>,
    closed: bool,
    fs: Tree,
    mem: map<nat, Bytes>,
    free: seq<nat>)

  /** The stream, the number of workers, and the shard of a name. */
  datatype Config = Config(es: seq<Entry>, n: nat, shard: Path -> nat)

  ghost predicate ConfigOk(c: Config) {
    && StreamOk(c.es) && 1 <= c.n <= 8
    && forall p :: c.shard(p) < c.n
  }

  /** Slots of each channel, and the size a new buffer starts with. */
  const QUEUE_CAP: nat := 4
  const BUF_CAP: nat := 0x8000

  /**
   A step: `Read` for the reader, `Work` for a worker.  `pick` chooses a free
   buffer when there is one to choose; otherwise `spare` names a new one, since
   `sync.Pool` may drop what it holds at any time.
   */
  datatype Act = Read(pick: nat, spare: nat) | Work(w: nat)

  function Blank(n: nat): Bytes {
    seq(n, _ => '\0')
  }

  predicate Small(e: Entry) {
    e.RegE? && !e.big
  }

  function Init(c: Config, t0: Tree): State {
    State(0, Ready, seq(c.n, _ => []), seq(c.n, _ => Idle), 0, None, false, t0, map[], [])
  }

  // ---- the reader ----

  ghost function ReadReady(c: Config, st: State): Option<State>
    requires ConfigOk(c) && st.k <= |c.es|
  {
    if st.k == |c.es| then Some(st.(rd := Closing(false)))
    else match c.es[st.k]
      case DirE(name, _) =>
        (match MkdirAll(st.fs, name)
         case Some(t) => Some(st.(fs := t, rd := Chmodding))
         case None => Some(st.(rd := Closing(true))))
      case RegE(_, _, _, _, big) =>
        if big then Some(st.(rd := Flushing))
        else if st.err.Some? then Some(st.(rd := Closing(true)))
        else Some(st.(rd := Getting))
      case BadE => Some(st.(rd := Closing(true)))
      case _ => Some(st.(rd := Flushing))
  }

  ghost function ReadInline(c: Config, st: State): Option<State>
    requires ConfigOk(c) && st.k < |c.es|
  {
    match Apply(st.fs, st.k, c.es[st.k])
    case Some(t) => Some(st.(fs := t, k := st.k + 1, rd := Ready))
    case None => Some(st.(rd := Closing(true)))
  }

  ghost function ReadChmod(c: Config, st: State): Option<State>
    requires st.k < |c.es| && c.es[st.k].DirE?
  {
    match Chmod(st.fs, c.es[st.k].name, c.es[st.k].mode)
    case Some(t) => Some(st.(fs := t, k := st.k + 1, rd := Ready))
    case None => Some(st.(rd := Closing(true)))
  }

  ghost function ReadNext(c: Config, st: State, pick: nat, spare: nat): Option<State>
    requires ConfigOk(c) && Shape(c, st)
  {
    match st.rd
    case Ready => ReadReady(c, st)
    case Getting =>
      if pick < |st.free| then
        Some(st.(free := st.free[..pick] + st.free[pick + 1..], rd := Got(st.free[pick])))
      else if spare in st.mem then None
      else Some(st.(mem := st.mem[spare := Blank(BUF_CAP)], rd := Got(spare)))
    case Got(buf) =>
      if |st.mem[buf]| >= |c.es[st.k].data| then Some(st.(rd := Filling(buf)))
      else if spare in st.mem then None
      else Some(st.(mem := st.mem[spare := Blank(|c.es[st.k].data|)], rd := Filling(spare)))
    case Filling(buf) =>
      var data := c.es[st.k].data;
      Some(st.(mem := st.mem[buf := data + st.mem[buf][|data|..]], rd := Announce(buf)))
    case Announce(buf) => Some(st.(pending := st.pending + 1, rd := Sending(Job(st.k, buf))))
    case Sending(job) =>
      var w := c.shard(c.es[st.k].name);
      if |st.queues[w]| >= QUEUE_CAP then None
      else Some(st.(queues := st.queues[w := st.queues[w] + [job]], k := st.k + 1, rd := Ready))
    case Chmodding => ReadChmod(c, st)
    case Flushing =>
      if st.pending != 0 then None
      else Some(st.(rd := if st.err.Some? then Closing(true) else Inline))
    case Inline => ReadInline(c, st)
    case Closing(failed) => if st.pending != 0 then None else Some(st.(closed := true, rd := Joining(failed)))
    case Joining(failed) =>
      if forall w :: 0 <= w < c.n ==> st.workers[w] == Exited
      then Some(st.(rd := Returned(!failed && st.err.None?)))
      else None
    case Returned(_) => None
  }

  // ---- a worker ----

  ghost function WorkWrite(c: Config, st: State, w: nat, job: Job, s: nat): Option<State>
    requires ConfigOk(c) && Shape(c, st) && w < c.n && st.workers[w] == Writing(job, s)
  {
    assert WorkerOk(c, st, w);
    var e := c.es[job.id];
    match WriteCall(st.fs, e, job.id, s, st.mem[job.buf][..|e.data|])
    case Some(t) =>
      Some(st.(fs := t, workers := st.workers[w := if s == 5 then PutBack(job) else Writing(job, s + 1)]))
    case None =>
      Some(st.(err := if st.err.None? then Some(job.id) else st.err, workers := st.workers[w := PutBack(job)]))
  }

  ghost function WorkNext(c: Config, st: State, w: nat): Option<State>
    requires ConfigOk(c) && Shape(c, st)
  {
    if w >= c.n then None
    else match st.workers[w]
      case Idle =>
        if st.queues[w] != [] then
          Some(st.(queues := st.queues[w := st.queues[w][1..]], workers := st.workers[w := Check(st.queues[w][0])]))
        else if st.closed then Some(st.(workers := st.workers[w := Exited]))
        else None
      case Check(job) =>
        Some(st.(workers := st.workers[w := if st.err.None? then Writing(job, 0) else PutBack(job)]))
      case Writing(job, s) => WorkWrite(c, st, w, job, s)
      case PutBack(job) => Some(st.(free := st.free + [job.buf], workers := st.workers[w := Finishing]))
      case Finishing => Some(st.(pending := st.pending - 1, workers := st.workers[w := Idle]))
      case Exited => None
  }

  ghost function Next(c: Config, st: State, act: Act): Option<State>
    requires ConfigOk(c) && Shape(c, st)
  {
    match act
    case Read(pick, spare) => ReadNext(c, st, pick, spare)
    case Work(w) => WorkNext(c, st, w)
  }

  // ---- shape: every field is where the code puts it ----

  predicate JobOk(c: Config, st: State, job: Job) {
    && job.id < |c.es| && Small(c.es[job.id])
    && job.buf in st.mem && |st.mem[job.buf]| >= |c.es[job.id].data|
  }

  ghost predicate ReaderOk(c: Config, st: State) {
    match st.rd
    case Ready => st.k <= |c.es|
    case Getting => st.k < |c.es| && Small(c.es[st.k])
    case Got(buf) => st.k < |c.es| && Small(c.es[st.k]) && buf in st.mem
    case Filling(buf) =>
      st.k < |c.es| && Small(c.es[st.k]) && buf in st.mem && |st.mem[buf]| >= |c.es[st.k].data|
    case Announce(buf) =>
      st.k < |c.es| && Small(c.es[st.k]) && JobOk(c, st, Job(st.k, buf))
    case Sending(job) => st.k < |c.es| && job.id == st.k && JobOk(c, st, job)
    case Chmodding => st.k < |c.es| && c.es[st.k].DirE?
    case Flushing => st.k < |c.es| && Barrier(c.es[st.k])
    case Inline => st.k < |c.es| && Barrier(c.es[st.k])
    case Closing(failed) => if failed then st.k < |c.es| else st.k == |c.es|
    case Joining(failed) => if failed then st.k < |c.es| else st.k == |c.es|
    case Returned(ok) => ok ==> st.k == |c.es|
  }

  ghost predicate WorkerOk(c: Config, st: State, w: nat)
    requires w < |st.workers|
  {
    match st.workers[w]
    case Check(job) => JobOk(c, st, job)
    case Writing(job, s) => JobOk(c, st, job) && s < 6
    case PutBack(job) => JobOk(c, st, job)
    case _ => true
  }

  ghost predicate QueueOk(c: Config, st: State, w: nat)
    requires w < |st.queues|
  {
    forall x :: 0 <= x < |st.queues[w]| ==> JobOk(c, st, st.queues[w][x])
  }

  ghost predicate Shape(c: Config, st: State)
    requires ConfigOk(c)
  {
    && |st.queues| == |st.workers| == c.n
    && st.k <= |c.es|
    && ReaderOk(c, st)
    && (forall w :: 0 <= w < c.n ==> WorkerOk(c, st, w))
    && (forall w :: 0 <= w < c.n ==> QueueOk(c, st, w))
    && (forall x :: 0 <= x < |st.free| ==> st.free[x] in st.mem)
  }

  /** Buffers are never taken away, and never get shorter. */
  ghost predicate MemGrown(m: map<nat, Bytes>, m': map<nat, Bytes>) {
    forall b :: b in m ==> b in m' && |m'[b]| >= |m[b]|
  }

  lemma ShapeFrame(c: Config, st: State, st': State)
    requires ConfigOk(c) && Shape(c, st) && MemGrown(st.mem, st'.mem)
    requires st'.queues == st.queues && st'.workers == st.workers
    requires st'.k <= |c.es| && ReaderOk(c, st')
    requires forall x :: 0 <= x < |st'.free| ==> st'.free[x] in st.free
    ensures Shape(c, st')
  {
    forall w | 0 <= w < c.n ensures WorkerOk(c, st', w) && QueueOk(c, st', w) {
      assert WorkerOk(c, st, w) && QueueOk(c, st, w);
    }
  }

  lemma SendShape(c: Config, st: State)
    requires ConfigOk(c) && Shape(c, st) && st.rd.Sending? && ReadNext(c, st, 0, 0).Some?
    ensures Shape(c, ReadNext(c, st, 0, 0).value)
  {
    var st' := ReadNext(c, st, 0, 0).value;
    forall w | 0 <= w < c.n ensures WorkerOk(c, st', w) && QueueOk(c, st', w) {
      assert WorkerOk(c, st, w) && QueueOk(c, st, w);
    }
  }

  /** The steps of `dispatch` before the send. */
  lemma DispatchShape(c: Config, st: State, pick: nat, spare: nat)
    requires ConfigOk(c) && Shape(c, st) && ReadNext(c, st, pick, spare).Some?
    requires st.rd.Getting? || st.rd.Got? || st.rd.Filling? || st.rd.Announce?
    ensures Shape(c, ReadNext(c, st, pick, spare).value)
  {
    var st' := ReadNext(c, st, pick, spare).value;
    ShapeFrame(c, st, st');
  }

  /** The steps of the reader that touch no buffer and no queue. */
  lemma RestSame(c: Config, st: State, pick: nat, spare: nat)
    requires ConfigOk(c) && Shape(c, st) && ReadNext(c, st, pick, spare).Some?
    requires !(st.rd.Sending? || st.rd.Getting? || st.rd.Got? || st.rd.Filling? || st.rd.Announce?)
    ensures var st' := ReadNext(c, st, pick, spare).value;
      && st'.mem == st.mem && st'.free == st.free && st'.queues == st.queues && st'.workers == st.workers
      && st'.k <= |c.es| && ReaderOk(c, st')
  {
    hide MkdirAll, Chmod, Apply, WorkerOk, QueueOk, JobOk, Blank;
  }

  lemma RestShape(c: Config, st: State, pick: nat, spare: nat)
    requires ConfigOk(c) && Shape(c, st) && ReadNext(c, st, pick, spare).Some?
    requires !(st.rd.Sending? || st.rd.Getting? || st.rd.Got? || st.rd.Filling? || st.rd.Announce?)
    ensures Shape(c, ReadNext(c, st, pick, spare).value)
  {
    hide ReadNext, WorkerOk, QueueOk, JobOk, ReaderOk;
    RestSame(c, st, pick, spare);
    ShapeFrame(c, st, ReadNext(c, st, pick, spare).value);
  }

  lemma ReadShape(c: Config, st: State, pick: nat, spare: nat)
    requires ConfigOk(c) && Shape(c, st) && ReadNext(c, st, pick, spare).Some?
    ensures Shape(c, ReadNext(c, st, pick, spare).value)
  {
    hide ReadReady, ReadChmod, ReadInline, WorkerOk, QueueOk, JobOk;
    if st.rd.Sending? {
      SendShape(c, st);
    } else if st.rd.Getting? || st.rd.Got? || st.rd.Filling? || st.rd.Announce? {
      DispatchShape(c, st, pick, spare);
    } else {
      RestShape(c, st, pick, spare);
    }
  }

  /** A worker step touches its own worker and queue only. */
  ghost predicate OnlyWorker(c: Config, st: State, st': State, w: nat) {
    && |st.queues| == |st.workers| == |st'.queues| == |st'.workers| == c.n && w < c.n
    && st'.k == st.k && st'.rd == st.rd && st'.mem == st.mem && st'.closed == st.closed
    && (forall v :: 0 <= v < c.n && v != w ==> st'.workers[v] == st.workers[v] && st'.queues[v] == st.queues[v])
  }

  lemma WorkOnly(c: Config, st: State, w: nat)
    requires ConfigOk(c) && Shape(c, st) && WorkNext(c, st, w).Some?
    ensures OnlyWorker(c, st, WorkNext(c, st, w).value, w)
    ensures WorkerOk(c, WorkNext(c, st, w).value, w)
    ensures QueueOk(c, WorkNext(c, st, w).value, w)
    ensures forall x :: 0 <= x < |WorkNext(c, st, w).value.free| ==> WorkNext(c, st, w).value.free[x] in st.mem
  {
    assert WorkerOk(c, st, w) && QueueOk(c, st, w);
  }

  lemma WorkShape(c: Config, st: State, w: nat)
    requires ConfigOk(c) && Shape(c, st) && WorkNext(c, st, w).Some?
    ensures Shape(c, WorkNext(c, st, w).value)
  {
    var st' := WorkNext(c, st, w).value;
    WorkOnly(c, st, w);
    forall v | 0 <= v < c.n ensures WorkerOk(c, st', v) && QueueOk(c, st', v) {
      assert WorkerOk(c, st, v) && QueueOk(c, st, v);
    }
  }

  lemma NextShape(c: Config, st: State, act: Act)
    requires ConfigOk(c) && Shape(c, st) && Next(c, st, act).Some?
    ensures Shape(c, Next(c, st, act).value)
  {
    match act
    case Read(pick, spare) => ReadShape(c, st, pick, spare);
    case Work(w) => WorkShape(c, st, w);
  }

  /** A run: the state after the given steps, if each of them could be taken. */
  ghost function Run(c: Config, t0: Tree, acts: seq<Act>): (r: Option<State>)
    requires ConfigOk(c)
    ensures r.Some? ==> Shape(c, r.value)
  {
    if acts == [] then Some(Init(c, t0))
    else
      var n := |acts| - 1;
      match Run(c, t0, acts[..n])
      case None => None
      case Some(st) =>
        var r := Next(c, st, acts[n]);
        if r.Some? then NextShape(c, st, acts[n]); r else None
  }
}
