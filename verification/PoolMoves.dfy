/**
 Runs of the pool put together piece by piece: the reader queues a file, a worker
 takes one up, writes it and is done, and the pool closes.
 */
module PoolMoves {
  import opened Wrappers
  import opened FileTree
  import opened Extract
  import opened UntarPool

  ghost predicate Reaches(c: Config, t0: Tree, st: State)
    requires ConfigOk(c)
  {
    exists acts :: Run(c, t0, acts) == Some(st)
  }

  lemma Begins(c: Config, t0: Tree)
    requires ConfigOk(c)
    ensures Reaches(c, t0, Init(c, t0)) && Shape(c, Init(c, t0))
  {
    assert Run(c, t0, []) == Some(Init(c, t0));
  }

  lemma Go(c: Config, t0: Tree, st: State, act: Act, st': State)
    requires ConfigOk(c) && Shape(c, st) && Reaches(c, t0, st) && Next(c, st, act) == Some(st')
    ensures Reaches(c, t0, st') && Shape(c, st')
  {
    hide Next, Shape;
    var acts :| Run(c, t0, acts) == Some(st);
    var more := acts + [act];
    assert more[..|acts|] == acts && more[|acts|] == act;
    NextShape(c, st, act);
    assert Run(c, t0, more) == Some(st');
  }

  // ---- a worker ----

  function WorkerAt(st: State, w: nat, x: Worker): State
    requires w < |st.workers|
  {
    st.(workers := st.workers[w := x])
  }

  lemma Same(st: State, w: nat, x: Worker, y: Worker)
    requires w < |st.workers|
    ensures WorkerAt(WorkerAt(st, w, x), w, y) == WorkerAt(st, w, y)
    ensures WorkerAt(st, w, st.workers[w]) == st
  {
  }

  /** The worker takes the first job of its queue. */
  lemma Takes(c: Config, t0: Tree, st: State, w: nat) returns (st': State)
    requires ConfigOk(c) && Shape(c, st) && Reaches(c, t0, st)
    requires w < c.n && st.workers[w] == Idle && st.queues[w] != [] && st.err.None?
    ensures Reaches(c, t0, st') && Shape(c, st')
    ensures st' == WorkerAt(st.(queues := st.queues[w := st.queues[w][1..]]), w, Writing(st.queues[w][0], 0))
  {
    hide Reaches, ReaderOk, QueueOk, WorkerOk;
    var job := st.queues[w][0];
    var st1 := WorkerAt(st.(queues := st.queues[w := st.queues[w][1..]]), w, Check(job));
    Go(c, t0, st, Work(w), st1);
    st' := WorkerAt(st1, w, Writing(job, 0));
    Go(c, t0, st1, Work(w), st');
    Same(st.(queues := st.queues[w := st.queues[w][1..]]), w, Check(job), Writing(job, 0));
  }

  /** The bytes the worker holds for its entry are the entry's. */
  predicate Carries(c: Config, st: State, job: Job) {
    && job.id < |c.es| && Small(c.es[job.id]) && job.buf in st.mem
    && |st.mem[job.buf]| >= |c.es[job.id].data| && st.mem[job.buf][..|c.es[job.id].data|] == c.es[job.id].data
  }

  lemma Sizes(c: Config, st: State)
    requires ConfigOk(c) && Shape(c, st)
    ensures |st.workers| == |st.queues| == c.n && st.k <= |c.es|
  {
  }

  lemma CarriesIs(c: Config, st: State, job: Job)
    requires ConfigOk(c) && Carries(c, st, job)
    ensures job.id < |c.es| && c.es[job.id].RegE? && EntryOk(c.es[job.id]) && Calls(c.es[job.id]) == 6
  {
  }

  lemma StillCarries(c: Config, st: State, st': State, job: Job)
    requires Carries(c, st, job) && st'.mem == st.mem
    ensures Carries(c, st', job)
  {
  }

  /** One call of the write. */
  lemma Writes(c: Config, t0: Tree, st: State, w: nat, job: Job, s: nat, t: Tree) returns (st': State)
    requires ConfigOk(c) && Shape(c, st) && Reaches(c, t0, st)
    requires w < c.n && st.workers[w] == Writing(job, s) && s < 6 && Carries(c, st, job)
    requires Call(st.fs, c.es[job.id], job.id, s) == Some(t)
    ensures Reaches(c, t0, st') && Shape(c, st')
    ensures st' == WorkerAt(st.(fs := t), w, if s == 5 then PutBack(job) else Writing(job, s + 1))
  {
    hide Reaches, ReaderOk, QueueOk, WriteCall;
    assert WorkerOk(c, st, w);
    st' := WorkerAt(st.(fs := t), w, if s == 5 then PutBack(job) else Writing(job, s + 1));
    Go(c, t0, st, Work(w), st');
  }

  /** All of it. */
  lemma {:induction false} WritesAll(c: Config, t0: Tree, st: State, w: nat, job: Job, s: nat, t: Tree) returns (st': State)
    requires ConfigOk(c) && Shape(c, st) && Reaches(c, t0, st)
    requires w < c.n && st.workers[w] == Writing(job, s) && s < 6 && Carries(c, st, job)
    requires Finish(st.fs, c.es[job.id], job.id, s) == Some(t)
    ensures Reaches(c, t0, st') && Shape(c, st') && st' == WorkerAt(st.(fs := t), w, PutBack(job))
    decreases 6 - s
  {
    hide Reaches, Shape, Call, Finish, Run, Next, Carries;
    Sizes(c, st);
    CarriesIs(c, st, job);
    var e := c.es[job.id];
    FinishStep(st.fs, e, job.id, s);
    var t' := Call(st.fs, e, job.id, s).value;
    var st1 := Writes(c, t0, st, w, job, s, t');
    if s == 5 {
      FinishEnd(t', e, job.id);
      st' := st1;
    } else {
      StillCarries(c, st, st1, job);
      st' := WritesAll(c, t0, st1, w, job, s + 1, t);
      Same(st.(fs := t), w, Writing(job, s + 1), PutBack(job));
    }
  }

  lemma FinishEnd(t: Tree, e: Entry, id: nat)
    requires EntryOk(e) && e.RegE?
    ensures Finish(t, e, id, 6) == Some(t)
  {
  }

  /** The buffer goes back, and the job is done. */
  lemma Ends(c: Config, t0: Tree, st: State, w: nat, job: Job) returns (st': State)
    requires ConfigOk(c) && Shape(c, st) && Reaches(c, t0, st) && w < c.n && st.workers[w] == PutBack(job)
    ensures Reaches(c, t0, st') && Shape(c, st')
    ensures st' == WorkerAt(st.(free := st.free + [job.buf], pending := st.pending - 1), w, Idle)
  {
    hide Reaches, ReaderOk, QueueOk, WorkerOk;
    var st1 := WorkerAt(st.(free := st.free + [job.buf]), w, Finishing);
    Go(c, t0, st, Work(w), st1);
    st' := WorkerAt(st1.(pending := st.pending - 1), w, Idle);
    Go(c, t0, st1, Work(w), st');
    Same(st.(free := st.free + [job.buf], pending := st.pending - 1), w, Finishing, Idle);
  }

  /** A worker writes the only job of its queue from start to end. */
  lemma WritesOne(c: Config, t0: Tree, st: State, w: nat, job: Job, t: Tree) returns (st': State)
    requires ConfigOk(c) && Shape(c, st) && Reaches(c, t0, st)
    requires w < c.n && st.workers[w] == Idle && st.queues[w] == [job] && st.err.None? && Carries(c, st, job)
    requires Finish(st.fs, c.es[job.id], job.id, 0) == Some(t)
    ensures Reaches(c, t0, st') && Shape(c, st')
    ensures st' == st.(queues := st.queues[w := []], fs := t, free := st.free + [job.buf], pending := st.pending - 1)
  {
    hide Reaches, Shape, Finish, Run, Next, Carries;
    assert |st.workers| == |st.queues| == c.n by { Sizes(c, st); }
    assert [job][1..] == [];
    var st1 := Takes(c, t0, st, w);
    assert Carries(c, st1, job) by { StillCarries(c, st, st1, job); }
    var st2 := WritesAll(c, t0, st1, w, job, 0, t);
    st' := Ends(c, t0, st2, w, job);
    assert st'.workers == st.workers;
  }

  // ---- the reader ----

  /** A buffer once the reader has filled it. */
  function Filled(data: Bytes): Bytes
    requires |data| <= BUF_CAP
  {
    data + Blank(BUF_CAP)[|data|..]
  }

  lemma BlankLength(n: nat)
    ensures |Blank(n)| == n
  {
  }

  /** The reader reads the next small file into a new buffer. */
  lemma Reads(c: Config, t0: Tree, st: State, spare: nat) returns (st': State)
    requires ConfigOk(c) && Shape(c, st) && Reaches(c, t0, st)
    requires st.rd == Ready && st.k < |c.es| && Small(c.es[st.k]) && |c.es[st.k].data| <= BUF_CAP
    requires st.err.None? && st.free == [] && spare !in st.mem
    ensures Reaches(c, t0, st') && Shape(c, st')
    ensures st' == st.(mem := st.mem[spare := Filled(c.es[st.k].data)], rd := Announce(spare))
  {
    hide Reaches, QueueOk, WorkerOk, Blank, MkdirAll, Chmod, Apply;
    BlankLength(BUF_CAP);
    var data := c.es[st.k].data;
    var s1 := st.(rd := Getting);
    Go(c, t0, st, Read(0, spare), s1);
    var s2 := st.(mem := st.mem[spare := Blank(BUF_CAP)], rd := Got(spare));
    Go(c, t0, s1, Read(0, spare), s2);
    var s3 := s2.(rd := Filling(spare));
    Go(c, t0, s2, Read(0, spare), s3);
    st' := st.(mem := st.mem[spare := Filled(data)], rd := Announce(spare));
    assert s3.mem[spare := Filled(data)] == st'.mem;
    Go(c, t0, s3, Read(0, spare), st');
  }

  /** And queues it. */
  lemma Queues(c: Config, t0: Tree, st: State, spare: nat) returns (st': State)
    requires ConfigOk(c) && Shape(c, st) && Reaches(c, t0, st)
    requires st.rd == Ready && st.k < |c.es| && Small(c.es[st.k]) && |c.es[st.k].data| <= BUF_CAP
    requires st.err.None? && st.free == [] && spare !in st.mem && st.queues[c.shard(c.es[st.k].name)] == []
    ensures Reaches(c, t0, st') && Shape(c, st') && Carries(c, st', Job(st.k, spare))
    ensures st' == st.(mem := st.mem[spare := Filled(c.es[st.k].data)], pending := st.pending + 1, k := st.k + 1,
                       queues := st.queues[c.shard(c.es[st.k].name) := [Job(st.k, spare)]])
  {
    hide Reaches, QueueOk, WorkerOk, Filled, MkdirAll, Chmod, Apply;
    var job, v := Job(st.k, spare), c.shard(c.es[st.k].name);
    var s1 := Reads(c, t0, st, spare);
    var s2 := s1.(pending := st.pending + 1, rd := Sending(job));
    Go(c, t0, s1, Read(0, 0), s2);
    st' := s2.(queues := st.queues[v := [job]], k := st.k + 1, rd := Ready);
    assert [] + [job] == [job];
    Go(c, t0, s2, Read(0, 0), st');
    FilledIs(c.es[st.k].data);
  }

  lemma FilledIs(data: Bytes)
    requires |data| <= BUF_CAP
    ensures |Filled(data)| == BUF_CAP && Filled(data)[..|data|] == data
  {
    BlankLength(BUF_CAP);
  }

  /** The reader makes a directory. */
  lemma Makes(c: Config, t0: Tree, st: State, t1: Tree, t2: Tree) returns (st': State)
    requires ConfigOk(c) && Shape(c, st) && Reaches(c, t0, st)
    requires st.rd == Ready && st.k < |c.es| && c.es[st.k].DirE?
    requires MkdirAll(st.fs, c.es[st.k].name) == Some(t1) && Chmod(t1, c.es[st.k].name, c.es[st.k].mode) == Some(t2)
    ensures Reaches(c, t0, st') && Shape(c, st') && st' == st.(fs := t2, k := st.k + 1)
  {
    hide Reaches, QueueOk, WorkerOk, MkdirAll, Chmod, Apply;
    var s1 := st.(fs := t1, rd := Chmodding);
    Go(c, t0, st, Read(0, 0), s1);
    st' := st.(fs := t2, k := st.k + 1);
    Go(c, t0, s1, Read(0, 0), st');
  }

  // ---- the end ----

  lemma {:induction false} Exits(c: Config, t0: Tree, st: State, n: nat) returns (st': State)
    requires ConfigOk(c) && Shape(c, st) && Reaches(c, t0, st) && n <= c.n && st.closed
    requires forall w :: 0 <= w < c.n ==> st.queues[w] == [] && (st.workers[w] == Idle || st.workers[w] == Exited)
    ensures Reaches(c, t0, st') && Shape(c, st') && |st'.workers| == c.n && st' == st.(workers := st'.workers)
    ensures forall w :: 0 <= w < c.n ==> st'.workers[w] == if w < n then Exited else st.workers[w]
  {
    hide Reaches, ReaderOk, QueueOk, WorkerOk;
    if n == 0 {
      st' := st;
    } else {
      var s1 := Exits(c, t0, st, n - 1);
      if s1.workers[n - 1] == Idle {
        st' := WorkerAt(s1, n - 1, Exited);
        Go(c, t0, s1, Work(n - 1), st');
      } else {
        st' := s1;
      }
    }
  }

  ghost predicate Succeeds(c: Config, t0: Tree, acts: seq<Act>, t: Tree)
    requires ConfigOk(c)
  {
    Run(c, t0, acts).Some? && Run(c, t0, acts).value.rd == Returned(true) && Run(c, t0, acts).value.fs == t
  }

  /** With everything read and written, the pool returns success. */
  lemma Closes(c: Config, t0: Tree, st: State) returns (acts: seq<Act>)
    requires ConfigOk(c) && Shape(c, st) && Reaches(c, t0, st)
    requires st.rd == Ready && st.k == |c.es| && st.pending == 0 && st.err.None?
    requires forall w :: 0 <= w < c.n ==> st.queues[w] == [] && st.workers[w] == Idle
    ensures Succeeds(c, t0, acts, st.fs)
  {
    hide ReaderOk, QueueOk, WorkerOk, Run;
    var s1 := st.(rd := Closing(false));
    Go(c, t0, st, Read(0, 0), s1);
    var s2 := st.(closed := true, rd := Joining(false));
    Go(c, t0, s1, Read(0, 0), s2);
    var s3 := Exits(c, t0, s2, c.n);
    var s4 := s3.(rd := Returned(true));
    Go(c, t0, s3, Read(0, 0), s4);
    acts :| Run(c, t0, acts) == Some(s4);
  }
}
