/**
 The one-at-a-time loop seen batch by batch: it succeeds on a batch exactly when
 the batch is clear and its start allows every entry, and then leaves what any
 other finished run of the batch leaves.
 */
module SerialBatch {
  import opened Wrappers
  import opened FileTree
  import opened Extract
  import opened Batch

  function AsSoft(e: Entry): (r: Soft)
    requires EntryOk(e) && !Barrier(e)
    ensures r == e
  {
    assert e.DirE? || e.RegE?;
    e
  }

  /** Entries `b` to `k` of a stream, when none of them is a barrier. */
  function BatchOf(es: seq<Entry>, b: nat, k: nat): (r: seq<Soft>)
    requires StreamOk(es) && b <= k <= |es|
    requires forall i :: b <= i < k ==> !Barrier(es[i])
    ensures |r| == k - b && forall i {:trigger r[i]} :: 0 <= i < |r| ==> r[i] == es[b + i]
  {
    if b == k then [] else BatchOf(es, b, k - 1) + [AsSoft(es[k - 1])]
  }

  /** The batch in progress when the reader stands at entry `k`. */
  function Current(es: seq<Entry>, k: nat): seq<Soft>
    requires StreamOk(es) && k <= |es|
  {
    BatchOf(es, Start(es, k), k)
  }

  /**
   The theorem's hypotheses on a stream: wherever the serial loop reaches the
   start of a batch, the batch is gentle on the tree found there.
   */
  ghost predicate Tame(t0: Tree, es: seq<Entry>) {
    && StreamOk(es) && Sane(t0, 0)
    && forall k {:trigger Current(es, k)} :: 0 <= k <= |es| && Serial(t0, es[..Start(es, k)]).Some? ==>
         Gentle(Serial(t0, es[..Start(es, k)]).value, Current(es, k))
  }

  function FullOf(es: seq<Soft>): (pr: seq<nat>)
    ensures |pr| == |es| && forall i :: 0 <= i < |es| ==> pr[i] == Calls(es[i])
  {
    seq(|es|, i requires 0 <= i < |es| => Calls(es[i]))
  }

  lemma FullOrder(es: seq<Soft>, e: Soft, p: nat)
    requires p <= Calls(e)
    ensures Order(es + [e], FullOf(es) + [p])
  {
  }

  /** Running one more entry to its end keeps the invariant ... */
  lemma {:induction false} FinishKeeps(s0: Tree, es: seq<Soft>, b: nat, e: Soft, p: nat, t: Tree)
    requires p <= Calls(e) && Running(s0, es + [e], b, FullOf(es) + [p], t)
    requires Finish(t, e, b + |es|, p).Some?
    ensures Running(s0, es + [e], b, FullOf(es + [e]), Finish(t, e, b + |es|, p).value)
    decreases Calls(e) - p
  {
    hide Running, Call, Gentle;
    var pr := FullOf(es) + [p];
    if p == Calls(e) {
      assert pr == FullOf(es + [e]);
    } else {
      FullOrder(es, e, p + 1);
      assert pr[|es| := p + 1] == FullOf(es) + [p + 1];
      var t' := Call(t, e, b + |es|, p).value;
      Advance(s0, t, t', es + [e], b, pr, |es|);
      FinishKeeps(s0, es, b, e, p + 1, t');
    }
  }

  /** ... and succeeds where the batch's start allows it. */
  lemma {:induction false} FinishSucceeds(s0: Tree, es: seq<Soft>, b: nat, e: Soft, p: nat, t: Tree)
    requires p <= Calls(e) && Running(s0, es + [e], b, FullOf(es) + [p], t)
    requires Clear(es + [e]) && Allows(s0, e, Calls(e))
    ensures Finish(t, e, b + |es|, p).Some?
    decreases Calls(e) - p
  {
    hide Running, Call, Gentle, Clear, Allows;
    var pr := FullOf(es) + [p];
    if p < Calls(e) {
      FullOrder(es, e, p + 1);
      assert pr[|es| := p + 1] == FullOf(es) + [p + 1];
      CallSucceeds(s0, t, es + [e], b, pr, |es|);
      var t' := Call(t, e, b + |es|, p).value;
      Advance(s0, t, t', es + [e], b, pr, |es|);
      FinishSucceeds(s0, es, b, e, p + 1, t');
    }
  }

  lemma OneMore(s0: Tree, prev: seq<Soft>, b: nat, e: Soft, t: Tree)
    requires Running(s0, prev, b, FullOf(prev), t) && Gentle(s0, prev + [e])
    ensures Finish(t, e, b + |prev|, 0).Some? ==>
      Running(s0, prev + [e], b, FullOf(prev + [e]), Finish(t, e, b + |prev|, 0).value)
    ensures Clear(prev + [e]) && Allows(s0, e, Calls(e)) ==> Finish(t, e, b + |prev|, 0).Some?
  {
    FullOrder(prev, e, 0);
    Extend(s0, t, prev, b, FullOf(prev), e);
    if Finish(t, e, b + |prev|, 0).Some? {
      FinishKeeps(s0, prev, b, e, 0, t);
    }
    if Clear(prev + [e]) && Allows(s0, e, Calls(e)) {
      FinishSucceeds(s0, prev, b, e, 0, t);
    }
  }

  /** Taking the last entry off a batch, and off the serial loop over it. */
  lemma BatchStep(es: seq<Entry>, b: nat, k: nat)
    requires StreamOk(es) && b < k <= |es| && forall i :: b <= i < k ==> !Barrier(es[i])
    ensures BatchOf(es, b, k) == BatchOf(es, b, k - 1) + [es[k - 1]]
    ensures BatchOf(es, b, k)[..k - 1 - b] == BatchOf(es, b, k - 1)
  {
  }

  lemma SerialStep(t0: Tree, es: seq<Entry>, k: nat)
    requires StreamOk(es) && 0 < k <= |es| && !Barrier(es[k - 1])
    ensures Serial(t0, es[..k]) ==
      match Serial(t0, es[..k - 1])
      case None => None
      case Some(t) => Finish(t, es[k - 1], k - 1, 0)
  {
    assert es[..k][..k - 1] == es[..k - 1];
  }

  lemma GentlePrefix(s0: Tree, es: seq<Soft>, n: nat)
    requires Gentle(s0, es) && n <= |es|
    ensures Gentle(s0, es[..n])
  {
  }

  lemma ClearPrefix(es: seq<Soft>, n: nat)
    requires Clear(es) && n <= |es|
    ensures Clear(es[..n])
  {
  }

  lemma GentleLess(s0: Tree, es: seq<Entry>, b: nat, k: nat)
    requires StreamOk(es) && b < k <= |es| && forall i :: b <= i < k ==> !Barrier(es[i])
    requires Gentle(s0, BatchOf(es, b, k))
    ensures Gentle(s0, BatchOf(es, b, k - 1))
  {
    BatchStep(es, b, k);
    GentlePrefix(s0, BatchOf(es, b, k), k - 1 - b);
  }

  /** One step of the serial loop inside a batch. */
  lemma OneMoreAt(t0: Tree, es: seq<Entry>, b: nat, k: nat, s0: Tree)
    requires StreamOk(es) && b < k <= |es| && forall i :: b <= i < k ==> !Barrier(es[i])
    requires Gentle(s0, BatchOf(es, b, k)) && Serial(t0, es[..k - 1]).Some?
    requires var prev := BatchOf(es, b, k - 1); Running(s0, prev, b, FullOf(prev), Serial(t0, es[..k - 1]).value)
    ensures var batch := BatchOf(es, b, k);
      && (Serial(t0, es[..k]).Some? ==> Running(s0, batch, b, FullOf(batch), Serial(t0, es[..k]).value))
      && (Clear(batch) && Allows(s0, batch[k - 1 - b], Calls(batch[k - 1 - b])) ==> Serial(t0, es[..k]).Some?)
  {
    hide Running, Gentle, Finish, Clear, Allows;
    BatchStep(es, b, k);
    SerialStep(t0, es, k);
    OneMore(s0, BatchOf(es, b, k - 1), b, AsSoft(es[k - 1]), Serial(t0, es[..k - 1]).value);
  }

  /** What the serial loop makes of the entries `b` to `k` it got through. */
  lemma {:induction false} SerialRuns(t0: Tree, es: seq<Entry>, b: nat, k: nat, s0: Tree)
    requires StreamOk(es) && b <= k <= |es| && Serial(t0, es[..k]).Some?
    requires forall i :: b <= i < k ==> !Barrier(es[i])
    requires Serial(t0, es[..b]) == Some(s0) && Sane(s0, b) && Gentle(s0, BatchOf(es, b, k))
    ensures Running(s0, BatchOf(es, b, k), b, FullOf(BatchOf(es, b, k)), Serial(t0, es[..k]).value)
    decreases k
  {
    hide Running, Finish, Gentle, Sane;
    if k == b {
      StartBatch(s0, b);
      assert FullOf(BatchOf(es, b, k)) == [];
    } else {
      assert Serial(t0, es[..k - 1]).Some? by { SerialStep(t0, es, k); }
      assert Gentle(s0, BatchOf(es, b, k - 1)) by { GentleLess(s0, es, b, k); }
      SerialRuns(t0, es, b, k - 1, s0);
      OneMoreAt(t0, es, b, k, s0);
    }
  }

  /** The loop gets through a clear batch whose start allows every entry. */
  lemma {:induction false} SerialSucceeds(t0: Tree, es: seq<Entry>, b: nat, k: nat, s0: Tree)
    requires StreamOk(es) && b <= k <= |es|
    requires forall i :: b <= i < k ==> !Barrier(es[i])
    requires Serial(t0, es[..b]) == Some(s0) && Sane(s0, b) && Gentle(s0, BatchOf(es, b, k))
    requires Clear(BatchOf(es, b, k))
    requires forall i :: 0 <= i < k - b ==> Allows(s0, BatchOf(es, b, k)[i], Calls(BatchOf(es, b, k)[i]))
    ensures Serial(t0, es[..k]).Some?
    decreases k
  {
    if k > b {
      BatchStep(es, b, k);
      GentlePrefix(s0, BatchOf(es, b, k), k - 1 - b);
      ClearPrefix(BatchOf(es, b, k), k - 1 - b);
      forall i {:trigger BatchOf(es, b, k - 1)[i]} | 0 <= i < k - 1 - b
        ensures Allows(s0, BatchOf(es, b, k - 1)[i], Calls(BatchOf(es, b, k - 1)[i]))
      {
        assert BatchOf(es, b, k)[i] == BatchOf(es, b, k - 1)[i];
      }
      SerialSucceeds(t0, es, b, k - 1, s0);
      SerialRuns(t0, es, b, k - 1, s0);
      OneMoreAt(t0, es, b, k, s0);
    }
  }

  /** Two finished runs of a batch from the same start leave the same tree. */
  lemma DoneAgree(s0: Tree, es: seq<Soft>, b: nat, t: Tree, t': Tree)
    requires Running(s0, es, b, FullOf(es), t) && Running(s0, es, b, FullOf(es), t')
    ensures t == t'
  {
    DoneClear(s0, t, es, b, FullOf(es));
    forall q ensures Get(t, q) == Get(t', q) {
      assert Get(t, q) == Now(s0, es, b, FullOf(es), q);
      assert Get(t', q) == Now(s0, es, b, FullOf(es), q);
    }
    assert t.Keys == t'.Keys by {
      forall q ensures q in t <==> q in t' { assert Get(t, q) == Get(t', q); }
    }
    forall q | q in t ensures t[q] == t'[q] { assert Get(t, q) == Get(t', q); }
  }

  /** However a batch was run to its end, the serial loop gets there too, with the same tree. */
  lemma BatchIsSerial(t0: Tree, es: seq<Entry>, k: nat, s0: Tree, t: Tree)
    requires StreamOk(es) && k <= |es| && Serial(t0, es[..Start(es, k)]) == Some(s0)
    requires Running(s0, Current(es, k), Start(es, k), FullOf(Current(es, k)), t)
    ensures Serial(t0, es[..k]) == Some(t)
  {
    var b, batch := Start(es, k), Current(es, k);
    DoneClear(s0, t, batch, b, FullOf(batch));
    forall i | 0 <= i < k - b ensures Allows(s0, batch[i], Calls(batch[i])) {
      assert Allows(s0, batch[i], FullOf(batch)[i]);
    }
    SerialSucceeds(t0, es, b, k, s0);
    SerialRuns(t0, es, b, k, s0);
    DoneAgree(s0, batch, b, t, Serial(t0, es[..k]).value);
  }

  /** If the serial loop gets through a batch, the batch is clear and its start allows every entry. */
  lemma SerialAllows(t0: Tree, es: seq<Entry>, k: nat, s0: Tree)
    requires StreamOk(es) && k <= |es| && Serial(t0, es[..k]).Some?
    requires Serial(t0, es[..Start(es, k)]) == Some(s0) && Sane(s0, Start(es, k)) && Gentle(s0, Current(es, k))
    ensures Clear(Current(es, k))
    ensures forall i :: 0 <= i < |Current(es, k)| ==>
      Allows(s0, Current(es, k)[i], Calls(Current(es, k)[i]))
  {
    var b, batch := Start(es, k), Current(es, k);
    SerialRuns(t0, es, b, k, s0);
    DoneClear(s0, Serial(t0, es[..k]).value, batch, b, FullOf(batch));
    forall i | 0 <= i < |batch| ensures Allows(s0, batch[i], Calls(batch[i])) {
      assert Allows(s0, batch[i], FullOf(batch)[i]);
    }
  }
}
