/** The calls the orchestrator makes on its collaborators, recorded as
    events in the order they happen. */
module Trace {
  import opened Models

  /** What `save_ckpt` leaves at a checkpoint path, as far as the loop is
      concerned: the model saved and the best score stored with it. */
  datatype Checkpoint = Checkpoint(model: Model, best: real)

  /** One collaborator call. Training-loop events carry the epoch during
      which they happen so that properties can name it; `post_process`
      itself takes no argument. */
  datatype Event =
    | LoadWeights(path: string, model: Model)   // strict weight load into a model
    | Resume(path: string)                       // optimizer and scheduler restored from a checkpoint
    | PreProcess(epoch: int)                     // per-epoch setup hook
    | Loss(epoch: int, batch: nat)               // loss requested for one training batch
    | Update(epoch: int, batch: nat)             // parameter update with that loss
    | Title(text: string)                        // title line logged by an evaluation
    | Forward(model: Model, threads: nat)        // one evaluation batch, with the thread count in force
    | Save(epoch: int, model: Model, best: real, path: string)
    | PostProcess(epoch: int)                    // per-epoch teardown hook
    | Barrier                                    // end-of-training barrier
    | Clean                                      // resource clean-up hook

  predicate IsSave(e: Event) { e.Save? }

  predicate IsPreProcess(e: Event) { e.PreProcess? }

  /** The events that close a training run. */
  predicate IsEnding(e: Event) { e.Barrier? || e.Clean? }

  /** The events that mark the stages of the entry point: weight loads,
      the end of training and the titled evaluations. */
  predicate IsMilestone(e: Event) { e.LoadWeights? || e.Clean? || e.Title? }

  /** The per-batch events of a training or evaluation pass. */
  predicate IsBatchStep(e: Event) { e.Loss? || e.Update? || e.Forward? }

  /** The subsequence of `t` whose events satisfy `p`, in order. */
  function Filter(t: seq<Event>, p: Event -> bool): seq<Event>
    decreases |t|
  {
    if |t| == 0 then []
    else Filter(t[..|t| - 1], p) + (if p(t[|t| - 1]) then [t[|t| - 1]] else [])
  }

  /** Filtering one more event keeps it exactly when `p` holds of it. */
  lemma FilterSnoc(t: seq<Event>, e: Event, p: Event -> bool)
    ensures Filter(t + [e], p) == Filter(t, p) + (if p(e) then [e] else [])
  {
    assert (t + [e])[..|t|] == t;
  }

  lemma {:induction false} FilterConcat(a: seq<Event>, b: seq<Event>, p: Event -> bool)
    ensures Filter(a + b, p) == Filter(a, p) + Filter(b, p)
    decreases |b|
  {
    if |b| == 0 {
      assert a + b == a;
    } else {
      assert (a + b)[..|a + b| - 1] == a + b[..|b| - 1];
      FilterConcat(a, b[..|b| - 1], p);
    }
  }

  lemma {:induction false} FilterNone(t: seq<Event>, p: Event -> bool)
    requires forall k :: 0 <= k < |t| ==> !p(t[k])
    ensures Filter(t, p) == []
    decreases |t|
  {
    if |t| > 0 {
      FilterNone(t[..|t| - 1], p);
    }
  }

  /** The trace `before` followed by one training pass over `n` batches: a
      loss call then an update for each batch, in batch order. */
  function TrainTrace(before: seq<Event>, epoch: int, n: nat): seq<Event> {
    if n == 0 then before else TrainTrace(before, epoch, n - 1) + [Loss(epoch, n - 1)] + [Update(epoch, n - 1)]
  }

  /** A training pass only appends to what came before it. */
  lemma {:induction false} TrainTraceAppends(before: seq<Event>, epoch: int, n: nat)
    ensures TrainTrace(before, epoch, n) == before + TrainTrace([], epoch, n)
  {
    if n > 0 {
      TrainTraceAppends(before, epoch, n - 1);
    }
  }

  /** Every batch of a training pass gets exactly one loss call, directly
      followed by exactly one update, and nothing else happens. */
  lemma {:induction false} TrainTraceShape(epoch: int, n: nat)
    ensures |TrainTrace([], epoch, n)| == 2 * n
    ensures forall k :: 0 <= k < 2 * n ==>
              TrainTrace([], epoch, n)[k] == if k % 2 == 0 then Loss(epoch, k / 2) else Update(epoch, k / 2)
  {
    if n > 0 {
      TrainTraceShape(epoch, n - 1);
    }
  }

  /** The trace `before` followed by one evaluation pass of `n` batches
      through the handle `m`, each run on a single thread. */
  function EvalTrace(before: seq<Event>, m: Model, n: nat): seq<Event> {
    if n == 0 then before else EvalTrace(before, m, n - 1) + [Forward(m, 1)]
  }

  lemma {:induction false} EvalTraceAppends(before: seq<Event>, m: Model, n: nat)
    ensures EvalTrace(before, m, n) == before + EvalTrace([], m, n)
  {
    if n > 0 {
      EvalTraceAppends(before, m, n - 1);
    }
  }

  /** An evaluation pass is one forward call per batch, each with a single
      thread. */
  lemma {:induction false} EvalTraceShape(m: Model, n: nat)
    ensures |EvalTrace([], m, n)| == n
    ensures forall k :: 0 <= k < n ==> EvalTrace([], m, n)[k] == Forward(m, 1)
  {
    if n > 0 {
      EvalTraceShape(m, n - 1);
    }
  }

  /** A filter that keeps no per-batch event sees nothing of a training or
      an evaluation pass. */
  lemma PassesAreInvisible(p: Event -> bool, before: seq<Event>, epoch: int, n: nat, m: Model, k: nat)
    requires forall e :: IsBatchStep(e) ==> !p(e)
    ensures Filter(TrainTrace(before, epoch, n), p) == Filter(before, p)
    ensures Filter(EvalTrace(before, m, k), p) == Filter(before, p)
  {
    TrainTraceShape(epoch, n);
    TrainTraceAppends(before, epoch, n);
    assert forall i :: 0 <= i < |TrainTrace([], epoch, n)| ==> IsBatchStep(TrainTrace([], epoch, n)[i]);
    FilterNone(TrainTrace([], epoch, n), p);
    FilterConcat(before, TrainTrace([], epoch, n), p);
    EvalTraceShape(m, k);
    EvalTraceAppends(before, m, k);
    assert forall i :: 0 <= i < |EvalTrace([], m, k)| ==> IsBatchStep(EvalTrace([], m, k)[i]);
    FilterNone(EvalTrace([], m, k), p);
    FilterConcat(before, EvalTrace([], m, k), p);
  }
}
