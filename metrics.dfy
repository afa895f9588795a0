/** The accuracy meter `evaluate` fills batch by batch, its cross-process
    synchronisation and the score read from it. */
module Metrics {
  import opened Common

  /** One evaluated batch: its top-1 accuracy and its number of samples. */
  datatype Batch = Batch(acc1: real, size: nat)

  /** A meter's running sample count and running weighted sum: the pair the
      synchronisation exchanges between processes. */
  datatype Totals = Totals(count: nat, total: real)

  function Add(a: Totals, b: Totals): Totals {
    Totals(a.count + b.count, a.total + b.total)
  }

  /** What one meter update with value v and weight n adds: n to the count
      and v * n to the sum. */
  function Weighted(b: Batch): Totals {
    Totals(b.size, b.acc1 * b.size as real)
  }

  /** The meter after one update per batch of `bs`, in order. */
  function Tally(bs: seq<Batch>): Totals
    decreases |bs|
  {
    if |bs| == 0 then Totals(0, 0.0)
    else Add(Tally(bs[..|bs| - 1]), Weighted(bs[|bs| - 1]))
  }

  /** Synchronisation between processes: in a distributed run the local
      totals are replaced by the sums over all processes (`peers` holds the
      other processes' sum); otherwise it does nothing. */
  function Synced(local: Totals, peers: Totals, distributed: bool): Totals {
    if distributed then Add(local, peers) else local
  }

  /** The global average of a meter: the running sum over the running count,
      which cannot be taken over a count of zero. */
  function GlobalAvg(t: Totals): (r: Result<real, Error>)
    ensures r.Err? <==> t.count == 0
    ensures r.Err? ==> r.error == ZeroDivision
  {
    if t.count == 0 then Err(ZeroDivision) else Ok(t.total / t.count as real)
  }

  /** The score `evaluate` returns for the batches this process evaluated:
      with no batch the `acc1` meter never exists and reading it fails;
      otherwise it is the global average of the synchronised meter. */
  function Score(bs: seq<Batch>, peers: Totals, distributed: bool): (r: Result<real, Error>)
    ensures r.Err? <==> |bs| == 0 || Synced(Tally(bs), peers, distributed).count == 0
    ensures r.Err? ==> r.error.IsEvalError()
  {
    if |bs| == 0 then Err(MeterNotFound)
    else GlobalAvg(Synced(Tally(bs), peers, distributed))
  }

  /** Tallying is additive over concatenated batch sequences. */
  lemma {:induction false} TallyConcat(a: seq<Batch>, b: seq<Batch>)
    ensures Tally(a + b) == Add(Tally(a), Tally(b))
    decreases |b|
  {
    if |b| == 0 {
      assert a + b == a;
    } else {
      assert (a + b)[..|a + b| - 1] == a + b[..|b| - 1];
      TallyConcat(a, b[..|b| - 1]);
    }
  }

  /** After synchronisation a process's score is the global average over the
      union of every process's batches. */
  lemma SyncedScoreIsUnion(local: seq<Batch>, others: seq<Batch>)
    requires |local| > 0
    ensures Score(local, Tally(others), true) == GlobalAvg(Tally(local + others))
  {
    TallyConcat(local, others);
  }

  /** The batches of all processes, process by process. */
  function Flatten(procs: seq<seq<Batch>>): seq<Batch>
    decreases |procs|
  {
    if |procs| == 0 then [] else Flatten(procs[..|procs| - 1]) + procs[|procs| - 1]
  }

  /** The batches of every process but process `i`. */
  function Others(procs: seq<seq<Batch>>, i: nat): seq<Batch>
    requires i < |procs|
  {
    Flatten(procs[..i]) + Flatten(procs[i + 1..])
  }

  lemma {:induction false} FlattenConcat(a: seq<seq<Batch>>, b: seq<seq<Batch>>)
    ensures Flatten(a + b) == Flatten(a) + Flatten(b)
    decreases |b|
  {
    if |b| == 0 {
      assert a + b == a;
    } else {
      assert (a + b)[..|a + b| - 1] == a + b[..|b| - 1];
      FlattenConcat(a, b[..|b| - 1]);
    }
  }

  /** In a distributed run where every process synchronises with all the
      others, every process that evaluated some batch returns the global
      average over all processes' batches, so all of them agree. */
  lemma ProcessesAgree(procs: seq<seq<Batch>>, i: nat)
    requires i < |procs| && |procs[i]| > 0
    ensures Score(procs[i], Tally(Others(procs, i)), true) == GlobalAvg(Tally(Flatten(procs)))
  {
    var pre, mine, post := procs[..i], procs[i], procs[i + 1..];
    var fpre, fpost := Flatten(pre), Flatten(post);
    assert Flatten(procs) == fpre + mine + fpost by {
      assert procs == pre + [mine] + post;
      FlattenConcat(pre + [mine], post);
      FlattenConcat(pre, [mine]);
      assert [mine][..0] == [];
    }
    var ta, tm, tb := Tally(fpre), Tally(mine), Tally(fpost);
    assert Tally(fpre + mine + fpost) == Add(Add(ta, tm), tb) by {
      TallyConcat(fpre + mine, fpost);
      TallyConcat(fpre, mine);
    }
    assert Tally(Others(procs, i)) == Add(ta, tb) by {
      TallyConcat(fpre, fpost);
    }
    assert Add(tm, Add(ta, tb)) == Add(Add(ta, tm), tb);
  }

  /** The weighted sum stays between the smallest and largest batch
      accuracy times the sample count. */
  lemma {:induction false} TallyBounds(bs: seq<Batch>, lo: real, hi: real)
    requires forall i :: 0 <= i < |bs| ==> lo <= bs[i].acc1 <= hi
    ensures Within(Tally(bs), lo, hi)
    decreases |bs|
  {
    if |bs| > 0 {
      var prefix, b := bs[..|bs| - 1], bs[|bs| - 1];
      TallyBounds(prefix, lo, hi);
      WeightedBounds(b, lo, hi);
      AddBounds(Tally(prefix), Weighted(b), lo, hi);
    }
  }

  /** The meter's sum lies between `lo` and `hi` times its count. */
  predicate Within(t: Totals, lo: real, hi: real) {
    lo * t.count as real <= t.total <= hi * t.count as real
  }

  /** Adding two meters whose averages lie in [lo, hi] keeps the average
      there. */
  lemma AddBounds(a: Totals, b: Totals, lo: real, hi: real)
    requires Within(a, lo, hi) && Within(b, lo, hi)
    ensures Within(Add(a, b), lo, hi)
  {
    var c1, c2 := a.count as real, b.count as real;
    assert Add(a, b).count as real == c1 + c2;
    assert lo * (c1 + c2) == lo * c1 + lo * c2;
    assert hi * (c1 + c2) == hi * c1 + hi * c2;
  }

  /** A non-distributed score is a weighted mean of the batch accuracies, so
      it lies within their range. */
  lemma ScoreWithinRange(bs: seq<Batch>, peers: Totals, lo: real, hi: real)
    requires forall i :: 0 <= i < |bs| ==> lo <= bs[i].acc1 <= hi
    requires Score(bs, peers, false).Ok?
    ensures lo <= Score(bs, peers, false).value <= hi
  {
    TallyBounds(bs, lo, hi);
    var t := Tally(bs);
    assert Score(bs, peers, false) == GlobalAvg(t);
    QuotientBounds(t.total, t.count as real, lo, hi);
  }

  lemma WeightedBounds(b: Batch, lo: real, hi: real)
    requires lo <= b.acc1 <= hi
    ensures Within(Weighted(b), lo, hi)
  {
    assert (b.acc1 - lo) * b.size as real >= 0.0;
    assert (hi - b.acc1) * b.size as real >= 0.0;
  }

  lemma QuotientBounds(total: real, count: real, lo: real, hi: real)
    requires count > 0.0
    requires lo * count <= total <= hi * count
    ensures lo <= total / count <= hi
  {
    var q := total / count;
    assert q * count == total;
  }
}
