/** One process of a distillation run: the collaborator calls it makes, the
    library-wide thread count it changes and the checkpoint files it
    writes. */
module Runtime {
  import opened Common
  import opened Distributed
  import opened Models
  import opened Metrics
  import opened Trace
  import opened Orchestration

  class Process {
    /** The distributed context, fixed for the life of the process. */
    const ctx: Context
    /** The type of the device given on the command line. */
    const deviceType: string
    /** The numeric library's intra-op thread count. */
    var numThreads: nat
    /** The checkpoint files, by path. */
    var files: map<string, Checkpoint>
    /** The collaborator calls made so far, in order. */
    var trace: seq<Event>

    constructor (ctx: Context, deviceType: string, numThreads: nat, files: map<string, Checkpoint>)
      ensures this.ctx == ctx && this.deviceType == deviceType
      ensures this.numThreads == numThreads && this.files == files && trace == []
    {
      this.ctx := ctx;
      this.deviceType := deviceType;
      this.numThreads := numThreads;
      this.files := files;
      trace := [];
    }

    /** One training pass: for every batch, a loss from the distillation box
        and then a parameter update with it. */
    method DistillOneEpoch(epoch: int, numBatches: nat)
      modifies this
      ensures trace == TrainTrace(old(trace), epoch, numBatches)
      ensures numThreads == old(numThreads) && files == old(files)
    {
      var b := 0;
      while b < numBatches
        invariant b <= numBatches
        invariant trace == TrainTrace(old(trace), epoch, b)
        invariant numThreads == old(numThreads) && files == old(files)
      {
        trace := trace + [Loss(epoch, b)];
        trace := trace + [Update(epoch, b)];
        b := b + 1;
      }
    }

    /** Evaluation: wrap the model as the process requires, log the title,
        run every batch with one thread while tallying top-1 accuracy weighted
        by batch size, synchronise, restore the thread count and return the
        global average. The errors of reading the meter leave the thread count
        at one, as the restore comes after that read. */
    method Evaluate(model: Model, loader: seq<Batch>, peers: Totals, title: Option<string>)
      returns (r: Result<real, Error>)
      modifies this
      ensures trace == EvalEvents(old(trace), title, model, ctx, deviceType, |loader|)
      ensures r == Score(loader, peers, ctx.distributed)
      ensures numThreads == if r.Err? then 1 else old(numThreads)
      ensures files == old(files)
    {
      var m := model;
      if ctx.distributed {
        m := Wrapped(DistributedDataParallel, m);
      } else if StartsWith(deviceType, "cuda") {
        m := Wrapped(DataParallel, m);
      }
      assert m == PrepareForEval(model, ctx.distributed, deviceType);
      if title.Some? {
        trace := trace + [Title(title.value)];
      }
      ghost var titled := trace;
      var savedThreads := numThreads;
      numThreads := 1;
      var acc1 := Totals(0, 0.0);
      var i := 0;
      while i < |loader|
        invariant i <= |loader|
        invariant trace == EvalTrace(titled, m, i)
        invariant acc1 == Tally(loader[..i])
        invariant numThreads == 1 && files == old(files)
      {
        trace := trace + [Forward(m, numThreads)];
        acc1 := Add(acc1, Weighted(loader[i]));
        assert loader[..i + 1][..i] == loader[..i];
        i := i + 1;
      }
      assert loader[..i] == loader;
      var synced := Synced(acc1, peers, ctx.distributed);
      if i == 0 {
        // the acc1 meter was never created
        r := Err(MeterNotFound);
      } else if synced.count == 0 {
        r := Err(ZeroDivision);
      } else {
        numThreads := savedThreads;
        r := Ok(synced.total / synced.count as real);
      }
    }

    /** One epoch of the loop, entered in loop state `s`: setup hook, training
        pass, validation, a checkpoint of the unwrapped student when the main
        process sees a strictly better score, teardown hook. */
    method DistillEpoch(student: Model, studentWithoutDdp: Model, path: string, epoch: int, d: EpochData,
                        bestSoFar: real, ghost s: LoopState)
      returns (val: Result<real, Error>, best: real)
      requires studentWithoutDdp == WithoutDdp(student)
      requires s.error.None? && trace == s.trace && files == s.files && bestSoFar == s.best
      modifies this
      ensures var next := EpochStep(RunSetting(ctx, deviceType, student, path), s, epoch, d);
              trace == next.trace && files == next.files && best == next.best
              && next.error == (if val.Err? then Some(val.error) else None)
      ensures val.Err? ==> val.error.IsEvalError()
      ensures numThreads == if val.Err? then 1 else old(numThreads)
    {
      ghost var st := RunSetting(ctx, deviceType, student, path);
      best := bestSoFar;
      trace := trace + [PreProcess(epoch)];
      DistillOneEpoch(epoch, d.trainBatches);
      val := Evaluate(student, d.val, d.peers, None);
      assert val == ValScore(st, d);
      if val.Ok? {
        if val.value > best && IsMain(ctx) {
          best := val.value;
          files := files[path := Checkpoint(studentWithoutDdp, best)];
          trace := trace + [Save(epoch, studentWithoutDdp, best, path)];
        }
        trace := trace + [PostProcess(epoch)];
      }
    }

    /** A training run: restore the best score from the student checkpoint
        when it exists, run the epochs from `startEpoch` up to `numEpochs`,
        then wait at the barrier when distributed and clean up. `best` is the
        best score the run ends with in memory. */
    method Distill(student: Model, startEpoch: int, numEpochs: int, es: seq<EpochData>, path: string)
      returns (err: Option<Error>, ghost best: real)
      requires |es| == EpochCount(startEpoch, numEpochs)
      modifies this
      ensures var s := DistillSpec(RunSetting(ctx, deviceType, student, path), old(files), old(trace), startEpoch, es);
              trace == s.trace && files == s.files && err == s.error && best == s.best
      ensures numThreads == if err.Some? then 1 else old(numThreads)
      ensures err.Some? ==> err.value.IsEvalError()
    {
      ghost var st := RunSetting(ctx, deviceType, student, path);
      var bestAccuracy := 0.0;
      if path in files {
        bestAccuracy := files[path].best;
        trace := trace + [Resume(path)];
      }
      var studentWithoutDdp := WithoutDdp(student);
      var epoch, i := startEpoch, 0;
      assert es[..0] == [];
      ghost var state := Run(st, old(files), old(trace), startEpoch, es[..0]);
      while epoch < numEpochs
        invariant epoch == startEpoch + i && i <= |es|
        invariant startEpoch < numEpochs ==> epoch <= numEpochs
        invariant state == Run(st, old(files), old(trace), startEpoch, es[..i])
        invariant state.error.None? && bestAccuracy == state.best
        invariant trace == state.trace && files == state.files
        invariant numThreads == old(numThreads)
      {
        RunStep(st, old(files), old(trace), startEpoch, es, i);
        var val;
        val, bestAccuracy := DistillEpoch(student, studentWithoutDdp, path, epoch, es[i], bestAccuracy, state);
        state := EpochStep(st, state, epoch, es[i]);
        if val.Err? {
          RunStopsAtError(st, old(files), old(trace), startEpoch, es, i + 1);
          return Some(val.error), bestAccuracy;
        }
        epoch, i := epoch + 1, i + 1;
      }
      assert es[..i] == es;
      if ctx.distributed {
        trace := trace + [Barrier];
      }
      trace := trace + [Clean];
      err, best := None, bestAccuracy;
    }

    /** The training stage of the entry point: unless `test_only`, a
        training run followed by the strict reload of the unwrapped student
        from the checkpoint the run left. */
    method TrainStudent(args: Args, sc: ModelConfig, student: Model, w: World) returns (err: Option<Error>)
      requires |w.epochs| == EpochCount(args.startEpoch, w.numEpochs)
      modifies this
      ensures var o := TrainStage(old(trace), ctx, deviceType, args, sc, student, w, old(files));
              trace == o.trace && files == o.files && err == o.error
      ensures err.Some? ==> err.value.IsEvalError()
      ensures numThreads == if err.Some? then 1 else old(numThreads)
    {
      err := None;
      if !args.testOnly {
        ghost var best;
        err, best := Distill(student, args.startEpoch, w.numEpochs, w.epochs, sc.ckpt);
        if err.None? {
          trace := trace + [LoadWeights(sc.ckpt, WithoutDdp(student))];
        }
      }
    }

    /** The test stage of the entry point: the teacher unless
        `student_only`, then the student, on the test batches. */
    method TestModels(args: Args, tc: ModelConfig, sc: ModelConfig, teacher: Model, student: Model, w: World)
      returns (err: Option<Error>)
      modifies this
      ensures var o := TestStage(old(trace), ctx, deviceType, args, tc, sc, teacher, student, w, old(files));
              trace == o.trace && files == o.files && err == o.error
      ensures err.Some? ==> err.value.IsEvalError()
      ensures numThreads == if err.Some? then 1 else old(numThreads)
    {
      if !args.studentOnly {
        var r := Evaluate(teacher, w.test, w.teacherPeers, Some(TeacherTitle(tc.name)));
        if r.Err? {
          return Some(r.error);
        }
      }
      var r := Evaluate(student, w.test, w.studentPeers, Some(StudentTitle(sc.name)));
      err := if r.Err? then Some(r.error) else None;
    }

    /** The entry point after argument parsing and distributed set-up: build
        and load the teacher and the student, then the training stage, then
        the test stage; the first error ends the run. */
    method RunMain(args: Args, tc: ModelConfig, sc: ModelConfig, w: World) returns (err: Option<Error>)
      requires |w.epochs| == EpochCount(args.startEpoch, w.numEpochs)
      modifies this
      ensures var o := MainSpec(old(trace), ctx, deviceType, args, tc, sc, w, old(files));
              trace == o.trace && files == o.files && err == o.error
      ensures numThreads == if err.Some? && err.value.IsEvalError() then 1 else old(numThreads)
    {
      var teacherOr := GetModel(tc.official, w.registry, tc.name);
      if teacherOr.Err? {
        assert !teacherOr.error.IsEvalError();
        return Some(teacherOr.error);
      }
      var teacher := teacherOr.value;
      trace := trace + [LoadWeights(tc.ckpt, teacher)];
      var studentOr := GetModel(sc.official, w.registry, sc.name);
      if studentOr.Err? {
        assert !studentOr.error.IsEvalError();
        return Some(studentOr.error);
      }
      var student := studentOr.value;
      trace := trace + [LoadWeights(sc.ckpt, student)];
      err := TrainStudent(args, sc, student, w);
      if err.None? {
        err := TestModels(args, tc, sc, teacher, student, w);
      }
    }
  }
}
