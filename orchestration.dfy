/** The reference behaviour of the training orchestrator and of the entry
    point, as functions of what the collaborators answer. */
module Orchestration {
  import opened Common
  import opened Distributed
  import opened Models
  import opened Metrics
  import opened Selection
  import opened Trace

  /** What the collaborators supply for one epoch: the number of training
      batches, the batches this process validates and the other processes'
      totals for the validation meter. */
  datatype EpochData = EpochData(trainBatches: nat, val: seq<Batch>, peers: Totals)

  /** What stays fixed through a training run: the process's context, its
      device type, the student handle, the student checkpoint path and the
      validation, which gives an epoch's result from its data. */
  datatype Setting = Setting(ctx: Context, deviceType: string, student: Model, path: string,
                             validate: EpochData -> Result<real, Error>)

  /** The validation the training run performs: evaluating the student on
      the epoch's validation batches, synchronised with the other
      processes' totals. */
  function Validation(distributed: bool): EpochData -> Result<real, Error> {
    (d: EpochData) => Score(d.val, d.peers, distributed)
  }

  /** The setting of a training run of the entry point. */
  function RunSetting(ctx: Context, deviceType: string, student: Model, path: string): Setting {
    Setting(ctx, deviceType, student, path, Validation(ctx.distributed))
  }

  /** The state of the epoch loop: the best score in memory, the checkpoint
      files, the calls made so far and the error that stopped the loop. */
  datatype LoopState = LoopState(best: real, files: map<string, Checkpoint>, trace: seq<Event>, error: Option<Error>)

  /** The number of epochs `range(start, numEpochs)` visits. */
  function EpochCount(start: int, numEpochs: int): (n: nat)
    ensures start < numEpochs ==> start + n == numEpochs
    ensures start >= numEpochs ==> n == 0
  {
    if start < numEpochs then numEpochs - start else 0
  }

  /** The best score the loop starts from: the one stored in the student
      checkpoint when that file exists, 0.0 otherwise. */
  function InitialBest(files: map<string, Checkpoint>, path: string): real {
    if path in files then files[path].best else 0.0
  }

  /** The loop's state before the first epoch, after the calls `before`;
      an existing checkpoint also restores the optimizer and scheduler. */
  function Initial(st: Setting, files: map<string, Checkpoint>, before: seq<Event>): LoopState {
    LoopState(InitialBest(files, st.path), files, if st.path in files then before + [Resume(st.path)] else before, None)
  }

  /** The calls `before`, then those of one evaluation: the title line when
      there is one and one forward pass per batch through the handle chosen
      for the process. */
  function EvalEvents(before: seq<Event>, title: Option<string>, m: Model, ctx: Context, deviceType: string, n: nat)
    : seq<Event>
  {
    EvalTrace(if title.Some? then before + [Title(title.value)] else before,
              PrepareForEval(m, ctx.distributed, deviceType), n)
  }

  /** The validation result of an epoch. */
  function ValScore(st: Setting, d: EpochData): Result<real, Error> {
    st.validate(d)
  }

  /** One epoch: setup hook, training pass, validation, a checkpoint write of
      the unwrapped student when the score is an improvement on the main
      process, teardown hook. A failed validation stops the epoch there. */
  function EpochStep(st: Setting, s: LoopState, epoch: int, d: EpochData): LoopState {
    var t := EvalEvents(TrainTrace(s.trace + [PreProcess(epoch)], epoch, d.trainBatches),
                        None, st.student, st.ctx, st.deviceType, |d.val|);
    match ValScore(st, d)
    case Err(e) => LoopState(s.best, s.files, t, Some(e))
    case Ok(v) =>
      if Improves(s.best, v, IsMain(st.ctx)) then
        var saved := WithoutDdp(st.student);
        LoopState(v, s.files[st.path := Checkpoint(saved, v)],
                  t + [Save(epoch, saved, v, st.path)] + [PostProcess(epoch)], None)
      else
        LoopState(s.best, s.files, t + [PostProcess(epoch)], None)
  }

  /** The loop over the epochs `start, start + 1, ...` whose data is `es`,
      after the calls `before`, stopping at the first failed epoch. */
  function Run(st: Setting, files: map<string, Checkpoint>, before: seq<Event>, start: int, es: seq<EpochData>)
    : LoopState
    decreases |es|
  {
    if |es| == 0 then Initial(st, files, before)
    else
      var s := Run(st, files, before, start, es[..|es| - 1]);
      if s.error.Some? then s else EpochStep(st, s, start + |es| - 1, es[|es| - 1])
  }

  /** The loop over one more epoch is one more step of the loop. */
  lemma RunStep(st: Setting, files: map<string, Checkpoint>, before: seq<Event>, start: int,
                es: seq<EpochData>, i: nat)
    requires i < |es|
    requires Run(st, files, before, start, es[..i]).error.None?
    ensures Run(st, files, before, start, es[..i + 1])
            == EpochStep(st, Run(st, files, before, start, es[..i]), start + i, es[i])
  {
    assert es[..i + 1][..i] == es[..i];
  }

  /** A failed epoch ends the loop: the epochs after it change nothing. */
  lemma {:induction false} RunStopsAtError(st: Setting, files: map<string, Checkpoint>, before: seq<Event>,
                                           start: int, es: seq<EpochData>, k: nat)
    requires k <= |es|
    requires Run(st, files, before, start, es[..k]).error.Some?
    ensures Run(st, files, before, start, es) == Run(st, files, before, start, es[..k])
    decreases |es|
  {
    if k < |es| {
      var prefix := es[..|es| - 1];
      assert prefix[..k] == es[..k];
      RunStopsAtError(st, files, before, start, prefix, k);
    } else {
      assert es[..k] == es;
    }
  }

  /** A whole training run after the calls `before`: the loop, then the
      barrier when distributed and the clean-up hook. */
  function DistillSpec(st: Setting, files: map<string, Checkpoint>, before: seq<Event>, start: int,
                       es: seq<EpochData>): LoopState
  {
    var s := Run(st, files, before, start, es);
    if s.error.Some? then s
    else s.(trace := (if st.ctx.distributed then s.trace + [Barrier] else s.trace) + [Clean])
  }

  /** The part of a model's configuration the entry point uses, with what
      the official model builder returned for it. */
  datatype ModelConfig = ModelConfig(name: string, ckpt: string, official: Option<Model>)

  /** The command-line switches the entry point branches on. */
  datatype Args = Args(testOnly: bool, studentOnly: bool, startEpoch: int)

  /** What the collaborators of the entry point supply: the model registry,
      the number of epochs, the per-epoch data, the test batches and the other
      processes' totals for the teacher and student evaluations. */
  datatype World = World(registry: map<string, Model>, numEpochs: int, epochs: seq<EpochData>,
                         test: seq<Batch>, teacherPeers: Totals, studentPeers: Totals)

  datatype Outcome = Outcome(trace: seq<Event>, files: map<string, Checkpoint>, error: Option<Error>)

  function TeacherTitle(name: string): string { "[Teacher: " + name + "]" }

  function StudentTitle(name: string): string { "[Student: " + name + "]" }

  /** The training stage of the entry point, after the calls `before`:
      nothing under `test_only`, otherwise a training run followed by the
      strict reload of the unwrapped student from its checkpoint. */
  function TrainStage(before: seq<Event>, ctx: Context, deviceType: string, args: Args, sc: ModelConfig,
                      student: Model, w: World, files: map<string, Checkpoint>): Outcome
  {
    if args.testOnly then Outcome(before, files, None)
    else
      var s := DistillSpec(RunSetting(ctx, deviceType, student, sc.ckpt), files, before, args.startEpoch, w.epochs);
      Outcome(if s.error.None? then s.trace + [LoadWeights(sc.ckpt, WithoutDdp(student))] else s.trace,
              s.files, s.error)
  }

  /** The test stage, after the calls `before`: the teacher unless
      `student_only`, then the student, on the same test batches. */
  function TestStage(before: seq<Event>, ctx: Context, deviceType: string, args: Args, tc: ModelConfig,
                     sc: ModelConfig, teacher: Model, student: Model, w: World, files: map<string, Checkpoint>)
    : Outcome
  {
    var n := |w.test|;
    var afterTeacher :=
      if args.studentOnly then before else EvalEvents(before, Some(TeacherTitle(tc.name)), teacher, ctx, deviceType, n);
    var teacherScore := if args.studentOnly then Ok(0.0) else Score(w.test, w.teacherPeers, ctx.distributed);
    if teacherScore.Err? then Outcome(afterTeacher, files, Some(teacherScore.error))
    else
      var studentScore := Score(w.test, w.studentPeers, ctx.distributed);
      Outcome(EvalEvents(afterTeacher, Some(StudentTitle(sc.name)), student, ctx, deviceType, n), files,
              if studentScore.Err? then Some(studentScore.error) else None)
  }

  /** The entry point, after the calls `before`: build and load both models,
      train unless `test_only`, then test. The first error ends the run. */
  function MainSpec(before: seq<Event>, ctx: Context, deviceType: string, args: Args, tc: ModelConfig,
                    sc: ModelConfig, w: World, files: map<string, Checkpoint>): Outcome
  {
    match GetModel(tc.official, w.registry, tc.name)
    case Err(e) => Outcome(before, files, Some(e))
    case Ok(teacher) =>
      var t0 := before + [LoadWeights(tc.ckpt, teacher)];
      match GetModel(sc.official, w.registry, sc.name)
      case Err(e) => Outcome(t0, files, Some(e))
      case Ok(student) =>
        var train := TrainStage(t0 + [LoadWeights(sc.ckpt, student)], ctx, deviceType, args, sc, student, w, files);
        if train.error.Some? then train
        else TestStage(train.trace, ctx, deviceType, args, tc, sc, teacher, student, w, train.files)
  }
}
