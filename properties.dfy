/** What the reference behaviour of the orchestrator promises: the best
    score, the checkpoint writes, the epochs visited, the files left, the end
    of training and the stages of the entry point. */
module Properties {
  import opened Common
  import opened Distributed
  import opened Models
  import opened Metrics
  import opened Selection
  import opened Trace
  import opened Orchestration

  /** Every epoch's validation produces a score. */
  predicate AllValid(st: Setting, es: seq<EpochData>) {
    forall k :: 0 <= k < |es| ==> ValScore(st, es[k]).Ok?
  }

  /** The validation scores of the epochs, in epoch order. */
  function Scores(st: Setting, es: seq<EpochData>): (ss: seq<real>)
    requires AllValid(st, es)
    ensures |ss| == |es|
    decreases |es|
  {
    if |es| == 0 then [] else Scores(st, es[..|es| - 1]) + [ValScore(st, es[|es| - 1]).value]
  }

  /** The scores are the epochs' validation results, epoch by epoch. */
  lemma {:induction false} ScoresAreValidations(st: Setting, es: seq<EpochData>)
    requires AllValid(st, es)
    ensures forall k :: 0 <= k < |es| ==> Scores(st, es)[k] == ValScore(st, es[k]).value
    decreases |es|
  {
    if |es| > 0 {
      ScoresAreValidations(st, es[..|es| - 1]);
    }
  }

  /** The checkpoint writes a run with scores `ss` makes, stated through
      records: epoch `start + k` writes the unwrapped student with its score
      exactly when this is the main process and the score beats the
      starting best and every earlier score. */
  function SaveSchedule(st: Setting, start: int, b0: real, ss: seq<real>): seq<Event>
    decreases |ss|
  {
    if |ss| == 0 then [] else SaveSchedule(st, start, b0, ss[..|ss| - 1]) + RecordSave(st, start, b0, ss)
  }

  /** The checkpoint write, if any, that the last of the scores `ss` calls
      for under the record rule. */
  function RecordSave(st: Setting, start: int, b0: real, ss: seq<real>): seq<Event> {
    if |ss| > 0 && IsMain(st.ctx) && IsRecord(b0, ss)
    then [Save(start + |ss| - 1, WithoutDdp(st.student), ss[|ss| - 1], st.path)] else []
  }

  /** One more score adds its checkpoint write, if any, at the end. */
  lemma ScheduleSnoc(st: Setting, start: int, b0: real, prev: seq<real>, v: real)
    ensures SaveSchedule(st, start, b0, prev + [v])
            == SaveSchedule(st, start, b0, prev)
               + (if IsMain(st.ctx) && IsRecord(b0, prev + [v])
                  then [Save(start + |prev|, WithoutDdp(st.student), v, st.path)] else [])
  {
    assert (prev + [v])[..|prev|] == prev;
  }

  /** A run writes as many checkpoints as its scores hold records on the
      main process, and none elsewhere. */
  lemma {:induction false} ScheduleLength(st: Setting, start: int, b0: real, ss: seq<real>)
    ensures |SaveSchedule(st, start, b0, ss)| == if IsMain(st.ctx) then RecordCount(b0, ss) else 0
    decreases |ss|
  {
    if |ss| > 0 {
      ScheduleLength(st, start, b0, ss[..|ss| - 1]);
    }
  }

  /** The setup hooks of the epochs `start` to `start + n - 1`, in order. */
  function Epochs(start: int, n: nat): (r: seq<Event>)
    ensures |r| == n && forall i :: 0 <= i < n ==> r[i] == PreProcess(start + i)
  {
    seq(n, i => PreProcess(start + i))
  }

  /** The checkpoint write an epoch with score `v` makes after the loop
      state `s`: the unwrapped student with its score when the score
      improves on the best so far on the main process, nothing otherwise. */
  function DueSave(st: Setting, s: LoopState, epoch: int, v: real): seq<Event> {
    if Improves(s.best, v, IsMain(st.ctx)) then [Save(epoch, WithoutDdp(st.student), v, st.path)] else []
  }

  /** What an epoch does after its validation pass: nothing when the
      validation failed, otherwise the checkpoint write when it is due and
      then the teardown hook. */
  function Closing(st: Setting, s: LoopState, epoch: int, d: EpochData): seq<Event> {
    match ValScore(st, d)
    case Err(_) => []
    case Ok(v) => DueSave(st, s, epoch, v) + [PostProcess(epoch)]
  }

  /** The calls of one epoch, in their fixed order: setup hook, a loss and
      an update per training batch, a single-threaded forward pass per
      validation batch through the evaluation handle, then the closing. */
  lemma EpochShape(st: Setting, s: LoopState, epoch: int, d: EpochData)
    ensures EpochStep(st, s, epoch, d).trace
            == s.trace + [PreProcess(epoch)] + TrainTrace([], epoch, d.trainBatches)
               + EvalTrace([], PrepareForEval(st.student, st.ctx.distributed, st.deviceType), |d.val|)
               + Closing(st, s, epoch, d)
  {
    var m := PrepareForEval(st.student, st.ctx.distributed, st.deviceType);
    var train := TrainTrace(s.trace + [PreProcess(epoch)], epoch, d.trainBatches);
    TrainTraceAppends(s.trace + [PreProcess(epoch)], epoch, d.trainBatches);
    EvalTraceAppends(train, m, |d.val|);
  }

  /** A filter that keeps no per-batch event sees, of one epoch, only its
      setup hook and its closing. */
  lemma StepFilter(p: Event -> bool, st: Setting, s: LoopState, epoch: int, d: EpochData)
    requires forall e :: IsBatchStep(e) ==> !p(e)
    ensures Filter(EpochStep(st, s, epoch, d).trace, p)
            == Filter(s.trace, p) + Filter([PreProcess(epoch)], p) + Filter(Closing(st, s, epoch, d), p)
  {
    var m := PrepareForEval(st.student, st.ctx.distributed, st.deviceType);
    var train := TrainTrace(s.trace + [PreProcess(epoch)], epoch, d.trainBatches);
    var t := EvalTrace(train, m, |d.val|);
    assert EpochStep(st, s, epoch, d).trace == t + Closing(st, s, epoch, d);
    FilterConcat(t, Closing(st, s, epoch, d), p);
    PassesAreInvisible(p, s.trace + [PreProcess(epoch)], epoch, d.trainBatches, m, 0);
    PassesAreInvisible(p, train, epoch, 0, m, |d.val|);
    FilterConcat(s.trace, [PreProcess(epoch)], p);
  }

  /** Of the closing of a validated epoch, the writes filter keeps the
      checkpoint write when it is due, and the setup-hook filter nothing. */
  lemma ClosingFilters(st: Setting, s: LoopState, epoch: int, d: EpochData)
    requires ValScore(st, d).Ok?
    ensures Filter(Closing(st, s, epoch, d), IsSave) == DueSave(st, s, epoch, ValScore(st, d).value)
    ensures Filter(Closing(st, s, epoch, d), IsPreProcess) == []
  {
    var save := DueSave(st, s, epoch, ValScore(st, d).value);
    assert Closing(st, s, epoch, d) == save + [PostProcess(epoch)];
    FilterSnoc(save, PostProcess(epoch), IsSave);
    FilterSnoc(save, PostProcess(epoch), IsPreProcess);
    if |save| == 1 {
      FilterSnoc([], save[0], IsSave);
      FilterSnoc([], save[0], IsPreProcess);
    }
  }

  /** Of a validated epoch, the writes filter keeps the checkpoint write
      when the score improves on the best so far on the main process. */
  lemma StepSaves(st: Setting, s: LoopState, epoch: int, d: EpochData)
    requires ValScore(st, d).Ok?
    ensures Filter(EpochStep(st, s, epoch, d).trace, IsSave)
            == Filter(s.trace, IsSave) + DueSave(st, s, epoch, ValScore(st, d).value)
  {
    var c := Closing(st, s, epoch, d);
    assert Filter(EpochStep(st, s, epoch, d).trace, IsSave)
           == Filter(s.trace, IsSave) + Filter([PreProcess(epoch)], IsSave) + Filter(c, IsSave) by {
      StepFilter(IsSave, st, s, epoch, d);
    }
    assert Filter([PreProcess(epoch)], IsSave) == [] by {
      FilterSnoc([], PreProcess(epoch), IsSave);
    }
    ClosingFilters(st, s, epoch, d);
  }

  /** Of a validated epoch, the setup-hook filter keeps its one setup hook. */
  lemma StepVisits(st: Setting, s: LoopState, epoch: int, d: EpochData)
    requires ValScore(st, d).Ok?
    ensures Filter(EpochStep(st, s, epoch, d).trace, IsPreProcess) == Filter(s.trace, IsPreProcess) + [PreProcess(epoch)]
  {
    var c := Closing(st, s, epoch, d);
    assert Filter(EpochStep(st, s, epoch, d).trace, IsPreProcess)
           == Filter(s.trace, IsPreProcess) + Filter([PreProcess(epoch)], IsPreProcess) + Filter(c, IsPreProcess) by {
      StepFilter(IsPreProcess, st, s, epoch, d);
    }
    assert Filter([PreProcess(epoch)], IsPreProcess) == [PreProcess(epoch)] by {
      FilterSnoc([], PreProcess(epoch), IsPreProcess);
    }
    ClosingFilters(st, s, epoch, d);
  }

  /** The predicate keeps none of the events the epoch loop makes. */
  ghost predicate IgnoresLoop(p: Event -> bool) {
    forall e: Event :: (e.Resume? || e.PreProcess? || IsBatchStep(e) || e.Save? || e.PostProcess?) ==> !p(e)
  }

  /** A filter that ignores the loop's events sees nothing of an epoch. */
  lemma StepHidden(p: Event -> bool, st: Setting, s: LoopState, epoch: int, d: EpochData)
    requires IgnoresLoop(p)
    ensures Filter(EpochStep(st, s, epoch, d).trace, p) == Filter(s.trace, p)
  {
    StepFilter(p, st, s, epoch, d);
    FilterSnoc([], PreProcess(epoch), p);
    var c := Closing(st, s, epoch, d);
    assert Filter(c, p) == [] by {
      if ValScore(st, d).Ok? {
        FilterSnoc(c[..|c| - 1], PostProcess(epoch), p);
        if |c| == 2 {
          FilterSnoc([], c[0], p);
        }
      }
    }
  }

  /** A loop whose every validation succeeds ends without error, with the
      best score the selection arrives at from the stored best over the
      epochs' scores. */
  lemma {:induction false} RunBest(st: Setting, files: map<string, Checkpoint>, before: seq<Event>,
                                   start: int, es: seq<EpochData>)
    requires AllValid(st, es)
    ensures Run(st, files, before, start, es).error.None?
    ensures Run(st, files, before, start, es).best
            == BestAfter(InitialBest(files, st.path), Scores(st, es), IsMain(st.ctx))
    decreases |es|
  {
    if |es| > 0 {
      var prefix := es[..|es| - 1];
      assert AllValid(st, prefix);
      RunBest(st, files, before, start, prefix);
      assert Scores(st, es)[..|es| - 1] == Scores(st, prefix);
    }
  }

  /** The loop fails exactly when some epoch's validation fails. */
  lemma {:induction false} RunFailsIff(st: Setting, files: map<string, Checkpoint>, before: seq<Event>,
                                       start: int, es: seq<EpochData>)
    ensures Run(st, files, before, start, es).error.Some? <==> !AllValid(st, es)
    decreases |es|
  {
    if |es| > 0 {
      var prefix := es[..|es| - 1];
      RunFailsIff(st, files, before, start, prefix);
      assert AllValid(st, es) <==> AllValid(st, prefix) && ValScore(st, es[|es| - 1]).Ok?;
    }
  }

  /** An epoch whose validation fails after valid ones ends the loop with
      that error, right after its forward passes: it writes no checkpoint,
      leaves the best as it was and skips its teardown hook. */
  lemma RunFailsAt(st: Setting, files: map<string, Checkpoint>, before: seq<Event>, start: int,
                   es: seq<EpochData>, k: nat)
    requires k < |es| && AllValid(st, es[..k]) && ValScore(st, es[k]).Err?
    ensures var s := Run(st, files, before, start, es[..k]);
            var r := Run(st, files, before, start, es);
            r.error == Some(ValScore(st, es[k]).error) && r.best == s.best && r.files == s.files
            && r.trace == s.trace + [PreProcess(start + k)] + TrainTrace([], start + k, es[k].trainBatches)
                          + EvalTrace([], PrepareForEval(st.student, st.ctx.distributed, st.deviceType), |es[k].val|)
  {
    RunBest(st, files, before, start, es[..k]);
    RunStep(st, files, before, start, es, k);
    var s := Run(st, files, before, start, es[..k]);
    EpochShape(st, s, start + k, es[k]);
    RunStopsAtError(st, files, before, start, es, k + 1);
  }

  /** The record rule's schedule grows by the last epoch's write. */
  lemma ScheduleGrows(st: Setting, start: int, b0: real, es: seq<EpochData>)
    requires |es| > 0 && AllValid(st, es)
    ensures SaveSchedule(st, start, b0, Scores(st, es))
            == SaveSchedule(st, start, b0, Scores(st, es[..|es| - 1])) + RecordSave(st, start, b0, Scores(st, es))
  {
    var prefix := es[..|es| - 1];
    assert AllValid(st, prefix);
    var v := ValScore(st, es[|es| - 1]).value;
    var prev := Scores(st, prefix);
    assert Scores(st, es) == prev + [v];
    ScheduleSnoc(st, start, b0, prev, v);
  }

  /** The record rule's write for the last epoch is the write the loop
      makes for it. */
  lemma RecordIsDue(st: Setting, files: map<string, Checkpoint>, before: seq<Event>, start: int,
                    es: seq<EpochData>)
    requires |es| > 0 && AllValid(st, es)
    ensures RecordSave(st, start, InitialBest(files, st.path), Scores(st, es))
            == DueSave(st, Run(st, files, before, start, es[..|es| - 1]), start + |es| - 1,
                       ValScore(st, es[|es| - 1]).value)
  {
    var b0 := InitialBest(files, st.path);
    var prefix := es[..|es| - 1];
    assert AllValid(st, prefix);
    var ss := Scores(st, es);
    assert ss[..|ss| - 1] == Scores(st, prefix);
    assert ss[|ss| - 1] == ValScore(st, es[|es| - 1]).value;
    RunBest(st, files, before, start, prefix);
    ImprovesIffRecord(b0, ss, IsMain(st.ctx));
  }

  /** The loop's writes grow by exactly the last epoch's write under the
      record rule. */
  lemma RunSavesGrow(st: Setting, files: map<string, Checkpoint>, before: seq<Event>, start: int,
                     es: seq<EpochData>)
    requires |es| > 0 && AllValid(st, es)
    ensures Filter(Run(st, files, before, start, es).trace, IsSave)
            == Filter(Run(st, files, before, start, es[..|es| - 1]).trace, IsSave)
               + RecordSave(st, start, InitialBest(files, st.path), Scores(st, es))
  {
    var prefix := es[..|es| - 1];
    assert AllValid(st, prefix);
    var epoch, d := start + |es| - 1, es[|es| - 1];
    var s := Run(st, files, before, start, prefix);
    var r := Run(st, files, before, start, es);
    assert r == EpochStep(st, s, epoch, d) by {
      RunBest(st, files, before, start, prefix);
    }
    StepSaves(st, s, epoch, d);
    RecordIsDue(st, files, before, start, es);
  }

  /** The checkpoint writes of a loop whose validations all succeed are
      exactly the records of its scores on the main process. */
  lemma {:induction false} RunSaves(st: Setting, files: map<string, Checkpoint>, before: seq<Event>,
                                    start: int, es: seq<EpochData>)
    requires AllValid(st, es)
    ensures Filter(Run(st, files, before, start, es).trace, IsSave)
            == Filter(before, IsSave) + SaveSchedule(st, start, InitialBest(files, st.path), Scores(st, es))
    decreases |es|
  {
    if |es| == 0 {
      FilterSnoc(before, Resume(st.path), IsSave);
    } else {
      var prefix := es[..|es| - 1];
      assert AllValid(st, prefix);
      ScheduleGrows(st, start, InitialBest(files, st.path), es);
      RunSavesGrow(st, files, before, start, es);
      RunSaves(st, files, before, start, prefix);
    }
  }

  /** A loop whose validations all succeed runs the setup hook of every
      epoch from `start` on, once each and in order. */
  lemma {:induction false} RunVisits(st: Setting, files: map<string, Checkpoint>, before: seq<Event>,
                                     start: int, es: seq<EpochData>)
    requires AllValid(st, es)
    ensures Filter(Run(st, files, before, start, es).trace, IsPreProcess)
            == Filter(before, IsPreProcess) + Epochs(start, |es|)
    decreases |es|
  {
    if |es| == 0 {
      FilterSnoc(before, Resume(st.path), IsPreProcess);
    } else {
      var prefix := es[..|es| - 1];
      assert Epochs(start, |es|) == Epochs(start, |prefix|) + [PreProcess(start + |es| - 1)];
      assert AllValid(st, prefix);
      var s := Run(st, files, before, start, prefix);
      var epoch, d := start + |es| - 1, es[|es| - 1];
      var r := Run(st, files, before, start, es);
      assert r == EpochStep(st, s, epoch, d) by {
        RunBest(st, files, before, start, prefix);
      }
      assert Filter(r.trace, IsPreProcess) == Filter(s.trace, IsPreProcess) + [PreProcess(epoch)] by {
        StepVisits(st, s, epoch, d);
      }
      RunVisits(st, files, before, start, prefix);
    }
  }

  /** Off the main process a loop writes nothing and its best stays the
      stored one, whatever the scores. */
  lemma {:induction false} RunNonMain(st: Setting, files: map<string, Checkpoint>, before: seq<Event>,
                                      start: int, es: seq<EpochData>)
    requires !IsMain(st.ctx)
    ensures var s := Run(st, files, before, start, es);
            s.files == files && s.best == InitialBest(files, st.path)
            && Filter(s.trace, IsSave) == Filter(before, IsSave)
    decreases |es|
  {
    if |es| == 0 {
      FilterSnoc(before, Resume(st.path), IsSave);
    } else {
      var prefix := es[..|es| - 1];
      RunNonMain(st, files, before, start, prefix);
      var s := Run(st, files, before, start, prefix);
      var epoch, d := start + |es| - 1, es[|es| - 1];
      if s.error.None? && ValScore(st, d).Ok? {
        StepSaves(st, s, epoch, d);
      } else if s.error.None? {
        StepFilter(IsSave, st, s, epoch, d);
        FilterSnoc([], PreProcess(epoch), IsSave);
      }
    }
  }

  /** The checkpoint files a loop leaves: every other path as it was, the
      student checkpoint kept once it exists, holding the best score the
      loop ends with in memory, and holding either what it held before or
      the unwrapped student. */
  lemma {:induction false} RunStore(st: Setting, files: map<string, Checkpoint>, before: seq<Event>,
                                    start: int, es: seq<EpochData>)
    ensures var s := Run(st, files, before, start, es);
            (forall p :: p != st.path ==> (p in s.files <==> p in files))
            && (forall p :: p != st.path && p in files ==> s.files[p] == files[p])
            && (st.path in files ==> st.path in s.files)
            && (st.path in s.files ==> s.files[st.path].best == s.best)
            && (st.path in s.files && s.files[st.path].model != WithoutDdp(st.student)
                ==> st.path in files && s.files[st.path] == files[st.path])
    decreases |es|
  {
    if |es| > 0 {
      RunStore(st, files, before, start, es[..|es| - 1]);
    }
  }

  /** A filter that ignores the loop's events sees nothing of the loop. */
  lemma {:induction false} RunHidden(p: Event -> bool, st: Setting, files: map<string, Checkpoint>,
                                     before: seq<Event>, start: int, es: seq<EpochData>)
    requires IgnoresLoop(p)
    ensures Filter(Run(st, files, before, start, es).trace, p) == Filter(before, p)
    decreases |es|
  {
    if |es| == 0 {
      FilterSnoc(before, Resume(st.path), p);
    } else {
      var prefix := es[..|es| - 1];
      var s := Run(st, files, before, start, prefix);
      var r := Run(st, files, before, start, es);
      assert Filter(r.trace, p) == Filter(s.trace, p) by {
        if s.error.None? {
          var epoch, d := start + |es| - 1, es[|es| - 1];
          assert r == EpochStep(st, s, epoch, d);
          StepHidden(p, st, s, epoch, d);
        } else {
          assert r == s;
        }
      }
      RunHidden(p, st, files, before, start, prefix);
    }
  }

  /** A training run ends with the barrier exactly when distributed, then
      exactly one clean-up call; a failed run reaches neither. */
  lemma DistillEnding(st: Setting, files: map<string, Checkpoint>, before: seq<Event>, start: int,
                      es: seq<EpochData>)
    ensures var s := DistillSpec(st, files, before, start, es);
            Filter(s.trace, IsEnding)
            == Filter(before, IsEnding)
               + (if s.error.Some? then [] else (if st.ctx.distributed then [Barrier] else []) + [Clean])
  {
    var s := Run(st, files, before, start, es);
    var r := DistillSpec(st, files, before, start, es);
    var closed := (if st.ctx.distributed then s.trace + [Barrier] else s.trace) + [Clean];
    assert r.error == s.error && r.trace == if s.error.Some? then s.trace else closed;
    assert Filter(s.trace, IsEnding) == Filter(before, IsEnding) by {
      RunHidden(IsEnding, st, files, before, start, es);
    }
    CloseEnding(s.trace, st.ctx.distributed, before);
  }

  /** The barrier when distributed and the clean-up call are appended to a
      trace whose ending events are those of `before`. */
  lemma CloseEnding(t: seq<Event>, distributed: bool, before: seq<Event>)
    requires Filter(t, IsEnding) == Filter(before, IsEnding)
    ensures Filter((if distributed then t + [Barrier] else t) + [Clean], IsEnding)
            == Filter(before, IsEnding) + (if distributed then [Barrier] else []) + [Clean]
  {
    if distributed {
      FilterSnoc(t, Barrier, IsEnding);
      FilterSnoc(t + [Barrier], Clean, IsEnding);
    } else {
      FilterSnoc(t, Clean, IsEnding);
    }
  }

  /** The entry point fails exactly when a model name is unknown, a
      validation of the training run fails, or a test evaluation it makes
      fails. */
  lemma MainFailsIff(before: seq<Event>, ctx: Context, deviceType: string, args: Args, tc: ModelConfig,
                     sc: ModelConfig, w: World, files: map<string, Checkpoint>)
    ensures var teacher := GetModel(tc.official, w.registry, tc.name);
            var student := GetModel(sc.official, w.registry, sc.name);
            MainSpec(before, ctx, deviceType, args, tc, sc, w, files).error.Some?
            <==> teacher.Err? || student.Err?
                 || (!args.testOnly && !AllValid(RunSetting(ctx, deviceType, student.value, sc.ckpt), w.epochs))
                 || (!args.studentOnly && Score(w.test, w.teacherPeers, ctx.distributed).Err?)
                 || Score(w.test, w.studentPeers, ctx.distributed).Err?
  {
    var student := GetModel(sc.official, w.registry, sc.name);
    if GetModel(tc.official, w.registry, tc.name).Ok? && student.Ok? {
      var st := RunSetting(ctx, deviceType, student.value, sc.ckpt);
      RunFailsIff(st, files, before + [LoadWeights(tc.ckpt, GetModel(tc.official, w.registry, tc.name).value)]
                                    + [LoadWeights(sc.ckpt, student.value)], args.startEpoch, w.epochs);
    }
  }

  /** The stages of a successful entry point, in order: both weight loads,
      then unless `test_only` the end of training and the reload of the
      unwrapped student, then unless `student_only` the teacher's test,
      then the student's test. */
  lemma MainMilestones(before: seq<Event>, ctx: Context, deviceType: string, args: Args, tc: ModelConfig,
                       sc: ModelConfig, w: World, files: map<string, Checkpoint>, teacher: Model, student: Model)
    requires GetModel(tc.official, w.registry, tc.name) == Ok(teacher)
    requires GetModel(sc.official, w.registry, sc.name) == Ok(student)
    ensures var o := MainSpec(before, ctx, deviceType, args, tc, sc, w, files);
            o.error.None? ==>
              Filter(o.trace, IsMilestone)
              == Filter(before, IsMilestone) + [LoadWeights(tc.ckpt, teacher), LoadWeights(sc.ckpt, student)]
                 + (if args.testOnly then [] else [Clean, LoadWeights(sc.ckpt, WithoutDdp(student))])
                 + (if args.studentOnly then [] else [Title(TeacherTitle(tc.name))])
                 + [Title(StudentTitle(sc.name))]
  {
    var t0 := before + [LoadWeights(tc.ckpt, teacher)];
    var t1 := t0 + [LoadWeights(sc.ckpt, student)];
    assert Filter(t1, IsMilestone)
           == Filter(before, IsMilestone) + [LoadWeights(tc.ckpt, teacher), LoadWeights(sc.ckpt, student)] by {
      FilterSnoc(before, LoadWeights(tc.ckpt, teacher), IsMilestone);
      FilterSnoc(t0, LoadWeights(sc.ckpt, student), IsMilestone);
    }
    var train := TrainStage(t1, ctx, deviceType, args, sc, student, w, files);
    if train.error.None? {
      var o := TestStage(train.trace, ctx, deviceType, args, tc, sc, teacher, student, w, train.files);
      assert MainSpec(before, ctx, deviceType, args, tc, sc, w, files) == o;
      TrainMilestones(t1, ctx, deviceType, args, sc, student, w, files);
      TestMilestones(train.trace, ctx, deviceType, args, tc, sc, teacher, student, w, train.files);
    } else {
      assert MainSpec(before, ctx, deviceType, args, tc, sc, w, files) == train;
    }
  }

  /** A successful training stage adds the clean-up call and the reload of
      the unwrapped student, unless `test_only`. */
  lemma TrainMilestones(before: seq<Event>, ctx: Context, deviceType: string, args: Args, sc: ModelConfig,
                        student: Model, w: World, files: map<string, Checkpoint>)
    ensures var o := TrainStage(before, ctx, deviceType, args, sc, student, w, files);
            o.error.None? ==>
              Filter(o.trace, IsMilestone)
              == Filter(before, IsMilestone)
                 + (if args.testOnly then [] else [Clean, LoadWeights(sc.ckpt, WithoutDdp(student))])
  {
    if !args.testOnly {
      var st := RunSetting(ctx, deviceType, student, sc.ckpt);
      var r := Run(st, files, before, args.startEpoch, w.epochs);
      var reload := LoadWeights(sc.ckpt, WithoutDdp(student));
      var closed := (if ctx.distributed then r.trace + [Barrier] else r.trace) + [Clean];
      var o := TrainStage(before, ctx, deviceType, args, sc, student, w, files);
      assert o.error == r.error && (o.error.None? ==> o.trace == closed + [reload]);
      assert Filter(r.trace, IsMilestone) == Filter(before, IsMilestone) by {
        assert IgnoresLoop(IsMilestone);
        RunHidden(IsMilestone, st, files, before, args.startEpoch, w.epochs);
      }
      CloseMilestones(r.trace, ctx.distributed, before, reload);
    }
  }

  /** Of the end of a training run and the reload after it, the stage
      filter keeps the clean-up call and the reload. */
  lemma CloseMilestones(t: seq<Event>, distributed: bool, before: seq<Event>, reload: Event)
    requires reload.LoadWeights?
    requires Filter(t, IsMilestone) == Filter(before, IsMilestone)
    ensures Filter((if distributed then t + [Barrier] else t) + [Clean] + [reload], IsMilestone)
            == Filter(before, IsMilestone) + [Clean, reload]
  {
    var u := if distributed then t + [Barrier] else t;
    assert Filter(u, IsMilestone) == Filter(before, IsMilestone) by {
      FilterSnoc(t, Barrier, IsMilestone);
    }
    FilterSnoc(u, Clean, IsMilestone);
    FilterSnoc(u + [Clean], reload, IsMilestone);
  }

  /** A successful test stage adds the teacher's title unless
      `student_only`, then the student's. */
  lemma TestMilestones(before: seq<Event>, ctx: Context, deviceType: string, args: Args, tc: ModelConfig,
                       sc: ModelConfig, teacher: Model, student: Model, w: World, files: map<string, Checkpoint>)
    ensures var o := TestStage(before, ctx, deviceType, args, tc, sc, teacher, student, w, files);
            o.error.None? ==>
              Filter(o.trace, IsMilestone)
              == Filter(before, IsMilestone)
                 + (if args.studentOnly then [] else [Title(TeacherTitle(tc.name))])
                 + [Title(StudentTitle(sc.name))]
  {
    var n := |w.test|;
    var afterTeacher :=
      if args.studentOnly then before else EvalEvents(before, Some(TeacherTitle(tc.name)), teacher, ctx, deviceType, n);
    assert Filter(afterTeacher, IsMilestone)
           == Filter(before, IsMilestone) + (if args.studentOnly then [] else [Title(TeacherTitle(tc.name))]) by {
      if !args.studentOnly {
        TitledEval(before, TeacherTitle(tc.name), teacher, ctx, deviceType, n);
      }
    }
    TitledEval(afterTeacher, StudentTitle(sc.name), student, ctx, deviceType, n);
  }

  /** Of a titled evaluation, the stage filter keeps just the title. */
  lemma TitledEval(before: seq<Event>, title: string, m: Model, ctx: Context, deviceType: string, n: nat)
    ensures Filter(EvalEvents(before, Some(title), m, ctx, deviceType, n), IsMilestone)
            == Filter(before, IsMilestone) + [Title(title)]
  {
    FilterSnoc(before, Title(title), IsMilestone);
    PassesAreInvisible(IsMilestone, before + [Title(title)], 0, 0, PrepareForEval(m, ctx.distributed, deviceType), n);
  }
}
