# Knowledge-distillation orchestrator for image classification

This project models the driver script `image_classification.py` of torchdistill in Dafny: the
image-classification entry point of a knowledge-distillation toolkit. A teacher network and a
student network are built and loaded. The student is trained over a range of epochs against a
"distillation box", a collaborator that computes the loss and applies the parameter update. After
every epoch the student is validated, and the best-scoring student is checkpointed to disk. Both
models are then tested. The model covers:

- `get_model`: the official builder first, with a fallback to the local model registry.
- `distill_one_epoch`: one loss call and then one update call per training batch, in batch order.
- `evaluate`:
  - Choosing the wrapper. Distributed runs get `DistributedDataParallel`, CUDA devices get
    `DataParallel`, and anything else gets none.
  - The optional title line.
  - The library-wide thread count, set to 1 for the pass and restored afterwards.
  - Tallying top-1 accuracy, weighted by batch size.
  - Synchronising with the other processes and returning the global average.
  - The two ways reading the meter can fail: no batch at all (the meter was never created), or an
    empty synchronised count (division by zero).
- `distill`:
  - The best score starts at 0.0, or at the value stored in the student checkpoint when that file
    exists (which also restores the optimizer and scheduler).
  - The epochs run from `start_epoch` to `num_epochs - 1`.
  - Each epoch runs the setup hook, the training pass, the validation, a checkpoint of the unwrapped
    student when the score strictly beats the best on the main process, and the teardown hook.
  - At the end comes the barrier when distributed, then the clean-up call.
- `main`: the ordering of model building and loading, training unless `test_only`, the strict reload
  of the unwrapped student, and testing of the teacher (unless `student_only`) and then the student.

Collaborator calls are recorded as `Event`s in a trace: weight loads, optimizer resume, hooks,
loss and update calls, evaluation titles, forward passes with the thread count in force, checkpoint writes, the
barrier and the clean-up call. The process is a class `Runtime.Process`. Its fields are:

- the trace;
- the thread count;
- the checkpoint files, as a map from path to the stored model and best score;
- the distributed context, which is fixed.

Each method of the class is proved against a reference function. `DistillOneEpoch` is proved against `Trace.TrainTrace`. `Evaluate` is proved against `Orchestration.EvalEvents` for its calls and `Metrics.Score` for its result. The loop, the epoch and the entry-point stages are proved against `Orchestration.EpochStep`, `Orchestration.DistillSpec`, `Orchestration.TrainStage`, `Orchestration.TestStage` and `Orchestration.MainSpec`.

- The `Properties` module proves, over the reference functions, what the orchestrator promises: the
  best score, which epochs write, which epochs run, the files left, how training ends and the order
  of the entry point's stages.
- The selection rule alone lives in `Selection`. It has a fold over the scores and the record
  characterisation of a write.
- The meter arithmetic lives in `Metrics`.
- Validation scores are a function held in the loop's `Setting`. The entry point installs
  `Orchestration.Validation`, that is, `Metrics.Score` over the epoch's validation batches. The loop
  lemmas therefore hold for whatever the validation answers.

Calls whose Python exceptions end the run are modelled as `Result`/`Option` errors that propagate:

- an unknown model name;
- a meter that was never created;
- a division by zero.

When such an error occurs, nothing after the failing call happens. This is why, after a failed
evaluation, the thread count stays at 1: the restore on line 98 comes after the read on line 95.

## Model

| member | source | states |
|---|---|---|
| Models.WithoutDdp | image_classification.py:114 | A wrapped handle loses exactly one wrapper level and keeps its network. A bare or once-wrapped handle comes out bare. |
| Models.ChooseWrapper | image_classification.py:70-73 | Distributed-data-parallel exactly when distributed. Data-parallel exactly when not distributed and the device type starts with "cuda". No wrapper otherwise. |
| Models.PrepareForEval | image_classification.py:69-73 | When a wrapper is chosen, the handle gets exactly one wrapper of that kind, and unwrapping gives back the input. Otherwise the input is unchanged. Either way the network inside is the same. |
| Models.GetModel | image_classification.py:41-44 | The official builder's model wins. Failing that, the registry's entry. The error "unknown model" (carrying the name) happens exactly when neither exists. |
| Metrics.GlobalAvg | image_classification.py:95 | Fails with a division by zero exactly when the count is zero. |
| Metrics.Score | image_classification.py:81-99 | The evaluation fails exactly when there was no batch or the synchronised count is zero. Its errors are evaluation errors, never an unknown model. |
| Metrics.TallyConcat | image_classification.py:82-91 | The weighted meter over concatenated batch sequences is the sum of the two meters. |
| Metrics.Tally | image_classification.py:82-91 | The meter after the batches, in order: the sample count is the sum of the batch sizes, and the sum adds each batch's accuracy times its size. |
| Metrics.Synced | image_classification.py:94 | In a distributed run the local totals plus the other processes' totals. Otherwise the local totals unchanged. |
| Metrics.SyncedScoreIsUnion | image_classification.py:94-95 | After synchronisation, a process's score is the global average over the union of all processes' batches. |
| Metrics.ProcessesAgree | image_classification.py:94-99 | When every process synchronises with the totals of all the others, each process that evaluated some batch returns the global average over all processes' batches, so all of them agree. |
| Metrics.TallyBounds | image_classification.py:90 | With batch accuracies in [lo, hi], the weighted sum lies between lo and hi times the sample count. |
| Metrics.ScoreWithinRange | image_classification.py:90-99 | A non-distributed score lies within the range of its batch accuracies. |
| Selection.Next | image_classification.py:121-124 | The best after one epoch: the epoch's score when it strictly beats the best on the main process, otherwise the best unchanged. |
| Selection.BestAfter | image_classification.py:116-124 | The best after a sequence of scores: `Next` applied to each score in epoch order, starting from the initial best. |
| Selection.BestNeverDecreases | image_classification.py:121-124 | The best after a prefix of the epochs is at most the best after all of them. |
| Selection.MainBestIsMax | image_classification.py:121-124 | On the main process the best is at least the starting best and every score, and equals one of them. |
| Selection.NonMainBestFixed | image_classification.py:121 | Off the main process the best never moves from the starting best. |
| Selection.ImprovesIffRecord | image_classification.py:121 | An epoch writes exactly when this is the main process and its score strictly beats the starting best and every earlier score. A repeat or a drop never writes. |
| Selection.ThreeEpochExample | image_classification.py:121-124 | From 0.0, the scores 0.40, 0.55, 0.50 write at the first two epochs only and end at 0.55. |
| Selection.RepeatedScoreExample | image_classification.py:121-124 | From 0.0, the scores 0.5, 0.4, 0.6, 0.6, 0.7 hold exactly three records and end at 0.7. |
| Selection.ResumeExample | image_classification.py:108-124 | Resuming from a stored 0.60, a 0.58 epoch writes nothing and the best stays 0.60. |
| Trace.TrainTrace | image_classification.py:56-61 | The calls so far, then for each training batch in order a loss call followed by an update call. |
| Trace.EvalTrace | image_classification.py:82-85 | The calls so far, then one forward call per evaluation batch through the given handle, each with one thread. |
| Trace.TrainTraceShape | image_classification.py:56-61 | A training pass over n batches is 2n calls: for batch k, a loss call followed directly by an update call, in batch order. |
| Trace.EvalTraceShape | image_classification.py:79-85 | An evaluation pass is one forward call per batch, each with the thread count at 1. |
| Distributed.IsMain | image_classification.py:121 | Whether this process counts as the main process: always in a non-distributed run, and otherwise exactly rank 0. |
| Orchestration.EvalEvents | image_classification.py:69-85 | The calls so far, then the title when one is given, then one single-threaded forward pass per batch through the wrapper chosen for the process. |
| Orchestration.Validation | image_classification.py:119-120 | An epoch's validation: the student's score on the epoch's validation batches, synchronised with the other processes' totals. The validation pass itself runs untitled, through `EvalEvents` in `EpochStep`. |
| Orchestration.InitialBest | image_classification.py:107-111 | The best a run starts from: the best stored in the student checkpoint when that file exists, otherwise 0.0. |
| Orchestration.Initial | image_classification.py:107-111 | The loop state before the first epoch: that starting best, the files unchanged, no error, and a resume of the optimizer and scheduler exactly when the checkpoint exists. |
| Properties.Closing | image_classification.py:121-127 | What follows a successful validation: the write of the unwrapped student with its score when it improves on the main process, then the teardown hook. Nothing follows a failed validation. |
| Orchestration.EpochStep | image_classification.py:117-127 | One epoch: the setup hook, the training pass, the validation passes through the evaluation handle, then the closing. An improving score on the main process becomes the best and is stored under the student path. A failed validation keeps the best and files and records the error. |
| Orchestration.Run | image_classification.py:116-127 | The initial state, then one epoch step per epoch from `start_epoch` on, in order. After the first failure nothing more happens. |
| Orchestration.DistillSpec | image_classification.py:102-135 | A training run: the loop, then, when no epoch failed, the barrier if distributed and then the clean-up call. |
| Orchestration.TrainStage | image_classification.py:155-159 | Nothing under `test_only`. Otherwise a training run and, when it succeeds, the strict reload of the unwrapped student from its checkpoint path. |
| Orchestration.TestStage | image_classification.py:161-169 | Unless `student_only`, the teacher's titled evaluation, which stops the stage when it fails. Then the student's titled evaluation. Both use the same test batches. |
| Orchestration.MainSpec | image_classification.py:151-169 | Build and load the teacher, then the student, stopping at an unknown name. Then the training stage, then, when it succeeds, the test stage. |
| Orchestration.EpochCount | image_classification.py:116 | `range(start, num_epochs)` visits num_epochs - start epochs when start < num_epochs, and none otherwise. |
| Orchestration.RunStep | image_classification.py:116-127 | While no error has occurred, the loop over one more epoch is one more epoch step. |
| Orchestration.RunStopsAtError | image_classification.py:116-120 | Once an epoch fails, the later epochs change nothing. |
| Properties.ScoresAreValidations | image_classification.py:119-120 | The k-th score is the k-th epoch's validation result. |
| Properties.ScheduleLength | image_classification.py:121-126 | A run writes as many checkpoints as its scores hold records on the main process, and none elsewhere. |
| Properties.EpochShape | image_classification.py:116-127 | The fixed order of one epoch's calls: setup hook, the training pass, the validation forward passes through the evaluation handle, the write if one is due, then the teardown hook. A failed validation leaves off after its forward passes. |
| Properties.StepSaves | image_classification.py:121-126 | A validated epoch writes the unwrapped student with its score exactly when the score improves on the best so far on the main process. |
| Properties.RunBest | image_classification.py:108-124 | A loop whose validations all succeed ends without error. Its best is the selection fold over the epoch scores, starting from 0.0 or the stored best. |
| Properties.RunFailsIff | image_classification.py:116-120 | The loop fails exactly when some epoch's validation fails. |
| Properties.RunFailsAt | image_classification.py:116-127 | The first failing validation ends the loop with its error right after that epoch's forward passes. Best and files stay as they were, and the teardown hook is skipped. |
| Properties.RunSavesGrow | image_classification.py:121-126 | One more valid epoch adds to the loop's writes exactly the write the record rule prescribes for it. |
| Properties.RunSaves | image_classification.py:121-126 | The checkpoint writes of a loop are exactly its record schedule: epoch start + k writes the unwrapped student to the student path with its score, exactly when on the main process score k is a record. |
| Properties.RunVisits | image_classification.py:116-117 | The setup hooks run for every epoch from start on, once each, in increasing order, nothing else. |
| Properties.RunNonMain | image_classification.py:121 | Off the main process, a loop writes nothing, leaves the files as they were and keeps the stored best, whatever the scores. |
| Properties.RunStore | image_classification.py:107-126 | Every other path is untouched. An existing student checkpoint is kept. The student checkpoint holds the best score the loop ends with in memory. It holds either what it held before or the unwrapped student. |
| Properties.RunHidden | image_classification.py:116-127 | The loop makes no weight load, title, barrier or clean-up call. |
| Properties.DistillEnding | image_classification.py:129-135 | A successful run ends with the barrier exactly when distributed, followed by exactly one clean-up call. A failed run has neither. |
| Properties.MainFailsIff | image_classification.py:151-169 | The entry point fails exactly when a model name is unknown, a validation of the training run fails (unless `test_only`), the teacher's test fails (unless `student_only`), or the student's test fails. |
| Properties.MainMilestones | image_classification.py:151-169 | A successful entry point's stages, in order: teacher load, student load; unless `test_only`, the clean-up call and then the reload of the unwrapped student; unless `student_only`, the teacher's titled test; then the student's titled test. |
| Properties.TrainMilestones | image_classification.py:155-159 | Unless `test_only`, a successful training stage adds the clean-up call and then the strict reload of the unwrapped student. |
| Properties.TestMilestones | image_classification.py:165-169 | A successful test stage adds the teacher's title `[Teacher: name]` (unless `student_only`) and then the student's `[Student: name]`. |
| Runtime.Process.DistillOneEpoch | image_classification.py:51-64 | The trace grows by exactly the training pass, and nothing else changes. |
| Runtime.Process.Evaluate | image_classification.py:67-99 | The trace grows by the title (if any) and one single-threaded forward pass per batch through the chosen wrapper. The result is the synchronised score. The thread count is restored on success and left at 1 after a failed meter read. Files are unchanged. |
| Runtime.Process.DistillEpoch | image_classification.py:116-127 | One epoch of the loop produces exactly the reference epoch step's trace, files and best, and stops with the validation's error. |
| Runtime.Process.Distill | image_classification.py:102-135 | The trace, files, error and in-memory best are those of the reference training run. A failed run leaves the thread count at 1, and its only errors are evaluation errors. |
| Runtime.Process.TrainStudent | image_classification.py:155-159 | The trace, files and error are those of the reference training stage. |
| Runtime.Process.TestModels | image_classification.py:165-169 | The trace, files and error are those of the reference test stage. |
| Runtime.Process.RunMain | image_classification.py:138-169 | The trace, files and error are those of the reference entry point. The thread count is 1 exactly after an evaluation error and unchanged otherwise. |

## Left out

- Tensors, forward computation, loss values, top-5 accuracy and `compute_accuracy` are left out. A validation batch is its top-1 accuracy and its size.
- The training pass's local meters (loss, learning rate, images per second) and `log_every` reporting are left out. They only feed logging.
- Logging other than an evaluation's title line, timing and the training-time line are left out, as is `model.eval()`, device placement (`.to(device)`) and `cudnn.benchmark`.
- The all-reduce of `synchronize_between_processes` is modelled as the other processes' summed totals, passed in as `peers`. The barrier is an event; its cross-process blocking is not modelled.
- Checkpoint serialisation, atomic writes, and the optimizer, scheduler and metadata contents of a checkpoint are left out. A file holds the model handle and the best score.
- `load_ckpt` (in `kdkit.common.main_util`) is outside this model. A weight load is an event and never fails, so a strict reload of an absent student file is not modelled.
- Only three failures end a run in the model: an unknown model name, a missing meter and a division by zero. Every other collaborator call always succeeds: `distillation_box(...)`, `update_params`, `pre_process`, `post_process`, the forward pass, `save_ckpt`, `dist.barrier` and `clean_modules`. Their exceptions are not modelled.
- Python floats are modelled as Dafny reals. The rounding of the running weighted sum (line 90) and of `total / count` (line 95) is not modelled, and neither is NaN. Metrics.ScoreWithinRange and Metrics.TallyBounds therefore hold exactly only over the reals: a floating-point mean of equal accuracies can land one unit in the last place outside [lo, hi].
- `get_image_classification_model` (the official builder) and the parameters, `sync_bn` and `distributed` arguments behind it are abstracted into an optional model given with each configuration.
- `kdkit/models/__init__.py` (the registry's contents) is not part of this model. The registry is a map from name to model.
- Argument parsing, YAML loading, dataset and loader construction, log-file set-up and distributed initialisation are left out. The `Args`, `World` and `Context` values stand in for them.
- The evaluation's `header`, `log_freq` and `device_ids` parameters only affect logging or placement and are left out.
- The padding caveat of distributed sharding is an accepted imprecision of the source and is not modelled beyond the weighted tally.
- Runtime.Process.Distill: the epoch data is supplied as one `EpochData` per epoch of `range(start_epoch, num_epochs)`. This stands in for the distillation box's data loaders.
- Runtime.Process.Distill: the best score the run ends with is a ghost result, because the source keeps it local and returns nothing.
- Properties.RunSaves: stated for loops whose validations all succeed. A failing loop is covered by Properties.RunFailsAt on its valid prefix.
- Properties.RunVisits: stated for loops whose validations all succeed. A failing loop is covered by Properties.RunFailsAt on its valid prefix.
