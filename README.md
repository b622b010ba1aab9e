# Streaming train/eval engine of ODEPT, modelled in Dafny

This project models the bookkeeping core of `train/train.py`, the engine that trains and evaluates
the streaming cascade-popularity predictor. The neural network and the floating-point numerics are
left out. The model covers three things:

- **Role partitioning.** `select_label` gives each event of a batch at most one role (train,
  validation or test). The role comes from the event's label sentinel (`-1` while the cascade has not
  reached its observation horizon) and its type code (1, 2 or 3). The evaluation loop ORs the three
  masks into one "observed" mask (`Roles`).
- **Boolean-mask selection and label sanitising.** `trans_cas[idx]` and `pred[idx]` keep the entries
  whose mask is true, in order (`Selection`). The selected cascade ids are looked up in the decoder
  table (cascade id to final size), and every size below 1 is raised to 1 (`Labels`). A cascade
  missing from the table is an error result, where Python raises `KeyError`.
- **The lifecycle protocol of `eval_model` and `train_model`.** The network, the metric accumulator
  and the early stopper are classes (`Engine`). Every lifecycle call they receive (reset, fresh,
  forward, step, update, detach, metric update, summary, stop check, save, load) is appended to one
  shared ghost log of operations. The switch between `model.train()` and `model.eval()` is a field
  of the model and is not logged. Module `Protocol` defines, as functions of the batches and of the
  stopper's verdicts, the exact log that a training pass, an evaluation pass, an epoch and a whole
  run must produce. It also defines a per-pass state machine that accepts those logs.
  `ProtocolFacts` proves counting facts about them. Module `Training` holds the loops as imperative
  methods. Each method is proved to extend the log by exactly the prescribed trace. The evaluation
  loss lists, the metric accumulators and the summaries are proved equal to the specification
  functions `PassLosses`, `PassSamples` and `PassSummaries`. These define, batch by batch, the
  samples and losses each role gets when batch i is predicted from a memory holding batches 0 to
  i-1. `PassShape` and `PassSamplesFrom` then state what those specifications hold: one
  well-formed sample per event of the role, each coming from an event of that role. The training
  loss list `train_loss` is proved equal to `TrainLosses`: batch by batch, the loss of the training
  subset's predictions and clamped labels, predicted from the batches before it and the parameters
  after one step per earlier non-empty batch.

The network's forward pass is an uninterpreted function `net` of the memory, the parameter version,
the batch, the target mask and the event index. The loss is an uninterpreted `lossFn` of the selected
predictions and labels. The early stopper's verdict after its k-th check is an uninterpreted
`decide(k)`, which says whether the epoch improved (so a checkpoint is written) and whether to stop.

Files: `wrappers.dfy` (Option and Result), `selection.dfy`, `roles.dfy`, `labels.dfy`,
`protocol.dfy` (modules `Protocol` and `ProtocolFacts`), `engine.dfy` and `training.dfy`.

## Model

| member | source | states |
|---|---|---|
| Roles.SelectLabel | train/train.py:16-20 | Each of the three masks has one entry per event. Event i is in role r's mask iff its label is not -1 and its type code is r's code (checked against the independent `RoleOf`). The masks are pairwise disjoint. An event labelled -1 is in none of them. |
| Roles.RolesExclusive | train/train.py:16-20 | If event i is in the masks of roles r and s, then r = s. |
| Roles.RoleMask | train/train.py:17-19 | Role r's mask over a batch has the batch's length and holds exactly the events whose role is r. |
| Roles.ObservedExactly | train/train.py:45-46 | The union of the three masks (`train`, `val`, `test` OR-ed) is true exactly when the label is not -1 and the type code is 1, 2 or 3. Other codes are never selected. |
| Roles.ObservedMask | train/train.py:45-46 | `target_idx` of a batch has one entry per event. Entry i is true iff event i's label is not -1 and its type code is 1, 2 or 3. |
| Selection.Count | train/train.py:52 | `sum(idx)` is at most the mask length, and it is 0 iff no entry is true. |
| Selection.Select | train/train.py:53 | `xs[idx]` has exactly as many elements as the mask has true entries. |
| Selection.Positions | train/train.py:53 | The true positions of a mask are in range, strictly increasing, true in the mask, and as many as the count. |
| Selection.PositionsComplete | train/train.py:53 | Every true entry of the mask appears among the positions. |
| Selection.SelectAt | train/train.py:53 | The k-th selected element is the element at the k-th true position. |
| Labels.Clamp | train/train.py:55 | A clamped label is at least 1. A value already at least 1 is unchanged. A value below 1 becomes 1. |
| Labels.LookupLabels | train/train.py:54-55 | The lookup succeeds iff every key is in the table. On success there is one label per key, and label i is the clamped table value of key i (so at least 1). On failure, the returned key is the first key missing from the table, as the comprehension raises on it. |
| Labels.SelectedCascade | train/train.py:53 | The k-th key looked up for role r is the cascade of the k-th event of role r. |
| Labels.RoleLabels | train/train.py:53-55 | On success, one label per event of role r. On failure, the missing key is the cascade of an event of role r and is not in the table. |
| Labels.RoleLabelsSucceeds | train/train.py:53-54 | The lookup for role r's subset succeeds iff the table covers every event of role r. |
| Labels.RoleLabelsValues | train/train.py:92-94 | A role's label list has exactly as many entries as the role's mask has true entries. The k-th label belongs to an event of that role, equals the clamped size of its cascade, is at least 1, and equals the size when the size is already at least 1. |
| Protocol.TrainBatchAccepted | train/train.py:90-105 | One training batch (forward, an optional step, one update, one detach) is accepted by the training lifecycle and returns it to the ready phase. |
| Protocol.TrainBatchesAccepted | train/train.py:84-105 | Any number of training batches in a row are accepted from the ready phase. |
| Protocol.TrainPassAccepted | train/train.py:79-105 | A whole training pass (reset, then the batches) is accepted from idle. |
| Protocol.RoleOpsStay | train/train.py:50-61 | One role's `metric.update` calls keep an evaluation batch in its forwarded phase. |
| Protocol.EvalBatchAccepted | train/train.py:44-62 | One evaluation batch (forward, the per-role metric updates, one update, no detach) is accepted by the evaluation lifecycle. |
| Protocol.EvalBatchesAccepted | train/train.py:43-62 | Any number of evaluation batches in a row are accepted from the ready phase. |
| Protocol.EvalPassAccepted | train/train.py:36-65 | A whole evaluation pass (reset, fresh, the batches, the three summaries) is accepted from idle and ends summarised. |
| Protocol.NoSkippedUpdate | train/train.py:48-62 | The lifecycle allows no second forward while a forwarded batch still waits for its `update_state`. |
| Protocol.RunAppend | train/train.py:79-105 | Running two logs in a row is running the second from the phase where the first ended. |
| Protocol.TrainBatchesOps | train/train.py:84-105 | The trace of the training batches has at least three calls per batch (forward, update, detach) and, when there is a batch, ends with a detach. |
| Protocol.TrainPassOps | train/train.py:79-105 | A training pass's trace starts with the reset, has at least three calls per batch after it, and ends with the last batch's detach. |
| Protocol.EvalBatchesOps | train/train.py:43-62 | The trace of the evaluation batches has at least two calls per batch (forward, update) and, when there is a batch, ends with an update and no detach. |
| Protocol.EvalPassOps | train/train.py:36-66 | An evaluation pass's trace starts with reset then fresh and ends with the train, val and test summaries carrying `move_final`. Right before them comes the last batch's update. |
| Protocol.EpochOps | train/train.py:79-112 | After its training and validation passes, an epoch's trace has one more call, or two when the verdict is an improvement. It ends with the stop check carrying the verdict, and on an improvement the checkpoint save comes right before it. |
| Protocol.RunOps | train/train.py:78-122 | After the epochs' traces come the load, then the final test pass (reset, fresh, ...). The run ends with the three final summaries, `metric.save()` and `save_model`. |
| Protocol.Next | train/train.py:36-105 | One step of the per-pass lifecycle. A forward needs the ready phase and leaves the batch forwarded. An update needs a forwarded batch. Steps and detaches happen only in training mode, and a detach follows an update. Fresh, metric updates and summaries happen only in evaluation mode. A reset is allowed exactly at the start of a pass, and nothing returns to it. |
| Protocol.EpochsFrom | train/train.py:78-112 | From epoch e within the budget, the loop ends within the budget and after epoch e. |
| Protocol.EpochsRun | train/train.py:78-112 | `for epoch in range(budget)` with the stop `break` runs at most `budget` epochs, and at least one when the budget is positive. |
| ProtocolFacts.TrainBatchCounts | train/train.py:90-105 | One training batch forwards, updates and detaches once each. It steps once iff its train subset is non-empty. It makes no other call, and its step reaches no earlier batch. |
| ProtocolFacts.TrainBatchesCounts | train/train.py:84-105 | Over the batches, forwards, updates and detaches each equal the number of batches. Steps equal the number of batches with a non-empty train subset. |
| ProtocolFacts.TrainPassCounts | train/train.py:79-105 | A training pass resets once, and forwards, updates and detaches once per batch. It steps once per batch with a non-empty train subset. It makes no other call. No step's gradient reaches an earlier batch through memory. |
| ProtocolFacts.EvalBatchCounts | train/train.py:44-62 | One evaluation batch forwards and updates once each. Role r receives exactly as many targets through `metric.update` as the batch has role-r events. |
| ProtocolFacts.EvalBatchesCounts | train/train.py:43-62 | Over the batches, forwards and updates equal the number of batches. Role r's `metric.update` targets total its events in all the batches. |
| ProtocolFacts.EvalPassCounts | train/train.py:36-65 | An evaluation pass resets once and freshens the metric once. It forwards and updates once per batch, summarises three times, and never steps or detaches. Role r's `metric.update` targets total its events in the batches. |
| ProtocolFacts.EpochCounts | train/train.py:79-111 | One epoch resets twice, freshens once, detaches once per batch and checks once. |
| ProtocolFacts.EpochsCounts | train/train.py:78-112 | e epochs make e times one epoch's resets, freshens, detaches and checks, and no load. |
| ProtocolFacts.EpochsFromSpec | train/train.py:78-112 | From epoch e, the loop stops within the budget and runs past e when it can. No epoch before the last one said stop. An early end follows a stop verdict. |
| ProtocolFacts.EpochsRunSpec | train/train.py:78-112 | The loop runs at most `epoch` epochs, and at least one if the budget allows. It does not stop before the first stop verdict. It ends before the budget only right after an epoch whose check said stop. |
| ProtocolFacts.RunCounts | train/train.py:78-122 | A run resets 2 × (epochs run) + 1 times and freshens (one evaluation pass) once per epoch plus once. It checks once per epoch and loads the checkpoint once. |
| Engine.Model.ResetState | train/train.py:37 | Memory is emptied with no gradient history. Parameters, mode and checkpoint are kept. A Reset is logged. |
| Engine.Model.SetTraining | train/train.py:80 | Only the training/evaluation mode changes. |
| Engine.Model.Forward | train/train.py:90 | One prediction per event, each the network's value on the memory and parameters before the call. The batch waits for its update. A Forward with the mask and the memory read is logged. |
| Engine.Model.Step | train/train.py:98-102 | The parameter version grows by one. The logged step records how many folded batches its gradient reaches. |
| Engine.Model.UpdateState | train/train.py:104 | The forwarded batch joins the memory. In training mode the gradient history grows by it. An Update is logged. |
| Engine.Model.DetachState | train/train.py:105 | The gradient history is dropped and the memory is kept. A Detach is logged. |
| Engine.Model.SaveCheckpoint | train/train.py:122 | The checkpoint holds the current parameters. A Save is logged. |
| Engine.Model.LoadCheckpoint | train/train.py:117 | Succeeds iff a checkpoint exists. It then restores the checkpointed parameters and logs a Load. Otherwise nothing changes. |
| Engine.Metric.Fresh | train/train.py:38 | Every role's accumulator is emptied. The history is kept. A Fresh is logged. |
| Engine.Metric.Update | train/train.py:61 | The samples are appended to role r's accumulator only. A `MetricUpdate(r, n)` with the sample count is logged. |
| Engine.Metric.Calculate | train/train.py:64-65 | Role r's summary is pushed to the history, and to the final summaries iff `move_final`. The accumulators are kept. |
| Engine.Metric.Save | train/train.py:121 | A MetricSave is logged. |
| Engine.EarlyStopper.Check | train/train.py:111 | The verdict is `decide(k)` for the k-th check. On improvement the current parameters are checkpointed first. The network is otherwise untouched. |
| Training.RoleSamples | train/train.py:53-61 | The samples for role r are one per event of the role, in batch order, each with that event's cascade and prediction and the clamped size of its cascade. |
| Training.ZipAt | train/train.py:61 | The k-th sample handed to `metric.update` holds the k-th target, prediction and label. |
| Training.RoleAddedAt | train/train.py:53-61 | The k-th sample role r adds is the k-th event of the role: its cascade is in the table, and the sample holds that cascade, that event's prediction and the clamped size. |
| Training.RoleShape | train/train.py:52-61 | When the table covers role r's events, the role adds one well-formed sample per event and computes a loss iff it has events. |
| Training.EvalRole | train/train.py:51-61 | Succeeds iff the table covers role r's events. On failure nothing changes. On success the added samples are `RoleAdded` and the loss is `RoleLoss` (see `RoleSamples`): one sample per role-r event, each with its own cascade, prediction and clamped size, and a loss iff the subset is non-empty. Role r's accumulator is the old one followed by exactly those samples. The log grows by exactly that role's metric update. |
| Training.AddLoss | train/train.py:59-60 | Role r's new list is the old list followed by the loss when there is one (`loss[dtype].append`). The other roles' lists are unchanged. |
| Training.EvalRoleInto | train/train.py:51-61 | One role's update: role r's loss list and accumulator are the old ones followed by exactly that role's loss and samples for the batch. The other roles' losses and accumulators are unchanged. The log grows by that role's update. |
| Training.EvalRoles | train/train.py:50-61 | The three roles in order: succeeds iff the batch is covered. Each role's loss list and accumulator are the old ones followed by exactly its loss and samples for the batch. The log grows by the three roles' updates. |
| Training.EvalBatch | train/train.py:44-62 | Forward with the observed mask, then the role updates, then one `update_state` and no detach. The log grows by the batch's evaluation trace. The memory grows by the batch. Each role's losses and accumulator grow by exactly the loss and samples computed from the predictions on the memory and parameters before the call. Parameters and checkpoint are untouched. |
| Training.EvalStep | train/train.py:43-62 | One turn of the evaluation loop: batch i, predicted from a memory holding batches 0 to i-1, extends the loss lists and accumulators from the pass over the first i batches to the pass over the first i + 1. |
| Training.EvalBatches | train/train.py:43-62 | Succeeds iff the table covers every observed event. The log grows by the batch traces in order, and the memory holds all the batches. Each role's loss list equals `PassLosses` and its accumulator equals `PassSamples` for the current parameters. |
| Training.SummariesOf | train/train.py:63-65 | Summaries taken from loss lists and accumulators that equal the pass's specification are exactly `PassSummaries`. |
| Training.EvalModel | train/train.py:34-66 | Succeeds iff the table covers every observed event. The log grows by exactly the evaluation-pass trace. The model ends in evaluation mode with the same parameters and checkpoint. The three summaries are exactly `PassSummaries` for the current parameters. The history, and the final summaries iff `move_final`, grow by those three summaries in the order train, val, test. |
| Training.PassShape | train/train.py:43-65 | When the table covers every observed event, role r's accumulated samples number its events in all batches, each has the clamped size of its cascade, and its loss list has one entry per batch with a non-empty role-r subset. |
| Training.PassSamplesFrom | train/train.py:43-65 | Every sample accumulated for role r is the sample of some role-r event j of some batch i: its cascade, the prediction made from the memory of batches 0 to i-1, and the clamped size. |
| Training.AllCoveredTrain | train/train.py:93 | A table that covers every observed event covers the training events. |
| Training.TrainLossesNext | train/train.py:91-103 | Batch i, predicted from the first i batches and the parameters after their steps, appends its training loss (if any) to `TrainLosses` of the first i batches, giving `TrainLosses` of the first i + 1. |
| Training.TrainBatch | train/train.py:84-105 | Succeeds iff the table covers the batch's training events. The log grows by the batch's training trace: the step's gradient reaches no earlier batch, and the memory grows by the batch with no gradient history left. The returned loss is `RoleLoss` of the training subset: `lossFn` of the selected predictions, made from the memory and parameters before the call, and of the clamped labels of the subset's cascades. There is one iff the train subset is non-empty, and the parameters advance by one step exactly then. |
| Training.TrainStep | train/train.py:84-105 | One turn of the training loop keeps the loop's progress invariant. `train_loss` goes from `TrainLosses` of the first i batches to `TrainLosses` of the first i + 1: one more entry, that batch's training loss, iff it has training events. |
| Training.TrainPass | train/train.py:79-105 | Succeeds iff the table covers every training event. The log grows by exactly the training-pass trace. The memory holds the batches with no gradient history. `train_loss` equals `TrainLosses` for the parameters the pass began with. Both its length and the optimizer steps taken equal the number of batches with a non-empty train subset. |
| Training.Checkpointed | train/train.py:111 | The checkpoint after e epochs, each improving epoch writing the parameters it trained. A checkpoint that existed before the run is never lost, and a checkpoint different from the initial one was written by an epoch whose verdict was an improvement. |
| Training.CheckpointedExists | train/train.py:111 | After e epochs a checkpoint exists iff one existed before the run or some epoch improved. |
| Training.CheckpointedLatest | train/train.py:111 | The checkpoint after e epochs is either the one from before the run or the parameters at the end of an improving epoch. It is no older than any improving epoch's parameters. |
| Training.RunEpoch | train/train.py:79-112 | One epoch: a training pass, a validation pass with `move_final=False`, then the check. Succeeds iff the table covers every observed event. The log grows by exactly the epoch trace. The parameters advance by the non-empty training batches. The checkpoint is taken iff the verdict is an improvement. The history grows by the validation pass's summaries for the new parameters. |
| Training.EpochNext | train/train.py:78-112 | The epoch bookkeeping (log, parameters, checkpoint) advances by one epoch. |
| Training.HistoryNext | train/train.py:107 | The history kept by the epoch loop advances by one epoch: its validation summaries, at the parameters that epoch trained, are appended. |
| Training.EpochStep | train/train.py:78-112 | One turn of the epoch loop adds one epoch to the bookkeeping and returns that epoch's stop verdict. |
| Training.EpochsFromStep | train/train.py:111-112 | Within the budget, epoch e either stops the loop right after it or hands over to epoch e + 1. |
| Training.Epochs | train/train.py:78-114 | The loop runs exactly as many epochs as `EpochsRun`. It fails only on a missing cascade. It leaves the log as those epochs' traces, the parameters advanced by each epoch's steps, the checkpoint as the improving epochs left it, and the history extended by each epoch's validation summaries (`ValHistory`). |
| Training.TrainModel | train/train.py:69-122 | Succeeds iff the table covers every observed event and a checkpoint exists to load. On success, the log is exactly the run's trace: epochs, load, final test pass, metric save, model save. The stopper was checked once per epoch run. The final parameters are those of the latest improving epoch, or the checkpoint from before the run when no epoch improved, and they are checkpointed again. The three final summaries are `PassSummaries` for the loaded parameters. The history is the old one, then every epoch's validation summaries, then the final ones. The final summaries grow by those three. |

## Left out

- The network's mathematics (`model.forward`, `first_point`, the `z0_prior`), `compute_loss`, and the numerics of `loss.backward` and `optimizer.step`. Forward is the uninterpreted `net` and the loss the uninterpreted `lossFn`. A step is modelled only as a new parameter version and as how far back its gradient reaches.
- `calculate_metric`'s statistics (msle, mape, male, pcc), `metric.info` and the metric's persistence. A summary records its role, samples, losses and finality. `np.mean` of the losses is not computed: the summary keeps the list.
- The early stopper's internals (`EarlyStopMonitor`, its patience and tolerance), which live in `utils/my_utils.py`; that file is not part of this model. The verdict is the uninterpreted `decide(k)`, so the validation msle it reads is not modelled.
- `save_model`/`load_model` file handling. A checkpoint is the saved parameter version, and one written by an earlier process is given as the model's initial checkpoint. Loading with no checkpoint, where the source would fail to open the file, is the error `NoCheckpoint`.
- `move_to_device`, tensor dtypes and device placement, `tqdm` progress bars, timing, logging, and the commented-out `log2` transform (train/train.py:23-30, 56, 82, 95, 106-110).
- The result averaging with `np.round` (train/train.py:124-127), which is floating-point arithmetic.
- `main.py` as a whole (argument parsing, seeding, model construction, the loop over runs). It also calls `train_model` with one argument more (`single_metric`, main.py:116-117) than train/train.py:69-71 accepts. This model follows the parameters `train_model` declares.
- Training.TrainModel: the final test pass at train/train.py:119 is written without `decoder_data`, so every later argument shifts by one position and `loss_criteria` goes missing. The model passes the decoder table as intended and does not reproduce the failed call.
- Training.TrainModel: `train`, `val` and `test` are the same dataset (train/train.py:72), so every pass reads the same batches `bs`. The loss criterion created at train/train.py:77 is never used for training and is not modelled.
- Training.EvalModel, Training.TrainPass and Training.TrainModel: the state after a failure (a missing cascade or no checkpoint) is left unspecified beyond the error itself, as an exception leaves it in the source.
- The evaluation loop `for dtype in ['train', 'val', 'test']` is unrolled into three calls in that order.
