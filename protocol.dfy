/**
 * The call protocol of `train_model` and `eval_model` (train/train.py:34-122)
 * as traces of operations: what a training pass, an evaluation pass, an
 * epoch and a whole run must log, a state machine for one pass that the
 * traces are checked against, and counting facts about the traces.
 */
module Protocol {
  import opened Wrappers
  import opened Selection
  import opened Roles

  /** One observable call on the model, the metric or the early stopper. */
  datatype Op =
    | Reset                                        // model.reset_state()
    | Fresh                                        // metric.fresh()
    | Forward(mask: seq<bool>, history: seq<Batch>) // model.forward with this target mask, reading memory that holds these batches
    | Step(reach: nat)                             // backward and optimizer.step; reach = earlier batches the gradient flows into through memory
    | Update                                       // model.update_state()
    | Detach                                       // model.detach_state()
    | MetricUpdate(role: Role, n: nat)             // metric.update with n targets of this role
    | Summarise(role: Role, final: bool)           // metric.calculate_metric(role, move_history=True, move_final=final)
    | StopCheck(stop: bool)                        // early_stopper.early_stop_check and its verdict
    | Save                                         // a checkpoint of the model is written
    | Load                                         // the best checkpoint is loaded into the model
    | MetricSave                                   // metric.save()
  {
    /** The call an operation stands for, regardless of its arguments. */
    function Kind(): Kind
    {
      match this
      case Reset => KReset
      case Fresh => KFresh
      case Forward(_, _) => KForward
      case Step(_) => KStep
      case Update => KUpdate
      case Detach => KDetach
      case MetricUpdate(_, _) => KMetricUpdate
      case Summarise(_, _) => KSummarise
      case StopCheck(_) => KStopCheck
      case Save => KSave
      case Load => KLoad
      case MetricSave => KMetricSave
    }
  }

  datatype Kind = KReset | KFresh | KForward | KStep | KUpdate | KDetach | KMetricUpdate
                | KSummarise | KStopCheck | KSave | KLoad | KMetricSave

  /** The early stopper's verdict after one epoch: whether it improved (and checkpointed) and whether to stop. */
  datatype Verdict = Verdict(improved: bool, stop: bool)

  // ---------------------------------------------------------------- training pass

  /** One training batch, given the batches already in memory. */
  function TrainBatchOps(seen: seq<Batch>, b: Batch): seq<Op>
  {
    var m := RoleMask(b, Train);
    [Forward(m, seen)] + (if Count(m) > 0 then [Step(0)] else []) + [Update, Detach]
  }

  function TrainBatchesOps(bs: seq<Batch>): (ops: seq<Op>)
    ensures |ops| >= 3 * |bs|
    ensures bs != [] ==> ops[|ops| - 1] == Detach
  {
    if bs == [] then []
    else
      var n := |bs| - 1;
      TrainBatchesOps(bs[..n]) + TrainBatchOps(bs[..n], bs[n])
  }

  /** The trace of one training epoch over the batches (train/train.py:79-105). */
  function TrainPassOps(bs: seq<Batch>): (ops: seq<Op>)
    ensures |ops| >= 1 + 3 * |bs| && ops[0] == Reset
    ensures bs != [] ==> ops[|ops| - 1] == Detach
  {
    [Reset] + TrainBatchesOps(bs)
  }

  // ---------------------------------------------------------------- evaluation pass

  /** `metric.update` for a role, present iff the role's subset of the batch is non-empty. */
  function RoleOps(b: Batch, r: Role): seq<Op>
  {
    var n := Count(RoleMask(b, r));
    if n > 0 then [MetricUpdate(r, n)] else []
  }

  function EvalBatchOps(seen: seq<Batch>, b: Batch): seq<Op>
  {
    [Forward(ObservedMask(b), seen)] + RoleOps(b, Train) + RoleOps(b, Val) + RoleOps(b, Test) + [Update]
  }

  function EvalBatchesOps(bs: seq<Batch>): (ops: seq<Op>)
    ensures |ops| >= 2 * |bs|
    ensures bs != [] ==> ops[|ops| - 1] == Update
  {
    if bs == [] then []
    else
      var n := |bs| - 1;
      EvalBatchesOps(bs[..n]) + EvalBatchOps(bs[..n], bs[n])
  }

  function SummaryOps(final: bool): seq<Op>
  {
    [Summarise(Train, final), Summarise(Val, final), Summarise(Test, final)]
  }

  /** The trace of one evaluation pass over the batches (train/train.py:36-66). */
  function EvalPassOps(bs: seq<Batch>, final: bool): (ops: seq<Op>)
    ensures |ops| >= 5 + 2 * |bs|
    ensures ops[..2] == [Reset, Fresh]
    ensures ops[|ops| - 3..] == [Summarise(Train, final), Summarise(Val, final), Summarise(Test, final)]
    ensures bs != [] ==> ops[|ops| - 4] == Update
  {
    [Reset, Fresh] + EvalBatchesOps(bs) + SummaryOps(final)
  }

  // ---------------------------------------------------------------- epochs and the run

  /** `early_stop_check`: a checkpoint written on improvement, then the verdict. */
  function CheckOps(v: Verdict): seq<Op>
  {
    (if v.improved then [Save] else []) + [StopCheck(v.stop)]
  }

  /**
   * One epoch, given the trace of its training pass and of its validation
   * pass: both passes, then the early-stop check.
   */
  function EpochOps(train: seq<Op>, eval: seq<Op>, v: Verdict): (ops: seq<Op>)
    ensures |ops| == |train| + |eval| + (if v.improved then 2 else 1)
    ensures ops[|ops| - 1] == StopCheck(v.stop)
    ensures v.improved ==> ops[|ops| - 2] == Save
  {
    train + eval + CheckOps(v)
  }

  /** The first e epochs; every epoch replays the same batches, so the same pass traces. */
  function EpochsOps(train: seq<Op>, eval: seq<Op>, decide: nat -> Verdict, e: nat): seq<Op>
  {
    if e == 0 then [] else EpochsOps(train, eval, decide, e - 1) + EpochOps(train, eval, decide(e - 1))
  }

  /** Epochs run when the loop may start epoch `e`, has budget `budget`, and breaks on the first stop verdict. */
  function EpochsFrom(e: nat, budget: nat, decide: nat -> Verdict): (n: nat)
    ensures e <= budget ==> e <= n <= budget
    ensures e < budget ==> e < n
    decreases budget - e
  {
    if e >= budget then e
    else if decide(e).stop then e + 1
    else EpochsFrom(e + 1, budget, decide)
  }

  /** Number of epochs `for epoch in range(budget): ... if stop: break` runs. */
  function EpochsRun(budget: nat, decide: nat -> Verdict): (n: nat)
    ensures n <= budget
    ensures budget > 0 ==> n > 0
  {
    EpochsFrom(0, budget, decide)
  }

  /** Whether some epoch among the first e wrote a checkpoint. */
  predicate ImprovedWithin(decide: nat -> Verdict, e: nat)
  {
    exists k :: 0 <= k < e && decide(k).improved
  }

  /** The trace of a whole successful run of `train_model`. */
  function RunOps(bs: seq<Batch>, budget: nat, decide: nat -> Verdict): (ops: seq<Op>)
    ensures var e := |EpochsOps(TrainPassOps(bs), EvalPassOps(bs, false), decide, EpochsRun(budget, decide))|;
            && |ops| > e + 2
            && ops[e] == Load && ops[e + 1] == Reset && ops[e + 2] == Fresh
    ensures |ops| >= 5 && ops[|ops| - 5..] == [Summarise(Train, true), Summarise(Val, true), Summarise(Test, true), MetricSave, Save]
  {
    EpochsOps(TrainPassOps(bs), EvalPassOps(bs, false), decide, EpochsRun(budget, decide))
      + [Load] + EvalPassOps(bs, true) + [MetricSave, Save]
  }

  // ---------------------------------------------------------------- the per-pass state machine

  /**
   * The lifecycle of a pass: reset, then per batch forward, an optional
   * optimizer step (training), metric updates (evaluation), exactly one
   * update, and in training a detach; an evaluation pass ends with the
   * three summaries.
   */
  datatype Phase = Idle | Cleared | Ready | Forwarded | Stepped | Updated | Summarised

  function Next(training: bool, p: Phase, op: Op): (q: Option<Phase>)
    ensures q.Some? && op.Forward? ==> p == Ready && q.value == Forwarded
    ensures q.Some? && op.Update? ==> p == Forwarded || p == Stepped
    ensures q.Some? && (op.Step? || op.Detach?) ==> training
    ensures q.Some? && (op.Fresh? || op.MetricUpdate? || op.Summarise?) ==> !training
    ensures q.Some? && op.Detach? ==> p == Updated && q.value == Ready
    ensures q.Some? ==> q.value != Idle && (op.Reset? <==> p == Idle)
  {
    match op
    case Reset => if p == Idle then Some(if training then Ready else Cleared) else None
    case Fresh => if !training && p == Cleared then Some(Ready) else None
    case Forward(_, _) => if p == Ready then Some(Forwarded) else None
    case Step(_) => if training && p == Forwarded then Some(Stepped) else None
    case MetricUpdate(_, _) => if !training && p == Forwarded then Some(Forwarded) else None
    case Update =>
      if p == Forwarded || (training && p == Stepped) then Some(if training then Updated else Ready) else None
    case Detach => if training && p == Updated then Some(Ready) else None
    case Summarise(_, _) => if !training && (p == Ready || p == Summarised) then Some(Summarised) else None
    case _ => None
  }

  function Run(training: bool, p: Phase, ops: seq<Op>): Option<Phase>
    decreases |ops|
  {
    if ops == [] then Some(p)
    else
      match Next(training, p, ops[0])
      case None => None
      case Some(q) => Run(training, q, ops[1..])
  }

  lemma {:induction false} RunAppend(training: bool, p: Phase, a: seq<Op>, b: seq<Op>, q: Phase)
    requires Run(training, p, a) == Some(q)
    ensures Run(training, p, a + b) == Run(training, q, b)
    decreases |a|
  {
    if a != [] {
      assert (a + b)[0] == a[0] && (a + b)[1..] == a[1..] + b;
      RunAppend(training, Next(training, p, a[0]).value, a[1..], b, q);
    } else {
      assert a + b == b;
    }
  }

  /** Running a trace that starts with one operation is taking that transition first. */
  lemma RunCons(training: bool, p: Phase, o: Op, rest: seq<Op>, q: Phase)
    requires Next(training, p, o) == Some(q)
    ensures Run(training, p, [o] + rest) == Run(training, q, rest)
  {
    assert ([o] + rest)[0] == o && ([o] + rest)[1..] == rest;
  }

  lemma TrainBatchAccepted(seen: seq<Batch>, b: Batch)
    ensures Run(true, Ready, TrainBatchOps(seen, b)) == Some(Ready)
  {
    var m := RoleMask(b, Train);
    RunCons(true, Updated, Detach, [], Ready);
    RunCons(true, Stepped, Update, [Detach], Updated);
    RunCons(true, Forwarded, Update, [Detach], Updated);
    RunCons(true, Forwarded, Step(0), [Update, Detach], Stepped);
    if Count(m) > 0 {
      RunCons(true, Ready, Forward(m, seen), [Step(0), Update, Detach], Forwarded);
      assert TrainBatchOps(seen, b) == [Forward(m, seen)] + [Step(0), Update, Detach];
    } else {
      RunCons(true, Ready, Forward(m, seen), [Update, Detach], Forwarded);
      assert TrainBatchOps(seen, b) == [Forward(m, seen)] + [Update, Detach];
    }
  }

  lemma {:induction false} TrainBatchesAccepted(bs: seq<Batch>)
    ensures Run(true, Ready, TrainBatchesOps(bs)) == Some(Ready)
  {
    if bs != [] {
      var n := |bs| - 1;
      TrainBatchesAccepted(bs[..n]);
      TrainBatchAccepted(bs[..n], bs[n]);
      RunAppend(true, Ready, TrainBatchesOps(bs[..n]), TrainBatchOps(bs[..n], bs[n]), Ready);
    }
  }

  /** Every training pass is a word of the training lifecycle and ends ready for the next pass. */
  lemma TrainPassAccepted(bs: seq<Batch>)
    ensures Run(true, Idle, TrainPassOps(bs)) == Some(Ready)
  {
    TrainBatchesAccepted(bs);
    RunCons(true, Idle, Reset, [], Ready);
    RunAppend(true, Idle, [Reset], TrainBatchesOps(bs), Ready);
  }

  lemma RoleOpsStay(b: Batch, r: Role)
    ensures Run(false, Forwarded, RoleOps(b, r)) == Some(Forwarded)
  {
    var n := Count(RoleMask(b, r));
    if n > 0 {
      RunCons(false, Forwarded, MetricUpdate(r, n), [], Forwarded);
      assert RoleOps(b, r) == [MetricUpdate(r, n)] + [];
    }
  }

  lemma EvalBatchAccepted(seen: seq<Batch>, b: Batch)
    ensures Run(false, Ready, EvalBatchOps(seen, b)) == Some(Ready)
  {
    var fwd := Forward(ObservedMask(b), seen);
    var a, v, t := RoleOps(b, Train), RoleOps(b, Val), RoleOps(b, Test);
    RoleOpsStay(b, Train);
    RoleOpsStay(b, Val);
    RoleOpsStay(b, Test);
    RunCons(false, Ready, fwd, [], Forwarded);
    RunAppend(false, Ready, [fwd], a, Forwarded);
    RunAppend(false, Ready, [fwd] + a, v, Forwarded);
    RunAppend(false, Ready, [fwd] + a + v, t, Forwarded);
    RunCons(false, Forwarded, Update, [], Ready);
    RunAppend(false, Ready, [fwd] + a + v + t, [Update], Forwarded);
  }

  lemma {:induction false} EvalBatchesAccepted(bs: seq<Batch>)
    ensures Run(false, Ready, EvalBatchesOps(bs)) == Some(Ready)
  {
    if bs != [] {
      var n := |bs| - 1;
      EvalBatchesAccepted(bs[..n]);
      EvalBatchAccepted(bs[..n], bs[n]);
      RunAppend(false, Ready, EvalBatchesOps(bs[..n]), EvalBatchOps(bs[..n], bs[n]), Ready);
    }
  }

  /** Every evaluation pass is a word of the evaluation lifecycle: no step, no detach, and it ends summarised. */
  lemma EvalPassAccepted(bs: seq<Batch>, final: bool)
    ensures Run(false, Idle, EvalPassOps(bs, final)) == Some(Summarised)
  {
    EvalBatchesAccepted(bs);
    RunCons(false, Cleared, Fresh, [], Ready);
    RunCons(false, Idle, Reset, [Fresh], Cleared);
    RunAppend(false, Idle, [Reset, Fresh], EvalBatchesOps(bs), Ready);
    RunCons(false, Summarised, Summarise(Test, final), [], Summarised);
    RunCons(false, Summarised, Summarise(Val, final), [Summarise(Test, final)], Summarised);
    RunCons(false, Ready, Summarise(Train, final), [Summarise(Val, final), Summarise(Test, final)], Summarised);
    RunAppend(false, Idle, [Reset, Fresh] + EvalBatchesOps(bs), SummaryOps(final), Ready);
  }

  /** Appending to a log in two steps is appending the concatenation; stated apart to keep the callers' proofs cheap. */
  lemma AppendAssoc(a: seq<Op>, b: seq<Op>, c: seq<Op>)
    ensures a + b + c == a + (b + c)
  {
  }

  /** The first i + 1 batches are the first i followed by batch i. */
  lemma PrefixSnoc(bs: seq<Batch>, i: nat)
    requires i < |bs|
    ensures bs[..i + 1] == bs[..i] + [bs[i]]
  {
    assert (bs[..i] + [bs[i]])[i] == bs[i];
  }

  /** Extending the batches by one extends the training trace by that batch's operations. */
  lemma TrainBatchesSnoc(bs: seq<Batch>, i: nat)
    requires i < |bs|
    ensures TrainBatchesOps(bs[..i + 1]) == TrainBatchesOps(bs[..i]) + TrainBatchOps(bs[..i], bs[i])
  {
    assert bs[..i + 1][..i] == bs[..i];
  }

  /** Extending the batches by one extends the evaluation trace by that batch's operations. */
  lemma EvalBatchesSnoc(bs: seq<Batch>, i: nat)
    requires i < |bs|
    ensures EvalBatchesOps(bs[..i + 1]) == EvalBatchesOps(bs[..i]) + EvalBatchOps(bs[..i], bs[i])
  {
    assert bs[..i + 1][..i] == bs[..i];
  }

  /** The state machine admits no forward while a forwarded batch still waits for its update. */
  lemma NoSkippedUpdate(training: bool, mask: seq<bool>, history: seq<Batch>)
    ensures Next(training, Forwarded, Forward(mask, history)) == None
    ensures Next(training, Stepped, Forward(mask, history)) == None
  {
  }
}

module ProtocolFacts {
  import opened Selection
  import opened Roles
  import opened Protocol

  // ---------------------------------------------------------------- counts over a trace

  /** Number of calls of one kind in a trace. */
  function Tally(ops: seq<Op>, k: Kind): nat
  {
    if ops == [] then 0
    else (if ops[0].Kind() == k then 1 else 0) + Tally(ops[1..], k)
  }

  /** Total number of targets handed to `metric.update` for role r in a trace. */
  function MetricTotal(ops: seq<Op>, r: Role): nat
  {
    if ops == [] then 0
    else (if ops[0].MetricUpdate? && ops[0].role == r then ops[0].n else 0) + MetricTotal(ops[1..], r)
  }

  /** Sum over the optimizer steps of the earlier batches each one's gradient reaches. */
  function ReachTotal(ops: seq<Op>): nat
  {
    if ops == [] then 0
    else (if ops[0].Step? then ops[0].reach else 0) + ReachTotal(ops[1..])
  }

  lemma {:induction false} TallyAppend(a: seq<Op>, b: seq<Op>, k: Kind)
    ensures Tally(a + b, k) == Tally(a, k) + Tally(b, k)
    decreases |a|
  {
    if a == [] {
      assert a + b == b;
    } else {
      assert (a + b)[0] == a[0] && (a + b)[1..] == a[1..] + b;
      TallyAppend(a[1..], b, k);
    }
  }

  lemma {:induction false} MetricTotalAppend(a: seq<Op>, b: seq<Op>, r: Role)
    ensures MetricTotal(a + b, r) == MetricTotal(a, r) + MetricTotal(b, r)
    decreases |a|
  {
    if a == [] {
      assert a + b == b;
    } else {
      assert (a + b)[0] == a[0] && (a + b)[1..] == a[1..] + b;
      MetricTotalAppend(a[1..], b, r);
    }
  }

  lemma {:induction false} ReachTotalAppend(a: seq<Op>, b: seq<Op>)
    ensures ReachTotal(a + b) == ReachTotal(a) + ReachTotal(b)
    decreases |a|
  {
    if a == [] {
      assert a + b == b;
    } else {
      assert (a + b)[0] == a[0] && (a + b)[1..] == a[1..] + b;
      ReachTotalAppend(a[1..], b);
    }
  }

  /** All three kinds of count of a concatenation add up. */
  lemma Split(a: seq<Op>, b: seq<Op>)
    ensures forall k :: Tally(a + b, k) == Tally(a, k) + Tally(b, k)
    ensures forall r :: MetricTotal(a + b, r) == MetricTotal(a, r) + MetricTotal(b, r)
    ensures ReachTotal(a + b) == ReachTotal(a) + ReachTotal(b)
  {
    forall k
      ensures Tally(a + b, k) == Tally(a, k) + Tally(b, k)
    {
      TallyAppend(a, b, k);
    }
    forall r
      ensures MetricTotal(a + b, r) == MetricTotal(a, r) + MetricTotal(b, r)
    {
      MetricTotalAppend(a, b, r);
    }
    ReachTotalAppend(a, b);
  }

  lemma Single(o: Op)
    ensures forall k :: Tally([o], k) == if o.Kind() == k then 1 else 0
    ensures forall r :: MetricTotal([o], r) == if o.MetricUpdate? && o.role == r then o.n else 0
    ensures ReachTotal([o]) == if o.Step? then o.reach else 0
  {
    assert [o][1..] == [];
  }

  lemma Empty()
    ensures forall k :: Tally([], k) == 0
    ensures forall r :: MetricTotal([], r) == 0
    ensures ReachTotal([]) == 0
  {
  }

  // ---------------------------------------------------------------- batch-level facts

  /** Number of batches whose role-r subset is non-empty. */
  function NonEmptyBatches(bs: seq<Batch>, r: Role): (n: nat)
    ensures n <= |bs|
  {
    if bs == [] then 0
    else
      var k := |bs| - 1;
      NonEmptyBatches(bs[..k], r) + (if Count(RoleMask(bs[k], r)) > 0 then 1 else 0)
  }

  /** Number of role-r events over all batches. */
  function RoleTotal(bs: seq<Batch>, r: Role): nat
  {
    if bs == [] then 0
    else
      var k := |bs| - 1;
      RoleTotal(bs[..k], r) + Count(RoleMask(bs[k], r))
  }

  lemma BatchTotalsSnoc(bs: seq<Batch>, i: nat, r: Role)
    requires i < |bs|
    ensures NonEmptyBatches(bs[..i + 1], r) == NonEmptyBatches(bs[..i], r) + (if Count(RoleMask(bs[i], r)) > 0 then 1 else 0)
    ensures RoleTotal(bs[..i + 1], r) == RoleTotal(bs[..i], r) + Count(RoleMask(bs[i], r))
  {
    assert bs[..i + 1][..i] == bs[..i];
  }

  /** Calls in a training batch's trace, for a given forward call and whether the optimizer steps. */
  lemma TrainBatchShape(fwd: Op, stepped: bool)
    requires fwd.Forward?
    ensures var ops := [fwd] + (if stepped then [Step(0)] else []) + [Update, Detach];
            && (forall k :: Tally(ops, k) ==
                  if k == KForward || k == KUpdate || k == KDetach then 1
                  else if k == KStep then (if stepped then 1 else 0)
                  else 0)
            && ReachTotal(ops) == 0
  {
    var head := [fwd] + (if stepped then [Step(0)] else []);
    var tail := [Update, Detach];
    assert tail[1..] == [Detach] && [Detach][1..] == [];
    assert head[1..] == if stepped then [Step(0)] else [];
    assert [Step(0)][1..] == [];
    forall k
      ensures Tally(head + tail, k) ==
                if k == KForward || k == KUpdate || k == KDetach then 1
                else if k == KStep then (if stepped then 1 else 0)
                else 0
    {
      TallyAppend(head, tail, k);
    }
    ReachTotalAppend(head, tail);
  }

  lemma TrainBatchCounts(seen: seq<Batch>, b: Batch)
    ensures forall k :: Tally(TrainBatchOps(seen, b), k) ==
              if k == KForward || k == KUpdate || k == KDetach then 1
              else if k == KStep then (if Count(RoleMask(b, Train)) > 0 then 1 else 0)
              else 0
    ensures ReachTotal(TrainBatchOps(seen, b)) == 0
  {
    TrainBatchShape(Forward(RoleMask(b, Train), seen), Count(RoleMask(b, Train)) > 0);
  }

  lemma {:induction false} TrainBatchesCounts(bs: seq<Batch>)
    ensures forall k :: Tally(TrainBatchesOps(bs), k) ==
              if k == KForward || k == KUpdate || k == KDetach then |bs|
              else if k == KStep then NonEmptyBatches(bs, Train)
              else 0
    ensures ReachTotal(TrainBatchesOps(bs)) == 0
  {
    if bs == [] {
      Empty();
    } else {
      var n := |bs| - 1;
      var a, t := TrainBatchesOps(bs[..n]), TrainBatchOps(bs[..n], bs[n]);
      TrainBatchesCounts(bs[..n]);
      TrainBatchCounts(bs[..n], bs[n]);
      Split(a, t);
      assert TrainBatchesOps(bs) == a + t;
    }
  }

  /**
   * A training pass resets once; forwards, updates and detaches exactly
   * once per batch; steps the optimizer (and appends to `train_loss`)
   * exactly once per batch with a non-empty train subset; makes no other
   * call; and no step's gradient reaches an earlier batch through memory.
   */
  lemma TrainPassCounts(bs: seq<Batch>)
    ensures forall k :: Tally(TrainPassOps(bs), k) ==
              if k == KReset then 1
              else if k == KForward || k == KUpdate || k == KDetach then |bs|
              else if k == KStep then NonEmptyBatches(bs, Train)
              else 0
    ensures ReachTotal(TrainPassOps(bs)) == 0
  {
    TrainBatchesCounts(bs);
    Single(Reset);
    Split([Reset], TrainBatchesOps(bs));
  }

  lemma RoleOpsCounts(b: Batch, r: Role)
    ensures forall k :: k != KMetricUpdate ==> Tally(RoleOps(b, r), k) == 0
    ensures forall s :: MetricTotal(RoleOps(b, r), s) == if s == r then Count(RoleMask(b, r)) else 0
  {
    Empty();
    Single(MetricUpdate(r, Count(RoleMask(b, r))));
  }

  /** The `metric.update` calls of one evaluation batch, role by role. */
  lemma MetricOpsCounts(b: Batch)
    ensures forall k :: k != KMetricUpdate ==> Tally(RoleOps(b, Train) + RoleOps(b, Val) + RoleOps(b, Test), k) == 0
    ensures forall r :: MetricTotal(RoleOps(b, Train) + RoleOps(b, Val) + RoleOps(b, Test), r) == Count(RoleMask(b, r))
  {
    var a, v, t := RoleOps(b, Train), RoleOps(b, Val), RoleOps(b, Test);
    RoleOpsCounts(b, Train);
    RoleOpsCounts(b, Val);
    RoleOpsCounts(b, Test);
    Split(a, v);
    Split(a + v, t);
  }

  /** Tallies of a forward, then some metric updates, then an update. */
  lemma ForwardThenUpdate(fwd: Op, ms: seq<Op>)
    requires fwd.Forward?
    requires forall k :: k != KMetricUpdate ==> Tally(ms, k) == 0
    ensures forall k :: Tally([fwd] + ms + [Update], k) ==
              (if k == KForward || k == KUpdate then 1 else 0) + Tally(ms, k)
    ensures forall r :: MetricTotal([fwd] + ms + [Update], r) == MetricTotal(ms, r)
  {
    Single(fwd);
    Single(Update);
    Split([fwd], ms);
    Split([fwd] + ms, [Update]);
  }

  lemma EvalBatchCounts(seen: seq<Batch>, b: Batch)
    ensures forall k :: k != KMetricUpdate ==>
              Tally(EvalBatchOps(seen, b), k) == if k == KForward || k == KUpdate then 1 else 0
    ensures forall r :: MetricTotal(EvalBatchOps(seen, b), r) == Count(RoleMask(b, r))
  {
    var ms := RoleOps(b, Train) + RoleOps(b, Val) + RoleOps(b, Test);
    var fwd := Forward(ObservedMask(b), seen);
    MetricOpsCounts(b);
    ForwardThenUpdate(fwd, ms);
    assert EvalBatchOps(seen, b) == [fwd] + ms + [Update];
  }

  lemma {:induction false} EvalBatchesCounts(bs: seq<Batch>)
    ensures forall k :: k != KMetricUpdate ==>
              Tally(EvalBatchesOps(bs), k) == if k == KForward || k == KUpdate then |bs| else 0
    ensures forall r :: MetricTotal(EvalBatchesOps(bs), r) == RoleTotal(bs, r)
  {
    if bs == [] {
      Empty();
    } else {
      var n := |bs| - 1;
      var a, t := EvalBatchesOps(bs[..n]), EvalBatchOps(bs[..n], bs[n]);
      EvalBatchesCounts(bs[..n]);
      EvalBatchCounts(bs[..n], bs[n]);
      Split(a, t);
      assert EvalBatchesOps(bs) == a + t;
    }
  }

  lemma ResetFreshCounts()
    ensures forall k :: Tally([Reset, Fresh], k) == if k == KReset || k == KFresh then 1 else 0
    ensures forall r :: MetricTotal([Reset, Fresh], r) == 0
  {
    Single(Reset);
    Single(Fresh);
    Split([Reset], [Fresh]);
    assert [Reset] + [Fresh] == [Reset, Fresh];
  }

  lemma SummaryCounts(final: bool)
    ensures forall k :: Tally(SummaryOps(final), k) == if k == KSummarise then 3 else 0
    ensures forall r :: MetricTotal(SummaryOps(final), r) == 0
  {
    var a, b, c := Summarise(Train, final), Summarise(Val, final), Summarise(Test, final);
    Single(a);
    Single(b);
    Single(c);
    Split([a], [b]);
    Split([a, b], [c]);
    assert [a] + [b] == [a, b];
    assert [a, b] + [c] == SummaryOps(final);
  }

  /**
   * An evaluation pass resets once and freshens the metric once; forwards
   * and updates exactly once per batch; summarises each role once; never
   * steps, detaches or makes any other call; and hands to `metric.update`
   * exactly as many role-r targets as the batches hold role-r events.
   */
  lemma EvalPassCounts(bs: seq<Batch>, final: bool)
    ensures forall k :: k != KMetricUpdate ==>
              Tally(EvalPassOps(bs, final), k) ==
                if k == KReset || k == KFresh then 1
                else if k == KForward || k == KUpdate then |bs|
                else if k == KSummarise then 3
                else 0
    ensures forall r :: MetricTotal(EvalPassOps(bs, final), r) == RoleTotal(bs, r)
  {
    var pre, mid, post := [Reset, Fresh], EvalBatchesOps(bs), SummaryOps(final);
    EvalBatchesCounts(bs);
    ResetFreshCounts();
    SummaryCounts(final);
    Split(pre, mid);
    Split(pre + mid, post);
    assert EvalPassOps(bs, final) == pre + mid + post;
  }

  // ---------------------------------------------------------------- epochs and the run

  /** Calls per epoch of the kinds the epoch loop itself is responsible for, for n batches. */
  function EpochShare(n: nat, k: Kind): nat
  {
    if k == KReset then 2
    else if k == KDetach then n
    else if k == KFresh || k == KStopCheck then 1
    else 0
  }

  ghost predicate LoopKind(k: Kind)
  {
    k == KReset || k == KDetach || k == KFresh || k == KStopCheck || k == KLoad
  }

  /** Calls of a loop kind made by a training pass over n batches. */
  function TrainShare(n: nat, k: Kind): nat
  {
    if k == KReset then 1 else if k == KDetach then n else 0
  }

  /** Calls of a loop kind made by an evaluation pass. */
  function EvalShare(k: Kind): nat
  {
    if k == KReset || k == KFresh then 1 else 0
  }

  lemma TrainPassShare(bs: seq<Batch>)
    ensures forall k :: LoopKind(k) ==> Tally(TrainPassOps(bs), k) == TrainShare(|bs|, k)
  {
    TrainPassCounts(bs);
  }

  lemma EvalPassShare(bs: seq<Batch>, final: bool)
    ensures forall k :: LoopKind(k) ==> Tally(EvalPassOps(bs, final), k) == EvalShare(k)
  {
    EvalPassCounts(bs, final);
  }

  lemma EpochCounts(train: seq<Op>, eval: seq<Op>, n: nat, v: Verdict)
    requires forall k :: LoopKind(k) ==> Tally(train, k) == TrainShare(n, k)
    requires forall k :: LoopKind(k) ==> Tally(eval, k) == EvalShare(k)
    ensures forall k :: LoopKind(k) ==> Tally(EpochOps(train, eval, v), k) == EpochShare(n, k)
  {
    var c := if v.improved then [Save] else [];
    Empty();
    Single(Save);
    Single(StopCheck(v.stop));
    Split(c, [StopCheck(v.stop)]);
    Split(train, eval);
    Split(train + eval, CheckOps(v));
  }

  /**
   * Over e epochs the model is reset twice per epoch (its training pass
   * and its validation pass), detached once per batch, the metric is
   * freshened once and the early stop checked once per epoch, and nothing
   * is loaded.
   */
  lemma {:induction false} EpochsCounts(train: seq<Op>, eval: seq<Op>, n: nat, decide: nat -> Verdict, e: nat)
    requires forall k :: LoopKind(k) ==> Tally(train, k) == TrainShare(n, k)
    requires forall k :: LoopKind(k) ==> Tally(eval, k) == EvalShare(k)
    ensures forall k :: LoopKind(k) ==> Tally(EpochsOps(train, eval, decide, e), k) == e * EpochShare(n, k)
  {
    if e == 0 {
      Empty();
    } else {
      var a, t := EpochsOps(train, eval, decide, e - 1), EpochOps(train, eval, decide(e - 1));
      EpochsCounts(train, eval, n, decide, e - 1);
      EpochCounts(train, eval, n, decide(e - 1));
      Split(a, t);
      forall k | LoopKind(k)
        ensures Tally(EpochsOps(train, eval, decide, e), k) == e * EpochShare(n, k)
      {
        assert (e - 1) * EpochShare(n, k) + EpochShare(n, k) == e * EpochShare(n, k);
      }
    }
  }

  lemma {:induction false} EpochsFromSpec(e: nat, budget: nat, decide: nat -> Verdict)
    requires e <= budget
    ensures var r := EpochsFrom(e, budget, decide);
            && e <= r <= budget
            && (e < budget ==> e < r)
            && (forall k :: e <= k < r - 1 ==> !decide(k).stop)
            && (r < budget ==> decide(r - 1).stop)
    decreases budget - e
  {
    if e < budget && !decide(e).stop {
      EpochsFromSpec(e + 1, budget, decide);
    }
  }

  /**
   * The epoch loop runs at most `budget` epochs, at least one when the
   * budget allows, never stops before the first stop verdict, and ends
   * early only right after an epoch whose verdict was stop.
   */
  lemma EpochsRunSpec(budget: nat, decide: nat -> Verdict)
    ensures EpochsRun(budget, decide) <= budget
    ensures budget > 0 ==> EpochsRun(budget, decide) > 0
    ensures forall k :: 0 <= k < EpochsRun(budget, decide) - 1 ==> !decide(k).stop
    ensures EpochsRun(budget, decide) < budget ==> decide(EpochsRun(budget, decide) - 1).stop
  {
    EpochsFromSpec(0, budget, decide);
  }

  /** Calls of kind k in the epoch loop followed by the load, the final pass and the saves. */
  lemma RunTail(a: seq<Op>, u: seq<Op>, k: Kind)
    ensures Tally(a + [Load] + u + [MetricSave, Save], k)
         == Tally(a, k) + (if k == KLoad then 1 else 0) + Tally(u, k)
          + (if k == KMetricSave then 1 else 0) + (if k == KSave then 1 else 0)
  {
    TallyAppend(a, [Load], k);
    TallyAppend(a + [Load], u, k);
    TallyAppend(a + [Load] + u, [MetricSave, Save], k);
    TallyAppend([MetricSave], [Save], k);
    assert [MetricSave] + [Save] == [MetricSave, Save];
    TallyOne(Load, k);
    TallyOne(MetricSave, k);
    TallyOne(Save, k);
  }

  lemma TallyOne(o: Op, k: Kind)
    ensures Tally([o], k) == if o.Kind() == k then 1 else 0
  {
    assert [o][1..] == [];
  }

  /** The counts of a run from the counts of its epoch loop and of its final pass. */
  lemma RunTotals(a: seq<Op>, u: seq<Op>, e: nat, n: nat)
    requires forall k :: LoopKind(k) ==> Tally(a, k) == e * EpochShare(n, k)
    requires forall k :: LoopKind(k) ==> Tally(u, k) == EvalShare(k)
    ensures Tally(a + [Load] + u + [MetricSave, Save], KReset) == 2 * e + 1
    ensures Tally(a + [Load] + u + [MetricSave, Save], KFresh) == e + 1
    ensures Tally(a + [Load] + u + [MetricSave, Save], KStopCheck) == e
    ensures Tally(a + [Load] + u + [MetricSave, Save], KLoad) == 1
  {
    assert LoopKind(KReset) && LoopKind(KFresh) && LoopKind(KStopCheck) && LoopKind(KLoad);
    RunTail(a, u, KReset);
    RunTail(a, u, KFresh);
    RunTail(a, u, KStopCheck);
    RunTail(a, u, KLoad);
  }

  /**
   * A run resets the model once per training pass, once per validation
   * pass and once for the final test pass, runs one evaluation pass (one
   * `metric.fresh`) per epoch plus the final one, checks for early stop
   * once per epoch it runs, and loads the best checkpoint once.
   */
  lemma RunCounts(bs: seq<Batch>, budget: nat, decide: nat -> Verdict)
    ensures Tally(RunOps(bs, budget, decide), KReset) == 2 * EpochsRun(budget, decide) + 1
    ensures Tally(RunOps(bs, budget, decide), KFresh) == EpochsRun(budget, decide) + 1
    ensures Tally(RunOps(bs, budget, decide), KStopCheck) == EpochsRun(budget, decide)
    ensures Tally(RunOps(bs, budget, decide), KLoad) == 1
  {
    var e := EpochsRun(budget, decide);
    var t, v, u := TrainPassOps(bs), EvalPassOps(bs, false), EvalPassOps(bs, true);
    TrainPassShare(bs);
    EvalPassShare(bs, false);
    EvalPassShare(bs, true);
    EpochsCounts(t, v, |bs|, decide, e);
    RunTotals(EpochsOps(t, v, decide, e), u, e, |bs|);
  }
}
