/**
 * The two loops of train/train.py: `eval_model` (one evaluation pass over
 * the batches, lines 34-66) and `train_model` (the epoch loop with its
 * training passes, validation passes, early stop and final test pass,
 * lines 69-122). Each method is proved against the traces of module
 * Protocol: on success the shared log grows by exactly the trace the
 * protocol prescribes.
 */
module Training {
  import opened Wrappers
  import opened Selection
  import opened Roles
  import opened Labels
  import opened Protocol
  import opened ProtocolFacts
  import opened Engine

  /** Why a run stops short: a cascade id missing from the decoder table, or no checkpoint to load. */
  datatype Error = MissingLabel(cascade: int) | NoCheckpoint

  /** Every observed event of the batch, whatever its role, has its cascade in the decoder table. */
  ghost predicate BatchCovered(decoder: map<int, int>, b: Batch)
  {
    Covered(decoder, b, Train) && Covered(decoder, b, Val) && Covered(decoder, b, Test)
  }

  /** Every observed event of the first n batches has its cascade in the decoder table. */
  ghost predicate CoveredUpTo(decoder: map<int, int>, bs: seq<Batch>, n: nat)
  {
    forall i :: 0 <= i < n && i < |bs| ==> BatchCovered(decoder, bs[i])
  }

  /** Every observed event of every batch has its cascade in the decoder table. */
  ghost predicate AllCovered(decoder: map<int, int>, bs: seq<Batch>)
  {
    CoveredUpTo(decoder, bs, |bs|)
  }

  lemma CoveredStep(decoder: map<int, int>, bs: seq<Batch>, i: nat)
    requires i < |bs| && CoveredUpTo(decoder, bs, i) && BatchCovered(decoder, bs[i])
    ensures CoveredUpTo(decoder, bs, i + 1)
  {
  }

  /** Every accumulated sample carries the clamped decoder size of its own cascade. */
  ghost predicate Sane(decoder: map<int, int>, samples: seq<Sample>)
  {
    forall k :: 0 <= k < |samples| ==>
      samples[k].cascade in decoder && samples[k].size == Clamp(decoder[samples[k].cascade])
  }

  lemma SaneAppend(decoder: map<int, int>, a: seq<Sample>, b: seq<Sample>)
    requires Sane(decoder, a) && Sane(decoder, b)
    ensures Sane(decoder, a + b)
  {
    forall k | 0 <= k < |a + b|
      ensures (a + b)[k].cascade in decoder && (a + b)[k].size == Clamp(decoder[(a + b)[k].cascade])
    {
      if k >= |a| {
        assert (a + b)[k] == b[k - |a|];
      }
    }
  }

  /** `metric.update`'s arguments as samples: target ids, predictions and labels side by side. */
  function Zip(targets: seq<int>, preds: seq<real>, labels: seq<int>): (s: seq<Sample>)
    requires |targets| == |preds| == |labels|
    ensures |s| == |targets|
  {
    if targets == [] then []
    else
      var n := |targets| - 1;
      Zip(targets[..n], preds[..n], labels[..n]) + [Sample(targets[n], preds[n], labels[n])]
  }

  /** The k-th zipped sample holds the k-th target, prediction and label. */
  lemma {:induction false} ZipAt(targets: seq<int>, preds: seq<real>, labels: seq<int>, k: nat)
    requires |targets| == |preds| == |labels| && k < |targets|
    ensures Zip(targets, preds, labels)[k] == Sample(targets[k], preds[k], labels[k])
  {
    var n := |targets| - 1;
    if k < n {
      ZipAt(targets[..n], preds[..n], labels[..n], k);
    }
  }

  /**
   * The samples role r of batch b hands to `metric.update`, given the
   * batch's predictions: the role's cascades, predictions and sanitised
   * labels side by side, or none when the lookup fails.
   */
  function RoleAdded(decoder: map<int, int>, b: Batch, pred: seq<real>, r: Role): (added: seq<Sample>)
    requires |pred| == |b|
    ensures |added| == if RoleLabels(decoder, b, r).Success? then Count(RoleMask(b, r)) else 0
  {
    var mask := RoleMask(b, r);
    match RoleLabels(decoder, b, r)
    case Success(labels) => Zip(Select(Cascades(b), mask), Select(pred, mask), labels)
    case Failure(_) => []
  }

  /** The loss role r of batch b computes: one when the role has events and their lookup succeeds. */
  function RoleLoss(decoder: map<int, int>, b: Batch, pred: seq<real>, r: Role, lossFn: LossFn): Option<real>
    requires |pred| == |b|
  {
    var mask := RoleMask(b, r);
    match RoleLabels(decoder, b, r)
    case Success(labels) => if Count(mask) > 0 then Some(lossFn(Select(pred, mask), labels)) else None
    case Failure(_) => None
  }

  /** The k-th sample role r adds is the k-th event of the role, with its own prediction and clamped size. */
  lemma RoleAddedAt(decoder: map<int, int>, b: Batch, pred: seq<real>, r: Role, k: nat)
    requires |pred| == |b| && Covered(decoder, b, r) && k < Count(RoleMask(b, r))
    ensures RoleLabels(decoder, b, r).Success?
    ensures var i := Positions(RoleMask(b, r))[k];
            && RoleOf(b[i].labelValue, b[i].kind) == Some(r)
            && b[i].cascade in decoder
            && RoleAdded(decoder, b, pred, r)[k] == Sample(b[i].cascade, pred[i], Clamp(decoder[b[i].cascade]))
  {
    RoleLabelsSucceeds(decoder, b, r);
    var mask := RoleMask(b, r);
    SelectAt(pred, mask, k);
    SelectedCascade(b, r, k);
    RoleLabelsValues(decoder, b, r, k);
    ZipAt(Select(Cascades(b), mask), Select(pred, mask), RoleLabels(decoder, b, r).value, k);
  }

  /** When the table covers role r's events, the role adds one well-formed sample per event, and a loss iff it has events. */
  lemma RoleShape(decoder: map<int, int>, b: Batch, pred: seq<real>, r: Role, lossFn: LossFn)
    requires |pred| == |b| && Covered(decoder, b, r)
    ensures |RoleAdded(decoder, b, pred, r)| == Count(RoleMask(b, r))
    ensures Sane(decoder, RoleAdded(decoder, b, pred, r))
    ensures |Entries(RoleLoss(decoder, b, pred, r, lossFn))| == if Count(RoleMask(b, r)) > 0 then 1 else 0
  {
    RoleLabelsSucceeds(decoder, b, r);
    var added := RoleAdded(decoder, b, pred, r);
    forall k | 0 <= k < |added|
      ensures added[k].cascade in decoder && added[k].size == Clamp(decoder[added[k].cascade])
    {
      RoleAddedAt(decoder, b, pred, r, k);
    }
  }

  /**
   * When the table covers role r's events, the role adds one sample per
   * event of the role, in batch order: the k-th is the k-th event of the
   * role, with its own cascade, its own prediction and the clamped size of
   * its cascade. It computes a loss iff it has events.
   */
  lemma RoleSamples(decoder: map<int, int>, b: Batch, pred: seq<real>, r: Role, lossFn: LossFn)
    requires |pred| == |b| && Covered(decoder, b, r)
    ensures var mask := RoleMask(b, r);
            var added := RoleAdded(decoder, b, pred, r);
            && |added| == Count(mask)
            && Sane(decoder, added)
            && (RoleLoss(decoder, b, pred, r, lossFn).Some? <==> Count(mask) > 0)
            && forall k :: 0 <= k < |added| ==>
                 var i := Positions(mask)[k];
                 && RoleOf(b[i].labelValue, b[i].kind) == Some(r)
                 && added[k] == Sample(b[i].cascade, pred[i], Clamp(decoder[b[i].cascade]))
  {
    RoleShape(decoder, b, pred, r, lossFn);
    forall k | 0 <= k < Count(RoleMask(b, r))
      ensures var i := Positions(RoleMask(b, r))[k];
              && RoleOf(b[i].labelValue, b[i].kind) == Some(r)
              && b[i].cascade in decoder
              && RoleAdded(decoder, b, pred, r)[k] == Sample(b[i].cascade, pred[i], Clamp(decoder[b[i].cascade]))
    {
      RoleAddedAt(decoder, b, pred, r, k);
    }
  }

  /**
   * The per-role body of the evaluation loop (train/train.py:50-61): when
   * role r has events in the batch, their labels are looked up and
   * clamped, one loss is computed and `metric.update` receives one sample
   * per event of the role, in batch order.
   */
  method EvalRole(metric: Metric, b: Batch, pred: seq<real>, decoder: map<int, int>, r: Role, lossFn: LossFn)
    returns (res: Result<Option<real>, Error>, added: seq<Sample>)
    requires |pred| == |b|
    modifies metric, metric.log
    ensures res.Success? <==> Covered(decoder, b, r)
    ensures res.Failure? ==> res.error.MissingLabel? && res.error.cascade !in decoder
    ensures res.Failure? ==> metric.pools == old(metric.pools) && metric.log.ops == old(metric.log.ops)
    ensures res.Success? ==> added == RoleAdded(decoder, b, pred, r) && res.value == RoleLoss(decoder, b, pred, r, lossFn)
    ensures res.Success? ==> |added| == Count(RoleMask(b, r)) && (res.value.Some? <==> |added| > 0)
    ensures res.Success? ==> Sane(decoder, added)
    ensures res.Success? ==> metric.pools == old(metric.pools).Set(r, old(metric.pools).Get(r) + added)
    ensures res.Success? ==> metric.log.ops == old(metric.log.ops) + RoleOps(b, r)
    ensures metric.history == old(metric.history) && metric.finals == old(metric.finals)
  {
    var mask := RoleMask(b, r);
    added := [];
    if Count(mask) == 0 {
      assert Covered(decoder, b, r);
      assert Select(Cascades(b), mask) == [];
      RoleSamples(decoder, b, pred, r, lossFn);
      assert old(metric.pools).Get(r) + added == old(metric.pools).Get(r);
      return Success(None), added;
    }
    var labels := RoleLabels(decoder, b, r);
    RoleLabelsSucceeds(decoder, b, r);
    if labels.Failure? {
      return Failure(MissingLabel(labels.error)), added;
    }
    var targets, preds := Select(Cascades(b), mask), Select(pred, mask);
    RoleSamples(decoder, b, pred, r, lossFn);
    added := Zip(targets, preds, labels.value);
    var loss := lossFn(preds, labels.value);
    metric.Update(r, added);
    res := Success(Some(loss));
  }

  /** The entries a computed loss adds to its role's list. */
  function Entries(loss: Option<real>): seq<real>
  {
    if loss.Some? then [loss.value] else []
  }

  /** `loss[dtype].append(...)` when the role produced a loss: the old entries are kept and the loss follows them. */
  function AddLoss(losses: PerRole<seq<real>>, r: Role, loss: Option<real>): (l: PerRole<seq<real>>)
    ensures l.Get(r) == losses.Get(r) + Entries(loss)
    ensures |l.Get(r)| == |losses.Get(r)| + (if loss.Some? then 1 else 0)
    ensures forall s :: s != r ==> l.Get(s) == losses.Get(s)
  {
    if loss.Some? then losses.Set(r, losses.Get(r) + [loss.value]) else losses
  }

  /** Role r's loss list and accumulator after one evaluation batch with predictions `pred`. */
  ghost predicate Grown(decoder: map<int, int>, lossFn: LossFn, b: Batch, pred: seq<real>, r: Role,
                        l0: PerRole<seq<real>>, l1: PerRole<seq<real>>,
                        p0: PerRole<seq<Sample>>, p1: PerRole<seq<Sample>>)
    requires |pred| == |b|
  {
    && l1.Get(r) == l0.Get(r) + Entries(RoleLoss(decoder, b, pred, r, lossFn))
    && p1.Get(r) == p0.Get(r) + RoleAdded(decoder, b, pred, r)
  }

  /** Every role's loss list and accumulator after one evaluation batch with predictions `pred`. */
  ghost predicate GrownAll(decoder: map<int, int>, lossFn: LossFn, b: Batch, pred: seq<real>,
                           l0: PerRole<seq<real>>, l1: PerRole<seq<real>>,
                           p0: PerRole<seq<Sample>>, p1: PerRole<seq<Sample>>)
    requires |pred| == |b|
  {
    && Grown(decoder, lossFn, b, pred, Train, l0, l1, p0, p1)
    && Grown(decoder, lossFn, b, pred, Val, l0, l1, p0, p1)
    && Grown(decoder, lossFn, b, pred, Test, l0, l1, p0, p1)
  }

  /** Three role updates in a row, each leaving the other roles alone, grow every role once. */
  lemma GrownThree(decoder: map<int, int>, lossFn: LossFn, b: Batch, pred: seq<real>,
                   l0: PerRole<seq<real>>, l1: PerRole<seq<real>>, l2: PerRole<seq<real>>, l3: PerRole<seq<real>>,
                   p0: PerRole<seq<Sample>>, p1: PerRole<seq<Sample>>, p2: PerRole<seq<Sample>>,
                   p3: PerRole<seq<Sample>>)
    requires |pred| == |b|
    requires Grown(decoder, lossFn, b, pred, Train, l0, l1, p0, p1)
    requires forall s :: s != Train ==> l1.Get(s) == l0.Get(s) && p1.Get(s) == p0.Get(s)
    requires Grown(decoder, lossFn, b, pred, Val, l1, l2, p1, p2)
    requires forall s :: s != Val ==> l2.Get(s) == l1.Get(s) && p2.Get(s) == p1.Get(s)
    requires Grown(decoder, lossFn, b, pred, Test, l2, l3, p2, p3)
    requires forall s :: s != Test ==> l3.Get(s) == l2.Get(s) && p3.Get(s) == p2.Get(s)
    ensures GrownAll(decoder, lossFn, b, pred, l0, l3, p0, p3)
  {
    assert l3.Get(Train) == l1.Get(Train) && p3.Get(Train) == p1.Get(Train);
    assert l0.Get(Val) == l1.Get(Val) && p0.Get(Val) == p1.Get(Val);
    assert l3.Get(Val) == l2.Get(Val) && p3.Get(Val) == p2.Get(Val);
    assert l0.Get(Test) == l2.Get(Test) && p0.Get(Test) == p2.Get(Test);
  }

  /** One role's update of an evaluation batch, with its loss recorded in `losses`. */
  method EvalRoleInto(metric: Metric, b: Batch, pred: seq<real>, decoder: map<int, int>, r: Role,
                      lossFn: LossFn, losses: PerRole<seq<real>>)
    returns (res: Result<PerRole<seq<real>>, Error>)
    requires |pred| == |b|
    modifies metric, metric.log
    ensures res.Success? <==> Covered(decoder, b, r)
    ensures res.Failure? ==> res.error.MissingLabel? && res.error.cascade !in decoder
    ensures res.Success? ==> metric.log.ops == old(metric.log.ops) + RoleOps(b, r)
    ensures res.Success? ==> Grown(decoder, lossFn, b, pred, r, losses, res.value, old(metric.pools), metric.pools)
    ensures res.Success? ==>
              forall s :: s != r ==> res.value.Get(s) == losses.Get(s) && metric.pools.Get(s) == old(metric.pools).Get(s)
    ensures metric.history == old(metric.history) && metric.finals == old(metric.finals)
  {
    var loss, added := EvalRole(metric, b, pred, decoder, r, lossFn);
    if loss.Failure? {
      return Failure(loss.error);
    }
    res := Success(AddLoss(losses, r, loss.value));
  }

  /** The three role updates of one evaluation batch (train/train.py:50-61). */
  method EvalRoles(metric: Metric, b: Batch, pred: seq<real>, decoder: map<int, int>,
                   lossFn: LossFn, losses: PerRole<seq<real>>)
    returns (res: Result<PerRole<seq<real>>, Error>)
    requires |pred| == |b|
    modifies metric, metric.log
    ensures res.Success? <==> BatchCovered(decoder, b)
    ensures res.Failure? ==> res.error.MissingLabel? && res.error.cascade !in decoder
    ensures res.Success? ==> metric.log.ops == old(metric.log.ops) + RoleOps(b, Train) + RoleOps(b, Val) + RoleOps(b, Test)
    ensures res.Success? ==> GrownAll(decoder, lossFn, b, pred, losses, res.value, old(metric.pools), metric.pools)
    ensures metric.history == old(metric.history) && metric.finals == old(metric.finals)
  {
    ghost var p0 := metric.pools;
    var l1 := EvalRoleInto(metric, b, pred, decoder, Train, lossFn, losses);
    if l1.Failure? {
      return l1;
    }
    ghost var p1 := metric.pools;
    var l2 := EvalRoleInto(metric, b, pred, decoder, Val, lossFn, l1.value);
    if l2.Failure? {
      return l2;
    }
    ghost var p2 := metric.pools;
    var l3 := EvalRoleInto(metric, b, pred, decoder, Test, lossFn, l2.value);
    if l3.Failure? {
      return l3;
    }
    GrownThree(decoder, lossFn, b, pred, losses, l1.value, l2.value, l3.value, p0, p1, p2, metric.pools);
    res := l3;
  }

  /** The predictions of an evaluation batch: forward with its observed mask from memory `mem` and parameters `version`. */
  function EvalPreds(net: Net, mem: seq<Batch>, version: nat, b: Batch): (p: seq<real>)
    ensures |p| == |b|
  {
    Predictions(net, mem, version, b, ObservedMask(b))
  }

  /** The log of one evaluation batch, in the order its calls are made; stated apart to keep solver cost down. */
  lemma EvalBatchLog(l: seq<Op>, seen: seq<Batch>, b: Batch)
    ensures l + [Op.Forward(ObservedMask(b), seen)] + RoleOps(b, Train) + RoleOps(b, Val) + RoleOps(b, Test) + [Update]
            == l + EvalBatchOps(seen, b)
  {
  }

  /**
   * One batch of the evaluation loop (train/train.py:44-62): forward with
   * the observed mask, the per-role updates on those predictions, then one
   * `update_state` and no detach.
   */
  method EvalBatch(model: Model, metric: Metric, b: Batch, decoder: map<int, int>,
                   lossFn: LossFn, losses: PerRole<seq<real>>)
    returns (res: Result<PerRole<seq<real>>, Error>)
    requires model.log == metric.log && !model.training
    modifies model, metric, model.log
    ensures res.Success? <==> BatchCovered(decoder, b)
    ensures res.Failure? ==> res.error.MissingLabel? && res.error.cascade !in decoder
    ensures res.Success? ==> model.log.ops == old(model.log.ops) + EvalBatchOps(old(model.memory), b)
    ensures res.Success? ==> model.memory == old(model.memory) + [b] && model.pending == None
    ensures model.version == old(model.version) && model.checkpoint == old(model.checkpoint)
    ensures model.training == old(model.training)
    ensures res.Success? ==>
              GrownAll(decoder, lossFn, b, EvalPreds(model.net, old(model.memory), old(model.version), b),
                       losses, res.value, old(metric.pools), metric.pools)
    ensures metric.history == old(metric.history) && metric.finals == old(metric.finals)
  {
    var target := ObservedMask(b);
    var pred := model.Forward(b, target);
    res := EvalRoles(metric, b, pred, decoder, lossFn, losses);
    if res.Success? {
      model.UpdateState();
      EvalBatchLog(old(model.log.ops), old(model.memory), b);
    }
  }

  /**
   * What role r's accumulator holds after an evaluation pass over `bs`
   * with parameters `version`: batch by batch, the samples of the role's
   * events, each batch predicted from a memory holding the batches before it.
   */
  ghost function PassSamples(net: Net, version: nat, decoder: map<int, int>, bs: seq<Batch>, r: Role): seq<Sample>
  {
    if bs == [] then []
    else
      var n := |bs| - 1;
      PassSamples(net, version, decoder, bs[..n], r) + RoleAdded(decoder, bs[n], EvalPreds(net, bs[..n], version, bs[n]), r)
  }

  /** Role r's loss list after an evaluation pass over `bs`: one loss per batch where the role computed one. */
  ghost function PassLosses(net: Net, version: nat, decoder: map<int, int>, lossFn: LossFn, bs: seq<Batch>, r: Role)
    : seq<real>
  {
    if bs == [] then []
    else
      var n := |bs| - 1;
      PassLosses(net, version, decoder, lossFn, bs[..n], r)
        + Entries(RoleLoss(decoder, bs[n], EvalPreds(net, bs[..n], version, bs[n]), r, lossFn))
  }

  /** Role r's summary after an evaluation pass over `bs`. */
  ghost function PassSummary(net: Net, version: nat, decoder: map<int, int>, lossFn: LossFn, bs: seq<Batch>,
                             final: bool, r: Role): Summary
  {
    Summary(r, PassSamples(net, version, decoder, bs, r), PassLosses(net, version, decoder, lossFn, bs, r), final)
  }

  /** The three summaries of an evaluation pass over `bs`. */
  ghost function PassSummaries(net: Net, version: nat, decoder: map<int, int>, lossFn: LossFn, bs: seq<Batch>,
                               final: bool): PerRole<Summary>
  {
    PerRole(PassSummary(net, version, decoder, lossFn, bs, final, Train),
            PassSummary(net, version, decoder, lossFn, bs, final, Val),
            PassSummary(net, version, decoder, lossFn, bs, final, Test))
  }

  /** A non-empty pass is the pass over all batches but the last, followed by the last batch. */
  lemma PassUnfold(net: Net, version: nat, decoder: map<int, int>, lossFn: LossFn, bs: seq<Batch>, r: Role)
    requires bs != []
    ensures var n := |bs| - 1;
            var pred := EvalPreds(net, bs[..n], version, bs[n]);
            && PassSamples(net, version, decoder, bs, r) == PassSamples(net, version, decoder, bs[..n], r)
                 + RoleAdded(decoder, bs[n], pred, r)
            && PassLosses(net, version, decoder, lossFn, bs, r) == PassLosses(net, version, decoder, lossFn, bs[..n], r)
                 + Entries(RoleLoss(decoder, bs[n], pred, r, lossFn))
            && RoleTotal(bs, r) == RoleTotal(bs[..n], r) + Count(RoleMask(bs[n], r))
            && NonEmptyBatches(bs, r) == NonEmptyBatches(bs[..n], r) + (if Count(RoleMask(bs[n], r)) > 0 then 1 else 0)
  {
  }

  lemma AllCoveredPrefix(decoder: map<int, int>, bs: seq<Batch>, n: nat)
    requires n <= |bs| && AllCovered(decoder, bs)
    ensures AllCovered(decoder, bs[..n])
  {
    forall i | 0 <= i < n
      ensures BatchCovered(decoder, bs[..n][i])
    {
      assert bs[..n][i] == bs[i];
    }
  }

  /**
   * When the table covers every observed event, an evaluation pass leaves
   * in role r's accumulator one sample per role-r event of the batches,
   * each with the clamped size of its cascade, and in its loss list one
   * loss per batch where the role has events.
   */
  lemma {:induction false} PassShape(net: Net, version: nat, decoder: map<int, int>, lossFn: LossFn, bs: seq<Batch>,
                                     r: Role)
    requires AllCovered(decoder, bs)
    ensures |PassSamples(net, version, decoder, bs, r)| == RoleTotal(bs, r)
    ensures |PassLosses(net, version, decoder, lossFn, bs, r)| == NonEmptyBatches(bs, r)
    ensures Sane(decoder, PassSamples(net, version, decoder, bs, r))
  {
    if bs != [] {
      var n := |bs| - 1;
      var front, pred := bs[..n], EvalPreds(net, bs[..n], version, bs[n]);
      PassUnfold(net, version, decoder, lossFn, bs, r);
      AllCoveredPrefix(decoder, bs, n);
      PassShape(net, version, decoder, lossFn, front, r);
      assert BatchCovered(decoder, bs[n]);
      RoleShape(decoder, bs[n], pred, r, lossFn);
      SaneAppend(decoder, PassSamples(net, version, decoder, front, r), RoleAdded(decoder, bs[n], pred, r));
    }
  }

  /**
   * Sample s is the one that event j of batch i, an event of role r,
   * yields in an evaluation pass with parameters `version`: its cascade,
   * the prediction made from the memory of the batches before batch i,
   * and the clamped size of its cascade.
   */
  ghost predicate EventSample(net: Net, version: nat, decoder: map<int, int>, bs: seq<Batch>, r: Role,
                              i: int, j: int, s: Sample)
  {
    && 0 <= i < |bs| && 0 <= j < |bs[i]|
    && RoleOf(bs[i][j].labelValue, bs[i][j].kind) == Some(r)
    && bs[i][j].cascade in decoder
    && s == Sample(bs[i][j].cascade, EvalPreds(net, bs[..i], version, bs[i])[j], Clamp(decoder[bs[i][j].cascade]))
  }

  /** An event's sample in an evaluation pass over a prefix of the batches is its sample in the pass over them all. */
  lemma EventSamplePrefix(net: Net, version: nat, decoder: map<int, int>, bs: seq<Batch>, n: nat, r: Role,
                          i: int, j: int, s: Sample)
    requires n <= |bs| && EventSample(net, version, decoder, bs[..n], r, i, j, s)
    ensures EventSample(net, version, decoder, bs, r, i, j, s)
  {
    assert bs[..n][..i] == bs[..i] && bs[..n][i] == bs[i];
  }

  /** The samples the last batch adds for role r come from its role-r events. */
  lemma EventSampleLast(net: Net, version: nat, decoder: map<int, int>, bs: seq<Batch>, r: Role, k: nat)
    requires bs != [] && AllCovered(decoder, bs)
    requires |PassSamples(net, version, decoder, bs[..|bs| - 1], r)| <= k < |PassSamples(net, version, decoder, bs, r)|
    ensures exists i, j :: EventSample(net, version, decoder, bs, r, i, j, PassSamples(net, version, decoder, bs, r)[k])
    decreases |bs|, 0
  {
    var n := |bs| - 1;
    var pred := EvalPreds(net, bs[..n], version, bs[n]);
    var head := PassSamples(net, version, decoder, bs[..n], r);
    PassUnfold(net, version, decoder, NoLoss, bs, r);
    assert BatchCovered(decoder, bs[n]);
    RoleLabelsSucceeds(decoder, bs[n], r);
    var m := k - |head|;
    RoleAddedAt(decoder, bs[n], pred, r, m);
    assert PassSamples(net, version, decoder, bs, r)[k] == RoleAdded(decoder, bs[n], pred, r)[m];
    assert EventSample(net, version, decoder, bs, r, n, Positions(RoleMask(bs[n], r))[m],
                       PassSamples(net, version, decoder, bs, r)[k]);
  }

  /** The samples of the batches before the last keep their sources once the last batch is added. */
  lemma EventSampleFront(net: Net, version: nat, decoder: map<int, int>, bs: seq<Batch>, r: Role, k: nat)
    requires bs != [] && AllCovered(decoder, bs)
    requires k < |PassSamples(net, version, decoder, bs[..|bs| - 1], r)|
    ensures k < |PassSamples(net, version, decoder, bs, r)|
    ensures exists i, j :: EventSample(net, version, decoder, bs, r, i, j, PassSamples(net, version, decoder, bs, r)[k])
    decreases |bs|, 0
  {
    var n := |bs| - 1;
    var front := bs[..n];
    PassUnfold(net, version, decoder, NoLoss, bs, r);
    AllCoveredPrefix(decoder, bs, n);
    PassSamplesFrom(net, version, decoder, front, r, k);
    var i, j :| EventSample(net, version, decoder, front, r, i, j, PassSamples(net, version, decoder, front, r)[k]);
    EventSamplePrefix(net, version, decoder, bs, n, r, i, j, PassSamples(net, version, decoder, front, r)[k]);
    assert PassSamples(net, version, decoder, bs, r)[k] == PassSamples(net, version, decoder, front, r)[k];
  }

  /** Every sample an evaluation pass accumulates for role r is yielded by an event of role r. */
  lemma {:induction false} PassSamplesFrom(net: Net, version: nat, decoder: map<int, int>, bs: seq<Batch>, r: Role,
                                           k: nat)
    requires AllCovered(decoder, bs) && k < |PassSamples(net, version, decoder, bs, r)|
    ensures exists i, j :: EventSample(net, version, decoder, bs, r, i, j, PassSamples(net, version, decoder, bs, r)[k])
    decreases |bs|, 1
  {
    assert bs != [];
    if k < |PassSamples(net, version, decoder, bs[..|bs| - 1], r)| {
      EventSampleFront(net, version, decoder, bs, r, k);
    } else {
      EventSampleLast(net, version, decoder, bs, r, k);
    }
  }

  /** A loss function for statements about the samples alone. */
  function NoLoss(preds: seq<real>, labels: seq<int>): real
  {
    0.0
  }

  /** The loss lists and accumulators after the evaluated batches `done`, as the pass prescribes them. */
  ghost predicate TrackedAll(net: Net, version: nat, decoder: map<int, int>, lossFn: LossFn, done: seq<Batch>,
                             losses: PerRole<seq<real>>, pools: PerRole<seq<Sample>>)
  {
    && losses.train == PassLosses(net, version, decoder, lossFn, done, Train)
    && losses.val == PassLosses(net, version, decoder, lossFn, done, Val)
    && losses.test == PassLosses(net, version, decoder, lossFn, done, Test)
    && pools.train == PassSamples(net, version, decoder, done, Train)
    && pools.val == PassSamples(net, version, decoder, done, Val)
    && pools.test == PassSamples(net, version, decoder, done, Test)
  }

  /** Batch i, predicted from the first i batches, extends the tallies of the first i batches to the first i + 1. */
  lemma TrackedNext(net: Net, version: nat, decoder: map<int, int>, lossFn: LossFn, bs: seq<Batch>, i: nat,
                    l0: PerRole<seq<real>>, l1: PerRole<seq<real>>,
                    p0: PerRole<seq<Sample>>, p1: PerRole<seq<Sample>>)
    requires i < |bs|
    requires TrackedAll(net, version, decoder, lossFn, bs[..i], l0, p0)
    requires GrownAll(decoder, lossFn, bs[i], EvalPreds(net, bs[..i], version, bs[i]), l0, l1, p0, p1)
    ensures TrackedAll(net, version, decoder, lossFn, bs[..i + 1], l1, p1)
  {
    var next := bs[..i + 1];
    PrefixSnoc(bs, i);
    assert next[..i] == bs[..i] && next[i] == bs[i];
  }

  /** What the batch loop of an evaluation pass has established after its first i batches. */
  ghost predicate EvalProgress(model: Model, metric: Metric, bs: seq<Batch>, i: nat, decoder: map<int, int>,
                               lossFn: LossFn, losses: PerRole<seq<real>>)
    reads model, metric
    requires i <= |bs|
  {
    && model.memory == bs[..i] && model.pending == None && !model.training
    && TrackedAll(model.net, model.version, decoder, lossFn, bs[..i], losses, metric.pools)
    && CoveredUpTo(decoder, bs, i)
  }

  /** One turn of the evaluation loop: batch i, given the first i done. */
  method EvalStep(model: Model, metric: Metric, bs: seq<Batch>, i: nat, decoder: map<int, int>,
                  lossFn: LossFn, losses: PerRole<seq<real>>)
    returns (res: Result<PerRole<seq<real>>, Error>)
    requires i < |bs| && model.log == metric.log
    requires EvalProgress(model, metric, bs, i, decoder, lossFn, losses)
    modifies model, metric, model.log
    ensures res.Success? <==> BatchCovered(decoder, bs[i])
    ensures res.Failure? ==> res.error.MissingLabel? && res.error.cascade !in decoder
    ensures res.Success? ==> EvalProgress(model, metric, bs, i + 1, decoder, lossFn, res.value)
    ensures res.Success? ==> model.log.ops == old(model.log.ops) + EvalBatchOps(bs[..i], bs[i])
    ensures model.version == old(model.version) && model.checkpoint == old(model.checkpoint)
    ensures metric.history == old(metric.history) && metric.finals == old(metric.finals)
  {
    ghost var pools := metric.pools;
    res := EvalBatch(model, metric, bs[i], decoder, lossFn, losses);
    if res.Success? {
      TrackedNext(model.net, model.version, decoder, lossFn, bs, i, losses, res.value, pools, metric.pools);
      CoveredStep(decoder, bs, i);
      PrefixSnoc(bs, i);
    }
  }

  /**
   * The batch loop of `eval_model` (train/train.py:43-62), entered with
   * the memory reset and the accumulators fresh.
   */
  method EvalBatches(model: Model, metric: Metric, bs: seq<Batch>, decoder: map<int, int>, lossFn: LossFn)
    returns (res: Result<PerRole<seq<real>>, Error>)
    requires model.log == metric.log && !model.training
    requires model.memory == [] && model.pending == None && metric.pools == PerRole([], [], [])
    modifies model, metric, model.log
    ensures res.Success? <==> AllCovered(decoder, bs)
    ensures res.Failure? ==> res.error.MissingLabel? && res.error.cascade !in decoder
    ensures res.Success? ==> model.log.ops == old(model.log.ops) + EvalBatchesOps(bs)
    ensures res.Success? ==> model.memory == bs && model.pending == None && !model.training
    ensures res.Success? ==> TrackedAll(model.net, model.version, decoder, lossFn, bs, res.value, metric.pools)
    ensures model.version == old(model.version) && model.checkpoint == old(model.checkpoint)
    ensures metric.history == old(metric.history) && metric.finals == old(metric.finals)
  {
    var losses := PerRole([], [], []);
    var i := 0;
    assert bs[..0] == [];
    while i < |bs|
      invariant 0 <= i <= |bs|
      invariant model.log.ops == old(model.log.ops) + EvalBatchesOps(bs[..i])
      invariant EvalProgress(model, metric, bs, i, decoder, lossFn, losses)
      invariant model.version == old(model.version) && model.checkpoint == old(model.checkpoint)
      invariant metric.history == old(metric.history) && metric.finals == old(metric.finals)
    {
      var step := EvalStep(model, metric, bs, i, decoder, lossFn, losses);
      if step.Failure? {
        return Failure(step.error);
      }
      EvalBatchesSnoc(bs, i);
      AppendAssoc(old(model.log.ops), EvalBatchesOps(bs[..i]), EvalBatchOps(bs[..i], bs[i]));
      losses := step.value;
      i := i + 1;
    }
    assert bs[..i] == bs;
    res := Success(losses);
  }

  /** The summaries of tallies that track a whole evaluation pass are that pass's summaries. */
  lemma SummariesOf(net: Net, version: nat, decoder: map<int, int>, lossFn: LossFn, bs: seq<Batch>, final: bool,
                    losses: PerRole<seq<real>>, pools: PerRole<seq<Sample>>, sums: PerRole<Summary>)
    requires TrackedAll(net, version, decoder, lossFn, bs, losses, pools)
    requires sums.train == Summary(Train, pools.Get(Train), losses.Get(Train), final)
    requires sums.val == Summary(Val, pools.Get(Val), losses.Get(Val), final)
    requires sums.test == Summary(Test, pools.Get(Test), losses.Get(Test), final)
    ensures sums == PassSummaries(net, version, decoder, lossFn, bs, final)
  {
  }

  /** Three appends make one; it keeps the solver from re-deriving sequence associativity in larger proofs. */
  lemma ThreeSummaries(h: seq<Summary>, t: Summary, v: Summary, s: Summary)
    ensures h + [t] + [v] + [s] == h + [t, v, s]
  {
  }

  /** The log of an evaluation pass, in the order its calls are made; stated apart to keep solver cost down. */
  lemma EvalPassLog(l: seq<Op>, bs: seq<Batch>, final: bool)
    ensures l + [Reset] + [Op.Fresh] + EvalBatchesOps(bs) + [Summarise(Train, final)] + [Summarise(Val, final)]
              + [Summarise(Test, final)] == l + EvalPassOps(bs, final)
  {
  }

  /**
   * `eval_model` (train/train.py:34-66): one evaluation pass over the
   * batches. It fails exactly when some observed event has a cascade
   * missing from the decoder table; otherwise the log grows by the
   * evaluation-pass trace, the memory holds the batches in order, the
   * parameters are untouched, and the three summaries are those of the
   * pass run with the current parameters (see `PassShape` and
   * `PassSamplesFrom` for what they hold).
   */
  method EvalModel(model: Model, metric: Metric, bs: seq<Batch>, decoder: map<int, int>, lossFn: LossFn, final: bool)
    returns (res: Result<PerRole<Summary>, Error>)
    requires model.log == metric.log
    modifies model, metric, model.log
    ensures res.Success? <==> AllCovered(decoder, bs)
    ensures res.Failure? ==> res.error.MissingLabel? && res.error.cascade !in decoder
    ensures res.Success? ==> model.log.ops == old(model.log.ops) + EvalPassOps(bs, final)
    ensures res.Success? ==> model.memory == bs && model.pending == None && !model.training
    ensures res.Success? ==> model.version == old(model.version) && model.checkpoint == old(model.checkpoint)
    ensures res.Success? ==> res.value == PassSummaries(model.net, model.version, decoder, lossFn, bs, final)
    ensures res.Success? ==> metric.history == old(metric.history) + Listed(res.value)
    ensures res.Success? ==>
              metric.finals == if final then old(metric.finals) + Listed(res.value) else old(metric.finals)
  {
    model.SetTraining(false);
    model.ResetState();
    metric.Fresh();
    var losses := EvalBatches(model, metric, bs, decoder, lossFn);
    if losses.Failure? {
      return Failure(losses.error);
    }
    ghost var h, f := metric.history, metric.finals;
    var t := metric.Calculate(Train, losses.value.Get(Train), final);
    var v := metric.Calculate(Val, losses.value.Get(Val), final);
    var s := metric.Calculate(Test, losses.value.Get(Test), final);
    EvalPassLog(old(model.log.ops), bs, final);
    ThreeSummaries(h, t, v, s);
    ThreeSummaries(f, t, v, s);
    res := Success(PerRole(t, v, s));
    SummariesOf(model.net, model.version, decoder, lossFn, bs, final, losses.value, metric.pools, res.value);
  }

  // ---------------------------------------------------------------- training

  /** Every training event of the first n batches has its cascade in the decoder table. */
  ghost predicate TrainCoveredUpTo(decoder: map<int, int>, bs: seq<Batch>, n: nat)
  {
    forall i :: 0 <= i < n && i < |bs| ==> Covered(decoder, bs[i], Train)
  }

  /** Full coverage includes coverage of the training events. */
  lemma AllCoveredTrain(decoder: map<int, int>, bs: seq<Batch>)
    requires AllCovered(decoder, bs)
    ensures TrainCoveredUpTo(decoder, bs, |bs|)
  {
    forall i | 0 <= i < |bs|
      ensures Covered(decoder, bs[i], Train)
    {
      assert BatchCovered(decoder, bs[i]);
    }
  }

  /** The log of one training batch, in the order its calls are made. */
  lemma TrainBatchLog(l: seq<Op>, seen: seq<Batch>, b: Batch)
    ensures var m := RoleMask(b, Train);
            var opt := if Count(m) > 0 then [Op.Step(0)] else [];
            l + [Op.Forward(m, seen)] + opt + [Update] + [Detach] == l + TrainBatchOps(seen, b)
  {
  }

  /** The predictions of a training batch: forward with its training mask from memory `mem` and parameters `version`. */
  function TrainPreds(net: Net, mem: seq<Batch>, version: nat, b: Batch): (p: seq<real>)
    ensures |p| == |b|
  {
    Predictions(net, mem, version, b, RoleMask(b, Train))
  }

  /**
   * `train_loss` after a training pass over `bs` begun with parameters v0:
   * batch by batch, the loss of the training subset when it is non-empty,
   * each batch predicted from a memory holding the batches before it and
   * from the parameters after one step per earlier non-empty batch.
   */
  ghost function TrainLosses(net: Net, v0: nat, decoder: map<int, int>, lossFn: LossFn, bs: seq<Batch>): seq<real>
  {
    if bs == [] then []
    else
      var n := |bs| - 1;
      TrainLosses(net, v0, decoder, lossFn, bs[..n])
        + Entries(RoleLoss(decoder, bs[n], TrainPreds(net, bs[..n], StepsAfter(v0, bs[..n]), bs[n]), Train, lossFn))
  }

  /** The parameters after a training pass over `bs` begun with v0: one optimizer step per non-empty batch. */
  function StepsAfter(v0: nat, bs: seq<Batch>): nat
  {
    v0 + NonEmptyBatches(bs, Train)
  }

  /** Batch i, predicted from the first i batches, extends `train_loss` of the first i batches to the first i + 1. */
  lemma TrainLossesNext(net: Net, v0: nat, decoder: map<int, int>, lossFn: LossFn, bs: seq<Batch>, i: nat,
                        losses: seq<real>, loss: Option<real>)
    requires i < |bs| && losses == TrainLosses(net, v0, decoder, lossFn, bs[..i])
    requires loss == RoleLoss(decoder, bs[i], TrainPreds(net, bs[..i], StepsAfter(v0, bs[..i]), bs[i]), Train, lossFn)
    ensures losses + Entries(loss) == TrainLosses(net, v0, decoder, lossFn, bs[..i + 1])
  {
    var upto := bs[..i + 1];
    var front, last := upto[..i], upto[i];
    assert front == bs[..i] && last == bs[i];
    var version := StepsAfter(v0, front);
    var pred := TrainPreds(net, front, version, last);
    assert TrainLosses(net, v0, decoder, lossFn, upto)
        == TrainLosses(net, v0, decoder, lossFn, front) + Entries(RoleLoss(decoder, last, pred, Train, lossFn));
  }

  /**
   * One batch of the training loop (train/train.py:84-105): forward with
   * the training mask; when the batch has training events, their labels
   * are looked up and clamped, one loss is computed and the optimizer
   * steps, with the gradient reaching no earlier batch; then one
   * `update_state` and one `detach_state`.
   */
  method TrainBatch(model: Model, b: Batch, decoder: map<int, int>, lossFn: LossFn)
    returns (res: Result<Option<real>, Error>)
    requires model.training && model.attached == 0
    modifies model, model.log
    ensures res.Success? <==> Covered(decoder, b, Train)
    ensures res.Failure? ==> res.error.MissingLabel? && res.error.cascade !in decoder
    ensures res.Success? ==> model.log.ops == old(model.log.ops) + TrainBatchOps(old(model.memory), b)
    ensures res.Success? ==> model.memory == old(model.memory) + [b] && model.pending == None && model.attached == 0
    ensures res.Success? ==> (res.value.Some? <==> Count(RoleMask(b, Train)) > 0)
    ensures res.Success? ==>
              res.value == RoleLoss(decoder, b, TrainPreds(model.net, old(model.memory), old(model.version), b), Train, lossFn)
    ensures res.Success? ==> model.version == old(model.version) + (if res.value.Some? then 1 else 0)
    ensures model.training && model.checkpoint == old(model.checkpoint)
  {
    var target := RoleMask(b, Train);
    var pred := model.Forward(b, target);
    var loss: Option<real> := None;
    if Count(target) > 0 {
      var labels := RoleLabels(decoder, b, Train);
      RoleLabelsSucceeds(decoder, b, Train);
      if labels.Failure? {
        return Failure(MissingLabel(labels.error));
      }
      var l := lossFn(Select(pred, target), labels.value);
      model.Step();
      loss := Some(l);
    } else {
      assert Covered(decoder, b, Train);
    }
    model.UpdateState();
    model.DetachState();
    TrainBatchLog(old(model.log.ops), old(model.memory), b);
    res := Success(loss);
  }

  /**
   * The state of a training pass after its first i batches, started from
   * log `start` and parameters v0: the memory holds those batches with no
   * gradient history, each was logged, each non-empty one stepped the
   * optimizer, and every training event among them was covered.
   */
  ghost predicate TrainProgress(model: Model, bs: seq<Batch>, i: nat, decoder: map<int, int>, start: seq<Op>, v0: nat)
    reads model, model.log
    requires i <= |bs|
  {
    && model.memory == bs[..i] && model.pending == None && model.attached == 0 && model.training
    && model.log.ops == start + TrainBatchesOps(bs[..i])
    && model.version == v0 + NonEmptyBatches(bs[..i], Train)
    && TrainCoveredUpTo(decoder, bs, i)
  }

  /** One turn of the training loop: the losses gain an entry iff the batch has training events. */
  method TrainStep(model: Model, bs: seq<Batch>, i: nat, decoder: map<int, int>,
                   lossFn: LossFn, ghost start: seq<Op>, ghost v0: nat, losses: seq<real>)
    returns (res: Result<seq<real>, Error>)
    requires i < |bs| && TrainProgress(model, bs, i, decoder, start, v0)
    requires |losses| == NonEmptyBatches(bs[..i], Train)
    requires losses == TrainLosses(model.net, v0, decoder, lossFn, bs[..i])
    modifies model, model.log
    ensures res.Success? <==> Covered(decoder, bs[i], Train)
    ensures res.Failure? ==> res.error.MissingLabel? && res.error.cascade !in decoder
    ensures res.Success? ==> TrainProgress(model, bs, i + 1, decoder, start, v0)
    ensures res.Success? ==> |res.value| == NonEmptyBatches(bs[..i + 1], Train)
    ensures res.Success? ==> res.value == TrainLosses(model.net, v0, decoder, lossFn, bs[..i + 1])
    ensures model.training && model.checkpoint == old(model.checkpoint)
  {
    assert StepsAfter(v0, bs[..i]) == model.version;
    var step := TrainBatch(model, bs[i], decoder, lossFn);
    if step.Failure? {
      return Failure(step.error);
    }
    res := Success(if step.value.Some? then losses + [step.value.value] else losses);
    assert res.value == losses + Entries(step.value);
    TrainLossesNext(model.net, v0, decoder, lossFn, bs, i, losses, step.value);
    TrainBatchesSnoc(bs, i);
    BatchTotalsSnoc(bs, i, Train);
    AppendAssoc(start, TrainBatchesOps(bs[..i]), TrainBatchOps(bs[..i], bs[i]));
    PrefixSnoc(bs, i);
  }

  /**
   * One training epoch's pass over the batches (train/train.py:79-105).
   * It fails exactly when some training event has a cascade missing from
   * the decoder table; otherwise the log grows by the training-pass trace,
   * the memory holds the batches in order with no gradient history left,
   * and both the optimizer steps and the recorded losses number the
   * batches with a non-empty training subset.
   */
  method TrainPass(model: Model, bs: seq<Batch>, decoder: map<int, int>, lossFn: LossFn)
    returns (res: Result<seq<real>, Error>)
    modifies model, model.log
    ensures res.Success? <==> TrainCoveredUpTo(decoder, bs, |bs|)
    ensures res.Failure? ==> res.error.MissingLabel? && res.error.cascade !in decoder
    ensures res.Success? ==> model.log.ops == old(model.log.ops) + TrainPassOps(bs)
    ensures res.Success? ==> model.memory == bs && model.pending == None && model.attached == 0
    ensures res.Success? ==> |res.value| == NonEmptyBatches(bs, Train)
    ensures res.Success? ==> res.value == TrainLosses(model.net, old(model.version), decoder, lossFn, bs)
    ensures res.Success? ==> model.version == old(model.version) + NonEmptyBatches(bs, Train)
    ensures model.training && model.checkpoint == old(model.checkpoint)
  {
    model.ResetState();
    model.SetTraining(true);
    ghost var start := model.log.ops;
    var trainLoss := [];
    var i := 0;
    assert bs[..0] == [];
    while i < |bs|
      invariant 0 <= i <= |bs|
      invariant TrainProgress(model, bs, i, decoder, start, old(model.version))
      invariant |trainLoss| == NonEmptyBatches(bs[..i], Train)
      invariant trainLoss == TrainLosses(model.net, old(model.version), decoder, lossFn, bs[..i])
      invariant model.checkpoint == old(model.checkpoint)
    {
      var step := TrainStep(model, bs, i, decoder, lossFn, start, old(model.version), trainLoss);
      if step.Failure? {
        return Failure(step.error);
      }
      trainLoss := step.value;
      i := i + 1;
    }
    assert bs[..i] == bs;
    AppendAssoc(old(model.log.ops), [Reset], TrainBatchesOps(bs));
    res := Success(trainLoss);
  }

  // ---------------------------------------------------------------- the epoch loop and the final test

  /**
   * The checkpoint after e epochs, each adding n optimizer steps to the
   * parameters v0: an epoch whose verdict is an improvement checkpoints
   * the parameters it ends with; c0 is the checkpoint before the run.
   */
  function Checkpointed(c0: Option<nat>, v0: nat, n: nat, decide: nat -> Verdict, e: nat): (c: Option<nat>)
    ensures c0.Some? ==> c.Some?
    ensures c != c0 ==> c.Some? && ImprovedWithin(decide, e)
  {
    if e == 0 then c0
    else if decide(e - 1).improved then Some(v0 + e * n)
    else Checkpointed(c0, v0, n, decide, e - 1)
  }

  /** A checkpoint exists after e epochs iff one existed before the run or some epoch improved. */
  lemma {:induction false} CheckpointedExists(c0: Option<nat>, v0: nat, n: nat, decide: nat -> Verdict, e: nat)
    ensures Checkpointed(c0, v0, n, decide, e).Some? <==> c0.Some? || ImprovedWithin(decide, e)
  {
    if e > 0 {
      CheckpointedExists(c0, v0, n, decide, e - 1);
      if decide(e - 1).improved {
        assert ImprovedWithin(decide, e);
      } else if ImprovedWithin(decide, e) {
        var k :| 0 <= k < e && decide(k).improved;
        assert ImprovedWithin(decide, e - 1);
      }
    }
  }

  /** The checkpoint after e epochs is one written by an improving epoch, at the parameters it ended with, or c0. */
  lemma {:induction false} CheckpointedLatest(c0: Option<nat>, v0: nat, n: nat, decide: nat -> Verdict, e: nat)
    ensures var c := Checkpointed(c0, v0, n, decide, e);
            c == c0 || exists k :: 0 <= k < e && decide(k).improved && c == Some(v0 + (k + 1) * n)
    ensures forall k :: 0 <= k < e && decide(k).improved ==>
              Checkpointed(c0, v0, n, decide, e).Some? &&
              v0 + (k + 1) * n <= Checkpointed(c0, v0, n, decide, e).value
  {
    if e > 0 {
      CheckpointedLatest(c0, v0, n, decide, e - 1);
      if decide(e - 1).improved {
        assert Checkpointed(c0, v0, n, decide, e) == Some(v0 + ((e - 1) + 1) * n);
        forall k | 0 <= k < e && decide(k).improved
          ensures v0 + (k + 1) * n <= v0 + e * n
        {
          MulMono(k + 1, e, n);
        }
      }
    }
  }

  lemma MulMono(a: nat, b: nat, n: nat)
    requires a <= b
    ensures a * n <= b * n
  {
  }

  /** The run's log as the epoch loop, the load, the final pass and the two saves leave it; stated apart to keep `TrainModel`'s proof cheap. */
  lemma RunLog(l: seq<Op>, a: seq<Op>, u: seq<Op>)
    ensures l + a + [Load] + u + [MetricSave] + [Save] == l + (a + [Load] + u + [MetricSave, Save])
  {
  }

  /** An epoch's log as its training pass, validation pass and check leave it; stated apart to keep `RunEpoch`'s proof cheap. */
  lemma EpochLog(l: seq<Op>, train: seq<Op>, eval: seq<Op>, v: Verdict)
    ensures l + train + eval + CheckOps(v) == l + EpochOps(train, eval, v)
  {
  }

  /**
   * One iteration of the epoch loop (train/train.py:79-112): a training
   * pass, a validation pass with `move_final=False`, then the early-stop
   * check, whose verdict is returned.
   */
  method RunEpoch(model: Model, metric: Metric, stopper: EarlyStopper, bs: seq<Batch>, decoder: map<int, int>,
                  lossFn: LossFn)
    returns (res: Result<bool, Error>)
    requires model.log == metric.log && stopper.model == model
    modifies model, metric, stopper, model.log
    ensures res.Success? <==> AllCovered(decoder, bs)
    ensures res.Failure? ==> res.error.MissingLabel? && res.error.cascade !in decoder
    ensures res.Success? ==> res.value == stopper.decide(old(stopper.checks)).stop
    ensures res.Success? ==> stopper.checks == old(stopper.checks) + 1
    ensures res.Success? ==>
              model.log.ops == old(model.log.ops) +
                EpochOps(TrainPassOps(bs), EvalPassOps(bs, false), stopper.decide(old(stopper.checks)))
    ensures res.Success? ==> model.version == old(model.version) + NonEmptyBatches(bs, Train)
    ensures res.Success? ==>
              model.checkpoint ==
                if stopper.decide(old(stopper.checks)).improved then Some(model.version) else old(model.checkpoint)
    ensures res.Success? ==>
              metric.history == old(metric.history) + Listed(PassSummaries(model.net, model.version, decoder, lossFn, bs, false))
    ensures res.Success? ==> metric.finals == old(metric.finals)
  {
    var trained := TrainPass(model, bs, decoder, lossFn);
    if trained.Failure? {
      if AllCovered(decoder, bs) {
        AllCoveredTrain(decoder, bs);
      }
      return Failure(trained.error);
    }
    var summaries := EvalModel(model, metric, bs, decoder, lossFn, false);
    if summaries.Failure? {
      return Failure(summaries.error);
    }
    var stop := stopper.Check();
    EpochLog(old(model.log.ops), TrainPassOps(bs), EvalPassOps(bs, false), stopper.decide(old(stopper.checks)));
    res := Success(stop);
  }

  /**
   * The validation summaries that e epochs push to the metric history,
   * each epoch adding n optimizer steps to the parameters v0: epoch k's
   * validation pass runs with the parameters v0 + (k + 1) * n it trained.
   */
  ghost function ValHistory(net: Net, v0: nat, n: nat, decoder: map<int, int>, lossFn: LossFn, bs: seq<Batch>, e: nat)
    : seq<Summary>
  {
    if e == 0 then []
    else ValHistory(net, v0, n, decoder, lossFn, bs, e - 1) + Listed(PassSummaries(net, EpochVersion(v0, n, e), decoder, lossFn, bs, false))
  }

  /** The parameters after e epochs of n optimizer steps each, starting from v0. */
  function EpochVersion(v0: nat, n: nat, e: nat): nat
  {
    v0 + e * n
  }

  /**
   * The state after `epoch` epochs of a run that started with log l0,
   * checkpoint c0, parameters v0 and metric history h0: every epoch logged
   * its training pass, validation pass and check, added n optimizer steps,
   * pushed its validation summaries and checkpointed on improvement.
   */
  ghost predicate EpochsDone(model: Model, metric: Metric, stopper: EarlyStopper, bs: seq<Batch>, decoder: map<int, int>,
                             lossFn: LossFn, l0: seq<Op>, c0: Option<nat>, v0: nat, h0: seq<Summary>, epoch: nat)
    reads model, model.log, metric, stopper
  {
    && stopper.checks == epoch
    && model.log.ops == l0 + EpochsOps(TrainPassOps(bs), EvalPassOps(bs, false), stopper.decide, epoch)
    && model.version == v0 + epoch * NonEmptyBatches(bs, Train)
    && model.checkpoint == Checkpointed(c0, v0, NonEmptyBatches(bs, Train), stopper.decide, epoch)
    && metric.history == h0 + ValHistory(model.net, v0, NonEmptyBatches(bs, Train), decoder, lossFn, bs, epoch)
  }

  /** The history bookkeeping of `EpochsDone` advances by one epoch. */
  lemma HistoryNext(net: Net, v0: nat, n: nat, decoder: map<int, int>, lossFn: LossFn, bs: seq<Batch>, epoch: nat,
                    h0: seq<Summary>, history: seq<Summary>, version': nat, history': seq<Summary>)
    requires history == h0 + ValHistory(net, v0, n, decoder, lossFn, bs, epoch)
    requires version' == v0 + (epoch + 1) * n
    requires history' == history + Listed(PassSummaries(net, version', decoder, lossFn, bs, false))
    ensures history' == h0 + ValHistory(net, v0, n, decoder, lossFn, bs, epoch + 1)
  {
    var before := ValHistory(net, v0, n, decoder, lossFn, bs, epoch);
    var pushed := Listed(PassSummaries(net, version', decoder, lossFn, bs, false));
    assert EpochVersion(v0, n, epoch + 1) == version';
    assert ValHistory(net, v0, n, decoder, lossFn, bs, epoch + 1) == before + pushed;
    assert h0 + before + pushed == h0 + (before + pushed);
  }

  /** The bookkeeping of `EpochsDone` advances by one epoch. */
  lemma EpochNext(l0: seq<Op>, c0: Option<nat>, v0: nat, n: nat, train: seq<Op>, eval: seq<Op>, decide: nat -> Verdict,
                  epoch: nat, ops: seq<Op>, version: nat, checkpoint: Option<nat>,
                  ops': seq<Op>, version': nat, checkpoint': Option<nat>)
    requires ops == l0 + EpochsOps(train, eval, decide, epoch)
    requires version == v0 + epoch * n
    requires checkpoint == Checkpointed(c0, v0, n, decide, epoch)
    requires ops' == ops + EpochOps(train, eval, decide(epoch))
    requires version' == version + n
    requires checkpoint' == if decide(epoch).improved then Some(version') else checkpoint
    ensures ops' == l0 + EpochsOps(train, eval, decide, epoch + 1)
    ensures version' == v0 + (epoch + 1) * n
    ensures checkpoint' == Checkpointed(c0, v0, n, decide, epoch + 1)
  {
    AppendAssoc(l0, EpochsOps(train, eval, decide, epoch), EpochOps(train, eval, decide(epoch)));
    assert v0 + epoch * n + n == v0 + (epoch + 1) * n;
  }

  /** One turn of the epoch loop: one more epoch done, with its stop verdict. */
  method EpochStep(model: Model, metric: Metric, stopper: EarlyStopper, bs: seq<Batch>, decoder: map<int, int>,
                   lossFn: LossFn, ghost l0: seq<Op>, ghost c0: Option<nat>, ghost v0: nat,
                   ghost h0: seq<Summary>, epoch: nat)
    returns (res: Result<bool, Error>)
    requires model.log == metric.log && stopper.model == model
    requires EpochsDone(model, metric, stopper, bs, decoder, lossFn, l0, c0, v0, h0, epoch)
    modifies model, metric, stopper, model.log
    ensures res.Success? <==> AllCovered(decoder, bs)
    ensures res.Failure? ==> res.error.MissingLabel? && res.error.cascade !in decoder
    ensures res.Success? ==> res.value == stopper.decide(epoch).stop
    ensures res.Success? ==> EpochsDone(model, metric, stopper, bs, decoder, lossFn, l0, c0, v0, h0, epoch + 1)
    ensures res.Success? ==> metric.finals == old(metric.finals)
  {
    ghost var ops, version, checkpoint, history := model.log.ops, model.version, model.checkpoint, metric.history;
    res := RunEpoch(model, metric, stopper, bs, decoder, lossFn);
    if res.Success? {
      EpochNext(l0, c0, v0, NonEmptyBatches(bs, Train), TrainPassOps(bs), EvalPassOps(bs, false), stopper.decide,
                epoch, ops, version, checkpoint, model.log.ops, model.version, model.checkpoint);
      HistoryNext(model.net, v0, NonEmptyBatches(bs, Train), decoder, lossFn, bs, epoch, h0, history, model.version,
                  metric.history);
    }
  }

  /** Starting epoch e within the budget either stops after it or goes on to epoch e + 1. */
  lemma EpochsFromStep(e: nat, budget: nat, decide: nat -> Verdict)
    requires e < budget
    ensures EpochsFrom(e, budget, decide) == if decide(e).stop then e + 1 else EpochsFrom(e + 1, budget, decide)
  {
  }

  /**
   * The epoch loop of `train_model` (train/train.py:78-114): at most
   * `budget` epochs, leaving right after the first stop verdict. The
   * stopper's k-th verdict is `decide(k)`.
   */
  method Epochs(model: Model, metric: Metric, stopper: EarlyStopper, bs: seq<Batch>, decoder: map<int, int>,
                lossFn: LossFn, budget: nat)
    returns (res: Result<nat, Error>)
    requires model.log == metric.log && stopper.model == model && stopper.checks == 0
    modifies model, metric, stopper, model.log
    ensures res.Success? <==> budget == 0 || AllCovered(decoder, bs)
    ensures res.Failure? ==> res.error.MissingLabel? && res.error.cascade !in decoder
    ensures res.Success? ==> res.value == EpochsRun(budget, stopper.decide)
    ensures res.Success? ==>
              EpochsDone(model, metric, stopper, bs, decoder, lossFn, old(model.log.ops), old(model.checkpoint),
                         old(model.version), old(metric.history), res.value)
    ensures res.Success? ==> metric.finals == old(metric.finals)
  {
    ghost var d, l0, c0, v0, h0 := stopper.decide, model.log.ops, model.checkpoint, model.version, metric.history;
    var epoch := 0;
    var stopped := false;
    while epoch < budget && !stopped
      invariant 0 <= epoch <= budget
      invariant EpochsDone(model, metric, stopper, bs, decoder, lossFn, l0, c0, v0, h0, epoch)
      invariant !stopped ==> EpochsFrom(epoch, budget, d) == EpochsRun(budget, d)
      invariant stopped ==> 0 < epoch == EpochsRun(budget, d)
      invariant epoch > 0 ==> AllCovered(decoder, bs)
      invariant metric.finals == old(metric.finals)
      decreases budget - epoch
    {
      var stop := EpochStep(model, metric, stopper, bs, decoder, lossFn, l0, c0, v0, h0, epoch);
      if stop.Failure? {
        return Failure(stop.error);
      }
      EpochsFromStep(epoch, budget, d);
      stopped := stop.value;
      epoch := epoch + 1;
    }
    res := Success(epoch);
  }

  /**
   * `train_model` (train/train.py:69-122): the epoch loop, then the best
   * checkpoint is loaded, the test pass runs with `move_final=True`, and
   * the metric history and the model are saved.
   */
  method TrainModel(model: Model, metric: Metric, stopper: EarlyStopper, bs: seq<Batch>, decoder: map<int, int>,
                    lossFn: LossFn, budget: nat)
    returns (res: Result<PerRole<Summary>, Error>)
    requires model.log == metric.log && stopper.model == model && stopper.checks == 0
    modifies model, metric, stopper, model.log
    ensures res.Success? <==>
              AllCovered(decoder, bs) &&
              (old(model.checkpoint).Some? || ImprovedWithin(stopper.decide, EpochsRun(budget, stopper.decide)))
    ensures res.Failure? && res.error.MissingLabel? ==> res.error.cascade !in decoder
    ensures res.Success? ==> model.log.ops == old(model.log.ops) + RunOps(bs, budget, stopper.decide)
    ensures res.Success? ==> stopper.checks == EpochsRun(budget, stopper.decide)
    ensures res.Success? ==>
              Some(model.version) == model.checkpoint ==
              Checkpointed(old(model.checkpoint), old(model.version), NonEmptyBatches(bs, Train),
                           stopper.decide, EpochsRun(budget, stopper.decide))
    ensures res.Success? ==> res.value == PassSummaries(model.net, model.version, decoder, lossFn, bs, true)
    ensures res.Success? ==>
              metric.history == old(metric.history) +
                ValHistory(model.net, old(model.version), NonEmptyBatches(bs, Train), decoder, lossFn, bs,
                           EpochsRun(budget, stopper.decide)) + Listed(res.value)
    ensures res.Success? ==> metric.finals == old(metric.finals) + Listed(res.value)
  {
    ghost var c0, v0 := model.checkpoint, model.version;
    var ran := Epochs(model, metric, stopper, bs, decoder, lossFn, budget);
    if ran.Failure? {
      return Failure(ran.error);
    }
    var loaded := model.LoadCheckpoint();
    CheckpointedExists(c0, v0, NonEmptyBatches(bs, Train), stopper.decide, ran.value);
    if !loaded {
      return Failure(NoCheckpoint);
    }
    ghost var before := model.log.ops;
    var final := EvalModel(model, metric, bs, decoder, lossFn, true);
    if final.Failure? {
      return Failure(final.error);
    }
    metric.Save();
    model.SaveCheckpoint();
    RunLog(old(model.log.ops), EpochsOps(TrainPassOps(bs), EvalPassOps(bs, false), stopper.decide, ran.value),
           EvalPassOps(bs, true));
    res := final;
  }
}
