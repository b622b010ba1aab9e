/**
 * The stateful collaborators of `train_model` and `eval_model`: the
 * streaming network with its memory, the per-role metric accumulator and
 * the early stopper. Every call they receive is appended to one shared
 * ghost log, which module Training compares with the traces of module
 * Protocol.
 */
module Engine {
  import opened Wrappers
  import opened Roles
  import opened Protocol

  /** The calls made so far, in order, on the model, the metric and the stopper of one run. */
  class Log {
    ghost var ops: seq<Op>

    constructor ()
      ensures ops == []
    {
      ops := [];
    }
  }

  /** The network's forward map: memory, parameter version, batch, target mask and event index to a prediction. */
  type Net = (seq<Batch>, nat, Batch, seq<bool>, nat) -> real

  /** `compute_loss` on the selected predictions and labels. */
  type LossFn = (seq<real>, seq<int>) -> real

  /** What `forward` predicts for batch b from memory `mem` and parameters `version`: one value per event. */
  function Predictions(net: Net, mem: seq<Batch>, version: nat, b: Batch, mask: seq<bool>): (p: seq<real>)
    ensures |p| == |b|
  {
    seq(|b|, i requires 0 <= i < |b| => net(mem, version, b, mask, i))
  }

  /** One value per role, as the `{'train': ..., 'val': ..., 'test': ...}` dictionaries hold. */
  datatype PerRole<T> = PerRole(train: T, val: T, test: T)
  {
    function Get(r: Role): T
    {
      match r
      case Train => train
      case Val => val
      case Test => test
    }

    function Set(r: Role, v: T): (p: PerRole<T>)
      ensures p.Get(r) == v
      ensures forall s :: s != r ==> p.Get(s) == Get(s)
      ensures v == Get(r) ==> p == this
    {
      match r
      case Train => this.(train := v)
      case Val => this.(val := v)
      case Test => this.(test := v)
    }
  }

  /**
   * The streaming network. Its predictions come from `net`, which is given
   * the batches folded into memory since the last reset, the number of
   * optimizer steps taken, the batch, the target mask and an event index;
   * what it computes is outside this model.
   */
  class Model {
    const log: Log
    const net: Net
    /** The batches folded into memory since the last reset, oldest first. */
    var memory: seq<Batch>
    /** The batch last forwarded and not yet folded into memory. */
    var pending: Option<Batch>
    /** How many folded batches the memory's gradient history still reaches back to. */
    var attached: nat
    /** Number of optimizer steps applied to the parameters. */
    var version: nat
    /** `model.train()` versus `model.eval()`. */
    var training: bool
    /** Parameters of the last checkpoint written, if any. */
    var checkpoint: Option<nat>

    constructor (log: Log, net: Net)
      ensures this.log == log && this.net == net
      ensures memory == [] && pending == None && attached == 0 && version == 0
      ensures training && checkpoint == None
    {
      this.log := log;
      this.net := net;
      memory := [];
      pending := None;
      attached := 0;
      version := 0;
      training := true;
      checkpoint := None;
    }

    /** `reset_state`: empty memory with no gradient history; parameters are kept. */
    method ResetState()
      modifies this, log
      ensures memory == [] && pending == None && attached == 0
      ensures version == old(version) && training == old(training) && checkpoint == old(checkpoint)
      ensures log.ops == old(log.ops) + [Reset]
    {
      memory := [];
      pending := None;
      attached := 0;
      log.ops := log.ops + [Reset];
    }

    /** `model.train()` / `model.eval()`; not a lifecycle call. */
    method SetTraining(mode: bool)
      modifies this
      ensures training == mode
      ensures memory == old(memory) && pending == old(pending) && attached == old(attached)
      ensures version == old(version) && checkpoint == old(checkpoint)
    {
      training := mode;
    }

    /**
     * `forward`: one prediction per event of the batch, computed from the
     * current memory; the batch is held until `update_state` folds it in.
     */
    method Forward(b: Batch, mask: seq<bool>) returns (pred: seq<real>)
      requires |mask| == |b|
      modifies this, log
      ensures |pred| == |b|
      ensures pred == Predictions(net, old(memory), old(version), b, mask)
      ensures pending == Some(b)
      ensures memory == old(memory) && attached == old(attached) && version == old(version)
      ensures training == old(training) && checkpoint == old(checkpoint)
      ensures log.ops == old(log.ops) + [Op.Forward(mask, old(memory))]
    {
      pred := Predictions(net, memory, version, b, mask);
      log.ops := log.ops + [Op.Forward(mask, memory)];
      pending := Some(b);
    }

    /**
     * `loss.backward(); optimizer.step()`: one more parameter update; the
     * gradient flows into the `attached` batches folded before this one.
     */
    method Step()
      modifies this, log
      ensures version == old(version) + 1
      ensures memory == old(memory) && pending == old(pending) && attached == old(attached)
      ensures training == old(training) && checkpoint == old(checkpoint)
      ensures log.ops == old(log.ops) + [Op.Step(old(attached))]
    {
      log.ops := log.ops + [Op.Step(attached)];
      version := version + 1;
    }

    /**
     * `update_state`: folds the forwarded batch into memory. In training
     * mode the memory's gradient history grows by that batch; under
     * evaluation no history is recorded.
     */
    method UpdateState()
      requires pending.Some?
      modifies this, log
      ensures memory == old(memory) + [old(pending).value] && pending == None
      ensures attached == if training then old(attached) + 1 else old(attached)
      ensures version == old(version) && training == old(training) && checkpoint == old(checkpoint)
      ensures log.ops == old(log.ops) + [Update]
    {
      memory := memory + [pending.value];
      pending := None;
      if training {
        attached := attached + 1;
      }
      log.ops := log.ops + [Update];
    }

    /** `detach_state`: the memory keeps its value and loses its gradient history. */
    method DetachState()
      modifies this, log
      ensures attached == 0
      ensures memory == old(memory) && pending == old(pending) && version == old(version)
      ensures training == old(training) && checkpoint == old(checkpoint)
      ensures log.ops == old(log.ops) + [Detach]
    {
      attached := 0;
      log.ops := log.ops + [Detach];
    }

    /** `save_model`: the checkpoint now holds the current parameters. */
    method SaveCheckpoint()
      modifies this, log
      ensures checkpoint == Some(version)
      ensures memory == old(memory) && pending == old(pending) && attached == old(attached)
      ensures version == old(version) && training == old(training)
      ensures log.ops == old(log.ops) + [Save]
    {
      checkpoint := Some(version);
      log.ops := log.ops + [Save];
    }

    /** `load_model`: restores the checkpointed parameters; with no checkpoint it fails and changes nothing. */
    method LoadCheckpoint() returns (ok: bool)
      modifies this, log
      ensures ok <==> old(checkpoint).Some?
      ensures ok ==> version == old(checkpoint).value && log.ops == old(log.ops) + [Load]
      ensures !ok ==> version == old(version) && log.ops == old(log.ops)
      ensures memory == old(memory) && pending == old(pending) && attached == old(attached)
      ensures training == old(training) && checkpoint == old(checkpoint)
    {
      ok := checkpoint.Some?;
      if ok {
        version := checkpoint.value;
        log.ops := log.ops + [Load];
      }
    }
  }

  /** One accumulated prediction: the cascade, its predicted size and its sanitised label. */
  datatype Sample = Sample(cascade: int, pred: real, size: int)

  /** What `calculate_metric` folds for one role: the samples, the batch losses and whether the result is final. */
  datatype Summary = Summary(role: Role, samples: seq<Sample>, losses: seq<real>, final: bool)

  /** The three summaries of a pass in the order they are calculated. */
  function Listed(p: PerRole<Summary>): seq<Summary>
  {
    [p.train, p.val, p.test]
  }

  /** The per-role metric accumulator with its history of summaries. */
  class Metric {
    const log: Log
    var pools: PerRole<seq<Sample>>
    var history: seq<Summary>
    var finals: seq<Summary>

    constructor (log: Log)
      ensures this.log == log
      ensures pools == PerRole([], [], []) && history == [] && finals == []
    {
      this.log := log;
      pools := PerRole([], [], []);
      history := [];
      finals := [];
    }

    /** `metric.fresh()`: every role's accumulator is emptied. */
    method Fresh()
      modifies this, log
      ensures pools == PerRole([], [], [])
      ensures history == old(history) && finals == old(finals)
      ensures log.ops == old(log.ops) + [Op.Fresh]
    {
      pools := PerRole([], [], []);
      log.ops := log.ops + [Op.Fresh];
    }

    /** `metric.update(target, pred, label, dtype)`: the samples join role r's accumulator. */
    method Update(r: Role, samples: seq<Sample>)
      modifies this, log
      ensures pools == old(pools).Set(r, old(pools).Get(r) + samples)
      ensures history == old(history) && finals == old(finals)
      ensures log.ops == old(log.ops) + [MetricUpdate(r, |samples|)]
    {
      pools := pools.Set(r, pools.Get(r) + samples);
      log.ops := log.ops + [MetricUpdate(r, |samples|)];
    }

    /**
     * `calculate_metric(r, move_history=True, move_final=final, loss)`:
     * the summary of role r's accumulator is pushed to the history, and
     * also recorded as final when asked.
     */
    method Calculate(r: Role, losses: seq<real>, final: bool) returns (s: Summary)
      modifies this, log
      ensures s == Summary(r, pools.Get(r), losses, final)
      ensures pools == old(pools)
      ensures history == old(history) + [s]
      ensures finals == if final then old(finals) + [s] else old(finals)
      ensures log.ops == old(log.ops) + [Summarise(r, final)]
    {
      s := Summary(r, pools.Get(r), losses, final);
      history := history + [s];
      if final {
        finals := finals + [s];
      }
      log.ops := log.ops + [Summarise(r, final)];
    }

    /** `metric.save()`: the history is persisted. */
    method Save()
      modifies log
      ensures log.ops == old(log.ops) + [MetricSave]
    {
      log.ops := log.ops + [MetricSave];
    }
  }

  /**
   * The early stopper. Its verdict after the k-th check is `decide(k)`;
   * on an improvement it checkpoints the model before answering.
   */
  class EarlyStopper {
    const model: Model
    const decide: nat -> Verdict
    var checks: nat

    constructor (model: Model, decide: nat -> Verdict)
      ensures this.model == model && this.decide == decide && checks == 0
    {
      this.model := model;
      this.decide := decide;
      checks := 0;
    }

    /** `early_stop_check`: whether the epoch loop must stop now. */
    method Check() returns (stop: bool)
      modifies this, model, model.log
      ensures checks == old(checks) + 1
      ensures stop == decide(old(checks)).stop
      ensures model.checkpoint == if decide(old(checks)).improved then Some(model.version) else old(model.checkpoint)
      ensures model.memory == old(model.memory) && model.pending == old(model.pending)
      ensures model.attached == old(model.attached) && model.version == old(model.version)
      ensures model.training == old(model.training)
      ensures model.log.ops == old(model.log.ops) + CheckOps(decide(old(checks)))
    {
      var v := decide(checks);
      if v.improved {
        model.SaveCheckpoint();
      }
      model.log.ops := model.log.ops + [StopCheck(v.stop)];
      checks := checks + 1;
      stop := v.stop;
    }
  }
}
