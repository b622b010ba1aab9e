/**
 * Events, batches and the train/val/test role masks of `select_label`
 * (train/train.py:16-20) and the "observed" union mask (train/train.py:46).
 */
module Roles {
  import opened Wrappers

  /** The label sentinel of an event whose cascade has not reached its observation horizon. */
  const Unobserved: int := -1

  datatype Role = Train | Val | Test

  /** The type code that marks an event as belonging to a role. */
  function Code(r: Role): int
  {
    match r
    case Train => 1
    case Val => 2
    case Test => 3
  }

  /**
   * One propagation event as the loader yields it: source and destination
   * entity, cascade id, transfer and publish time, label sentinel and type code.
   * Only the cascade id, the label and the type code are inspected by the
   * engine; the rest is handed to the model's forward pass.
   */
  datatype Event = Event(src: int, dst: int, cascade: int, transTime: real, pubTime: real,
                         labelValue: int, kind: int)

  /** One chronological mini-batch. */
  type Batch = seq<Event>

  function Labels(b: Batch): (ls: seq<int>)
    ensures |ls| == |b| && forall i :: 0 <= i < |b| ==> ls[i] == b[i].labelValue
  {
    seq(|b|, i requires 0 <= i < |b| => b[i].labelValue)
  }

  function Kinds(b: Batch): (ks: seq<int>)
    ensures |ks| == |b| && forall i :: 0 <= i < |b| ==> ks[i] == b[i].kind
  {
    seq(|b|, i requires 0 <= i < |b| => b[i].kind)
  }

  function Cascades(b: Batch): (cs: seq<int>)
    ensures |cs| == |b| && forall i :: 0 <= i < |b| ==> cs[i] == b[i].cascade
  {
    seq(|b|, i requires 0 <= i < |b| => b[i].cascade)
  }

  /**
   * Reference definition of an event's role: none while the label is the
   * unobserved sentinel, otherwise the role whose type code it carries,
   * and none for any other type code.
   */
  function RoleOf(labelValue: int, kind: int): Option<Role>
  {
    if labelValue == Unobserved then None
    else if kind == 1 then Some(Train)
    else if kind == 2 then Some(Val)
    else if kind == 3 then Some(Test)
    else None
  }

  /** The three role masks `{'train': ..., 'val': ..., 'test': ...}`. */
  datatype Masks = Masks(train: seq<bool>, val: seq<bool>, test: seq<bool>)
  {
    function Get(r: Role): seq<bool>
    {
      match r
      case Train => train
      case Val => val
      case Test => test
    }
  }

  /**
   * `select_label`: element-wise, event i is in the mask of role r iff its
   * label is not the sentinel and its type code is r's code. The masks are
   * pairwise disjoint and an unobserved event is in none of them.
   */
  function SelectLabel(labels: seq<int>, kinds: seq<int>): (m: Masks)
    requires |labels| == |kinds|
    ensures |m.train| == |m.val| == |m.test| == |labels|
    ensures forall r: Role, i :: 0 <= i < |labels| ==>
              (m.Get(r)[i] <==> RoleOf(labels[i], kinds[i]) == Some(r))
    ensures forall i :: 0 <= i < |labels| ==>
              !(m.train[i] && m.val[i]) && !(m.train[i] && m.test[i]) && !(m.val[i] && m.test[i])
    ensures forall i :: 0 <= i < |labels| && labels[i] == Unobserved ==>
              !m.train[i] && !m.val[i] && !m.test[i]
  {
    Masks(seq(|labels|, i requires 0 <= i < |labels| => labels[i] != Unobserved && kinds[i] == 1),
          seq(|labels|, i requires 0 <= i < |labels| => labels[i] != Unobserved && kinds[i] == 2),
          seq(|labels|, i requires 0 <= i < |labels| => labels[i] != Unobserved && kinds[i] == 3))
  }

  /** The masks of one batch. */
  function BatchMasks(b: Batch): (m: Masks)
    ensures |m.train| == |m.val| == |m.test| == |b|
  {
    SelectLabel(Labels(b), Kinds(b))
  }

  /** The mask of role r over a batch. */
  function RoleMask(b: Batch, r: Role): (mask: seq<bool>)
    ensures |mask| == |b|
    ensures forall i :: 0 <= i < |b| ==> (mask[i] <==> RoleOf(b[i].labelValue, b[i].kind) == Some(r))
  {
    BatchMasks(b).Get(r)
  }

  /**
   * `train | val | test` at event i is true exactly when its label is not
   * the sentinel and its type code is 1, 2 or 3.
   */
  lemma ObservedExactly(labels: seq<int>, kinds: seq<int>, i: nat)
    requires |labels| == |kinds| && i < |labels|
    ensures var m := SelectLabel(labels, kinds);
            m.train[i] || m.val[i] || m.test[i] <==> labels[i] != Unobserved && 1 <= kinds[i] <= 3
  {
    var m := SelectLabel(labels, kinds);
    assert m.Get(Train)[i] == m.train[i] && m.Get(Val)[i] == m.val[i] && m.Get(Test)[i] == m.test[i];
  }

  /**
   * The "observed" mask of a batch (train/train.py:45-46): the union of
   * its role masks, true exactly for the events whose label is not the
   * sentinel and whose type code is 1, 2 or 3.
   */
  function ObservedMask(b: Batch): (u: seq<bool>)
    ensures |u| == |b|
    ensures forall i :: 0 <= i < |b| ==> (u[i] <==> b[i].labelValue != Unobserved && 1 <= b[i].kind <= 3)
  {
    var m := BatchMasks(b);
    var u := seq(|b|, i requires 0 <= i < |b| => m.train[i] || m.val[i] || m.test[i]);
    assert forall i :: 0 <= i < |b| ==> (u[i] <==> b[i].labelValue != Unobserved && 1 <= b[i].kind <= 3) by {
      forall i | 0 <= i < |b|
        ensures u[i] <==> b[i].labelValue != Unobserved && 1 <= b[i].kind <= 3
      {
        ObservedExactly(Labels(b), Kinds(b), i);
      }
    }
    u
  }

  /** Every event has at most one role: the masks partition the observed events. */
  lemma RolesExclusive(labels: seq<int>, kinds: seq<int>, i: nat, r: Role, s: Role)
    requires |labels| == |kinds| && i < |labels|
    requires SelectLabel(labels, kinds).Get(r)[i] && SelectLabel(labels, kinds).Get(s)[i]
    ensures r == s
  {
  }
}
