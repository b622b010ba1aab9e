/**
 * Label lookup and sanitising (train/train.py:53-55 and 92-94): the
 * cascade ids of one role's subset are looked up in the decoder table,
 * which maps a cascade id to its final size, and every size below 1 is
 * raised to 1.
 */
module Labels {
  import opened Wrappers
  import opened Selection
  import opened Roles

  /** `m_label[m_label < 1] = 1` on one entry. */
  function Clamp(v: int): (c: int)
    ensures c >= 1
    ensures v >= 1 ==> c == v
    ensures v < 1 ==> c == 1
  {
    if v < 1 then 1 else v
  }

  /**
   * `[decoder_data[key] for key in keys]` followed by the clamp. A key
   * missing from the table raises in the source; here the first missing
   * key is returned as the failure.
   */
  function LookupLabels(decoder: map<int, int>, keys: seq<int>): (r: Result<seq<int>, int>)
    ensures r.Success? <==> forall i :: 0 <= i < |keys| ==> keys[i] in decoder
    ensures r.Success? ==> |r.value| == |keys|
    ensures r.Success? ==> forall i :: 0 <= i < |keys| ==>
              r.value[i] >= 1 && r.value[i] == Clamp(decoder[keys[i]])
    ensures r.Failure? ==>
              exists i :: 0 <= i < |keys| && keys[i] == r.error && r.error !in decoder &&
                          forall j :: 0 <= j < i ==> keys[j] in decoder
  {
    if keys == [] then Success([])
    else if keys[0] !in decoder then Failure(keys[0])
    else
      match LookupLabels(decoder, keys[1..])
      case Failure(k) => Failure(k)
      case Success(rest) => Success([Clamp(decoder[keys[0]])] + rest)
  }

  /**
   * The sanitised labels of role r's subset of a batch: one per event of
   * the role, or the first of the role's cascades missing from the table.
   */
  function RoleLabels(decoder: map<int, int>, b: Batch, r: Role): (res: Result<seq<int>, int>)
    ensures res.Success? ==> |res.value| == Count(RoleMask(b, r))
    ensures res.Failure? ==>
              res.error !in decoder &&
              exists i :: 0 <= i < |b| && RoleOf(b[i].labelValue, b[i].kind) == Some(r) && b[i].cascade == res.error
  {
    var keys := Select(Cascades(b), RoleMask(b, r));
    var res := LookupLabels(decoder, keys);
    if res.Failure? then
      var k :| 0 <= k < |keys| && keys[k] == res.error;
      SelectedCascade(b, r, k);
      res
    else res
  }

  /** Every event of role r in the batch has its cascade in the decoder table. */
  ghost predicate Covered(decoder: map<int, int>, b: Batch, r: Role)
  {
    forall i :: 0 <= i < |b| && RoleOf(b[i].labelValue, b[i].kind) == Some(r) ==> b[i].cascade in decoder
  }

  /** The k-th key looked up for role r is the cascade of the k-th event of that role. */
  lemma SelectedCascade(b: Batch, r: Role, k: nat)
    requires k < Count(RoleMask(b, r))
    ensures Select(Cascades(b), RoleMask(b, r))[k] == b[Positions(RoleMask(b, r))[k]].cascade
  {
    SelectAt(Cascades(b), RoleMask(b, r), k);
  }

  /** The lookup for a role's subset succeeds exactly when the table covers that role's events. */
  lemma RoleLabelsSucceeds(decoder: map<int, int>, b: Batch, r: Role)
    ensures RoleLabels(decoder, b, r).Success? <==> Covered(decoder, b, r)
  {
    var mask := RoleMask(b, r);
    var keys := Select(Cascades(b), mask);
    var pos := Positions(mask);
    if Covered(decoder, b, r) {
      forall k | 0 <= k < |keys|
        ensures keys[k] in decoder
      {
        SelectedCascade(b, r, k);
      }
    } else {
      var i :| 0 <= i < |b| && RoleOf(b[i].labelValue, b[i].kind) == Some(r) && b[i].cascade !in decoder;
      PositionsComplete(mask, i);
      var k :| 0 <= k < |pos| && pos[k] == i;
      SelectedCascade(b, r, k);
    }
  }

  /**
   * A successful lookup yields one label per event of the role; the k-th
   * label is the clamped size of the k-th such event's cascade, so it is
   * at least 1, and a size already at least 1 is kept.
   */
  lemma RoleLabelsValues(decoder: map<int, int>, b: Batch, r: Role, k: nat)
    requires RoleLabels(decoder, b, r).Success?
    ensures |RoleLabels(decoder, b, r).value| == Count(RoleMask(b, r))
    ensures k < Count(RoleMask(b, r)) ==>
              var e := b[Positions(RoleMask(b, r))[k]];
              var l := RoleLabels(decoder, b, r).value[k];
              && e.cascade in decoder
              && RoleOf(e.labelValue, e.kind) == Some(r)
              && l >= 1
              && l == Clamp(decoder[e.cascade])
              && (decoder[e.cascade] >= 1 ==> l == decoder[e.cascade])
  {
    if k < Count(RoleMask(b, r)) {
      SelectedCascade(b, r, k);
    }
  }
}
