/** group_weight: split a model's trainable tensors into a group that gets the
    optimizer's weight decay and a group whose weight decay is forced to 0. */
module ParamGrouping {
  import opened Outcomes

  /** The kinds of layer the grouping distinguishes. Linear and Conv (of any
      dimensionality) always own a weight and may own a bias; a batch-norm layer
      may own either; any other layer owns `nParams` tensors of its own. */
  datatype Layer =
    | Linear(hasBias: bool)
    | Conv(hasBias: bool)
    | BatchNorm(hasWeight: bool, hasBias: bool)
    | Other(nParams: nat)

  /** Where a tensor sits in its layer: weight, bias, or the k-th tensor of an unclassified layer. */
  datatype Slot = Weight | Bias | Extra(k: nat)

  /** Identity of a trainable tensor: the index of its layer in the model's module list, and its slot. */
  datatype ParamRef = ParamRef(layer: nat, slot: Slot)

  /** The weight decay a group asks for: the optimizer's default, or an explicit override. */
  datatype WeightDecay = OptimizerDefault | Override(coefficient: real)

  /** An optimizer parameter group as `group_weight` builds it: its tensors and its
      weight decay. `LrSchedule.ParamGroup` is the same dict seen by the scheduler,
      which reads and writes only its learning rate. */
  datatype ParamGroup = ParamGroup(params: seq<ParamRef>, weightDecay: WeightDecay)

  /** Whether layer `l` owns a tensor in slot `s`. */
  predicate HasSlot(l: Layer, s: Slot) {
    match l
    case Linear(b) => s == Weight || (s == Bias && b)
    case Conv(b) => s == Weight || (s == Bias && b)
    case BatchNorm(w, b) => (s == Weight && w) || (s == Bias && b)
    case Other(n) => s.Extra? && s.k < n
  }

  /** The tensors layer `l` (at index `i`) owns, weight first, then bias. */
  function LayerParams(i: nat, l: Layer): (ps: seq<ParamRef>)
    ensures forall s :: ParamRef(i, s) in ps <==> HasSlot(l, s)
    ensures forall p :: p in ps ==> p.layer == i
  {
    match l
    case Linear(b) => [ParamRef(i, Weight)] + (if b then [ParamRef(i, Bias)] else [])
    case Conv(b) => [ParamRef(i, Weight)] + (if b then [ParamRef(i, Bias)] else [])
    case BatchNorm(w, b) => (if w then [ParamRef(i, Weight)] else []) + (if b then [ParamRef(i, Bias)] else [])
    case Other(n) =>
      var ps := seq(n, k requires 0 <= k < n => ParamRef(i, Extra(k)));
      assert forall s: Slot :: s.Extra? && s.k < n ==> ps[s.k] == ParamRef(i, s);
      ps
  }

  /** Every trainable tensor of the model, layer by layer (`module.parameters()`). */
  function Params(layers: seq<Layer>): seq<ParamRef>
  {
    if layers == [] then []
    else Params(layers[..|layers| - 1]) + LayerParams(|layers| - 1, layers[|layers| - 1])
  }

  /** What one layer contributes to the decay group. */
  function LayerDecay(i: nat, l: Layer): seq<ParamRef> {
    match l
    case Linear(_) => [ParamRef(i, Weight)]
    case Conv(_) => [ParamRef(i, Weight)]
    case _ => []
  }

  /** What one layer contributes to the no-decay group. */
  function LayerNoDecay(i: nat, l: Layer): seq<ParamRef> {
    match l
    case Linear(b) => if b then [ParamRef(i, Bias)] else []
    case Conv(b) => if b then [ParamRef(i, Bias)] else []
    case BatchNorm(w, b) => (if w then [ParamRef(i, Weight)] else []) + (if b then [ParamRef(i, Bias)] else [])
    case Other(_) => []
  }

  /** The decay group after visiting `layers` in order. */
  function Decay(layers: seq<Layer>): seq<ParamRef> {
    if layers == [] then []
    else Decay(layers[..|layers| - 1]) + LayerDecay(|layers| - 1, layers[|layers| - 1])
  }

  /** The no-decay group after visiting `layers` in order. */
  function NoDecay(layers: seq<Layer>): seq<ParamRef> {
    if layers == [] then []
    else NoDecay(layers[..|layers| - 1]) + LayerNoDecay(|layers| - 1, layers[|layers| - 1])
  }

  /** Number of tensors owned by unclassified layers. */
  function Unclassified(layers: seq<Layer>): nat {
    if layers == [] then 0
    else Unclassified(layers[..|layers| - 1]) + (if layers[|layers| - 1].Other? then layers[|layers| - 1].nParams else 0)
  }

  /** Walks the layers, appending each tensor to its group; fails with
      AssertionError when the two groups together miss a trainable tensor.
      On success the result is the decay group (optimizer default) followed by
      the no-decay group (weight decay 0). */
  method GroupWeight(layers: seq<Layer>) returns (r: Result<seq<ParamGroup>>)
    ensures r.Ok? <==> |Decay(layers)| + |NoDecay(layers)| == |Params(layers)|
    ensures r.Ok? ==> r.value == [ParamGroup(Decay(layers), OptimizerDefault),
                                  ParamGroup(NoDecay(layers), Override(0.0))]
    ensures r.Err? ==> r.error == AssertionError
  {
    var groupDecay: seq<ParamRef> := [];
    var groupNoDecay: seq<ParamRef> := [];
    for i := 0 to |layers|
      invariant groupDecay == Decay(layers[..i])
      invariant groupNoDecay == NoDecay(layers[..i])
    {
      assert layers[..i + 1][..i] == layers[..i];
      match layers[i]
      case Linear(hasBias) =>
        groupDecay := groupDecay + [ParamRef(i, Weight)];
        if hasBias {
          groupNoDecay := groupNoDecay + [ParamRef(i, Bias)];
        }
      case Conv(hasBias) =>
        groupDecay := groupDecay + [ParamRef(i, Weight)];
        if hasBias {
          groupNoDecay := groupNoDecay + [ParamRef(i, Bias)];
        }
      case BatchNorm(hasWeight, hasBias) =>
        if hasWeight {
          groupNoDecay := groupNoDecay + [ParamRef(i, Weight)];
        }
        if hasBias {
          groupNoDecay := groupNoDecay + [ParamRef(i, Bias)];
        }
      case Other(_) =>
    }
    assert layers[..|layers|] == layers;
    if |Params(layers)| == |groupDecay| + |groupNoDecay| {
      r := Ok([ParamGroup(groupDecay, OptimizerDefault), ParamGroup(groupNoDecay, Override(0.0))]);
    } else {
      r := Err(AssertionError);
    }
  }

  /** The slots that belong in the decay group: the weight of a Linear or Conv layer. */
  predicate DecaySlot(l: Layer, s: Slot) {
    s == Weight && (l.Linear? || l.Conv?)
  }

  /** The slots that belong in the no-decay group: the bias of a Linear or Conv
      layer that has one, and the weight and bias a batch-norm layer has. */
  predicate NoDecaySlot(l: Layer, s: Slot) {
    ((l.Linear? || l.Conv?) && l.hasBias && s == Bias) ||
    (l.BatchNorm? && ((s == Weight && l.hasWeight) || (s == Bias && l.hasBias)))
  }

  /** A tensor is in the decay group exactly when it is the weight of a Linear or Conv layer. */
  lemma {:induction false} DecayMembership(layers: seq<Layer>, p: ParamRef)
    ensures p in Decay(layers) <==> p.layer < |layers| && DecaySlot(layers[p.layer], p.slot)
  {
    if layers != [] {
      var init := layers[..|layers| - 1];
      DecayMembership(init, p);
      if p.layer < |init| {
        assert init[p.layer] == layers[p.layer];
      }
    }
  }

  lemma LayerNoDecayMembership(i: nat, l: Layer, p: ParamRef)
    ensures p in LayerNoDecay(i, l) <==> p.layer == i && NoDecaySlot(l, p.slot)
  {
  }

  /** A tensor is in the no-decay group exactly when it is the bias of a Linear
      or Conv layer that has one, or a weight or bias a batch-norm layer has. */
  lemma {:induction false} NoDecayMembership(layers: seq<Layer>, p: ParamRef)
    ensures p in NoDecay(layers) <==> p.layer < |layers| && NoDecaySlot(layers[p.layer], p.slot)
  {
    if layers != [] {
      var init := layers[..|layers| - 1];
      NoDecayMembership(init, p);
      LayerNoDecayMembership(|layers| - 1, layers[|layers| - 1], p);
      if p.layer < |init| {
        assert init[p.layer] == layers[p.layer];
      }
    }
  }

  /** A tensor is trainable exactly when its layer owns its slot. */
  lemma {:induction false} ParamsMembership(layers: seq<Layer>, p: ParamRef)
    ensures p in Params(layers) <==> p.layer < |layers| && HasSlot(layers[p.layer], p.slot)
  {
    if layers != [] {
      var init := layers[..|layers| - 1];
      ParamsMembership(init, p);
      if p.layer < |init| {
        assert init[p.layer] == layers[p.layer];
      }
      var last := LayerParams(|layers| - 1, layers[|layers| - 1]);
      assert p in last <==> p.layer == |layers| - 1 && HasSlot(layers[|layers| - 1], p.slot);
    }
  }

  /** No tensor lands in both groups, and every grouped tensor is trainable:
      an unclassified layer contributes nothing to either group. */
  lemma GroupsDisjointAndTrainable(layers: seq<Layer>, p: ParamRef)
    ensures !(p in Decay(layers) && p in NoDecay(layers))
    ensures p in Decay(layers) || p in NoDecay(layers) ==>
      p in Params(layers) && p.layer < |layers| && !layers[p.layer].Other?
  {
    DecayMembership(layers, p);
    NoDecayMembership(layers, p);
    ParamsMembership(layers, p);
  }

  /** The two groups together hold every trainable tensor except those of unclassified layers. */
  lemma {:induction false} GroupedCount(layers: seq<Layer>)
    ensures |Decay(layers)| + |NoDecay(layers)| + Unclassified(layers) == |Params(layers)|
  {
    if layers != [] {
      GroupedCount(layers[..|layers| - 1]);
    }
  }

  /** Unclassified(layers) is zero exactly when no unclassified layer owns a tensor. */
  lemma {:induction false} UnclassifiedZero(layers: seq<Layer>)
    ensures Unclassified(layers) == 0 <==> forall i :: 0 <= i < |layers| && layers[i].Other? ==> layers[i].nParams == 0
  {
    if layers != [] {
      var init := layers[..|layers| - 1];
      UnclassifiedZero(init);
      assert forall i :: 0 <= i < |init| ==> init[i] == layers[i];
    }
  }

  /** The count assertion of group_weight holds exactly when every layer that
      owns a tensor is a Linear, Conv or batch-norm layer. */
  lemma AssertionHoldsIff(layers: seq<Layer>)
    ensures |Decay(layers)| + |NoDecay(layers)| == |Params(layers)| <==>
      forall i :: 0 <= i < |layers| && layers[i].Other? ==> layers[i].nParams == 0
  {
    GroupedCount(layers);
    UnclassifiedZero(layers);
  }

  /** When the count assertion holds, no trainable tensor was dropped: each one
      is in the decay group or in the no-decay group. */
  lemma NothingDropped(layers: seq<Layer>, p: ParamRef)
    requires |Decay(layers)| + |NoDecay(layers)| == |Params(layers)|
    requires p in Params(layers)
    ensures p in Decay(layers) || p in NoDecay(layers)
  {
    AssertionHoldsIff(layers);
    ParamsMembership(layers, p);
    DecayMembership(layers, p);
    NoDecayMembership(layers, p);
  }
}
