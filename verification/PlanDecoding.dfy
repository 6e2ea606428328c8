// From the plan of an FP8 expert group to the decoded weights.
module PlanDecoding {
  import opened Text
  import opened Tensors
  import opened ImportPlan
  import opened ExpertNames
  import opened ExpertPlans
  import opened Fp8ExpertPlans
  import opened Fp8Decode
  import opened Fp8Experts
  import opened BlobWriter
  import opened PlanTyping
  import opened BlockFp8Plans
  import opened PlanPlacement
  import opened Planner

  // What the writer hands over for a planned stack: weights and scales stacked whole, under
  // the two names the loader looks up.
  lemma StackInput<T(!new)>(ts: TensorSpec, group: string, proj: string, n: nat, tensors: seq<SourceTensor>,
                            inv: Inventory, target: string, policy: Policy, read: SourceTensor -> TensorData<T>)
    requires DecodeStacked(ts, group, proj, n, tensors, inv, target, policy) && Faithful(read)
    ensures var weights, scales := Resolved(ts.sources[..n], read), Resolved(ts.sources[n..], read);
      QuantizeInput(ts, Resolved(ts.sources, read)) == Ok([
        TensorData(ts.name, ts.outDtype, Stack(weights, ts.sources[0].shape)),
        TensorData(ts.name + ".scale_inv", ts.sources[n].dtype, Stack(scales, ts.sources[n].shape))])
    ensures AllShaped(Resolved(ts.sources[..n], read), ts.sources[0].shape)
    ensures AllShaped(Resolved(ts.sources[n..], read), ts.sources[n].shape)
  {
    var weights, scales := ts.sources[..n], ts.sources[n..];
    var sources := Resolved(ts.sources, read);
    LayoutsStack(weights, read);
    LayoutsStack(scales, read);
    assert |sources| / 2 == n;
    assert sources[..n] == Resolved(weights, read) && sources[n..] == Resolved(scales, read);
    forall k | 0 <= k < n ensures weights[k].shape == ts.sources[0].shape && scales[k].shape == ts.sources[n].shape {
      assert SameLayout(weights[k], weights[0]) && SameLayout(scales[k], scales[0]);
    }
  }

  // Slot e of a planned, stacked and decoded projection is the decoding of the tensor named
  // <group>.<e>.<projection>.weight with that tensor's own scale, for matrices and all other
  // shapes whose fate stacking does not decide.
  lemma PlannedStackDecodes<T(!new), P, V>(ts: TensorSpec, group: string, proj: string, n: nat, tensors: seq<SourceTensor>,
                                           inv: Inventory, target: string, policy: Policy,
                                           read: SourceTensor -> TensorData<T>, ops: Arithmetic<T, T, P, V>,
                                           e: nat)
    requires WellFiled(inv) && DecodeStacked(ts, group, proj, n, tensors, inv, target, policy) && Faithful(read)
    requires e < n
    ensures var weight := ts.sources[e];
      && weight.name == ExpertName(group, e, proj)
      && Fp8ScaleFor(inv, weight.name) == Some(ts.sources[n + e].name)
    ensures var input := QuantizeInput(ts, Resolved(ts.sources, read));
      && input.Ok? && |input.value| == 2
      && SlotDecodes(input.value[0].tensor, input.value[1].tensor,
                     read(ts.sources[e]).tensor, read(ts.sources[n + e]).tensor, ops, e)
         == !StackingDecides(ts.sources[e].shape, ts.sources[n + e].shape, n)
  {
    var weights, scales := Resolved(ts.sources[..n], read), Resolved(ts.sources[n..], read);
    StackInput(ts, group, proj, n, tensors, inv, target, policy, read);
    StackThenDecode(weights, scales, ts.sources[0].shape, ts.sources[n].shape, ops, e);
    StackLayouts(ts, group, proj, n, tensors, inv, target, policy, e);
    assert weights[e] == read(ts.sources[e]) && scales[e] == read(ts.sources[n + e]);
    SlotNamesOf(ts, group, proj, n, tensors, inv, target, policy, e);
  }

  lemma SlotNamesOf(ts: TensorSpec, group: string, proj: string, n: nat, tensors: seq<SourceTensor>,
                    inv: Inventory, target: string, policy: Policy, e: nat)
    requires WellFiled(inv) && DecodeStacked(ts, group, proj, n, tensors, inv, target, policy) && e < n
    ensures ts.sources[e].name == ExpertName(group, e, proj)
    ensures Fp8ScaleFor(inv, ts.sources[e].name) == Some(ts.sources[n + e].name)
  {
    var weights, scales := ts.sources[..n], ts.sources[n..];
    assert weights[e] == ts.sources[e] && scales[e] == ts.sources[n + e];
  }

  // ---------- from the whole plan ----------

  // What the writer hands over for the tensor decodes, whole or in slot e, to what the weight
  // decodes to with the scale.
  ghost predicate DecodesTo<T, P, V>(ts: TensorSpec, e: nat, weight: Tensor<T>, scale: Tensor<T>,
                                     read: SourceTensor -> TensorData<T>, ops: Arithmetic<T, T, P, V>)
  {
    var input := QuantizeInput(ts, Resolved(ts.sources, read));
    && input.Ok? && |input.value| == 2
    && match ts.transform
       case TransformDecodeFP8 => input.value[0].tensor == weight && input.value[1].tensor == scale
       case TransformDecodeStackFP8 => SlotDecodes(input.value[0].tensor, input.value[1].tensor, weight, scale, ops, e)
       case _ => false
  }

  lemma LoneDecodes<T, P, V>(ts: TensorSpec, inv: Inventory, w: string, target: string, policy: Policy,
                             read: SourceTensor -> TensorData<T>, ops: Arithmetic<T, T, P, V>)
    requires ScaleFollows(ts, 0, inv, w) && |ts.sources| == 2
    requires ts == DecodeBlob(inv, inv[w], ts.sources[1], target, policy).tensors[0]
    ensures DecodesTo(ts, 0, read(inv[w]).tensor, read(inv[Fp8ScaleFor(inv, w).value]).tensor, read, ops)
  {
  }

  lemma StackLayouts(ts: TensorSpec, group: string, proj: string, n: nat, tensors: seq<SourceTensor>, inv: Inventory,
                     target: string, policy: Policy, e: nat)
    requires DecodeStacked(ts, group, proj, n, tensors, inv, target, policy) && e < n
    ensures ts.sources[0].shape == ts.sources[e].shape && ts.sources[n].shape == ts.sources[n + e].shape
  {
    var weights, scales := ts.sources[..n], ts.sources[n..];
    assert SameLayout(weights[e], weights[0]) && SameLayout(scales[e], scales[0]);
    assert weights[e] == ts.sources[e] && scales[e] == ts.sources[n + e];
  }

  lemma HalfOfStack(ts: TensorSpec, group: string, proj: string, n: nat, tensors: seq<SourceTensor>, inv: Inventory,
                    target: string, policy: Policy)
    requires DecodeStacked(ts, group, proj, n, tensors, inv, target, policy)
    ensures |ts.sources| == n + n && |ts.sources| / 2 == n
  {
  }

  // The projection and the number of experts of a decoded stack.
  lemma StackParts(ts: TensorSpec, e: nat, inv: Inventory, w: string, g: string, members: seq<SourceTensor>,
                   target: string, policy: Policy)
    returns (p: string, n: nat)
    requires InDecodeStack(ts, e, w, g, members, inv, target, policy) && ScaleFollows(ts, e, inv, w)
    ensures DecodeStacked(ts, g, p, n, members, inv, target, policy) && e < n
    ensures ts.sources[e] == inv[w] && ts.sources[n + e] == inv[Fp8ScaleFor(inv, w).value]
  {
    p, n :| InDecodeSlot(ts, e, w, g, p, n, members, inv, target, policy);
    HalfOfStack(ts, g, p, n, members, inv, target, policy);
  }

  // Whether weight w, grouped with n - 1 others, is decoded alike in its slot and alone.
  predicate DecodesInSlot(inv: Inventory, w: string, n: nat)
    requires IsFP8Weight(inv, w) && Fp8ScaleFor(inv, w).value in inv
  {
    !StackingDecides(inv[w].shape, inv[Fp8ScaleFor(inv, w).value].shape, n)
  }

  // The same from the predicate a plan provides.
  lemma InStackDecodes<T(!new), P, V>(ts: TensorSpec, e: nat, inv: Inventory, w: string, g: string, members: seq<SourceTensor>,
                                      target: string, policy: Policy, read: SourceTensor -> TensorData<T>,
                                      ops: Arithmetic<T, T, P, V>)
    requires WellFiled(inv) && InDecodeStack(ts, e, w, g, members, inv, target, policy) && ScaleFollows(ts, e, inv, w)
    requires Faithful(read)
    ensures DecodesTo(ts, e, read(inv[w]).tensor, read(inv[Fp8ScaleFor(inv, w).value]).tensor, read, ops)
        <==> DecodesInSlot(inv, w, |ts.sources| / 2)
  {
    var p, n := StackParts(ts, e, inv, w, g, members, target, policy);
    HalfOfStack(ts, g, p, n, members, inv, target, policy);
    PlannedStackDecodes(ts, g, p, n, members, inv, target, policy, read, ops, e);
  }

  // The tensor decodes a weight on its own always, and an expert exactly if stacking does not
  // decide the fate of such shapes.
  ghost predicate DecodesIff<T, P, V>(ts: TensorSpec, e: nat, inv: Inventory, w: string, isLayer: string -> bool,
                                      read: SourceTensor -> TensorData<T>, ops: Arithmetic<T, T, P, V>)
    requires IsFP8Weight(inv, w) && Fp8ScaleFor(inv, w).value in inv
  {
    DecodesTo(ts, e, read(inv[w]).tensor, read(inv[Fp8ScaleFor(inv, w).value]).tensor, read, ops)
    <==> (PerExpertGroup(w, isLayer).None? || DecodesInSlot(inv, w, |ts.sources| / 2))
  }

  lemma PlacedDecodes<T(!new), P, V>(ts: TensorSpec, e: nat, inv: Inventory, w: string, isLayer: string -> bool,
                                     target: string, policy: Policy, read: SourceTensor -> TensorData<T>,
                                     ops: Arithmetic<T, T, P, V>)
    requires WellFiled(inv) && IsFP8Weight(inv, w) && Faithful(read)
    requires PlacedFP8(ts, e, inv, w, isLayer, target, policy) && ScaleFollows(ts, e, inv, w)
    ensures DecodesIff(ts, e, inv, w, isLayer, read, ops)
  {
    WeightRoute(inv, isLayer, w);
    match PerExpertGroup(w, isLayer)
    case None => LoneDecodes(ts, inv, w, target, policy, read, ops);
    case Some(g) => InStackDecodes(ts, e, inv, w, g, Fp8Groups(inv, isLayer)[g], target, policy, read, ops);
  }

  // An expert's name spells out slot e.
  ghost predicate NamesSlot(w: string, e: nat, isLayer: string -> bool) {
    forall g :: PerExpertGroup(w, isLayer) == Some(g) ==> exists p :: w == ExpertName(g, e, p)
  }

  lemma SlotIsSpelled(ts: TensorSpec, e: nat, inv: Inventory, w: string, isLayer: string -> bool, target: string, policy: Policy)
    requires IsFP8Weight(inv, w) && PlacedFP8(ts, e, inv, w, isLayer, target, policy)
    ensures NamesSlot(w, e, isLayer)
  {
    WeightRoute(inv, isLayer, w);
  }

  // The tensor reads the weight at place e, which an expert's name spells out, with its scale,
  // and decodes it as above.
  ghost predicate Decodes<T, P, V>(ts: TensorSpec, e: nat, inv: Inventory, w: string, isLayer: string -> bool,
                                   read: SourceTensor -> TensorData<T>, ops: Arithmetic<T, T, P, V>)
  {
    ScaleFollows(ts, e, inv, w) && DecodesIff(ts, e, inv, w, isLayer, read, ops) && NamesSlot(w, e, isLayer)
  }

  lemma PlacedIsDecoded<T(!new), P, V>(ts: TensorSpec, e: nat, inv: Inventory, w: string, isLayer: string -> bool,
                                       target: string, policy: Policy, read: SourceTensor -> TensorData<T>,
                                       ops: Arithmetic<T, T, P, V>)
    requires WellFiled(inv) && IsFP8Weight(inv, w) && Faithful(read)
    requires PlacedFP8(ts, e, inv, w, isLayer, target, policy) && ScaleFollows(ts, e, inv, w)
    ensures Decodes(ts, e, inv, w, isLayer, read, ops)
  {
    PlacedDecodes(ts, e, inv, w, isLayer, target, policy, read, ops);
    SlotIsSpelled(ts, e, inv, w, isLayer, target, policy);
  }

  ghost predicate DecodedBy<T, P, V>(ts: seq<TensorSpec>, k: int, e: nat, inv: Inventory, w: string, isLayer: string -> bool,
                                     read: SourceTensor -> TensorData<T>, ops: Arithmetic<T, T, P, V>)
    requires IsFP8Weight(inv, w)
  {
    OnlyReader(ts, k, e, inv, w) && Decodes(ts[k], e, inv, w, isLayer, read, ops)
  }

  lemma ReadIsDecoded<T(!new), P, V>(ts: seq<TensorSpec>, k: int, e: nat, inv: Inventory, w: string, isLayer: string -> bool,
                                     target: string, policy: Policy, read: SourceTensor -> TensorData<T>,
                                     ops: Arithmetic<T, T, P, V>)
    requires WellFiled(inv) && IsFP8Weight(inv, w) && Faithful(read)
    requires ReadAndPlaced(ts, k, e, inv, w, isLayer, target, policy)
    ensures DecodedBy(ts, k, e, inv, w, isLayer, read, ops)
  {
    PlacedIsDecoded(ts[k], e, inv, w, isLayer, target, policy, read, ops);
  }

  // In a complete plan of a block-FP8 source every FP8 weight is read by exactly one tensor, an
  // expert in the slot its name spells out, and with its own scale. What the writer makes of
  // them decodes, whole or in slot e, to what the weight decodes to with that scale.
  lemma PlanDecodesWeights<T(!new), P, V>(specs: seq<BlobSpec>, inv: Inventory, target: string, policy: Policy,
                                          isLayer: string -> bool, config: map<string, string>,
                                          read: SourceTensor -> TensorData<T>, ops: Arithmetic<T, T, P, V>, w: string)
    returns (k: nat, e: nat)
    requires WellFiled(inv) && Complete(specs, inv, Classification(SourceBlockFP8, target), policy, isLayer, config)
    requires IsFP8Weight(inv, w) && Faithful(read)
    ensures DecodedBy(AllTensors(specs), k, e, inv, w, isLayer, read, ops)
  {
    k, e := WeightWithScale(specs, inv, isLayer, target, policy, w);
    ReadIsDecoded(AllTensors(specs), k, e, inv, w, isLayer, target, policy, read, ops);
  }
}
