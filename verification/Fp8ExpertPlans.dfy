// Planning one group of block-FP8 experts: each projection's weights and their block
// scales become one stack that is decoded at once.
module Fp8ExpertPlans {
  import opened Text
  import opened SortedKeys
  import opened ImportPlan
  import opened ExpertNames
  import opened ExpertGroups
  import opened ExpertSlots
  import opened ExpertPlans

  // ---------- FP8 weights and their scales ----------

  predicate IsE4M3(dtype: string) {
    Upper(dtype) == "F8_E4M3" || Upper(dtype) == "F8_E4M3FN"
  }

  // The block scale of a weight: "_scale_inv" is preferred to "_scale".
  function Fp8ScaleFor(inv: Inventory, weight: string): Option<string> {
    if weight + "_scale_inv" in inv then Some(weight + "_scale_inv")
    else if weight + "_scale" in inv then Some(weight + "_scale")
    else None
  }

  predicate IsFP8Weight(inv: Inventory, name: string) {
    && name in inv && HasSuffix(name, ".weight") && IsE4M3(inv[name].dtype)
    && Fp8ScaleFor(inv, name).Some?
  }

  lemma EndsIn(s: string, tail: string, k: nat)
    requires 0 < k <= |tail|
    ensures (s + tail)[|s + tail| - k] == tail[|tail| - k]
  {
  }

  // Two weights never share a scale.
  lemma ScalesDiffer(inv: Inventory, a: string, b: string)
    requires Fp8ScaleFor(inv, a).Some? && Fp8ScaleFor(inv, a) == Fp8ScaleFor(inv, b)
    ensures a == b
  {
    var s := Fp8ScaleFor(inv, a).value;
    var tail := if s == a + "_scale_inv" then "_scale_inv" else "_scale";
    var tail' := if s == b + "_scale_inv" then "_scale_inv" else "_scale";
    EndsIn(a, tail, 1);
    EndsIn(b, tail', 1);
    assert a == s[..|s| - |tail|] && b == s[..|s| - |tail'|];
  }

  // A scale is no weight.
  lemma ScaleIsNoWeight(inv: Inventory, weight: string)
    requires Fp8ScaleFor(inv, weight).Some?
    ensures !HasSuffix(Fp8ScaleFor(inv, weight).value, ".weight")
  {
    var s := Fp8ScaleFor(inv, weight).value;
    EndsIn(weight, if s == weight + "_scale_inv" then "_scale_inv" else "_scale", 1);
    NotSuffix(s, ".weight");
  }

  // ---------- groups ----------

  datatype Fp8Expert = Fp8Expert(weight: SourceTensor, scale: SourceTensor)

  predicate SameExpertLayout(a: Fp8Expert, b: Fp8Expert) {
    SameLayout(a.weight, b.weight) && SameLayout(a.scale, b.scale)
  }

  predicate AllScaled(inv: Inventory, tensors: seq<SourceTensor>) {
    forall k :: 0 <= k < |tensors| ==> Fp8ScaleFor(inv, tensors[k].name).Some?
  }

  function Paired(inv: Inventory, tensors: seq<SourceTensor>): (experts: seq<Fp8Expert>)
    requires AllScaled(inv, tensors)
    ensures |experts| == |tensors|
  {
    seq(|tensors|, k requires 0 <= k < |tensors| => Fp8Expert(tensors[k], inv[Fp8ScaleFor(inv, tensors[k].name).value]))
  }

  ghost predicate Fp8Stackable(group: string, tensors: seq<SourceTensor>, inv: Inventory) {
    && AllScaled(inv, tensors)
    && AllParse(group, NamesOf(tensors)) && Distinct(NamesOf(tensors))
    && (exists n: nat :: SlotsFilled(group, NamesOf(tensors), n))
    && SameLayouts(group, NamesOf(tensors), Paired(inv, tensors), SameExpertLayout)
  }

  function DecodeStackSpec(group: string, proj: string, weights: seq<SourceTensor>, scales: seq<SourceTensor>,
                           target: string, policy: Policy): TensorSpec
    requires weights != []
  {
    var name, shape := StackedName(group, proj), StackedShape(weights);
    TensorSpec(name, weights + scales, TransformDecodeStackFP8, policy(name, shape, target), weights[0].dtype, Some(shape))
  }

  // Scale i belongs to weight i.
  predicate ScalesMatch(inv: Inventory, weights: seq<SourceTensor>, scales: seq<SourceTensor>) {
    && |weights| == |scales|
    && forall i :: 0 <= i < |weights| ==>
         Fp8ScaleFor(inv, weights[i].name).Some? && scales[i] == inv[Fp8ScaleFor(inv, weights[i].name).value]
  }

  // N weights in slot order, then their N scales in the same order.
  ghost predicate DecodeStacked(ts: TensorSpec, group: string, proj: string, n: nat, tensors: seq<SourceTensor>,
                                inv: Inventory, target: string, policy: Policy) {
    && n > 0 && |ts.sources| == n + n
    && var weights, scales := ts.sources[..n], ts.sources[n..];
    && InSlotOrder(group, proj, weights, tensors) && OneLayout(weights)
    && ScalesMatch(inv, weights, scales) && OneLayout(scales)
    && ts == DecodeStackSpec(group, proj, weights, scales, target, policy)
  }

  ghost predicate Fp8GroupPlan(group: string, tensors: seq<SourceTensor>, specs: seq<TensorSpec>, n: nat,
                               inv: Inventory, target: string, policy: Policy) {
    var projs := Sorted(Projections(group, NamesOf(tensors)));
    && SlotsFilled(group, NamesOf(tensors), n)
    && |specs| == |projs|
    && forall k :: 0 <= k < |specs| ==> DecodeStacked(specs[k], group, projs[k], n, tensors, inv, target, policy)
  }

  method StackFp8Projection(group: string, proj: string, experts: map<nat, Fp8Expert>, n: nat, target: string,
                            policy: Policy)
    returns (r: Result<TensorSpec, string>)
    requires n > 0 && forall i: nat :: i < n ==> i in experts
    ensures r.Ok? <==> forall i: nat :: i < n ==> SameExpertLayout(experts[i], experts[0])
    ensures r.Ok? ==> |r.value.sources| == n + n
    ensures r.Ok? ==> r.value == DecodeStackSpec(group, proj, r.value.sources[..n], r.value.sources[n..], target, policy)
    ensures r.Ok? ==> forall i: nat :: i < n ==>
      r.value.sources[..n][i] == experts[i].weight && r.value.sources[n..][i] == experts[i].scale
  {
    var base := experts[0].weight;
    var baseScale := experts[0].scale;
    var weights, scales := [], [];
    for i := 0 to n
      invariant |weights| == |scales| == i
      invariant forall j: nat :: j < i ==> weights[j] == experts[j].weight && scales[j] == experts[j].scale
      invariant forall j: nat :: j < i ==> SameExpertLayout(experts[j], experts[0])
    {
      var e := experts[i];
      if e.weight.dtype != base.dtype || e.weight.shape != base.shape {
        return Err("mismatched weight layout");
      }
      if e.scale.dtype != baseScale.dtype || e.scale.shape != baseScale.shape {
        return Err("mismatched scale layout");
      }
      weights := weights + [e.weight];
      scales := scales + [e.scale];
    }
    var sources := weights + scales;
    assert sources[..n] == weights && sources[n..] == scales;
    var stackedName := group + "." + proj + ".weight";
    var stackedShape := [n] + base.shape;
    return Ok(TensorSpec(stackedName, sources, TransformDecodeStackFP8, policy(stackedName, stackedShape, target),
                         base.dtype, Some(stackedShape)));
  }

  method PairScales(inv: Inventory, tensors: seq<SourceTensor>) returns (r: Result<seq<Fp8Expert>, string>)
    ensures r.Ok? <==> AllScaled(inv, tensors)
    ensures r.Ok? ==> r.value == Paired(inv, tensors)
  {
    var experts := [];
    for k := 0 to |tensors|
      invariant AllScaled(inv, tensors[..k]) && experts == Paired(inv, tensors[..k])
    {
      var scale := Fp8ScaleFor(inv, tensors[k].name);
      if scale.None? {
        return Err("fp8 expert weight has no scale companion");
      }
      experts := experts + [Fp8Expert(tensors[k], inv[scale.value])];
    }
    assert tensors[..|tensors|] == tensors;
    return Ok(experts);
  }

  method PlanFP8ExpertGroup(group: string, tensors: seq<SourceTensor>, inv: Inventory, target: string, policy: Policy)
    returns (r: Result<seq<BlobSpec>, string>)
    ensures r.Ok? <==> Fp8Stackable(group, tensors, inv)
    ensures r.Ok? ==> exists specs, n: nat ::
      Fp8GroupPlan(group, tensors, specs, n, inv, target, policy) && r.value == Blobs(group, specs)
  {
    var names := NamesOf(tensors);
    var paired := PairScales(inv, tensors);
    if paired.Err? {
      return Err(paired.error);
    }
    var experts := paired.value;
    var filed := GroupByProjection(group, names, experts);
    GroupingFiles(group, names, experts);
    if filed.Err? {
      return Err(filed.error);
    }
    var table := filed.value;
    var counted := ValidateExpertProjections(table);
    CoversIffFilled(group, names, experts, table);
    if counted.Err? {
      return Err(counted.error);
    }
    var n := counted.value;
    UniformIff(group, names, experts, table, n, SameExpertLayout);
    var stacked := StackFp8Projections(group, tensors, inv, table, n, target, policy);
    if stacked.Err? {
      return Err(stacked.error);
    }
    FiledProjections(group, names, experts, table);
    assert Fp8GroupPlan(group, tensors, stacked.value, n, inv, target, policy);
    var blobs := HomogeneousExpertBlobs(group, stacked.value);
    return Ok(blobs);
  }

  method StackFiled(group: string, tensors: seq<SourceTensor>, inv: Inventory, table: ByProjection<Fp8Expert>,
                    n: nat, p: string, target: string, policy: Policy)
    returns (r: Result<TensorSpec, string>)
    requires AllScaled(inv, tensors)
    requires Filed(group, NamesOf(tensors), Paired(inv, tensors), table) && Covers(table, n) && p in table
    ensures r.Ok? <==> UniformExperts(table[p], SameExpertLayout)
    ensures r.Ok? ==> DecodeStacked(r.value, group, p, n, tensors, inv, target, policy)
  {
    var i: nat :| i in table[p];
    r := StackFp8Projection(group, p, table[p], n, target, policy);
    if r.Ok? {
      DecodeStackedInOrder(group, tensors, inv, table, n, p, r.value, target, policy);
    }
  }

  // The first stacks are those of the first projections.
  ghost predicate DecodeStackedUpTo(specs: seq<TensorSpec>, group: string, projs: seq<string>, n: nat, tensors: seq<SourceTensor>,
                      inv: Inventory, target: string, policy: Policy)
  {
    |specs| <= |projs| && forall j :: 0 <= j < |specs| ==> DecodeStacked(specs[j], group, projs[j], n, tensors, inv, target, policy)
  }

  lemma DecodeStackedNext(specs: seq<TensorSpec>, ts: TensorSpec, group: string, projs: seq<string>, n: nat,
                          tensors: seq<SourceTensor>, inv: Inventory, target: string, policy: Policy)
    requires DecodeStackedUpTo(specs, group, projs, n, tensors, inv, target, policy) && |specs| < |projs|
    requires DecodeStacked(ts, group, projs[|specs|], n, tensors, inv, target, policy)
    ensures DecodeStackedUpTo(specs + [ts], group, projs, n, tensors, inv, target, policy)
  {
  }

  method StackFp8Projections(group: string, tensors: seq<SourceTensor>, inv: Inventory, table: ByProjection<Fp8Expert>,
                             n: nat, target: string, policy: Policy)
    returns (r: Result<seq<TensorSpec>, string>)
    requires AllScaled(inv, tensors)
    requires Filed(group, NamesOf(tensors), Paired(inv, tensors), table) && Covers(table, n)
    ensures r.Ok? <==> UniformStacks(table, SameExpertLayout)
    ensures r.Ok? ==> var projs := Sorted(table.Keys);
      |r.value| == |projs| && DecodeStackedUpTo(r.value, group, projs, n, tensors, inv, target, policy)
  {
    var specs := [];
    var projs := Sorted(table.Keys);
    SortedLists(table.Keys);
    for k := 0 to |projs|
      invariant |specs| == k
      invariant DecodeStackedUpTo(specs, group, projs, n, tensors, inv, target, policy)
      invariant UniformUpTo(table, projs, k, SameExpertLayout)
    {
      assert projs[k] in Elements(projs);
      var one := StackFiled(group, tensors, inv, table, n, projs[k], target, policy);
      if one.Err? {
        UniformNext(table, projs, k, SameExpertLayout);
        return Err(one.error);
      }
      UniformNext(table, projs, k, SameExpertLayout);
      DecodeStackedNext(specs, one.value, group, projs, n, tensors, inv, target, policy);
      specs := specs + [one.value];
    }
    AllUniform(table, projs, SameExpertLayout);
    return Ok(specs);
  }

  lemma DecodeStackedInOrder(group: string, tensors: seq<SourceTensor>, inv: Inventory, table: ByProjection<Fp8Expert>,
                             n: nat, p: string, ts: TensorSpec, target: string, policy: Policy)
    requires AllScaled(inv, tensors)
    requires Filed(group, NamesOf(tensors), Paired(inv, tensors), table) && Covers(table, n) && p in table
    requires |ts.sources| == n + n && n > 0
    requires ts == DecodeStackSpec(group, p, ts.sources[..n], ts.sources[n..], target, policy)
    requires forall i: nat :: i < n ==>
      ts.sources[..n][i] == table[p][i].weight && ts.sources[n..][i] == table[p][i].scale
    requires forall i: nat :: i < n ==> SameExpertLayout(table[p][i], table[p][0])
    ensures DecodeStacked(ts, group, p, n, tensors, inv, target, policy)
  {
    var weights, scales := ts.sources[..n], ts.sources[n..];
    forall i: nat | i < n
      ensures weights[i] in tensors && weights[i].name == ExpertName(group, i, p)
      ensures Fp8ScaleFor(inv, weights[i].name).Some? && scales[i] == inv[Fp8ScaleFor(inv, weights[i].name).value]
    {
      assert Holds(table, p, i);
      var k := SlotIndex(group, NamesOf(tensors), Paired(inv, tensors), table, p, i);
      assert table[p][i] == Paired(inv, tensors)[k] && table[p][i].weight == tensors[k];
      assert NamesOf(tensors)[k] == tensors[k].name;
    }
  }
}
