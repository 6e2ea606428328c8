// Planning one group of experts: each projection's tensors become one stack.
module ExpertPlans {
  import opened Text
  import opened SortedKeys
  import opened ImportPlan
  import opened ExpertNames
  import opened ExpertGroups
  import opened ExpertSlots

  function NamesOf(tensors: seq<SourceTensor>): (names: seq<string>)
    ensures |names| == |tensors|
  {
    seq(|tensors|, k requires 0 <= k < |tensors| => tensors[k].name)
  }

  predicate SameLayout(a: SourceTensor, b: SourceTensor) {
    a.dtype == b.dtype && a.shape == b.shape
  }

  // ---------- blobs ----------

  predicate OneQuantization(tensors: seq<TensorSpec>) {
    forall k :: 0 <= k < |tensors| ==> tensors[k].quantize == tensors[0].quantize
  }

  // One blob for the whole group, or one per projection when precisions differ.
  function Blobs(group: string, tensors: seq<TensorSpec>): seq<BlobSpec> {
    if tensors == [] then []
    else if OneQuantization(tensors) then [BlobSpec(group, tensors, map[])]
    else Singles(tensors)
  }

  function Singles(tensors: seq<TensorSpec>): seq<BlobSpec> {
    seq(|tensors|, k requires 0 <= k < |tensors| => BlobSpec(tensors[k].name, [tensors[k]], map[]))
  }

  method HomogeneousExpertBlobs(group: string, tensors: seq<TensorSpec>) returns (blobs: seq<BlobSpec>)
    ensures blobs == Blobs(group, tensors)
  {
    if |tensors| == 0 {
      return [];
    }
    var quantize := tensors[0].quantize;
    for k := 1 to |tensors|
      invariant forall j :: 0 <= j < k ==> tensors[j].quantize == quantize
    {
      if tensors[k].quantize != quantize {
        blobs := [];
        for i := 0 to |tensors|
          invariant blobs == Singles(tensors)[..i]
        {
          blobs := blobs + [BlobSpec(tensors[i].name, [tensors[i]], map[])];
        }
        return;
      }
    }
    return [BlobSpec(group, tensors, map[])];
  }

  lemma {:induction false} SinglesUses(tensors: seq<TensorSpec>)
    ensures Uses(Singles(tensors)) == TensorUses(tensors)
  {
    if tensors != [] {
      var rest := Singles(tensors)[1..];
      assert rest == Singles(tensors[1..]);
      SinglesUses(tensors[1..]);
      TensorUsesOne(tensors[0]);
    }
  }

  lemma {:induction false} BlobsUses(group: string, tensors: seq<TensorSpec>)
    ensures Uses(Blobs(group, tensors)) == TensorUses(tensors)
  {
    if tensors != [] {
      if OneQuantization(tensors) {
        UsesOne(BlobSpec(group, tensors, map[]));
      } else {
        SinglesUses(tensors);
      }
    }
  }

  // ---------- float experts ----------

  // The sources are the experts of one projection, expert i at place i.
  ghost predicate InSlotOrder(group: string, proj: string, sources: seq<SourceTensor>, tensors: seq<SourceTensor>) {
    forall i :: 0 <= i < |sources| ==> sources[i] in tensors && sources[i].name == ExpertName(group, i, proj)
  }

  predicate OneLayout(sources: seq<SourceTensor>) {
    forall i :: 0 <= i < |sources| ==> SameLayout(sources[i], sources[0])
  }

  function StackedShape(sources: seq<SourceTensor>): seq<nat>
    requires sources != []
  {
    [|sources|] + sources[0].shape
  }

  function StackedSpec(group: string, proj: string, sources: seq<SourceTensor>, quantize: string, policy: Policy): TensorSpec
    requires sources != []
  {
    var name, shape := StackedName(group, proj), StackedShape(sources);
    TensorSpec(name, sources, TransformStackExperts, if quantize == "" then "" else policy(name, shape, quantize),
               sources[0].dtype, Some(shape))
  }

  ghost predicate Stacked(ts: TensorSpec, group: string, proj: string, n: nat, tensors: seq<SourceTensor>,
                          quantize: string, policy: Policy) {
    && |ts.sources| == n > 0
    && InSlotOrder(group, proj, ts.sources, tensors) && OneLayout(ts.sources)
    && ts == StackedSpec(group, proj, ts.sources, quantize, policy)
  }

  // One stack per projection, in name order.
  ghost predicate GroupPlan(group: string, tensors: seq<SourceTensor>, specs: seq<TensorSpec>, n: nat,
                            quantize: string, policy: Policy) {
    var projs := Sorted(Projections(group, NamesOf(tensors)));
    && SlotsFilled(group, NamesOf(tensors), n)
    && |specs| == |projs|
    && forall k :: 0 <= k < |specs| ==> Stacked(specs[k], group, projs[k], n, tensors, quantize, policy)
  }

  // The groups that can be stacked: names in canonical form, none twice, the same experts
  // 0 to n - 1 in every projection, and one layout in each.
  ghost predicate Stackable(group: string, tensors: seq<SourceTensor>) {
    && AllParse(group, NamesOf(tensors)) && Distinct(NamesOf(tensors))
    && (exists n: nat :: SlotsFilled(group, NamesOf(tensors), n))
    && SameLayouts(group, NamesOf(tensors), tensors, SameLayout)
  }

  method StackProjection(group: string, proj: string, experts: map<nat, SourceTensor>, n: nat, quantize: string,
                         policy: Policy)
    returns (r: Result<TensorSpec, string>)
    requires n > 0 && forall i: nat :: i < n ==> i in experts
    ensures r.Ok? <==> forall i: nat :: i < n ==> SameLayout(experts[i], experts[0])
    ensures r.Ok? ==> |r.value.sources| == n && r.value == StackedSpec(group, proj, r.value.sources, quantize, policy)
    ensures r.Ok? ==> forall i: nat :: i < n ==> r.value.sources[i] == experts[i]
  {
    var base := experts[0];
    var sources := [];
    for i := 0 to n
      invariant |sources| == i && forall j: nat :: j < i ==> sources[j] == experts[j] && SameLayout(experts[j], base)
    {
      var e := experts[i];
      if e.dtype != base.dtype || e.shape != base.shape {
        return Err("mismatched expert layout");
      }
      sources := sources + [e];
    }
    var stackedName := group + "." + proj + ".weight";
    var stackedShape := [n] + base.shape;
    var q := if quantize != "" then policy(stackedName, stackedShape, quantize) else "";
    return Ok(TensorSpec(stackedName, sources, TransformStackExperts, q, base.dtype, Some(stackedShape)));
  }

  method PlanExpertGroup(group: string, tensors: seq<SourceTensor>, quantize: string, policy: Policy)
    returns (r: Result<seq<BlobSpec>, string>)
    ensures r.Ok? <==> Stackable(group, tensors)
    ensures r.Ok? ==> exists specs, n: nat ::
      GroupPlan(group, tensors, specs, n, quantize, policy) && r.value == Blobs(group, specs)
  {
    var names := NamesOf(tensors);
    var filed := GroupByProjection(group, names, tensors);
    GroupingFiles(group, names, tensors);
    if filed.Err? {
      return Err(filed.error);
    }
    var table := filed.value;
    var counted := ValidateExpertProjections(table);
    CoversIffFilled(group, names, tensors, table);
    if counted.Err? {
      return Err(counted.error);
    }
    var n := counted.value;
    UniformIff(group, names, tensors, table, n, SameLayout);
    var stacked := StackProjections(group, tensors, table, n, quantize, policy);
    if stacked.Err? {
      return Err(stacked.error);
    }
    FiledProjections(group, names, tensors, table);
    assert GroupPlan(group, tensors, stacked.value, n, quantize, policy);
    var blobs := HomogeneousExpertBlobs(group, stacked.value);
    return Ok(blobs);
  }

  method StackFiled(group: string, tensors: seq<SourceTensor>, table: ByProjection<SourceTensor>, n: nat, p: string,
                    quantize: string, policy: Policy)
    returns (r: Result<TensorSpec, string>)
    requires Filed(group, NamesOf(tensors), tensors, table) && Covers(table, n) && p in table
    ensures r.Ok? <==> UniformExperts(table[p], SameLayout)
    ensures r.Ok? ==> Stacked(r.value, group, p, n, tensors, quantize, policy)
  {
    SomeExpert(group, tensors, table, n, p);
    r := StackProjection(group, p, table[p], n, quantize, policy);
    if r.Ok? {
      StackedInOrder(group, tensors, table, n, p, r.value, quantize, policy);
    }
  }

  // The first stacks are those of the first projections.
  ghost predicate StackedUpTo(specs: seq<TensorSpec>, group: string, projs: seq<string>, n: nat, tensors: seq<SourceTensor>,
                      quantize: string, policy: Policy)
  {
    |specs| <= |projs| && forall j :: 0 <= j < |specs| ==> Stacked(specs[j], group, projs[j], n, tensors, quantize, policy)
  }

  lemma StackedNext(specs: seq<TensorSpec>, ts: TensorSpec, group: string, projs: seq<string>, n: nat,
                    tensors: seq<SourceTensor>, quantize: string, policy: Policy)
    requires StackedUpTo(specs, group, projs, n, tensors, quantize, policy) && |specs| < |projs|
    requires Stacked(ts, group, projs[|specs|], n, tensors, quantize, policy)
    ensures StackedUpTo(specs + [ts], group, projs, n, tensors, quantize, policy)
  {
  }

  method StackProjections(group: string, tensors: seq<SourceTensor>, table: ByProjection<SourceTensor>, n: nat,
                          quantize: string, policy: Policy)
    returns (r: Result<seq<TensorSpec>, string>)
    requires Filed(group, NamesOf(tensors), tensors, table) && Covers(table, n)
    ensures r.Ok? <==> UniformStacks(table, SameLayout)
    ensures r.Ok? ==> var projs := Sorted(table.Keys);
      |r.value| == |projs| && StackedUpTo(r.value, group, projs, n, tensors, quantize, policy)
  {
    var specs := [];
    var projs := Sorted(table.Keys);
    SortedLists(table.Keys);
    for k := 0 to |projs|
      invariant |specs| == k
      invariant StackedUpTo(specs, group, projs, n, tensors, quantize, policy)
      invariant UniformUpTo(table, projs, k, SameLayout)
    {
      assert projs[k] in Elements(projs);
      var one := StackFiled(group, tensors, table, n, projs[k], quantize, policy);
      if one.Err? {
        UniformNext(table, projs, k, SameLayout);
        return Err(one.error);
      }
      UniformNext(table, projs, k, SameLayout);
      StackedNext(specs, one.value, group, projs, n, tensors, quantize, policy);
      specs := specs + [one.value];
    }
    AllUniform(table, projs, SameLayout);
    return Ok(specs);
  }

  lemma SomeExpert(group: string, tensors: seq<SourceTensor>, table: ByProjection<SourceTensor>, n: nat, p: string)
    requires Filed(group, NamesOf(tensors), tensors, table) && Covers(table, n) && p in table
    ensures n > 0
  {
    var i: nat :| i in table[p];
  }

  lemma StackedInOrder(group: string, tensors: seq<SourceTensor>, table: ByProjection<SourceTensor>, n: nat, p: string,
                       ts: TensorSpec, quantize: string, policy: Policy)
    requires Filed(group, NamesOf(tensors), tensors, table) && Covers(table, n) && p in table
    requires |ts.sources| == n > 0 && ts == StackedSpec(group, p, ts.sources, quantize, policy)
    requires forall i: nat :: i < n ==> ts.sources[i] == table[p][i]
    requires forall i: nat :: i < n ==> SameLayout(table[p][i], table[p][0])
    ensures Stacked(ts, group, p, n, tensors, quantize, policy)
  {
    forall i: nat | i < n ensures ts.sources[i] in tensors && ts.sources[i].name == ExpertName(group, i, p) {
      assert Holds(table, p, i);
      var k := SlotIndex(group, NamesOf(tensors), tensors, table, p, i);
    }
  }
}
