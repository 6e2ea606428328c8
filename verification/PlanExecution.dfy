// Which blobs of a plan the writer refuses: none of a float or block-FP8 source, and of a
// prequantized one exactly those with a global scale it cannot use.
module PlanExecution {
  import opened Text
  import opened SortedKeys
  import opened ImportPlan
  import opened ExpertSlots
  import opened ExpertPlans
  import opened Fp8ExpertPlans
  import opened Fp8Experts
  import opened SourcePlans
  import opened BlockFp8Plans
  import opened PrequantPlans
  import opened PrequantUses
  import opened BlobWriter
  import opened PlanTyping
  import opened PlanPlacement
  import opened PrequantNames
  import opened Planner

  ghost predicate AllPass<T>(specs: seq<BlobSpec>, read: SourceTensor -> TensorData<T>, invert: T -> Option<T>) {
    forall i :: 0 <= i < |specs| ==> BlobPasses(specs[i], read, invert)
  }

  ghost predicate ScalarsOk<T>(b: BlobSpec, read: SourceTensor -> TensorData<T>, invert: T -> Option<T>) {
    forall k :: 0 <= k < |b.tensors| ==> ScalarOk(b.tensors[k], read, invert)
  }

  lemma PassesIff<T(!new)>(b: BlobSpec, read: SourceTensor -> TensorData<T>, invert: T -> Option<T>)
    requires WellTyped(b) && Faithful(read)
    ensures BlobPasses(b, read, invert) <==> ScalarsOk(b, read, invert)
  {
    forall k | 0 <= k < |b.tensors|
      ensures TensorPasses(b.tensors[k], NeedsMLX(b), read, invert) <==> ScalarOk(b.tensors[k], read, invert)
    {
      WellTypedPasses(b, k, read, invert);
    }
  }

  // ---------- blobs without scalars ----------

  predicate NoneScalar(tensors: seq<TensorSpec>) {
    forall k :: 0 <= k < |tensors| ==> !ScalarTransform(tensors[k].transform)
  }

  predicate NoScalars(b: BlobSpec) {
    NoneScalar(b.tensors)
  }

  lemma BlobsHaveNone(b: BlobSpec, g: string, specs: seq<TensorSpec>)
    requires NoneScalar(specs) && b in Blobs(g, specs)
    ensures NoScalars(b)
  {
    forall k | 0 <= k < |b.tensors| ensures !ScalarTransform(b.tensors[k].transform) {
      var j := FromSpecs(g, specs, b, b.tensors[k]);
    }
  }

  lemma GroupHasNone(g: string, members: seq<SourceTensor>, specs: seq<TensorSpec>, n: nat, quantize: string, policy: Policy)
    requires GroupPlan(g, members, specs, n, quantize, policy)
    ensures NoneScalar(specs)
  {
    var projs := Sorted(Projections(g, NamesOf(members)));
    forall k | 0 <= k < |specs| ensures !ScalarTransform(specs[k].transform) {
      assert Stacked(specs[k], g, projs[k], n, members, quantize, policy);
    }
  }

  lemma Fp8GroupHasNone(g: string, members: seq<SourceTensor>, specs: seq<TensorSpec>, n: nat, inv: Inventory, target: string,
                        policy: Policy)
    requires Fp8GroupPlan(g, members, specs, n, inv, target, policy)
    ensures NoneScalar(specs)
  {
    var projs := Sorted(Projections(g, NamesOf(members)));
    forall k | 0 <= k < |specs| ensures !ScalarTransform(specs[k].transform) {
      assert DecodeStacked(specs[k], g, projs[k], n, members, inv, target, policy);
    }
  }

  lemma StackedHasNone(b: BlobSpec, groups: Groups, quantize: string, policy: Policy)
    requires FromGroup(b, groups, quantize, policy)
    ensures NoScalars(b)
  {
    var g, specs, n: nat :| g in groups && GroupPlan(g, groups[g], specs, n, quantize, policy) && b in Blobs(g, specs);
    GroupHasNone(g, groups[g], specs, n, quantize, policy);
    BlobsHaveNone(b, g, specs);
  }

  lemma DecodeStackedHasNone(b: BlobSpec, groups: Groups, inv: Inventory, target: string, policy: Policy)
    requires FromFp8Group(b, groups, inv, target, policy)
    ensures NoScalars(b)
  {
    var g, specs, n: nat :| g in groups && Fp8GroupPlan(g, groups[g], specs, n, inv, target, policy) && b in Blobs(g, specs);
    Fp8GroupHasNone(g, groups[g], specs, n, inv, target, policy);
    BlobsHaveNone(b, g, specs);
  }

  lemma FloatHasNone(b: BlobSpec, inv: Inventory, isLayer: string -> bool, quantize: string, policy: Policy)
    requires PlannedFloat(b, inv, isLayer, quantize, policy)
    ensures NoScalars(b)
  {
    if !Ungrouped(b, inv, isLayer, quantize, policy) {
      StackedHasNone(b, FloatGroups(inv, isLayer), quantize, policy);
    }
  }

  lemma BlockFP8HasNone(b: BlobSpec, inv: Inventory, isLayer: string -> bool, target: string, policy: Policy)
    requires PlannedBlockFP8(b, inv, isLayer, target, policy)
    ensures NoScalars(b)
  {
    if FromGroup(b, MemberGroups(inv, isLayer), "", policy) {
      StackedHasNone(b, MemberGroups(inv, isLayer), "", policy);
    } else if FromFp8Group(b, Fp8Groups(inv, isLayer), inv, target, policy) {
      DecodeStackedHasNone(b, Fp8Groups(inv, isLayer), inv, target, policy);
    }
  }

  // ---------- prequantized sources ----------

  // The global scale of a matched weight, if it has one, is usable.
  predicate GlobalUsable<T>(inv: Inventory, m: Match, read: SourceTensor -> TensorData<T>, invert: T -> Option<T>) {
    Companion(inv, m.base, m.pattern.globalSuffix) ==>
      ScaleUsable(inv[m.base + m.pattern.globalSuffix], m.pattern.globalReciprocal, read, invert)
  }

  lemma FusePasses<T(!new)>(inv: Inventory, m: Match, name: string, config: map<string, string>,
                            read: SourceTensor -> TensorData<T>, invert: T -> Option<T>)
    requires name in inv && m.base + m.pattern.scaleSuffix in inv && Faithful(read)
    ensures BlobPasses(Fuse(inv, m, name, config), read, invert) <==> GlobalUsable(inv, m, read, invert)
  {
    var b := Fuse(inv, m, name, config);
    FuseTyped(inv, m, name, config);
    PassesIff(b, read, invert);
    FuseScalars(inv, m, name, config, read, invert);
  }

  lemma FuseScalars<T>(inv: Inventory, m: Match, name: string, config: map<string, string>,
                       read: SourceTensor -> TensorData<T>, invert: T -> Option<T>)
    requires name in inv && m.base + m.pattern.scaleSuffix in inv
    ensures ScalarsOk(Fuse(inv, m, name, config), read, invert) <==> GlobalUsable(inv, m, read, invert)
  {
    var ts, last := Fuse(inv, m, name, config).tensors, GlobalTensors(inv, m.pattern, m.base);
    var front := |ts| - |last|;
    forall k | 0 <= k < front ensures !ScalarTransform(ts[k].transform) {
    }
    if last != [] {
      assert ts[front] == last[0];
    }
  }

  lemma CopyPasses<T(!new)>(t: SourceTensor, read: SourceTensor -> TensorData<T>, invert: T -> Option<T>)
    requires Faithful(read)
    ensures BlobPasses(CopyBlob(t, ""), read, invert)
  {
    SingleTyped(CopyBlob(t, ""));
    PassesIff(CopyBlob(t, ""), read, invert);
  }

  ghost predicate GlobalsUsable<T>(inv: Inventory, patterns: seq<Pattern>, names: seq<string>, read: SourceTensor -> TensorData<T>,
                                   invert: T -> Option<T>)
  {
    forall k :: 0 <= k < |names| && Matched(inv, patterns, names[k]) ==>
      GlobalUsable(inv, FirstMatch(names[k], inv, patterns).value, read, invert)
  }

  lemma {:induction false} EmitPasses<T(!new)>(inv: Inventory, patterns: seq<Pattern>, config: map<string, string>, name: string,
                                               read: SourceTensor -> TensorData<T>, invert: T -> Option<T>)
    requires name in inv && Faithful(read)
    ensures AllPass(Emit(inv, patterns, config, name), read, invert)
       <==> (Matched(inv, patterns, name) ==> GlobalUsable(inv, FirstMatch(name, inv, patterns).value, read, invert))
  {
    match FirstMatch(name, inv, patterns)
    case Some(m) =>
      FusePasses(inv, m, name, config, read, invert);
      assert Emit(inv, patterns, config, name)[0] == Fuse(inv, m, name, config);
    case None =>
      CopyPasses(inv[name], read, invert);
  }

  lemma PassJoin<T>(a: seq<BlobSpec>, b: seq<BlobSpec>, read: SourceTensor -> TensorData<T>, invert: T -> Option<T>)
    ensures AllPass(a + b, read, invert) <==> AllPass(a, read, invert) && AllPass(b, read, invert)
  {
    if AllPass(a + b, read, invert) {
      forall i | 0 <= i < |a| ensures BlobPasses(a[i], read, invert) {
        assert (a + b)[i] == a[i];
      }
      forall i | 0 <= i < |b| ensures BlobPasses(b[i], read, invert) {
        assert (a + b)[|a| + i] == b[i];
      }
    }
  }

  lemma {:induction false} EmitAllPasses<T(!new)>(inv: Inventory, patterns: seq<Pattern>, config: map<string, string>,
                                                  names: seq<string>, read: SourceTensor -> TensorData<T>, invert: T -> Option<T>)
    requires Listed(inv, names) && Faithful(read)
    ensures AllPass(EmitAll(inv, patterns, config, names), read, invert) <==> GlobalsUsable(inv, patterns, names, read, invert)
    decreases |names|
  {
    if names != [] {
      var n := |names| - 1;
      EmitAllPasses(inv, patterns, config, names[..n], read, invert);
      EmitPasses(inv, patterns, config, names[n], read, invert);
      PassJoin(EmitAll(inv, patterns, config, names[..n]), Emit(inv, patterns, config, names[n]), read, invert);
      GlobalsSnoc(inv, patterns, names, read, invert);
    }
  }

  lemma {:induction false} GlobalsSnoc<T>(inv: Inventory, patterns: seq<Pattern>, names: seq<string>,
                                          read: SourceTensor -> TensorData<T>,
                                          invert: T -> Option<T>)
    requires names != []
    ensures var n := |names| - 1;
      GlobalsUsable(inv, patterns, names, read, invert)
      == (GlobalsUsable(inv, patterns, names[..n], read, invert)
          && (Matched(inv, patterns, names[n]) ==> GlobalUsable(inv, FirstMatch(names[n], inv, patterns).value, read, invert)))
  {
    var n := |names| - 1;
    forall k | 0 <= k < n ensures names[..n][k] == names[k] {
    }
  }

  // ---------- whole plans ----------

  // Every matched weight's global scale is usable.
  ghost predicate AllGlobalsUsable<T>(inv: Inventory, read: SourceTensor -> TensorData<T>, invert: T -> Option<T>) {
    forall name :: Matched(inv, PATTERNS, name) ==> GlobalUsable(inv, FirstMatch(name, inv, PATTERNS).value, read, invert)
  }

  lemma ListedGlobals<T>(inv: Inventory, read: SourceTensor -> TensorData<T>, invert: T -> Option<T>)
    ensures GlobalsUsable(inv, PATTERNS, Sorted(inv.Keys), read, invert) <==> AllGlobalsUsable(inv, read, invert)
  {
    var names := Sorted(inv.Keys);
    SortedLists(inv.Keys);
    if GlobalsUsable(inv, PATTERNS, names, read, invert) {
      forall name | Matched(inv, PATTERNS, name)
        ensures GlobalUsable(inv, FirstMatch(name, inv, PATTERNS).value, read, invert)
      {
        assert name in Elements(names);
        var k := IndexIn(names, name);
      }
    }
  }

  // The writer accepts every blob of a complete float or block-FP8 plan, and every blob of a
  // prequantized one exactly if all global scales of matched weights are usable.
  lemma PlanPassesIff<T(!new)>(specs: seq<BlobSpec>, inv: Inventory, cls: Classification, policy: Policy,
                               isLayer: string -> bool, config: map<string, string>,
                               read: SourceTensor -> TensorData<T>, invert: T -> Option<T>)
    requires Complete(specs, inv, cls, policy, isLayer, config) && Faithful(read)
    ensures AllPass(specs, read, invert) <==> (cls.kind == SourcePrequantized ==> AllGlobalsUsable(inv, read, invert))
  {
    if cls.kind == SourcePrequantized {
      EmitAllPasses(inv, PATTERNS, config, Sorted(inv.Keys), read, invert);
      ListedGlobals(inv, read, invert);
    } else {
      CompleteTyped(specs, inv, cls, policy, isLayer, config);
      forall i | 0 <= i < |specs| ensures BlobPasses(specs[i], read, invert) {
        if cls.kind == SourceFloat {
          FloatHasNone(specs[i], inv, isLayer, cls.quantize, policy);
        } else {
          BlockFP8HasNone(specs[i], inv, isLayer, cls.quantize, policy);
        }
        PassesIff(specs[i], read, invert);
      }
    }
  }

  // A compressed weight with its scale and a global scale of this type.
  function OneWeight(base: string, dtype: string): Inventory {
    var name, scale, global := base + ".weight_packed", base + ".weight_scale", base + ".weight_global_scale";
    map[name := SourceTensor(name, "U8", [16, 8], ""), scale := SourceTensor(scale, "F8_E4M3", [16, 1], ""),
        global := SourceTensor(global, dtype, [1], "")]
  }

  lemma {:induction false} OneWeightMatches(base: string, dtype: string)
    ensures var inv := OneWeight(base, dtype);
      && Matched(inv, PATTERNS, base + ".weight_packed")
      && FirstMatch(base + ".weight_packed", inv, PATTERNS).value == Match(COMPRESSED, base)
  {
    var inv, name := OneWeight(base, dtype), base + ".weight_packed";
    NotSuffix(name, ".weight");
    assert PATTERNS[0] == MLX && PATTERNS[1..] == [COMPRESSED, MODELOPT];
    assert name[..|name| - |".weight_packed"|] == base && name[|name| - |".weight_packed"|..] == ".weight_packed";
    assert base + ".weight_scale" in inv;
  }

  lemma {:induction false} NoMatch(x: string, inv: Inventory, patterns: seq<Pattern>)
    requires forall p :: p in patterns ==> !HasSuffix(x, p.weightSuffix)
    ensures FirstMatch(x, inv, patterns).None?
  {
    if patterns != [] {
      NoMatch(x, inv, patterns[1..]);
    }
  }

  lemma NoWeightSuffix(x: string, inv: Inventory)
    requires x != "" && x[|x| - 1] == 'e'
    ensures FirstMatch(x, inv, PATTERNS).None?
  {
    NotSuffix(x, ".weight");
    NotSuffix(x, ".weight_packed");
    NoMatch(x, inv, PATTERNS);
  }

  // Its tensors are one fused weight, so no names clash.
  lemma OneWeightIsApart(base: string, dtype: string)
    ensures PrequantApart(OneWeight(base, dtype), PATTERNS)
  {
    var inv, name := OneWeight(base, dtype), base + ".weight_packed";
    OneWeightMatches(base, dtype);
    forall x | x in inv && x != name ensures !Matched(inv, PATTERNS, x) && !CopiedAlone(inv, PATTERNS, x) {
      NoWeightSuffix(x, inv);
      CompanionsFused(base, dtype);
      CompanionConsumed(inv, PATTERNS, name, x);
    }
  }

  lemma CompanionsFused(base: string, dtype: string)
    ensures var inv := OneWeight(base, dtype);
      Fused(inv, Match(COMPRESSED, base)) == {base + ".weight_scale", base + ".weight_global_scale"}
  {
    assert COMPRESSED.biasSuffix == "";
    assert COMPRESSED.scaleSuffix == ".weight_scale" && COMPRESSED.globalSuffix == ".weight_global_scale";
  }

  lemma GlobalRefused<T(!new)>(base: string, dtype: string, read: SourceTensor -> TensorData<T>, invert: T -> Option<T>)
    requires |dtype| > 3
    ensures !GlobalUsable(OneWeight(base, dtype), Match(COMPRESSED, base), read, invert)
  {
    SuffixesDiffer(base, ".weight_global_scale", ".weight_packed");
    SuffixesDiffer(base, ".weight_global_scale", ".weight_scale");
    NotF32(dtype);
  }

  lemma NotF32(dtype: string)
    requires |dtype| > 3
    ensures Upper(dtype) != "F32"
  {
  }

  // A global scale of another type is planned, in well-typed blobs, and refused by the writer.
  lemma Bf16ScaleIsRefused<T(!new)>(specs: seq<BlobSpec>, base: string, quantize: string, policy: Policy,
                                    isLayer: string -> bool, config: map<string, string>,
                                    read: SourceTensor -> TensorData<T>, invert: T -> Option<T>)
    requires Complete(specs, OneWeight(base, "BF16"), Classification(SourcePrequantized, quantize), policy, isLayer, config)
    requires Faithful(read)
    ensures var cls := Classification(SourcePrequantized, quantize);
      NamesOk(OneWeight(base, "BF16"), cls, policy, isLayer) && GroupsOk(OneWeight(base, "BF16"), cls.kind, isLayer)
    ensures AllWellTyped(specs) && !AllPass(specs, read, invert)
  {
    var inv, cls := OneWeight(base, "BF16"), Classification(SourcePrequantized, quantize);
    OneWeightIsApart(base, "BF16");
    OneWeightMatches(base, "BF16");
    CompleteTyped(specs, inv, cls, policy, isLayer, config);
    PlanPassesIff(specs, inv, cls, policy, isLayer, config, read, invert);
    GlobalRefused(base, "BF16", read, invert);
  }
}
