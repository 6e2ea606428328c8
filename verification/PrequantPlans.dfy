// Planning an already quantized source: each weight is fused with its companions.
module PrequantPlans {
  import opened Text
  import opened SortedKeys
  import opened ImportPlan
  import opened Fp8ExpertPlans
  import opened SourcePlans

  // How one producer names and packs a quantized weight and its companions.
  datatype Pattern = Pattern(
    name: string,
    weightSuffix: string, repackWeight: bool,
    scaleSuffix: string, scaleRelabelU8: bool,
    biasSuffix: string,
    globalSuffix: string, globalReciprocal: bool,
    ignoreSuffixes: seq<string>,
    forceQuantType: string, defaultGroupSize: string)

  const MLX := Pattern("mlx", ".weight", false, ".scales", false, ".biases", "", false, [], "", "")

  const COMPRESSED := Pattern("compressed-tensors-nvfp4", ".weight_packed", true, ".weight_scale", true, "",
    ".weight_global_scale", true, [".input_scale", ".input_global_scale"], "nvfp4", "16")

  const MODELOPT := Pattern("modelopt-nvfp4", ".weight", true, ".weight_scale", true, "",
    ".weight_scale_2", false, [".input_scale", ".input_global_scale"], "nvfp4", "")

  const PATTERNS: seq<Pattern> := [MLX, COMPRESSED, MODELOPT]

  datatype Match = Match(pattern: Pattern, base: string)

  function CutSuffix(name: string, suffix: string): Option<string> {
    if HasSuffix(name, suffix) then Some(name[..|name| - |suffix|]) else None
  }

  // The first pattern whose weight suffix fits and whose scale is there.
  function FirstMatch(name: string, inv: Inventory, patterns: seq<Pattern>): (r: Option<Match>)
    ensures r.Some? ==> r.value.base + r.value.pattern.scaleSuffix in inv
  {
    if patterns == [] then None
    else
      match CutSuffix(name, patterns[0].weightSuffix)
      case None => FirstMatch(name, inv, patterns[1..])
      case Some(base) =>
        if base + patterns[0].scaleSuffix in inv then Some(Match(patterns[0], base))
        else FirstMatch(name, inv, patterns[1..])
  }

  lemma {:induction false} FirstMatchFits(name: string, inv: Inventory, patterns: seq<Pattern>)
    requires FirstMatch(name, inv, patterns).Some?
    ensures var m := FirstMatch(name, inv, patterns).value;
      m.pattern in patterns && name == m.base + m.pattern.weightSuffix
  {
    var p := patterns[0];
    if HasSuffix(name, p.weightSuffix) && name[..|name| - |p.weightSuffix|] + p.scaleSuffix in inv {
      assert name == name[..|name| - |p.weightSuffix|] + name[|name| - |p.weightSuffix|..];
    } else {
      FirstMatchFits(name, inv, patterns[1..]);
    }
  }

  // ---------- fusing ----------

  function OutWeight(base: string): string {
    base + ".weight"
  }

  function WeightTensor(p: Pattern, out: string, weight: SourceTensor): TensorSpec {
    if p.repackWeight && Upper(weight.dtype) == "U8" && |weight.shape| == 2 then
      TensorSpec(out, [weight], TransformRepackFP4, "", "U32", Some([weight.shape[0], weight.shape[1] / 4]))
    else TensorSpec(out, [weight], TransformNone, "", "", None)
  }

  function ScaleTensor(p: Pattern, out: string, scale: SourceTensor): TensorSpec {
    if p.scaleRelabelU8 && IsE4M3(scale.dtype) then
      TensorSpec(out + ".scale", [scale], TransformRelabelU8, "", "U8", None)
    else TensorSpec(out + ".scale", [scale], TransformNone, "", "", None)
  }

  predicate Companion(inv: Inventory, base: string, suffix: string) {
    suffix != "" && base + suffix in inv
  }

  function BiasTensors(inv: Inventory, p: Pattern, base: string): seq<TensorSpec> {
    if Companion(inv, base, p.biasSuffix) then
      [TensorSpec(OutWeight(base) + ".bias", [inv[base + p.biasSuffix]], TransformNone, "", "", None)]
    else []
  }

  function GlobalTensors(inv: Inventory, p: Pattern, base: string): seq<TensorSpec> {
    if Companion(inv, base, p.globalSuffix) then
      [TensorSpec(OutWeight(base) + ".global_scale", [inv[base + p.globalSuffix]],
                  if p.globalReciprocal then TransformReciprocalF32 else TransformScalarF32, "", "", None)]
    else []
  }

  // The source configuration's metadata, with the pattern's overrides.
  function Metadata(config: map<string, string>, p: Pattern): map<string, string> {
    var typed := if p.forceQuantType != "" then config["quant_type" := p.forceQuantType] else config;
    if p.defaultGroupSize != "" && "group_size" !in typed then typed["group_size" := p.defaultGroupSize] else typed
  }

  function Fuse(inv: Inventory, m: Match, name: string, config: map<string, string>): BlobSpec
    requires name in inv && m.base + m.pattern.scaleSuffix in inv
  {
    var p, base := m.pattern, m.base;
    BlobSpec(OutWeight(base),
             [WeightTensor(p, OutWeight(base), inv[name]), ScaleTensor(p, OutWeight(base), inv[base + p.scaleSuffix])]
               + BiasTensors(inv, p, base) + GlobalTensors(inv, p, base),
             Metadata(config, p))
  }

  // Companions whose contents go into the fused blob ...
  function Fused(inv: Inventory, m: Match): set<string> {
    set s | s in {m.pattern.scaleSuffix, m.pattern.biasSuffix, m.pattern.globalSuffix} && Companion(inv, m.base, s) :: m.base + s
  }

  // ... and those that are dropped.
  function Dropped(inv: Inventory, m: Match): set<string> {
    set s | s in m.pattern.ignoreSuffixes && m.base + s in inv :: m.base + s
  }

  method FuseWeight(p: Pattern, base: string, name: string, inv: Inventory, config: map<string, string>)
    returns (blob: BlobSpec, consumed: set<string>)
    requires name in inv && p.scaleSuffix != "" && base + p.scaleSuffix in inv
    ensures blob == Fuse(inv, Match(p, base), name, config)
    ensures consumed == Fused(inv, Match(p, base)) + Dropped(inv, Match(p, base))
  {
    var outWeight := base + ".weight";
    var scaleSrc := base + p.scaleSuffix;
    var tensors := [WeightTensor(p, outWeight, inv[name]), ScaleTensor(p, outWeight, inv[scaleSrc])];
    consumed := {scaleSrc};
    if p.biasSuffix != "" && base + p.biasSuffix in inv {
      tensors := tensors + [TensorSpec(outWeight + ".bias", [inv[base + p.biasSuffix]], TransformNone, "", "", None)];
      consumed := consumed + {base + p.biasSuffix};
    }
    if p.globalSuffix != "" && base + p.globalSuffix in inv {
      var transform := if p.globalReciprocal then TransformReciprocalF32 else TransformScalarF32;
      tensors := tensors + [TensorSpec(outWeight + ".global_scale", [inv[base + p.globalSuffix]], transform, "", "", None)];
      consumed := consumed + {base + p.globalSuffix};
    }
    assert consumed == Fused(inv, Match(p, base));
    var dropped := DropIgnored(p, base, inv);
    consumed := consumed + dropped;
    blob := BlobSpec(outWeight, tensors, Metadata(config, p));
  }

  method DropIgnored(p: Pattern, base: string, inv: Inventory) returns (dropped: set<string>)
    ensures dropped == Dropped(inv, Match(p, base))
  {
    dropped := {};
    for i := 0 to |p.ignoreSuffixes|
      invariant dropped == set s | s in p.ignoreSuffixes[..i] && base + s in inv :: base + s
    {
      var s := base + p.ignoreSuffixes[i];
      if s in inv {
        dropped := dropped + {s};
      }
      assert p.ignoreSuffixes[..i + 1] == p.ignoreSuffixes[..i] + [p.ignoreSuffixes[i]];
    }
    assert p.ignoreSuffixes[..|p.ignoreSuffixes|] == p.ignoreSuffixes;
  }

  method MatchPrequant(name: string, inv: Inventory, patterns: seq<Pattern>, config: map<string, string>)
    returns (r: Option<(BlobSpec, set<string>)>)
    requires name in inv
    requires forall k :: 0 <= k < |patterns| ==> patterns[k].scaleSuffix != ""
    ensures r.Some? <==> FirstMatch(name, inv, patterns).Some?
    ensures r.Some? ==> var m := FirstMatch(name, inv, patterns).value;
      && r.value.0 == Fuse(inv, m, name, config)
      && r.value.1 == Fused(inv, m) + Dropped(inv, m)
  {
    for k := 0 to |patterns|
      invariant FirstMatch(name, inv, patterns) == FirstMatch(name, inv, patterns[k..])
    {
      var p := patterns[k];
      assert patterns[k..][0] == p && patterns[k..][1..] == patterns[k + 1..];
      var cut := CutSuffix(name, p.weightSuffix);
      if cut.None? {
        continue;
      }
      var base := cut.value;
      var scaleSrc := base + p.scaleSuffix;
      if scaleSrc !in inv {
        continue;
      }
      var blob, consumed := FuseWeight(p, base, name, inv, config);
      return Some((blob, consumed));
    }
    return None;
  }

  // ---------- the whole source ----------

  // Every companion of every matched weight.
  function AllConsumed(inv: Inventory, patterns: seq<Pattern>, names: set<string>): set<string> {
    set n, c | n in names && FirstMatch(n, inv, patterns).Some?
      && c in Fused(inv, FirstMatch(n, inv, patterns).value) + Dropped(inv, FirstMatch(n, inv, patterns).value) :: c
  }

  // What one tensor contributes: its fused blob, nothing for a companion, or a copy.
  function Emit(inv: Inventory, patterns: seq<Pattern>, config: map<string, string>, name: string): seq<BlobSpec>
    requires name in inv
  {
    match FirstMatch(name, inv, patterns)
    case Some(m) => [Fuse(inv, m, name, config)]
    case None => if name in AllConsumed(inv, patterns, inv.Keys) then [] else [CopyBlob(inv[name], "")]
  }

  predicate Listed(inv: Inventory, names: seq<string>) {
    forall k :: 0 <= k < |names| ==> names[k] in inv
  }

  function EmitAll(inv: Inventory, patterns: seq<Pattern>, config: map<string, string>, names: seq<string>): seq<BlobSpec>
    requires Listed(inv, names)
  {
    if names == [] then [] else
      var n := |names| - 1;
      EmitAll(inv, patterns, config, names[..n]) + Emit(inv, patterns, config, names[n])
  }

  lemma SortedListed(inv: Inventory)
    ensures Listed(inv, Sorted(inv.Keys))
  {
    SortedLists(inv.Keys);
    forall k | 0 <= k < |Sorted(inv.Keys)| ensures Sorted(inv.Keys)[k] in inv {
      assert Sorted(inv.Keys)[k] in Elements(Sorted(inv.Keys));
    }
  }

  // The matched weights so far, each with its fused blob.
  ghost predicate FusedRight(fused: map<string, BlobSpec>, inv: Inventory, patterns: seq<Pattern>,
                             config: map<string, string>, names: set<string>)
  {
    && (forall n :: n in fused <==> n in names && n in inv && FirstMatch(n, inv, patterns).Some?)
    && (forall n :: n in fused ==> fused[n] == Fuse(inv, FirstMatch(n, inv, patterns).value, n, config))
  }

  lemma {:induction false} ConsumedNext(inv: Inventory, patterns: seq<Pattern>, names: set<string>, name: string)
    requires name !in names
    ensures AllConsumed(inv, patterns, names + {name}) == AllConsumed(inv, patterns, names)
      + (match FirstMatch(name, inv, patterns) case Some(m) => Fused(inv, m) + Dropped(inv, m) case None => {})
  {
  }

  method FuseAll(inv: Inventory, patterns: seq<Pattern>, config: map<string, string>)
    returns (fused: map<string, BlobSpec>, consumed: set<string>)
    requires forall k :: 0 <= k < |patterns| ==> patterns[k].scaleSuffix != ""
    ensures FusedRight(fused, inv, patterns, config, inv.Keys)
    ensures consumed == AllConsumed(inv, patterns, inv.Keys)
  {
    var names := Sorted(inv.Keys);
    SortedLists(inv.Keys);
    SortedListed(inv);
    fused, consumed := map[], {};
    for k := 0 to |names|
      invariant FusedRight(fused, inv, patterns, config, Elements(names[..k]))
      invariant consumed == AllConsumed(inv, patterns, Elements(names[..k]))
    {
      ElementsNext(names, k);
      ConsumedNext(inv, patterns, Elements(names[..k]), names[k]);
      var matched := MatchPrequant(names[k], inv, patterns, config);
      if matched.Some? {
        fused := fused[names[k] := matched.value.0];
        consumed := consumed + matched.value.1;
      }
    }
    assert names[..|names|] == names;
  }

  lemma {:induction false} EmitNext(inv: Inventory, patterns: seq<Pattern>, config: map<string, string>,
                                    names: seq<string>, k: nat)
    requires Listed(inv, names) && k < |names|
    ensures EmitAll(inv, patterns, config, names[..k + 1])
         == EmitAll(inv, patterns, config, names[..k]) + Emit(inv, patterns, config, names[k])
  {
    assert names[..k + 1][..k] == names[..k];
  }

  method PlanPrequantized(inv: Inventory, patterns: seq<Pattern>, config: map<string, string>) returns (specs: seq<BlobSpec>)
    requires WellFiled(inv) && forall k :: 0 <= k < |patterns| ==> patterns[k].scaleSuffix != ""
    ensures Listed(inv, Sorted(inv.Keys)) && specs == EmitAll(inv, patterns, config, Sorted(inv.Keys))
  {
    var fused, consumed := FuseAll(inv, patterns, config);
    var names := Sorted(inv.Keys);
    SortedListed(inv);
    specs := [];
    for k := 0 to |names|
      invariant specs == EmitAll(inv, patterns, config, names[..k])
    {
      EmitNext(inv, patterns, config, names, k);
      if names[k] in fused {
        specs := specs + [fused[names[k]]];
      } else if names[k] !in consumed {
        var t := inv[names[k]];
        specs := specs + [BlobSpec(names[k], [TensorSpec(names[k], [t], TransformNone, "", "", None)], map[])];
      }
    }
    assert names[..|names|] == names;
  }
}
