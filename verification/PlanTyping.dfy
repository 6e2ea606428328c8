// Every planned blob is one the writer can execute, but for the global scales it checks.
module PlanTyping {
  import opened Text
  import opened SortedKeys
  import opened ImportPlan
  import opened ExpertSlots
  import opened ExpertPlans
  import opened Fp8ExpertPlans
  import opened SourcePlans
  import opened BlockFp8Plans
  import opened PrequantPlans
  import opened Fp8Experts
  import opened BlobWriter
  import opened Tensors

  predicate MLXTransform(t: Transform) {
    t == TransformNone || t == TransformStackExperts || NeedsFP8Decode(t)
  }

  predicate ScalarTransform(t: Transform) {
    t == TransformScalarF32 || t == TransformReciprocalF32
  }

  // The number and layout of sources each transform asks for.
  predicate ArityOk(ts: TensorSpec) {
    var n := |ts.sources|;
    if ts.transform == TransformStackExperts then n > 0 && OneLayout(ts.sources)
    else if ts.transform == TransformDecodeFP8 then n == 2
    else if ts.transform == TransformDecodeStackFP8 then
      n > 0 && n % 2 == 0 && OneLayout(ts.sources[..n / 2]) && OneLayout(ts.sources[n / 2..])
    else n == 1
  }

  // One quantization throughout, the right sources for every transform, and on the way
  // through the quantizer only transforms it supports and no metadata it would drop.
  ghost predicate WellTyped(b: BlobSpec) {
    && OneQuantization(b.tensors)
    && (forall k :: 0 <= k < |b.tensors| ==> ArityOk(b.tensors[k]))
    && (NeedsMLX(b) ==> b.metadata == map[] && forall k :: 0 <= k < |b.tensors| ==> MLXTransform(b.tensors[k].transform))
  }

  // ---------- what well-typed blobs do in the writer ----------

  // The files hold what the inventory says.
  ghost predicate Faithful<T(!new)>(read: SourceTensor -> TensorData<T>) {
    forall t :: read(t).name == t.name && read(t).dtype == t.dtype && read(t).tensor.shape == t.shape && read(t).tensor.Valid()
  }

  // A single 32-bit float, as the inventory lists it, and one that has a reciprocal where the
  // reciprocal is stored.
  predicate ScaleUsable<T>(scale: SourceTensor, reciprocal: bool, read: SourceTensor -> TensorData<T>, invert: T -> Option<T>) {
    && Upper(scale.dtype) == "F32" && Prod(scale.shape) == 1
    && (reciprocal ==> |read(scale).tensor.data| == 1 && invert(read(scale).tensor.data[0]).Some?)
  }

  // The check on global scales, the only thing left that can fail.
  predicate ScalarOk<T>(ts: TensorSpec, read: SourceTensor -> TensorData<T>, invert: T -> Option<T>) {
    ScalarTransform(ts.transform) ==>
      |ts.sources| == 1 && ScaleUsable(ts.sources[0], ts.transform == TransformReciprocalF32, read, invert)
  }

  lemma LayoutsStack<T(!new)>(sources: seq<SourceTensor>, read: SourceTensor -> TensorData<T>)
    requires Faithful(read) && OneLayout(sources)
    ensures OneDtype(Resolved(sources, read))
  {
  }

  lemma ScalarPasses<T(!new)>(ts: TensorSpec, read: SourceTensor -> TensorData<T>, invert: T -> Option<T>)
    requires ScalarTransform(ts.transform) && |ts.sources| == 1 && Faithful(read)
    ensures ByteTransform(ts, Resolved(ts.sources, read), invert).Ok? <==> ScalarOk(ts, read, invert)
  {
    assert Resolved(ts.sources, read) == [read(ts.sources[0])];
  }

  // The writer refuses a tensor of a well-typed blob exactly if it is a global scale that is
  // no single 32-bit float, or has no reciprocal where the reciprocal is stored.
  lemma WellTypedPasses<T(!new)>(b: BlobSpec, k: nat, read: SourceTensor -> TensorData<T>, invert: T -> Option<T>)
    requires WellTyped(b) && Faithful(read) && k < |b.tensors|
    ensures TensorPasses(b.tensors[k], NeedsMLX(b), read, invert) <==> ScalarOk(b.tensors[k], read, invert)
  {
    var ts := b.tensors[k];
    var sources, n := Resolved(ts.sources, read), |ts.sources|;
    if ts.transform == TransformStackExperts {
      LayoutsStack(ts.sources, read);
    } else if ts.transform == TransformDecodeStackFP8 {
      LayoutsStack(ts.sources[..n / 2], read);
      LayoutsStack(ts.sources[n / 2..], read);
      assert sources[..n / 2] == Resolved(ts.sources[..n / 2], read);
      assert sources[n / 2..] == Resolved(ts.sources[n / 2..], read);
    } else if ScalarTransform(ts.transform) {
      assert !NeedsMLX(b);
      ScalarPasses(ts, read, invert);
    }
  }

  function Quantizations(tensors: seq<TensorSpec>): (r: seq<string>)
    ensures |r| == |tensors|
  {
    seq(|tensors|, k requires 0 <= k < |tensors| => tensors[k].quantize)
  }

  // The metadata scan never sees a mix of precisions, and the one it records is every
  // tensor's.
  lemma WellTypedUnmixed(b: BlobSpec)
    requires WellTyped(b)
    ensures !Mixed(Quantizations(b.tensors))
    ensures forall j, k :: FirstQuantized(Quantizations(b.tensors), k) && 0 <= j < |b.tensors| ==>
      b.tensors[j].quantize == Quantizations(b.tensors)[k]
  {
    var q := Quantizations(b.tensors);
    forall j, k | 0 <= j < k < |q| ensures q[j] == q[k] {
      assert b.tensors[j].quantize == b.tensors[0].quantize && b.tensors[k].quantize == b.tensors[0].quantize;
    }
  }

  // ---------- every planned blob is well typed ----------

  lemma SingleTyped(b: BlobSpec)
    requires |b.tensors| == 1 && ArityOk(b.tensors[0]) && MLXTransform(b.tensors[0].transform) && b.metadata == map[]
    ensures WellTyped(b)
  {
  }

  lemma BlobsTyped(group: string, tensors: seq<TensorSpec>, b: BlobSpec)
    requires forall k :: 0 <= k < |tensors| ==> ArityOk(tensors[k]) && MLXTransform(tensors[k].transform)
    requires b in Blobs(group, tensors)
    ensures WellTyped(b)
  {
    if OneQuantization(tensors) {
      assert b == BlobSpec(group, tensors, map[]);
    } else {
      var k :| 0 <= k < |tensors| && b == Singles(tensors)[k];
      SingleTyped(b);
    }
  }

  lemma FromGroupTyped(b: BlobSpec, groups: Groups, quantize: string, policy: Policy)
    requires FromGroup(b, groups, quantize, policy)
    ensures WellTyped(b)
  {
    var g: string, specs: seq<TensorSpec>, n: nat :| g in groups && GroupPlan(g, groups[g], specs, n, quantize, policy) && b in Blobs(g, specs);
    var projs := Sorted(Projections(g, NamesOf(groups[g])));
    forall k | 0 <= k < |specs| ensures ArityOk(specs[k]) && MLXTransform(specs[k].transform) {
      assert Stacked(specs[k], g, projs[k], n, groups[g], quantize, policy);
    }
    BlobsTyped(g, specs, b);
  }

  lemma DecodeStackedTyped(ts: TensorSpec, group: string, proj: string, n: nat, tensors: seq<SourceTensor>,
                           inv: Inventory, target: string, policy: Policy)
    requires DecodeStacked(ts, group, proj, n, tensors, inv, target, policy)
    ensures ArityOk(ts) && MLXTransform(ts.transform)
  {
    assert |ts.sources| / 2 == n;
  }

  lemma FromFp8GroupTyped(b: BlobSpec, groups: Groups, inv: Inventory, target: string, policy: Policy)
    requires FromFp8Group(b, groups, inv, target, policy)
    ensures WellTyped(b)
  {
    var g: string, specs: seq<TensorSpec>, n: nat :|
      g in groups && Fp8GroupPlan(g, groups[g], specs, n, inv, target, policy) && b in Blobs(g, specs);
    var projs := Sorted(Projections(g, NamesOf(groups[g])));
    forall k | 0 <= k < |specs| ensures ArityOk(specs[k]) && MLXTransform(specs[k].transform) {
      DecodeStackedTyped(specs[k], g, projs[k], n, groups[g], inv, target, policy);
    }
    BlobsTyped(g, specs, b);
  }

  lemma FloatTyped(b: BlobSpec, inv: Inventory, isLayer: string -> bool, quantize: string, policy: Policy)
    requires PlannedFloat(b, inv, isLayer, quantize, policy)
    ensures WellTyped(b)
  {
    if Ungrouped(b, inv, isLayer, quantize, policy) {
      SingleTyped(b);
    } else {
      FromGroupTyped(b, FloatGroups(inv, isLayer), quantize, policy);
    }
  }

  lemma BlockFP8Typed(b: BlobSpec, inv: Inventory, isLayer: string -> bool, target: string, policy: Policy)
    requires PlannedBlockFP8(b, inv, isLayer, target, policy)
    ensures WellTyped(b)
  {
    if PlannedAlone(b, inv, isLayer, target, policy) {
      SingleTyped(b);
    } else if FromGroup(b, MemberGroups(inv, isLayer), "", policy) {
      FromGroupTyped(b, MemberGroups(inv, isLayer), "", policy);
    } else {
      FromFp8GroupTyped(b, Fp8Groups(inv, isLayer), inv, target, policy);
    }
  }

  lemma FuseTyped(inv: Inventory, m: Match, name: string, config: map<string, string>)
    requires name in inv && m.base + m.pattern.scaleSuffix in inv
    ensures WellTyped(Fuse(inv, m, name, config)) && !NeedsMLX(Fuse(inv, m, name, config))
  {
    var ts := Fuse(inv, m, name, config).tensors;
    forall k | 0 <= k < |ts| ensures ts[k].quantize == "" && |ts[k].sources| == 1 && !NeedsFP8Decode(ts[k].transform) {
    }
    forall k | 0 <= k < |ts| ensures ts[k].transform != TransformStackExperts {
    }
  }

  lemma {:induction false} PrequantTyped(inv: Inventory, patterns: seq<Pattern>, config: map<string, string>,
                                         names: seq<string>, i: nat)
    requires Listed(inv, names) && i < |EmitAll(inv, patterns, config, names)|
    ensures WellTyped(EmitAll(inv, patterns, config, names)[i])
    decreases |names|
  {
    var n := |names| - 1;
    var before := EmitAll(inv, patterns, config, names[..n]);
    if i < |before| {
      PrequantTyped(inv, patterns, config, names[..n], i);
    } else {
      match FirstMatch(names[n], inv, patterns)
      case Some(m) => FuseTyped(inv, m, names[n], config);
      case None => SingleTyped(CopyBlob(inv[names[n]], ""));
    }
  }
}
