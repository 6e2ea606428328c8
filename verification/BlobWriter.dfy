// Executing a plan: how the writer turns each planned blob into tensors.
module BlobWriter {
  import opened Text
  import opened Tensors
  import opened ImportPlan
  import opened Fp8Experts

  predicate NeedsFP8Decode(t: Transform) {
    t == TransformDecodeFP8 || t == TransformDecodeStackFP8
  }

  predicate NeedsMLX(spec: BlobSpec) {
    exists k :: 0 <= k < |spec.tensors| && (spec.tensors[k].quantize != "" || NeedsFP8Decode(spec.tensors[k].transform))
  }

  method BlobNeedsMLX(spec: BlobSpec) returns (r: bool)
    ensures r <==> NeedsMLX(spec)
  {
    for k := 0 to |spec.tensors|
      invariant forall j :: 0 <= j < k ==> spec.tensors[j].quantize == "" && !NeedsFP8Decode(spec.tensors[j].transform)
    {
      var ts := spec.tensors[k];
      if ts.quantize != "" || NeedsFP8Decode(ts.transform) {
        return true;
      }
    }
    return false;
  }

  function ShapeOf(ts: TensorSpec): seq<nat> {
    if ts.outShape.Some? then ts.outShape.value else []
  }

  predicate OneDtype<T>(sources: seq<TensorData<T>>) {
    forall k :: 0 <= k < |sources| ==> sources[k].dtype == sources[0].dtype
  }

  function StackOf<T>(name: string, dtype: string, shape: seq<nat>, sources: seq<TensorData<T>>): Result<TensorData<T>, string> {
    if sources == [] then Err("stack_experts expects at least one source")
    else if !OneDtype(sources) then Err("stack_experts source dtype mismatch")
    else Ok(TensorData(name, dtype, Tensor(shape, Joined(sources))))
  }

  function Renamed<T>(td: TensorData<T>, name: string): TensorData<T> {
    td.(name := name)
  }

  // The name under which a scale is written next to its weight.
  function ScaleName<T>(weight: string, scale: TensorData<T>): string {
    if HasSuffix(scale.name, "_scale") && !HasSuffix(scale.name, "_scale_inv") then weight + ".scale"
    else weight + ".scale_inv"
  }

  // The tensors handed to the quantizer, the first under the output name.
  function QuantizeInput<T>(ts: TensorSpec, sources: seq<TensorData<T>>): Result<seq<TensorData<T>>, string> {
    match ts.transform
    case TransformNone =>
      if |sources| != 1 then Err("transform none expects 1 source") else Ok([Renamed(sources[0], ts.name)])
    case TransformDecodeFP8 =>
      if |sources| != 2 then Err("transform decode_fp8 expects weight and scale")
      else Ok([Renamed(sources[0], ts.name), Renamed(sources[1], ScaleName(ts.name, sources[1]))])
    case TransformDecodeStackFP8 =>
      if |sources| == 0 || |sources| % 2 != 0 then Err("transform decode_stack_fp8 expects N weights followed by N scales")
      else
        var n := |sources| / 2;
        var weights, scales := sources[..n], sources[n..];
        (match StackOf(ts.name, ts.outDtype, ShapeOf(ts), weights)
         case Err(e) => Err(e)
         case Ok(weight) =>
           match StackOf(ts.name + ".scale_inv", scales[0].dtype, [n] + scales[0].tensor.shape, scales)
           case Err(e) => Err(e)
           case Ok(scale) => Ok([weight, scale]))
    case TransformStackExperts =>
      (match StackOf(ts.name, ts.outDtype, ShapeOf(ts), sources)
       case Err(e) => Err(e)
       case Ok(stacked) => Ok([stacked]))
    case _ => Err("transform is not supported for a quantized tensor")
  }

  predicate IsScalarF32<T>(td: TensorData<T>) {
    Upper(td.dtype) == "F32" && Prod(td.tensor.shape) == 1
  }

  // invert stands for the reciprocal of a scale, absent for zero.
  function Inverted<T>(td: TensorData<T>, name: string, invert: T -> Option<T>): Result<TensorData<T>, string> {
    if !IsScalarF32(td) then Err("expected scalar F32 tensor")
    else if |td.tensor.data| != 1 then Err("invalid F32 tensor byte length")
    else match invert(td.tensor.data[0])
      case None => Err("cannot invert zero F32 scale")
      case Some(v) => Ok(TensorData(name, td.dtype, Tensor(td.tensor.shape, [v])))
  }

  // A new header over the same data.
  function Relabelled<T>(ts: TensorSpec, td: TensorData<T>): TensorData<T> {
    TensorData(ts.name, if ts.outDtype != "" then ts.outDtype else td.dtype,
               if ts.outShape.Some? then Tensor(ts.outShape.value, td.tensor.data) else td.tensor)
  }

  function ByteTransform<T>(ts: TensorSpec, sources: seq<TensorData<T>>, invert: T -> Option<T>): Result<TensorData<T>, string> {
    if NeedsFP8Decode(ts.transform) then Err("transform requires the MLX writer path")
    else if ts.transform == TransformStackExperts then StackOf(ts.name, ts.outDtype, ShapeOf(ts), sources)
    else if |sources| != 1 then Err("transform expects 1 source")
    else if ts.transform == TransformNone then Ok(Renamed(sources[0], ts.name))
    else if ts.transform == TransformScalarF32 then
      if IsScalarF32(sources[0]) then Ok(Renamed(sources[0], ts.name)) else Err("expected scalar F32 tensor")
    else if ts.transform == TransformReciprocalF32 then Inverted(sources[0], ts.name, invert)
    else Ok(Relabelled(ts, sources[0]))
  }

  datatype QuantizeItem<T> = QuantizeItem(name: string, quantize: string, input: seq<TensorData<T>>, decodeFP8: bool)

  // What the writer stores: tensors packed as bytes, or items for the quantizer.
  datatype Prepared<T> =
    | Packed(tensors: seq<TensorData<T>>, metadata: map<string, string>)
    | Quantized(items: seq<QuantizeItem<T>>)

  function Resolved<T>(sources: seq<SourceTensor>, read: SourceTensor -> TensorData<T>): (r: seq<TensorData<T>>)
    ensures |r| == |sources|
  {
    seq(|sources|, k requires 0 <= k < |sources| => read(sources[k]))
  }

  // One tensor of a blob passes.
  predicate TensorPasses<T>(ts: TensorSpec, mlx: bool, read: SourceTensor -> TensorData<T>, invert: T -> Option<T>) {
    if mlx then QuantizeInput(ts, Resolved(ts.sources, read)).Ok? else ByteTransform(ts, Resolved(ts.sources, read), invert).Ok?
  }

  predicate PackedRight<T(==)>(tensors: seq<TensorData<T>>, specs: seq<TensorSpec>, read: SourceTensor -> TensorData<T>,
                               invert: T -> Option<T>)
  {
    && |tensors| == |specs|
    && forall k :: 0 <= k < |tensors| ==> ByteTransform(specs[k], Resolved(specs[k].sources, read), invert) == Ok(tensors[k])
  }

  predicate ItemRight<T(==)>(item: QuantizeItem<T>, ts: TensorSpec, read: SourceTensor -> TensorData<T>) {
    && item.name == ts.name && item.quantize == ts.quantize && item.decodeFP8 == NeedsFP8Decode(ts.transform)
    && QuantizeInput(ts, Resolved(ts.sources, read)) == Ok(item.input)
  }

  predicate ItemsRight<T(==)>(items: seq<QuantizeItem<T>>, specs: seq<TensorSpec>, read: SourceTensor -> TensorData<T>) {
    |items| == |specs| && forall k :: 0 <= k < |items| ==> ItemRight(items[k], specs[k], read)
  }

  method PackTensors<T>(specs: seq<TensorSpec>, read: SourceTensor -> TensorData<T>, invert: T -> Option<T>)
    returns (r: Result<seq<TensorData<T>>, string>)
    ensures r.Ok? <==> forall k :: 0 <= k < |specs| ==> TensorPasses(specs[k], false, read, invert)
    ensures r.Ok? ==> PackedRight(r.value, specs, read, invert)
  {
    var tensors: seq<TensorData<T>> := [];
    for k := 0 to |specs|
      invariant forall j :: 0 <= j < k ==> TensorPasses(specs[j], false, read, invert)
      invariant PackedRight(tensors, specs[..k], read, invert)
    {
      var td := ByteTransform(specs[k], Resolved(specs[k].sources, read), invert);
      if td.Err? {
        assert !TensorPasses(specs[k], false, read, invert);
        return Err(td.error);
      }
      tensors := tensors + [td.value];
    }
    assert specs[..|specs|] == specs;
    return Ok(tensors);
  }

  method QuantizeItems<T>(specs: seq<TensorSpec>, read: SourceTensor -> TensorData<T>, ghost invert: T -> Option<T>)
    returns (r: Result<seq<QuantizeItem<T>>, string>)
    ensures r.Ok? <==> forall k :: 0 <= k < |specs| ==> TensorPasses(specs[k], true, read, invert)
    ensures r.Ok? ==> ItemsRight(r.value, specs, read)
  {
    var items: seq<QuantizeItem<T>> := [];
    for k := 0 to |specs|
      invariant forall j :: 0 <= j < k ==> TensorPasses(specs[j], true, read, invert)
      invariant ItemsRight(items, specs[..k], read)
    {
      var input := QuantizeInput(specs[k], Resolved(specs[k].sources, read));
      if input.Err? {
        assert !TensorPasses(specs[k], true, read, invert);
        return Err(input.error);
      }
      items := items + [QuantizeItem(specs[k].name, specs[k].quantize, input.value, NeedsFP8Decode(specs[k].transform))];
    }
    assert specs[..|specs|] == specs;
    return Ok(items);
  }

  // Every tensor of a blob passes.
  predicate BlobPasses<T>(spec: BlobSpec, read: SourceTensor -> TensorData<T>, invert: T -> Option<T>) {
    forall k :: 0 <= k < |spec.tensors| ==> TensorPasses(spec.tensors[k], NeedsMLX(spec), read, invert)
  }

  method PrepareBlob<T>(spec: BlobSpec, read: SourceTensor -> TensorData<T>, invert: T -> Option<T>)
    returns (r: Result<Prepared<T>, string>)
    ensures r.Ok? <==> BlobPasses(spec, read, invert)
    ensures r.Ok? && NeedsMLX(spec) ==> r.value.Quantized? && ItemsRight(r.value.items, spec.tensors, read)
    ensures r.Ok? && !NeedsMLX(spec) ==>
      r.value.Packed? && r.value.metadata == spec.metadata && PackedRight(r.value.tensors, spec.tensors, read, invert)
  {
    var needsMLX := BlobNeedsMLX(spec);
    if needsMLX {
      var items := QuantizeItems(spec.tensors, read, invert);
      r := match items case Ok(v) => Ok(Quantized(v)) case Err(e) => Err(e);
    } else {
      var tensors := PackTensors(spec.tensors, read, invert);
      r := match tensors case Ok(v) => Ok(Packed(v, spec.metadata)) case Err(e) => Err(e);
    }
  }

  // ---------- the metadata scan ----------

  // A tensor after the first quantized one disagrees with it.
  predicate Mixed(quantize: seq<string>) {
    exists j, k :: 0 <= j < k < |quantize| && quantize[j] != "" && quantize[k] != quantize[j]
  }

  predicate FirstQuantized(quantize: seq<string>, k: int) {
    0 <= k < |quantize| && quantize[k] != "" && forall j :: 0 <= j < k ==> quantize[j] == ""
  }

  method ScanQuantizations(quantize: seq<string>) returns (uniform: string, mixed: bool, hasQuant: bool)
    ensures mixed <==> Mixed(quantize)
    ensures hasQuant <==> exists k :: 0 <= k < |quantize| && quantize[k] != ""
    ensures hasQuant ==> exists k :: FirstQuantized(quantize, k) && quantize[k] == uniform
  {
    uniform, mixed, hasQuant := "", false, false;
    ghost var first := 0;
    for i := 0 to |quantize|
      invariant hasQuant ==> first < i && FirstQuantized(quantize, first) && quantize[first] == uniform
      invariant !hasQuant ==> !mixed && forall j :: 0 <= j < i ==> quantize[j] == ""
      invariant hasQuant ==> (mixed <==> exists k :: first < k < i && quantize[k] != uniform)
    {
      if quantize[i] == "" {
        if hasQuant {
          mixed := true;
        }
      } else if !hasQuant {
        hasQuant, uniform := true, quantize[i];
        first := i;
      } else if quantize[i] != uniform {
        mixed := true;
      }
    }
    MixedFromFirst(quantize, first, hasQuant);
  }

  lemma MixedFromFirst(quantize: seq<string>, first: int, hasQuant: bool)
    requires hasQuant ==> FirstQuantized(quantize, first)
    requires !hasQuant ==> forall j :: 0 <= j < |quantize| ==> quantize[j] == ""
    ensures Mixed(quantize) <==> hasQuant && exists k :: first < k < |quantize| && quantize[k] != quantize[first]
  {
    if Mixed(quantize) {
      var j, k :| 0 <= j < k < |quantize| && quantize[j] != "" && quantize[k] != quantize[j];
      assert hasQuant && first <= j;
    }
  }

  predicate PlainThenUniform(quantize: seq<string>, f: int) {
    && 0 <= f <= |quantize|
    && (forall j :: 0 <= j < f ==> quantize[j] == "")
    && (forall j :: f <= j < |quantize| ==> quantize[j] != "" && quantize[j] == quantize[f])
  }

  // The scan overlooks unquantized tensors in front: it finds no mix exactly when the list
  // is some unquantized tensors followed by tensors of one quantization.
  lemma NotMixedIff(quantize: seq<string>)
    ensures !Mixed(quantize) <==> exists f :: PlainThenUniform(quantize, f)
  {
    if !Mixed(quantize) {
      var f := FirstNonEmpty(quantize);
      assert PlainThenUniform(quantize, f);
    }
  }

  // An unquantized tensor goes unnoticed ahead of a quantized one, but not behind it.
  lemma UnquantizedFirstIsOverlooked()
    ensures !Mixed(["", "int4"]) && Mixed(["int4", ""])
  {
    assert PlainThenUniform(["", "int4"], 1);
    NotMixedIff(["", "int4"]);
    var q := ["int4", ""];
    assert q[0] != "" && q[1] != q[0];
  }

  lemma FirstNonEmpty(quantize: seq<string>) returns (f: nat)
    ensures f <= |quantize| && (forall j :: 0 <= j < f ==> quantize[j] == "")
    ensures f < |quantize| ==> quantize[f] != ""
  {
    f := 0;
    while f < |quantize| && quantize[f] == ""
      invariant f <= |quantize| && forall j :: 0 <= j < f ==> quantize[j] == ""
    {
      f := f + 1;
    }
  }
}
