// Which quantization each architecture's policy picks for a tensor.
module QuantPolicy {
  import opened Text
  import opened Tensors

  // Keep is source precision; Other is a name no policy knows.
  datatype Quant = Keep | Int4 | Int8 | Nvfp4 | Mxfp4 | Mxfp8 | Other(name: string)

  function Normalize(quantize: string): Quant {
    var upper := Upper(quantize);
    if upper == "Q4" || upper == "INT4" || upper == "FP4" then Int4
    else if upper == "Q8" || upper == "INT8" || upper == "FP8" then Int8
    else if upper == "NVFP4" then Nvfp4
    else if upper == "MXFP4" then Mxfp4
    else if upper == "MXFP8" then Mxfp8
    else Other(quantize)
  }

  predicate Supported(q: Quant) {
    q == Int4 || q == Int8 || q == Nvfp4 || q == Mxfp4 || q == Mxfp8
  }

  // The group sizes the quantizer uses.
  function GroupSize(q: Quant): nat
    requires Supported(q)
  {
    match q
    case Nvfp4 => 16
    case Mxfp4 => 32
    case Int4 => 64
    case Mxfp8 => 32
    case Int8 => 64
  }

  predicate IsAligned(shape: seq<nat>, q: Quant) {
    if shape == [] then false
    else
      var groupSize := if q == Nvfp4 then 16 else if q == Int4 || q == Int8 then 64 else 32;
      shape[|shape| - 1] % groupSize == 0
  }

  function EightBit(base: Quant): Quant {
    if base == Int4 || base == Int8 then Int8 else Mxfp8
  }

  function PromoteEmbedding(shape: seq<nat>, base: Quant): Quant {
    if IsAligned(shape, EightBit(base)) then EightBit(base) else Keep
  }

  function SensitiveType(promote: bool, shape: seq<nat>, base: Quant): Quant {
    if promote && IsAligned(shape, EightBit(base)) then EightBit(base)
    else if IsAligned(shape, base) then base
    else Keep
  }

  // First and last eighth of the layers, and every third of those before middleEnd; the
  // quotients matter only for a positive number of layers.
  predicate UseMoreBitsWithMiddleEnd(layer: int, numLayers: int, middleEnd: int) {
    if layer < 0 || numLayers <= 0 then false
    else
      var first := numLayers / 8;
      var last := 7 * numLayers / 8;
      layer < first || layer >= last || (first <= layer < middleEnd && (layer - first) % 3 == 2)
  }

  predicate UseMoreBits(layer: int, numLayers: int) {
    UseMoreBitsWithMiddleEnd(layer, numLayers, 7 * numLayers / 8)
  }

  // ---------- names ----------

  predicate ShouldQuantize(name: string) {
    && !Contains(name, "audio_tower") && !Contains(name, "embed_audio") && !Contains(name, "embed")
    && !Contains(name, "norm") && !Contains(name, "ln_") && !Contains(name, "layernorm")
    && !HasSuffix(name, ".bias") && HasSuffix(name, ".weight")
  }

  predicate IsStackedExpertWeight(name: string) {
    && !HasSuffix(name, ".bias") && !HasSuffix(name, ".scale") && !HasSuffix(name, ".qbias")
    && (Contains(name, ".experts.") || Contains(name, ".mlp.switch_mlp.") || Contains(name, ".mlp.shared_experts.")
        || Contains(name, ".mixer.shared_experts."))
  }

  predicate IsRoutingGate(name: string) {
    HasSuffix(name, ".mlp.gate.weight") || HasSuffix(name, ".mixer.gate.weight")
      || HasSuffix(name, ".shared_expert_gate.weight") || HasSuffix(name, ".router.proj.weight")
  }

  predicate IsVision(name: string) {
    Contains(name, "vision") || Contains(name, "visual")
  }

  predicate IsAudioTower(name: string) {
    Contains(name, "audio_tower") || Contains(name, "embed_audio")
  }

  predicate IsEmbedTokensWeight(name: string) {
    HasSuffix(name, "embed_tokens.weight") && !Contains(name, "per_layer")
  }

  predicate IsHead(name: string) {
    HasSuffix(name, "lm_head.weight")
  }

  predicate IsValueKeyOrDown(name: string) {
    Contains(name, ".v_proj") || Contains(name, ".k_proj") || Contains(name, "down_proj")
  }

  // ---------- the generic policy ----------

  function Generic(name: string, shape: seq<nat>, base: Quant): Quant {
    var stackedExpert := IsStackedExpertWeight(name);
    if !stackedExpert && !ShouldQuantize(name) then Keep
    else if |shape| != 2 && !(|shape| == 3 && stackedExpert) then Keep
    else if Prod(shape) < 1024 then Keep
    else if IsRoutingGate(name) then Keep
    else if IsHead(name) then PromoteEmbedding(shape, base)
    else if IsVision(name) then Keep
    else if !IsAligned(shape, base) then Keep
    else if (base == Int4 || ((base == Nvfp4 || base == Mxfp4) && !stackedExpert)) && IsValueKeyOrDown(name)
      && IsAligned(shape, EightBit(base)) then EightBit(base)
    else base
  }

  // ---------- architectures ----------

  // What each policy read from the model's configuration; layer is the layer index in a name.
  datatype Policy =
    | Default
    | Qwen35
    | Qwen4Exp
    | Gemma4(numLayers: int, numExperts: int)
    | Glimmer(numLayers: int)
    | Cohere2Moe(numLayers: int)
    | NemotronH(numLayers: int)
    | Laguna(denseLayers: set<int>, numLayers: int)
    | Draft(inner: Policy)

  predicate IsLowRankProjection(name: string) {
    HasSuffix(name, ".linear_attn.in_proj_a.weight") || HasSuffix(name, ".linear_attn.in_proj_b.weight")
      || HasSuffix(name, ".linear_attn.in_proj_ba.weight")
  }

  function Qwen4ExpType(name: string, shape: seq<nat>, base: Quant): Quant {
    if Contains(name, ".ple.ple_embedding.ngram_embedding.shard_") && HasSuffix(name, ".weight") then
      if |shape| == 2 && IsAligned(shape, base) then base else Keep
    else if IsLowRankProjection(name) then Keep
    else Generic(name, shape, base)
  }

  // An embedding that doubles as the head: 8 bits, or the base type where 8 bits do not fit.
  function TiedEmbedding(shape: seq<nat>, base: Quant): Quant {
    if PromoteEmbedding(shape, base) != Keep then PromoteEmbedding(shape, base)
    else if IsAligned(shape, base) then base
    else Keep
  }

  predicate Gemma4Promotes(name: string, layer: int, numLayers: int, numExperts: int) {
    if numLayers == 0 then false
    else if numExperts == 8 && (Contains(name, ".v_proj") || Contains(name, ".k_proj")) then true
    else !Contains(name, ".k_proj") && layer >= 0 && UseMoreBits(layer, numLayers)
  }

  function Gemma4Type(name: string, shape: seq<nat>, base: Quant, layer: int, numLayers: int, numExperts: int): Quant {
    if IsEmbedTokensWeight(name) then TiedEmbedding(shape, base)
    else if !IsVision(name) && !IsAudioTower(name) && IsValueKeyOrDown(name) && EightBit(base) != base then
      SensitiveType(Gemma4Promotes(name, layer, numLayers, numExperts), shape, base)
    else Generic(name, shape, base)
  }

  predicate GlimmerAttention(name: string) {
    Contains(name, ".self_attn.q_proj") || Contains(name, ".self_attn.o_proj")
      || Contains(name, ".self_attn.k_proj") || Contains(name, ".self_attn.v_proj")
  }

  predicate GlimmerSensitive(name: string) {
    GlimmerAttention(name) || Contains(name, ".self_attn.gate_proj") || Contains(name, ".self_attn.output_gate_proj")
      || Contains(name, ".mlp.down_proj")
  }

  function GlimmerType(name: string, shape: seq<nat>, base: Quant, layer: int, numLayers: int): Quant {
    if IsVision(name) then Keep
    else if IsEmbedTokensWeight(name) then TiedEmbedding(shape, base)
    else if GlimmerSensitive(name) && EightBit(base) != base then
      SensitiveType(GlimmerAttention(name) || (numLayers > 0 && layer >= 0 && UseMoreBits(layer, numLayers)), shape, base)
    else Generic(name, shape, base)
  }

  function Cohere2MoeType(name: string, shape: seq<nat>, base: Quant, layer: int, numLayers: int): Quant {
    if IsEmbedTokensWeight(name) && |shape| == 2 then PromoteEmbedding(shape, base)
    else if HasSuffix(name, ".mlp.gate.weight") then Keep
    else if IsValueKeyOrDown(name) && EightBit(base) != base && numLayers > 0 && layer >= 0 then
      SensitiveType(UseMoreBits(layer, numLayers), shape, base)
    else Generic(name, shape, base)
  }

  predicate NemotronHKept(name: string) {
    HasPrefix(name, "vision_model.") || HasPrefix(name, "mlp1.")
      || HasPrefix(name, "sound_encoder.") || HasPrefix(name, "sound_projection.")
      || HasSuffix(name, ".mixer.gate.weight") || HasSuffix(name, ".mixer.conv1d.weight")
  }

  predicate NemotronHAttention(name: string) {
    HasSuffix(name, ".mixer.q_proj.weight") || HasSuffix(name, ".mixer.k_proj.weight")
      || HasSuffix(name, ".mixer.v_proj.weight") || HasSuffix(name, ".mixer.o_proj.weight")
  }

  predicate NemotronHSensitive(name: string) {
    NemotronHAttention(name) || HasSuffix(name, ".mixer.out_proj.weight") || HasSuffix(name, ".mixer.down_proj.weight")
      || (Contains(name, ".mixer.experts.") && HasSuffix(name, ".down_proj.weight"))
      || HasSuffix(name, ".mixer.shared_experts.down_proj.weight")
  }

  function NemotronHType(name: string, shape: seq<nat>, base: Quant, layer: int, numLayers: int): Quant {
    if NemotronHKept(name) then Keep
    else if HasSuffix(name, "embeddings.weight") || IsHead(name) then PromoteEmbedding(shape, base)
    else if (base == Nvfp4 || base == Mxfp4) && NemotronHSensitive(name) then
      if IsAligned(shape, Mxfp8) && (NemotronHAttention(name) || layer < 0 || UseMoreBits(layer, numLayers)) then Mxfp8
      else if IsAligned(shape, base) then base
      else Keep
    else Generic(name, shape, base)
  }

  // ---------- Laguna ----------

  predicate LagunaAttention(name: string) {
    Contains(name, ".self_attn.q_proj.weight") || Contains(name, ".self_attn.k_proj.weight")
      || Contains(name, ".self_attn.v_proj.weight") || Contains(name, ".self_attn.o_proj.weight")
      || Contains(name, ".self_attn.g_proj.weight")
  }

  predicate LagunaDenseMLP(name: string) {
    Contains(name, ".mlp.gate_proj.weight") || Contains(name, ".mlp.up_proj.weight") || Contains(name, ".mlp.down_proj.weight")
  }

  predicate LagunaProjection(name: string) {
    HasSuffix(name, ".gate_proj.weight") || HasSuffix(name, ".up_proj.weight") || HasSuffix(name, ".down_proj.weight")
  }

  predicate LagunaPromotesDown(layer: int, numLayers: int) {
    UseMoreBitsWithMiddleEnd(layer, numLayers, numLayers / 2 - 4)
  }

  predicate NamedDense(layer: int, mlpOnlyLayers: seq<int>, mlpLayerTypes: seq<string>) {
    layer in mlpOnlyLayers || (0 <= layer < |mlpLayerTypes| && mlpLayerTypes[layer] == "dense")
  }

  lemma SomeMember<T>(s: set<T>) returns (x: T)
    requires s != {}
    ensures x in s
  {
    x :| x in s;
  }

  // Reads Laguna's configuration: the dense layers, the first if none is named, and the
  // number of layers.
  method NewLaguna(numHiddenLayers: int, mlpOnlyLayers: seq<int>, mlpLayerTypes: seq<string>) returns (p: Policy)
    ensures p.Laguna? && p.denseLayers != {}
    ensures (exists l :: NamedDense(l, mlpOnlyLayers, mlpLayerTypes)) ==>
      forall l :: l in p.denseLayers <==> NamedDense(l, mlpOnlyLayers, mlpLayerTypes)
    ensures (forall l :: !NamedDense(l, mlpOnlyLayers, mlpLayerTypes)) ==> p.denseLayers == {0}
    ensures p.numLayers == if numHiddenLayers != 0 then numHiddenLayers else if mlpLayerTypes != [] then |mlpLayerTypes| else 40
  {
    var dense: set<int> := {};
    for i := 0 to |mlpLayerTypes|
      invariant forall l :: l in dense <==> NamedDense(l, [], mlpLayerTypes[..i])
    {
      if mlpLayerTypes[i] == "dense" {
        dense := dense + {i};
      }
    }
    assert mlpLayerTypes[..|mlpLayerTypes|] == mlpLayerTypes;
    for i := 0 to |mlpOnlyLayers|
      invariant forall l :: l in dense <==> NamedDense(l, mlpOnlyLayers[..i], mlpLayerTypes)
    {
      dense := dense + {mlpOnlyLayers[i]};
    }
    assert mlpOnlyLayers[..|mlpOnlyLayers|] == mlpOnlyLayers;
    if |dense| == 0 {
      dense := {0};
    } else {
      ghost var l := SomeMember(dense);
      assert NamedDense(l, mlpOnlyLayers, mlpLayerTypes);
    }
    var numLayers := numHiddenLayers;
    if numLayers == 0 {
      numLayers := |mlpLayerTypes|;
    }
    if numLayers == 0 {
      numLayers := 40;
    }
    p := Laguna(dense, numLayers);
  }

  // What Laguna's policy looks for in a name.
  datatype LagunaTraits = LagunaTraits(head: bool, gate: bool, attention: bool, denseMLP: bool, routed: bool,
                                       routedDown: bool, shared: bool, sharedDown: bool)

  function LagunaTraitsOf(name: string): LagunaTraits {
    LagunaTraits(IsEmbedTokensWeight(name) || IsHead(name), HasSuffix(name, ".mlp.gate.weight"),
                 LagunaAttention(name), LagunaDenseMLP(name),
                 LagunaProjection(name) && Contains(name, ".mlp.experts."),
                 Contains(name, ".mlp.experts.") && HasSuffix(name, ".down_proj.weight"),
                 LagunaProjection(name) && Contains(name, ".mlp.shared_expert."),
                 Contains(name, ".mlp.shared_expert.down_proj.weight"))
  }

  // The generic answer without its promotion to 8 bits.
  function Unpromoted(generic: Quant, base: Quant): Quant {
    if generic != base && generic == EightBit(base) then base else generic
  }

  function LagunaSensitive(promote: bool, generic: Quant, base: Quant): Quant {
    if base == Mxfp8 then Keep
    else if promote then generic
    else Unpromoted(generic, base)
  }

  function LagunaPick(t: LagunaTraits, generic: Quant, shape: seq<nat>, base: Quant, isDense: bool, promote: bool): Quant {
    if base != Nvfp4 && base != Mxfp4 && base != Mxfp8 then generic
    else if t.head then PromoteEmbedding(shape, base)
    else if t.gate then Keep
    else if base == Mxfp8 && t.attention then Keep
    else if t.attention then Unpromoted(generic, base)
    else if t.denseMLP && isDense then Unpromoted(generic, base)
    else if base == Mxfp8 && t.routedDown then if promote then Keep else Unpromoted(generic, base)
    else if t.sharedDown then LagunaSensitive(promote, generic, base)
    else if t.shared then Unpromoted(generic, base)
    else if t.routed then Unpromoted(generic, base)
    else Keep
  }

  function LagunaType(name: string, shape: seq<nat>, base: Quant, layer: int, dense: set<int>, numLayers: int): Quant {
    LagunaPick(LagunaTraitsOf(name), Generic(name, shape, base), shape, base, layer in dense, LagunaPromotesDown(layer, numLayers))
  }

  // A draft model's head gets the requested type where it fits; other tensors what their
  // architecture says.
  function DraftPick(head: bool, shape: seq<nat>, base: Quant, other: Quant): Quant {
    if !head then other else if IsAligned(shape, base) then base else Keep
  }

  function ModelType(policy: Policy, name: string, shape: seq<nat>, base: Quant, layer: int): Quant
    requires !policy.Draft?
  {
    match policy
    case Default => Generic(name, shape, base)
    case Qwen35 => if IsLowRankProjection(name) then Keep else Generic(name, shape, base)
    case Qwen4Exp => Qwen4ExpType(name, shape, base)
    case Gemma4(layers, experts) => Gemma4Type(name, shape, base, layer, layers, experts)
    case Glimmer(layers) => GlimmerType(name, shape, base, layer, layers)
    case Cohere2Moe(layers) => Cohere2MoeType(name, shape, base, layer, layers)
    case NemotronH(layers) => NemotronHType(name, shape, base, layer, layers)
    case Laguna(dense, layers) => LagunaType(name, shape, base, layer, dense, layers)
  }

  function TypeOf(policy: Policy, name: string, shape: seq<nat>, base: Quant, layerIndex: string -> int): Quant {
    match policy
    case Draft(inner) =>
      DraftPick(IsEmbedTokensWeight(name) || IsHead(name), shape, base, TypeOf(inner, name, shape, base, layerIndex))
    case _ => ModelType(policy, name, shape, base, layerIndex(name))
  }

  // ---------- soundness ----------

  // Source precision, or a type of the requested family whose groups tile the last dimension.
  predicate Sound(answer: Quant, shape: seq<nat>, base: Quant) {
    answer == Keep
    || ((answer == base || answer == EightBit(base)) && Supported(answer) && shape != []
        && shape[|shape| - 1] % GroupSize(answer) == 0)
  }

  // Alignment is exactly what the quantizer's group size asks for.
  lemma AlignedIff(shape: seq<nat>, q: Quant)
    requires Supported(q)
    ensures IsAligned(shape, q) <==> shape != [] && shape[|shape| - 1] % GroupSize(q) == 0
  {
  }

  lemma AlignedSound(shape: seq<nat>, q: Quant, base: Quant)
    requires Supported(base) && (q == base || q == EightBit(base)) && IsAligned(shape, q)
    ensures Sound(q, shape, base)
  {
    AlignedIff(shape, q);
  }

  // Where 8 bits fit, so does the type they were promoted from.
  lemma EightBitFitsBase(shape: seq<nat>, base: Quant)
    requires Supported(base) && IsAligned(shape, EightBit(base))
    ensures IsAligned(shape, base)
  {
    if base == Nvfp4 {
      TilesFiner(shape[|shape| - 1]);
    }
  }

  lemma TilesFiner(n: nat)
    requires n % 32 == 0
    ensures n % 16 == 0
  {
    assert n == 16 * (2 * (n / 32));
  }

  lemma GenericSound(name: string, shape: seq<nat>, base: Quant)
    requires Supported(base)
    ensures Sound(Generic(name, shape, base), shape, base)
  {
    if IsAligned(shape, base) {
      AlignedSound(shape, base, base);
    }
    if IsAligned(shape, EightBit(base)) {
      AlignedSound(shape, EightBit(base), base);
    }
  }

  lemma SensitiveSound(promote: bool, shape: seq<nat>, base: Quant)
    requires Supported(base)
    ensures Sound(SensitiveType(promote, shape, base), shape, base)
    ensures Sound(TiedEmbedding(shape, base), shape, base) && Sound(PromoteEmbedding(shape, base), shape, base)
  {
    if IsAligned(shape, base) {
      AlignedSound(shape, base, base);
    }
    if IsAligned(shape, EightBit(base)) {
      AlignedSound(shape, EightBit(base), base);
    }
  }

  lemma Gemma4Sound(name: string, shape: seq<nat>, base: Quant, layer: int, numLayers: int, numExperts: int)
    requires Supported(base)
    ensures Sound(Gemma4Type(name, shape, base, layer, numLayers, numExperts), shape, base)
  {
    GenericSound(name, shape, base);
    SensitiveSound(Gemma4Promotes(name, layer, numLayers, numExperts), shape, base);
  }

  lemma GlimmerSound(name: string, shape: seq<nat>, base: Quant, layer: int, numLayers: int)
    requires Supported(base)
    ensures Sound(GlimmerType(name, shape, base, layer, numLayers), shape, base)
  {
    GenericSound(name, shape, base);
    SensitiveSound(GlimmerAttention(name) || (numLayers > 0 && layer >= 0 && UseMoreBits(layer, numLayers)), shape, base);
  }

  lemma Cohere2MoeSound(name: string, shape: seq<nat>, base: Quant, layer: int, numLayers: int)
    requires Supported(base)
    ensures Sound(Cohere2MoeType(name, shape, base, layer, numLayers), shape, base)
  {
    GenericSound(name, shape, base);
    SensitiveSound(UseMoreBits(layer, numLayers), shape, base);
  }

  lemma NemotronHSound(name: string, shape: seq<nat>, base: Quant, layer: int, numLayers: int)
    requires Supported(base)
    ensures Sound(NemotronHType(name, shape, base, layer, numLayers), shape, base)
  {
    GenericSound(name, shape, base);
    SensitiveSound(true, shape, base);
    SensitiveSound(false, shape, base);
  }

  // Undoing the promotion leaves the requested type or nothing, and it still fits.
  lemma UnpromotedSound(generic: Quant, shape: seq<nat>, base: Quant)
    requires Supported(base) && Sound(generic, shape, base)
    ensures Sound(Unpromoted(generic, base), shape, base)
    ensures Unpromoted(generic, base) == Keep || Unpromoted(generic, base) == base
    ensures Unpromoted(generic, base) == Keep <==> generic == Keep
  {
    if generic == EightBit(base) {
      AlignedIff(shape, EightBit(base));
      EightBitFitsBase(shape, base);
      AlignedIff(shape, base);
    }
  }

  lemma LagunaSound(t: LagunaTraits, generic: Quant, shape: seq<nat>, base: Quant, isDense: bool, promote: bool)
    requires Supported(base) && Sound(generic, shape, base)
    ensures Sound(LagunaPick(t, generic, shape, base, isDense, promote), shape, base)
    ensures generic == Keep && !t.head ==> LagunaPick(t, generic, shape, base, isDense, promote) == Keep
  {
    SensitiveSound(true, shape, base);
    UnpromotedSound(generic, shape, base);
  }

  lemma Qwen4ExpSound(name: string, shape: seq<nat>, base: Quant)
    requires Supported(base)
    ensures Sound(Qwen4ExpType(name, shape, base), shape, base)
  {
    GenericSound(name, shape, base);
    SensitiveSound(false, shape, base);
  }

  lemma LagunaTypeSound(name: string, shape: seq<nat>, base: Quant, layer: int, dense: set<int>, numLayers: int)
    requires Supported(base)
    ensures Sound(LagunaType(name, shape, base, layer, dense, numLayers), shape, base)
  {
    GenericSound(name, shape, base);
    LagunaSound(LagunaTraitsOf(name), Generic(name, shape, base), shape, base, layer in dense, LagunaPromotesDown(layer, numLayers));
  }

  // Policies that look at the layer index, and those that do not.
  predicate Layered(policy: Policy) {
    policy.Gemma4? || policy.Glimmer? || policy.Cohere2Moe? || policy.NemotronH?
  }

  lemma LayeredSound(policy: Policy, name: string, shape: seq<nat>, base: Quant, layer: int)
    requires Supported(base) && Layered(policy)
    ensures Sound(ModelType(policy, name, shape, base, layer), shape, base)
  {
    match policy
    case Gemma4(layers, experts) => Gemma4Sound(name, shape, base, layer, layers, experts);
    case Glimmer(layers) => GlimmerSound(name, shape, base, layer, layers);
    case Cohere2Moe(layers) => Cohere2MoeSound(name, shape, base, layer, layers);
    case NemotronH(layers) => NemotronHSound(name, shape, base, layer, layers);
  }

  lemma UnlayeredSound(policy: Policy, name: string, shape: seq<nat>, base: Quant, layer: int)
    requires Supported(base) && !policy.Draft? && !Layered(policy)
    ensures Sound(ModelType(policy, name, shape, base, layer), shape, base)
  {
    match policy
    case Default => GenericSound(name, shape, base);
    case Qwen35 => GenericSound(name, shape, base);
    case Qwen4Exp => Qwen4ExpSound(name, shape, base);
    case Laguna(dense, layers) => LagunaTypeSound(name, shape, base, layer, dense, layers);
  }

  lemma DraftPickSound(head: bool, shape: seq<nat>, base: Quant, other: Quant)
    requires Supported(base) && Sound(other, shape, base)
    ensures Sound(DraftPick(head, shape, base, other), shape, base)
  {
    SensitiveSound(false, shape, base);
  }

  lemma {:induction false} AnswerSound(policy: Policy, name: string, shape: seq<nat>, base: Quant, layerIndex: string -> int)
    requires Supported(base)
    ensures Sound(TypeOf(policy, name, shape, base, layerIndex), shape, base)
    decreases policy
  {
    if policy.Draft? {
      AnswerSound(policy.inner, name, shape, base, layerIndex);
      DraftPickSound(IsEmbedTokensWeight(name) || IsHead(name), shape, base, TypeOf(policy.inner, name, shape, base, layerIndex));
    } else if Layered(policy) {
      LayeredSound(policy, name, shape, base, layerIndex(name));
    } else {
      UnlayeredSound(policy, name, shape, base, layerIndex(name));
    }
  }

  // Bits per weight; source precision counts as 16.
  function Bits(q: Quant): nat {
    match q
    case Int8 => 8
    case Mxfp8 => 8
    case Int4 => 4
    case Nvfp4 => 4
    case Mxfp4 => 4
    case _ => 16
  }

  lemma SoundIsNotCoarser(q: Quant, shape: seq<nat>, base: Quant)
    requires Supported(base) && Sound(q, shape, base)
    ensures Bits(q) >= Bits(base)
  {
  }

  // Every policy, for every tensor: source precision, the requested type or the 8-bit type
  // of its family, never less precision than was asked for, and only where the quantizer's
  // groups tile the last dimension.
  lemma {:induction false} PolicySound(policy: Policy, name: string, shape: seq<nat>, base: Quant, layerIndex: string -> int)
    requires Supported(base)
    ensures Sound(TypeOf(policy, name, shape, base, layerIndex), shape, base)
    ensures Bits(TypeOf(policy, name, shape, base, layerIndex)) >= Bits(base)
  {
    AnswerSound(policy, name, shape, base, layerIndex);
    SoundIsNotCoarser(TypeOf(policy, name, shape, base, layerIndex), shape, base);
  }

  // ---------- layers and names ----------

  // Between the first and the last eighth exactly every third layer is promoted.
  lemma EveryThirdLayer(layer: int, numLayers: int)
    requires numLayers > 0 && numLayers / 8 <= layer && layer + 2 < 7 * numLayers / 8
    ensures var a, b, c := UseMoreBits(layer, numLayers), UseMoreBits(layer + 1, numLayers), UseMoreBits(layer + 2, numLayers);
      (a && !b && !c) || (!a && b && !c) || (!a && !b && c)
  {
    ThreeInARow(layer - numLayers / 8);
  }

  lemma ThreeInARow(n: nat)
    ensures var a, b, c := n % 3 == 2, (n + 1) % 3 == 2, (n + 2) % 3 == 2;
      (a && !b && !c) || (!a && b && !c) || (!a && !b && c)
  {
  }

  function NameOf(q: Quant): string
    requires Supported(q)
  {
    match q
    case Int4 => "int4"
    case Int8 => "int8"
    case Nvfp4 => "nvfp4"
    case Mxfp4 => "mxfp4"
    case Mxfp8 => "mxfp8"
  }

  // Normalizing a type's own name gives it back, so policies may hand on either form.
  lemma NormalizeNameOf(q: Quant)
    requires Supported(q)
    ensures Normalize(NameOf(q)) == q
  {
    match q
    case Int4 => assert Upper("int4") == "INT4";
    case Int8 => assert Upper("int8") == "INT8";
    case Nvfp4 => assert Upper("nvfp4") == "NVFP4";
    case Mxfp4 => assert Upper("mxfp4") == "MXFP4";
    case Mxfp8 => assert Upper("mxfp8") == "MXFP8";
  }

  // ---------- routing gates ----------

  lemma SuffixChar(name: string, suffix: string, k: nat)
    requires HasSuffix(name, suffix) && k < |suffix|
    ensures k < |name| && name[|name| - 1 - k] == suffix[|suffix| - 1 - k]
  {
    assert name[|name| - |suffix|..][|suffix| - 1 - k] == name[|name| - 1 - k];
  }

  lemma SuffixEnd(name: string, front: string, suffix: string)
    requires HasSuffix(name, suffix) && suffix == front + ".weight" && |front| > 4
    ensures |name| > 11 && HasSuffix(name, ".weight")
    ensures name[|name| - 8] == suffix[|suffix| - 8] && name[|name| - 12] == suffix[|suffix| - 12]
  {
    SuffixChar(name, suffix, 7);
    SuffixChar(name, suffix, 11);
    ShorterSuffix(name, front, ".weight");
  }

  // The character before ".weight", and the one four before that where it is a 'j'.
  lemma GateEnds(name: string)
    requires IsRoutingGate(name)
    ensures |name| > 11 && HasSuffix(name, ".weight")
    ensures name[|name| - 8] == 'e' || (name[|name| - 8] == 'j' && name[|name| - 12] == '.')
  {
    if HasSuffix(name, ".router.proj.weight") {
      SuffixEnd(name, ".router.proj", ".router.proj.weight");
    } else {
      GateProperEnds(name);
    }
  }

  lemma GateProperEnds(name: string)
    requires IsRoutingGate(name) && !HasSuffix(name, ".router.proj.weight")
    ensures |name| > 11 && HasSuffix(name, ".weight") && name[|name| - 8] == 'e'
  {
    if HasSuffix(name, ".mlp.gate.weight") {
      SuffixEnd(name, ".mlp.gate", ".mlp.gate.weight");
    } else if HasSuffix(name, ".mixer.gate.weight") {
      SuffixEnd(name, ".mixer.gate", ".mixer.gate.weight");
    } else {
      SharedGateEnds(name);
    }
  }

  lemma SharedGateEnds(name: string)
    requires HasSuffix(name, ".shared_expert_gate.weight")
    ensures |name| > 11 && HasSuffix(name, ".weight") && name[|name| - 8] == 'e'
  {
    SuffixEnd(name, ".shared_expert_gate", ".shared_expert_gate.weight");
  }

  lemma ShorterSuffix(name: string, a: string, b: string)
    requires HasSuffix(name, a + b)
    ensures HasSuffix(name, b)
  {
    assert name[|name| - |b|..] == name[|name| - |a + b|..][|a|..];
  }

  lemma NoSuffixAt(name: string, suffix: string, k: nat)
    requires k < |suffix| && (k < |name| ==> name[|name| - 1 - k] != suffix[|suffix| - 1 - k])
    ensures !HasSuffix(name, suffix)
  {
    if |suffix| <= |name| {
      assert name[|name| - |suffix|..][|suffix| - 1 - k] == name[|name| - 1 - k];
    }
  }

  lemma GateIsNoHead(name: string)
    requires IsRoutingGate(name)
    ensures !IsHead(name) && !IsEmbedTokensWeight(name) && !HasSuffix(name, "embeddings.weight")
  {
    GateEnds(name);
    NoSuffixAt(name, "lm_head.weight", 7);
    NoSuffixAt(name, "embed_tokens.weight", 7);
    NoSuffixAt(name, "embeddings.weight", 7);
  }

  // Where a gate's name differs from that of any projection.
  lemma GateIsNoProjection(name: string, front: string, suffix: string)
    requires IsRoutingGate(name) && suffix == front + "_proj.weight"
    ensures !HasSuffix(name, suffix)
  {
    GateEnds(name);
    NoSuffixAt(name, suffix, if name[|name| - 8] == 'e' then 7 else 11);
  }

  lemma GateIsNoMixerAttention(name: string)
    requires IsRoutingGate(name)
    ensures !NemotronHAttention(name)
  {
    GateIsNoProjection(name, ".mixer.q", ".mixer.q_proj.weight");
    GateIsNoProjection(name, ".mixer.k", ".mixer.k_proj.weight");
    GateIsNoProjection(name, ".mixer.v", ".mixer.v_proj.weight");
    GateIsNoProjection(name, ".mixer.o", ".mixer.o_proj.weight");
  }

  lemma GateIsNoMixerOutput(name: string)
    requires IsRoutingGate(name)
    ensures !HasSuffix(name, ".mixer.out_proj.weight") && !HasSuffix(name, ".mixer.down_proj.weight")
    ensures !HasSuffix(name, ".down_proj.weight") && !HasSuffix(name, ".mixer.shared_experts.down_proj.weight")
  {
    GateIsNoProjection(name, ".mixer.out", ".mixer.out_proj.weight");
    GateIsNoProjection(name, ".mixer.down", ".mixer.down_proj.weight");
    GateIsNoProjection(name, ".down", ".down_proj.weight");
    GateIsNoProjection(name, ".mixer.shared_experts.down", ".mixer.shared_experts.down_proj.weight");
  }

  lemma GateIsNoMixerProjection(name: string)
    requires IsRoutingGate(name)
    ensures !NemotronHSensitive(name)
  {
    GateIsNoMixerAttention(name);
    GateIsNoMixerOutput(name);
  }

  // A policy that looks for the names of sensitive projections before it asks the generic
  // policy, and finds one in the name of a gate.
  predicate Exposed(policy: Policy, name: string, shape: seq<nat>, base: Quant, layer: int) {
    IsAligned(shape, base)
    && match policy
       case Qwen4Exp =>
         Contains(name, ".ple.ple_embedding.ngram_embedding.shard_") && HasSuffix(name, ".weight") && |shape| == 2
       case Gemma4(_, _) => !IsVision(name) && !IsAudioTower(name) && IsValueKeyOrDown(name) && EightBit(base) != base
       case Glimmer(_) => !IsVision(name) && GlimmerSensitive(name) && EightBit(base) != base
       case Cohere2Moe(layers) =>
         !HasSuffix(name, ".mlp.gate.weight") && IsValueKeyOrDown(name) && EightBit(base) != base && layers > 0 && layer >= 0
       case Draft(inner) => Exposed(inner, name, shape, base, layer)
       case _ => false
  }

  lemma SensitiveIsKeptIff(promote: bool, shape: seq<nat>, base: Quant)
    requires Supported(base)
    ensures SensitiveType(promote, shape, base) == Keep <==> !IsAligned(shape, base)
  {
    if IsAligned(shape, EightBit(base)) {
      EightBitFitsBase(shape, base);
    }
  }

  lemma GenericKeepsGates(name: string, shape: seq<nat>, base: Quant)
    requires IsRoutingGate(name)
    ensures Generic(name, shape, base) == Keep
  {
  }

  lemma Gemma4GateIff(name: string, shape: seq<nat>, base: Quant, layer: int, numLayers: int, numExperts: int)
    requires Supported(base) && IsRoutingGate(name)
    ensures Gemma4Type(name, shape, base, layer, numLayers, numExperts) == Keep
       <==> !(IsAligned(shape, base) && !IsVision(name) && !IsAudioTower(name) && IsValueKeyOrDown(name) && EightBit(base) != base)
  {
    GateIsNoHead(name);
    GenericKeepsGates(name, shape, base);
    SensitiveIsKeptIff(Gemma4Promotes(name, layer, numLayers, numExperts), shape, base);
  }

  lemma GlimmerGateIff(name: string, shape: seq<nat>, base: Quant, layer: int, numLayers: int)
    requires Supported(base) && IsRoutingGate(name)
    ensures GlimmerType(name, shape, base, layer, numLayers) == Keep
       <==> !(IsAligned(shape, base) && !IsVision(name) && GlimmerSensitive(name) && EightBit(base) != base)
  {
    GateIsNoHead(name);
    GenericKeepsGates(name, shape, base);
    SensitiveIsKeptIff(GlimmerAttention(name) || (numLayers > 0 && layer >= 0 && UseMoreBits(layer, numLayers)), shape, base);
  }

  lemma Cohere2MoeGateIff(name: string, shape: seq<nat>, base: Quant, layer: int, numLayers: int)
    requires Supported(base) && IsRoutingGate(name)
    ensures Cohere2MoeType(name, shape, base, layer, numLayers) == Keep
       <==> !(IsAligned(shape, base) && !HasSuffix(name, ".mlp.gate.weight") && IsValueKeyOrDown(name)
              && EightBit(base) != base && numLayers > 0 && layer >= 0)
  {
    GateIsNoHead(name);
    GenericKeepsGates(name, shape, base);
    SensitiveIsKeptIff(UseMoreBits(layer, numLayers), shape, base);
  }

  lemma NemotronHKeepsGates(name: string, shape: seq<nat>, base: Quant, layer: int, numLayers: int)
    requires IsRoutingGate(name)
    ensures NemotronHType(name, shape, base, layer, numLayers) == Keep
  {
    GateIsNoHead(name);
    GenericKeepsGates(name, shape, base);
    GateIsNoMixerProjection(name);
  }

  lemma LagunaKeepsGates(name: string, shape: seq<nat>, base: Quant, layer: int, dense: set<int>, numLayers: int)
    requires Supported(base) && IsRoutingGate(name)
    ensures LagunaType(name, shape, base, layer, dense, numLayers) == Keep
  {
    GateIsNoHead(name);
    GenericKeepsGates(name, shape, base);
    LagunaSound(LagunaTraitsOf(name), Keep, shape, base, layer in dense, LagunaPromotesDown(layer, numLayers));
  }

  lemma {:induction false} LayeredGatesKeptIff(policy: Policy, name: string, shape: seq<nat>, base: Quant, layer: int)
    requires Supported(base) && IsRoutingGate(name) && Layered(policy)
    ensures ModelType(policy, name, shape, base, layer) == Keep <==> !Exposed(policy, name, shape, base, layer)
  {
    match policy
    case Gemma4(layers, experts) => Gemma4GateIff(name, shape, base, layer, layers, experts);
    case Glimmer(layers) => GlimmerGateIff(name, shape, base, layer, layers);
    case Cohere2Moe(layers) => Cohere2MoeGateIff(name, shape, base, layer, layers);
    case NemotronH(layers) => NemotronHKeepsGates(name, shape, base, layer, layers);
  }

  lemma Qwen4ExpGateIff(name: string, shape: seq<nat>, base: Quant)
    requires Supported(base) && IsRoutingGate(name)
    ensures Qwen4ExpType(name, shape, base) == Keep
       <==> !(IsAligned(shape, base) && Contains(name, ".ple.ple_embedding.ngram_embedding.shard_") && HasSuffix(name, ".weight")
              && |shape| == 2)
  {
    GenericKeepsGates(name, shape, base);
  }

  lemma {:induction false} UnlayeredGatesKeptIff(policy: Policy, name: string, shape: seq<nat>, base: Quant, layer: int)
    requires Supported(base) && IsRoutingGate(name) && !policy.Draft? && !Layered(policy)
    ensures ModelType(policy, name, shape, base, layer) == Keep <==> !Exposed(policy, name, shape, base, layer)
  {
    match policy
    case Laguna(dense, layers) => LagunaKeepsGates(name, shape, base, layer, dense, layers);
    case Qwen4Exp => Qwen4ExpGateIff(name, shape, base);
    case _ => GenericKeepsGates(name, shape, base);
  }

  lemma {:induction false} DraftExposed(inner: Policy, name: string, shape: seq<nat>, base: Quant, layer: int)
    ensures Exposed(Draft(inner), name, shape, base, layer) == Exposed(inner, name, shape, base, layer)
  {
  }

  // A routing gate stays at source precision in every architecture, except exactly where its
  // own name also contains the name of a sensitive projection and the shape fits.
  lemma {:induction false} GatesKeptIff(policy: Policy, name: string, shape: seq<nat>, base: Quant, layerIndex: string -> int)
    requires Supported(base) && IsRoutingGate(name)
    ensures TypeOf(policy, name, shape, base, layerIndex) == Keep <==> !Exposed(policy, name, shape, base, layerIndex(name))
    decreases policy
  {
    if policy.Draft? {
      GateIsNoHead(name);
      DraftExposed(policy.inner, name, shape, base, layerIndex(name));
      GatesKeptIff(policy.inner, name, shape, base, layerIndex);
    } else if Layered(policy) {
      LayeredGatesKeptIff(policy, name, shape, base, layerIndex(name));
    } else {
      UnlayeredGatesKeptIff(policy, name, shape, base, layerIndex(name));
    }
  }

  lemma LacksChar(s: string, sep: string, k: nat)
    requires k < |sep| && sep[k] !in s
    ensures !Contains(s, sep)
  {
    forall i ensures !OccursAt(s, sep, i) {
      if 0 <= i && i + |sep| <= |s| {
        assert s[i..i + |sep|][k] == s[i + k];
      }
    }
  }

  const LEAK: string := ".v_proj.router.proj.weight"

  lemma LeakIsGate()
    ensures HasSuffix(LEAK, ".router.proj.weight") && Contains(LEAK, ".v_proj")
  {
    IndexIsFirst(LEAK, ".v_proj");
    assert OccursAt(LEAK, ".v_proj", 0);
  }

  lemma LeakChars()
    ensures 's' !in LEAK && 'a' !in LEAK
  {
  }

  lemma NotVision(name: string)
    requires 's' !in name
    ensures !IsVision(name)
  {
    LacksChar(name, "vision", 2);
    LacksChar(name, "visual", 2);
  }

  lemma NotAudio(name: string)
    requires 'a' !in name
    ensures !IsAudioTower(name)
  {
    LacksChar(name, "audio_tower", 0);
    LacksChar(name, "embed_audio", 6);
  }

  lemma {:induction false} ExposedIsQuantized(policy: Policy, name: string, shape: seq<nat>, base: Quant,
                                              layerIndex: string -> int)
    requires Supported(base) && IsRoutingGate(name) && Exposed(policy, name, shape, base, layerIndex(name))
    ensures TypeOf(policy, name, shape, base, layerIndex) != Keep
  {
    GatesKeptIff(policy, name, shape, base, layerIndex);
  }

  lemma {:induction false} Gemma4Exposes(name: string, shape: seq<nat>, layer: int)
    requires Contains(name, ".v_proj") && !IsVision(name) && !IsAudioTower(name) && shape == [64, 64]
    ensures Exposed(Gemma4(8, 0), name, shape, Int4, layer)
  {
  }

  // Such names exist: this gate is quantized by Gemma 4's policy. It is a name the policy
  // accepts, not one a known checkpoint uses.
  lemma GateCanBeQuantized(layerIndex: string -> int)
    ensures IsRoutingGate(LEAK) && TypeOf(Gemma4(8, 0), LEAK, [64, 64], Int4, layerIndex) != Keep
  {
    LeakIsGate();
    LeakChars();
    NotVision(LEAK);
    NotAudio(LEAK);
    Gemma4Exposes(LEAK, [64, 64], layerIndex(LEAK));
    ExposedIsQuantized(Gemma4(8, 0), LEAK, [64, 64], Int4, layerIndex);
  }
}
