// The import plan as a whole: dispatch on the source kind, the collision check, and what
// every plan that passes them guarantees.
module Planner {
  import opened Text
  import opened SortedKeys
  import opened ImportPlan
  import opened ExpertGroups
  import opened SourcePlans
  import opened BlockFp8Plans
  import opened PrequantPlans
  import opened PrequantUses
  import opened PlanTyping
  import opened PlanPlacement
  import opened PlanNames
  import opened PrequantNames

  // ---------- output names ----------

  // Refuses a plan in which two blobs or two tensors have one name.
  method CheckOutputCollisions(specs: seq<BlobSpec>) returns (ok: bool)
    ensures ok <==> NamesDistinct(specs)
  {
    var blobs: set<string> := {};
    var tensors: set<string> := {};
    for i := 0 to |specs|
      invariant Distinct(BlobNames(specs[..i])) && blobs == Elements(BlobNames(specs[..i]))
      invariant Distinct(OutputNames(specs[..i])) && tensors == Elements(OutputNames(specs[..i]))
    {
      NamesSplit(specs, i);
      OutputsSplit(specs, i);
      if specs[i].name in blobs {
        NotDistinct(BlobNames(specs[..i]), specs[i].name, BlobNames(specs[i + 1..]));
        return false;
      }
      DistinctSnoc(BlobNames(specs[..i]), specs[i].name);
      ElementsSnoc(BlobNames(specs[..i]), specs[i].name);
      blobs := blobs + {specs[i].name};
      var added, all := AddTensorNames(specs[i].tensors, tensors, OutputNames(specs[..i]), OutputNames(specs[i + 1..]));
      if !added {
        return false;
      }
      tensors := all;
    }
    assert specs[..|specs|] == specs;
    return true;
  }

  method AddTensorNames(ts: seq<TensorSpec>, known: set<string>, ghost before: seq<string>, ghost after: seq<string>)
    returns (ok: bool, all: set<string>)
    requires Distinct(before) && known == Elements(before)
    ensures ok ==> Distinct(before + TensorNames(ts)) && all == Elements(before + TensorNames(ts))
    ensures !ok ==> !Distinct(before + TensorNames(ts) + after)
  {
    all := known;
    assert before + [] == before;
    for k := 0 to |ts|
      invariant Distinct(before + TensorNames(ts[..k])) && all == Elements(before + TensorNames(ts[..k]))
    {
      TensorNamesNext(ts, k, before);
      var soFar := before + TensorNames(ts[..k]);
      if ts[k].name in all {
        TensorNamesRest(ts, k, before, after);
        NotDistinct(soFar, ts[k].name, TensorNames(ts[k + 1..]) + after);
        return false, all;
      }
      DistinctSnoc(soFar, ts[k].name);
      ElementsSnoc(soFar, ts[k].name);
      all := all + {ts[k].name};
    }
    assert ts[..|ts|] == ts;
    return true, all;
  }

  lemma TensorNamesNext(ts: seq<TensorSpec>, k: nat, before: seq<string>)
    requires k < |ts|
    ensures before + TensorNames(ts[..k + 1]) == before + TensorNames(ts[..k]) + [ts[k].name]
  {
    assert ts[..k + 1] == ts[..k] + [ts[k]];
    TensorNamesJoin(ts[..k], [ts[k]]);
    assert TensorNames([ts[k]][1..]) == [];
  }

  lemma {:induction false} TensorNamesRest(ts: seq<TensorSpec>, k: nat, before: seq<string>, after: seq<string>)
    requires k < |ts|
    ensures before + TensorNames(ts) + after
         == (before + TensorNames(ts[..k])) + [ts[k].name] + (TensorNames(ts[k + 1..]) + after)
  {
    assert ts == ts[..k] + ts[k..] && ts[k..][1..] == ts[k + 1..];
    TensorNamesJoin(ts[..k], ts[k..]);
    Regroup(before, TensorNames(ts[..k]), [ts[k].name], TensorNames(ts[k + 1..]), after);
  }

  lemma Regroup<T>(a: seq<T>, b: seq<T>, c: seq<T>, d: seq<T>, e: seq<T>)
    ensures a + (b + (c + d)) + e == (a + b) + c + (d + e)
  {
  }

  lemma NotDistinct<T>(before: seq<T>, x: T, after: seq<T>)
    requires x in before
    ensures !Distinct(before + [x] + after)
  {
    var i :| 0 <= i < |before| && before[i] == x;
    var all := before + [x] + after;
    assert all[i] == all[|before|];
  }

  lemma {:induction false} NamesSplit(specs: seq<BlobSpec>, i: nat)
    requires i < |specs|
    ensures BlobNames(specs[..i + 1]) == BlobNames(specs[..i]) + [specs[i].name]
    ensures BlobNames(specs) == BlobNames(specs[..i]) + [specs[i].name] + BlobNames(specs[i + 1..])
  {
    var one := [specs[i]];
    SplitAround(specs, i);
    BlobNamesJoin(specs[..i], one);
    BlobNamesJoin(specs[..i] + one, specs[i + 1..]);
    assert BlobNames(one[1..]) == [];
  }

  lemma {:induction false} OutputsSplit(specs: seq<BlobSpec>, i: nat)
    requires i < |specs|
    ensures OutputNames(specs[..i + 1]) == OutputNames(specs[..i]) + TensorNames(specs[i].tensors)
    ensures OutputNames(specs) == OutputNames(specs[..i]) + TensorNames(specs[i].tensors) + OutputNames(specs[i + 1..])
  {
    var one := [specs[i]];
    SplitAround(specs, i);
    OutputNamesJoin(specs[..i], one);
    OutputNamesJoin(specs[..i] + one, specs[i + 1..]);
    assert OutputNames(one[1..]) == [];
  }

  lemma SplitAround<T>(s: seq<T>, i: nat)
    requires i < |s|
    ensures s[..i + 1] == s[..i] + [s[i]] && s == s[..i] + [s[i]] + s[i + 1..]
  {
  }

  // ---------- plans ----------

  datatype SourceKind = SourceFloat | SourceBlockFP8 | SourcePrequantized | SourceUnknown

  datatype Classification = Classification(kind: SourceKind, quantize: string)

  // Source tensors a plan does not read: the activation scales of prequantized weights.
  function Unread(inv: Inventory, kind: SourceKind): set<string> {
    if kind == SourcePrequantized then Ignored(inv, PATTERNS) else {}
  }

  // The whole plan of a source: every tensor read once by blobs of the kinds its planner
  // emits, or exactly the fused and copied blobs in name order.
  ghost predicate Complete(specs: seq<BlobSpec>, inv: Inventory, cls: Classification, policy: Policy,
                           isLayer: string -> bool, config: map<string, string>)
  {
    match cls.kind
    case SourceFloat =>
      Uses(specs) == multiset(inv.Keys) && AllPlannedFloat(specs, inv, isLayer, cls.quantize, policy)
    case SourceBlockFP8 =>
      Uses(specs) == multiset(inv.Keys) && AllPlannedFP8(specs, inv, isLayer, cls.quantize, policy)
    case SourcePrequantized =>
      Listed(inv, Sorted(inv.Keys)) && specs == EmitAll(inv, PATTERNS, config, Sorted(inv.Keys))
    case SourceUnknown => false
  }

  ghost predicate AllWellTyped(specs: seq<BlobSpec>) {
    forall i :: 0 <= i < |specs| ==> WellTyped(specs[i])
  }

  ghost predicate GroupsOk(inv: Inventory, kind: SourceKind, isLayer: string -> bool) {
    match kind
    case SourceFloat => AllStackable(FloatGroups(inv, isLayer))
    case SourceBlockFP8 => AllStackable(MemberGroups(inv, isLayer)) && AllFp8Stackable(Fp8Groups(inv, isLayer), inv)
    case SourcePrequantized => true
    case SourceUnknown => false
  }

  lemma CompleteTyped(specs: seq<BlobSpec>, inv: Inventory, cls: Classification, policy: Policy,
                      isLayer: string -> bool, config: map<string, string>)
    requires Complete(specs, inv, cls, policy, isLayer, config)
    ensures AllWellTyped(specs)
  {
    forall i | 0 <= i < |specs| ensures WellTyped(specs[i]) {
      match cls.kind
      case SourceFloat => FloatTyped(specs[i], inv, isLayer, cls.quantize, policy);
      case SourceBlockFP8 => BlockFP8Typed(specs[i], inv, isLayer, cls.quantize, policy);
      case SourcePrequantized => PrequantTyped(inv, PATTERNS, config, Sorted(inv.Keys), i);
    }
  }

  // Where the plan puts the tensors of a float or block-FP8 source; a prequantized one's plan
  // is the fused and copied blobs themselves.
  ghost predicate WellPlaced(specs: seq<BlobSpec>, inv: Inventory, cls: Classification, policy: Policy, isLayer: string -> bool) {
    match cls.kind
    case SourceFloat => FloatWellPlaced(AllTensors(specs), inv, isLayer, cls.quantize, policy)
    case SourceBlockFP8 => FP8WellPlaced(AllTensors(specs), inv, isLayer, cls.quantize, policy)
    case SourcePrequantized => true
    case SourceUnknown => false
  }

  lemma CompleteIsWellPlaced(specs: seq<BlobSpec>, inv: Inventory, cls: Classification, policy: Policy,
                             isLayer: string -> bool, config: map<string, string>)
    requires WellFiled(inv) && Complete(specs, inv, cls, policy, isLayer, config)
    ensures WellPlaced(specs, inv, cls, policy, isLayer)
  {
    if cls.kind == SourceFloat {
      FloatIsWellPlaced(specs, inv, isLayer, cls.quantize, policy);
    } else if cls.kind == SourceBlockFP8 {
      FP8IsWellPlaced(specs, inv, isLayer, cls.quantize, policy);
    }
  }

  // When no output names clash, in terms of the inventory: see what each source becomes part of.
  ghost predicate NamesOk(inv: Inventory, cls: Classification, policy: Policy, isLayer: string -> bool) {
    match cls.kind
    case SourceFloat =>
      NamesApart(inv, FloatTensorOut(isLayer)) && NamesApart(inv, FloatBlobOut(inv, isLayer, cls.quantize, policy))
    case SourceBlockFP8 =>
      NamesApart(inv, FP8TensorOut(inv, isLayer)) && NamesApart(inv, FP8BlobOut(inv, isLayer, cls.quantize, policy))
    case SourcePrequantized => PrequantApart(inv, PATTERNS)
    case SourceUnknown => true
  }

  lemma CompleteNames(specs: seq<BlobSpec>, inv: Inventory, cls: Classification, policy: Policy,
                      isLayer: string -> bool, config: map<string, string>)
    requires WellFiled(inv) && Complete(specs, inv, cls, policy, isLayer, config) && GroupsOk(inv, cls.kind, isLayer)
    ensures NamesDistinct(specs) <==> NamesOk(inv, cls, policy, isLayer)
  {
    match cls.kind
    case SourceFloat => FloatNamesIff(specs, inv, isLayer, cls.quantize, policy);
    case SourceBlockFP8 => FP8NamesIff(specs, inv, isLayer, cls.quantize, policy);
    case SourcePrequantized => PrequantNamesIff(inv, PATTERNS, config);
  }

  // A complete plan without clashing names reads every tensor once, but for ignored scales.
  lemma {:induction false} CompleteUses(specs: seq<BlobSpec>, inv: Inventory, cls: Classification, policy: Policy,
                                        isLayer: string -> bool, config: map<string, string>)
    requires WellFiled(inv) && Complete(specs, inv, cls, policy, isLayer, config)
    requires NamesOk(inv, cls, policy, isLayer)
    ensures Uses(specs) == multiset(inv.Keys - Unread(inv, cls.kind))
  {
    if cls.kind == SourcePrequantized {
      PatternsOk();
      PrequantLinear(inv, PATTERNS, config);
    } else {
      assert inv.Keys - {} == inv.Keys;
    }
  }

  // Before the collision check.
  method PlanByKind(inv: Inventory, cls: Classification, policy: Policy, isLayer: string -> bool,
                    config: map<string, string>)
    returns (r: Result<seq<BlobSpec>, string>)
    requires WellFiled(inv)
    ensures r.Ok? <==> GroupsOk(inv, cls.kind, isLayer)
    ensures r.Ok? ==> Complete(r.value, inv, cls, policy, isLayer, config)
  {
    match cls.kind
    case SourceFloat =>
      r := PlanFloat(inv, cls.quantize, policy, isLayer);
    case SourceBlockFP8 =>
      r := PlanBlockFP8(inv, cls.quantize, policy, isLayer);
    case SourcePrequantized =>
      PatternsOk();
      var specs := PlanPrequantized(inv, PATTERNS, config);
      r := Ok(specs);
    case SourceUnknown =>
      r := Err("plan: source kind is not yet supported");
  }

  // A source is refused exactly if some group cannot be stacked or two outputs would have one
  // name. Otherwise its plan reads every source tensor exactly once (activation scales not at
  // all), gives every output its own name, consists of well-typed blobs, and puts every tensor
  // of a float or block-FP8 source where it belongs.
  method Plan(inv: Inventory, cls: Classification, policy: Policy, isLayer: string -> bool, config: map<string, string>)
    returns (r: Result<seq<BlobSpec>, string>)
    requires WellFiled(inv)
    ensures r.Ok? <==> GroupsOk(inv, cls.kind, isLayer) && NamesOk(inv, cls, policy, isLayer)
    ensures r.Ok? ==> Complete(r.value, inv, cls, policy, isLayer, config)
    ensures r.Ok? ==> NamesDistinct(r.value) && AllWellTyped(r.value)
    ensures r.Ok? ==> Uses(r.value) == multiset(inv.Keys - Unread(inv, cls.kind))
    ensures r.Ok? ==> WellPlaced(r.value, inv, cls, policy, isLayer)
  {
    r := PlanByKind(inv, cls, policy, isLayer, config);
    if r.Ok? {
      CompleteNames(r.value, inv, cls, policy, isLayer, config);
      var distinct := CheckOutputCollisions(r.value);
      if !distinct {
        return Err("plan: source tensors normalize to a clashing name");
      }
      CompleteTyped(r.value, inv, cls, policy, isLayer, config);
      CompleteUses(r.value, inv, cls, policy, isLayer, config);
      CompleteIsWellPlaced(r.value, inv, cls, policy, isLayer, config);
    }
  }
}
