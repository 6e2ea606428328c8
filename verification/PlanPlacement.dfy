// Where a plan puts each source tensor: at exactly one place, copied only if it belongs to no
// group, stacked in the slot its name spells out, and, if it is FP8, decoded with its scale.
module PlanPlacement {
  import opened Text
  import opened SortedKeys
  import opened ImportPlan
  import opened ExpertNames
  import opened ExpertGroups
  import opened ExpertSlots
  import opened ExpertPlans
  import opened Fp8ExpertPlans
  import opened SourcePlans
  import opened BlockFp8Plans

  // ---------- the one place of a source ----------

  function AllTensors(specs: seq<BlobSpec>): seq<TensorSpec> {
    if specs == [] then [] else specs[0].tensors + AllTensors(specs[1..])
  }

  lemma {:induction false} UsesFlat(specs: seq<BlobSpec>)
    ensures Uses(specs) == TensorUses(AllTensors(specs))
  {
    if specs != [] {
      UsesFlat(specs[1..]);
      TensorUsesJoin(specs[0].tensors, AllTensors(specs[1..]));
    }
  }

  // Every planned tensor belongs to some blob.
  lemma {:induction false} BlobOf(specs: seq<BlobSpec>, k: nat) returns (i: nat)
    requires k < |AllTensors(specs)|
    ensures i < |specs| && AllTensors(specs)[k] in specs[i].tensors
  {
    var head := specs[0].tensors;
    if k < |head| {
      i := 0;
    } else {
      var j := BlobOf(specs[1..], k - |head|);
      i := j + 1;
    }
  }

  // Source i of tensor k is x.
  predicate ReadAt(ts: seq<TensorSpec>, k: int, i: int, x: string) {
    0 <= k < |ts| && 0 <= i < |ts[k].sources| && ts[k].sources[i].name == x
  }

  // x is read there and nowhere else.
  ghost predicate OnlyAt(ts: seq<TensorSpec>, k: int, i: int, x: string) {
    ReadAt(ts, k, i, x) && forall k', i' :: ReadAt(ts, k', i', x) ==> k' == k && i' == i
  }

  predicate NotIn(sources: seq<SourceTensor>, x: string) {
    forall i :: 0 <= i < |sources| ==> sources[i].name != x
  }

  lemma {:induction false} NotUsed(sources: seq<SourceTensor>, x: string)
    ensures SourceNames(sources)[x] == 0 <==> NotIn(sources, x)
  {
    if sources != [] {
      NotUsed(sources[1..], x);
      if NotIn(sources[1..], x) && sources[0].name != x {
        forall i | 0 <= i < |sources| ensures sources[i].name != x {
          assert i == 0 || sources[i] == sources[1..][i - 1];
        }
      }
    }
  }

  ghost predicate OnlySource(sources: seq<SourceTensor>, i: int, x: string) {
    && 0 <= i < |sources| && sources[i].name == x
    && forall j :: 0 <= j < |sources| && j != i ==> sources[j].name != x
  }

  lemma {:induction false} OneSource(sources: seq<SourceTensor>, x: string) returns (i: nat)
    requires SourceNames(sources)[x] == 1
    ensures OnlySource(sources, i, x)
  {
    var rest := sources[1..];
    if sources[0].name == x {
      NotUsed(rest, x);
      i := 0;
      forall j | 0 < j < |sources| ensures sources[j].name != x {
        assert sources[j] == rest[j - 1];
      }
    } else {
      var j := OneSource(rest, x);
      i := j + 1;
      forall j' | 0 <= j' < |sources| && j' != i ensures sources[j'].name != x {
        assert j' == 0 || sources[j'] == rest[j' - 1];
      }
    }
  }

  ghost predicate NotRead(ts: seq<TensorSpec>, x: string) {
    forall k :: 0 <= k < |ts| ==> NotIn(ts[k].sources, x)
  }

  lemma {:induction false} NeverUsed(ts: seq<TensorSpec>, x: string)
    requires TensorUses(ts)[x] == 0
    ensures NotRead(ts, x)
  {
    if ts != [] {
      NotUsed(ts[0].sources, x);
      NeverUsed(ts[1..], x);
      forall k | 0 < k < |ts| ensures NotIn(ts[k].sources, x) {
        assert ts[k] == ts[1..][k - 1];
      }
    }
  }

  // A source that is used once has one place.
  lemma {:induction false} OnePlace(ts: seq<TensorSpec>, x: string) returns (k: nat, i: nat)
    requires TensorUses(ts)[x] == 1
    ensures OnlyAt(ts, k, i, x)
  {
    var head, rest := ts[0].sources, ts[1..];
    if SourceNames(head)[x] == 1 {
      k := 0;
      i := OneSource(head, x);
      NeverUsed(rest, x);
      forall k' | 0 < k' < |ts| ensures NotIn(ts[k'].sources, x) {
        assert ts[k'] == rest[k' - 1];
      }
    } else {
      NotUsed(head, x);
      var k0, i0 := OnePlace(rest, x);
      k, i := k0 + 1, i0;
      assert ReadAt(rest, k0, i0, x);
      forall k', i' | ReadAt(ts, k', i', x) ensures k' == k && i' == i {
        assert k' > 0 && ts[k'] == rest[k' - 1];
        assert ReadAt(rest, k' - 1, i', x);
      }
    }
  }

  lemma PlaceOf(specs: seq<BlobSpec>, inv: Inventory, x: string) returns (k: nat, i: nat)
    requires Uses(specs) == multiset(inv.Keys) && x in inv
    ensures OnlyAt(AllTensors(specs), k, i, x)
  {
    UsesFlat(specs);
    k, i := OnePlace(AllTensors(specs), x);
  }

  // ---------- members of groups ----------

  lemma {:induction false} AppendedFrom(tensors: seq<SourceTensor>, key: string -> Option<string>, g: string, t: SourceTensor)
    requires g in GroupsOf(tensors, key) && t in GroupsOf(tensors, key)[g]
    ensures t in tensors
    decreases |tensors|
  {
    var n := |tensors| - 1;
    var before := GroupsOf(tensors[..n], key);
    if g in before && t in before[g] {
      AppendedFrom(tensors[..n], key, g, t);
    } else {
      assert t == tensors[n];
    }
  }

  // A member of a group is the inventory's tensor of that name, and its name maps to the group.
  lemma MemberOf(inv: Inventory, key: string -> Option<string>, g: string, t: SourceTensor)
    requires WellFiled(inv) && g in GroupsOf(Listing(inv), key) && t in GroupsOf(Listing(inv), key)[g]
    ensures t.name in inv && t == inv[t.name] && key(t.name) == Some(g)
  {
    var groups := GroupsOf(Listing(inv), key);
    AppendedFrom(Listing(inv), key, g, t);
    ListingNames(inv);
    var i :| 0 <= i < |Listing(inv)| && Listing(inv)[i] == t;
    assert t == inv[Sorted(inv.Keys)[i]] && NamesOf(Listing(inv))[i] == t.name;
    GroupsAreRight(Listing(inv), key, g);
    var j :| 0 <= j < |groups[g]| && groups[g][j] == t;
    assert t.name in NameSet(groups[g]) by {
      assert NamesOf(groups[g])[j] == t.name;
    }
  }

  // ---------- stacks ----------

  // Source i of the tensor is expert i of a projection of group g, one of its n experts.
  ghost predicate InStack(ts: TensorSpec, i: int, x: string, g: string, members: seq<SourceTensor>, quantize: string,
                          policy: Policy)
  {
    exists p, n: nat ::
      && 0 <= i < n && x == ExpertName(g, i, p)
      && SlotsFilled(g, NamesOf(members), n) && Stacked(ts, g, p, n, members, quantize, policy)
  }

  lemma FromSpecs(group: string, specs: seq<TensorSpec>, b: BlobSpec, ts: TensorSpec) returns (j: nat)
    requires b in Blobs(group, specs) && ts in b.tensors
    ensures j < |specs| && specs[j] == ts
  {
    if OneQuantization(specs) {
      j :| 0 <= j < |specs| && specs[j] == ts;
    } else {
      var k :| 0 <= k < |specs| && b == Singles(specs)[k];
      j := k;
    }
  }

  // What a tensor of a stacked group reads at place i.
  lemma StackPlace(b: BlobSpec, ts: TensorSpec, i: nat, inv: Inventory, key: string -> Option<string>, quantize: string,
                   policy: Policy)
    returns (g: string)
    requires WellFiled(inv) && FromGroup(b, GroupsOf(Listing(inv), key), quantize, policy)
    requires ts in b.tensors && i < |ts.sources|
    ensures var x, groups := ts.sources[i].name, GroupsOf(Listing(inv), key);
      && x in inv && ts.sources[i] == inv[x] && key(x) == Some(g) && g in groups
      && InStack(ts, i, x, g, groups[g], quantize, policy)
  {
    var groups := GroupsOf(Listing(inv), key);
    var g', specs, n: nat :| g' in groups && GroupPlan(g', groups[g'], specs, n, quantize, policy) && b in Blobs(g', specs);
    g := g';
    var j := FromSpecs(g, specs, b, ts);
    var p := Sorted(Projections(g, NamesOf(groups[g])))[j];
    assert Stacked(specs[j], g, p, n, groups[g], quantize, policy);
    MemberOf(inv, key, g, ts.sources[i]);
  }

  // ---------- float sources ----------

  // A tensor of no group is copied; an expert stands in its slot of its projection's stack.
  ghost predicate PlacedFloat(ts: TensorSpec, i: int, inv: Inventory, x: string, isLayer: string -> bool, quantize: string,
                              policy: Policy)
    requires x in inv
  {
    && 0 <= i < |ts.sources| && ts.sources[i] == inv[x]
    && match PerExpertGroup(x, isLayer)
       case None => ts == CopyBlob(inv[x], FloatQuantize(inv[x], quantize, policy)).tensors[0]
       case Some(g) =>
         g in FloatGroups(inv, isLayer) && InStack(ts, i, x, g, FloatGroups(inv, isLayer)[g], quantize, policy)
  }

  lemma FloatReads(b: BlobSpec, ts: TensorSpec, i: nat, inv: Inventory, isLayer: string -> bool, quantize: string, policy: Policy)
    requires WellFiled(inv) && PlannedFloat(b, inv, isLayer, quantize, policy) && ts in b.tensors && i < |ts.sources|
    ensures ts.sources[i].name in inv && PlacedFloat(ts, i, inv, ts.sources[i].name, isLayer, quantize, policy)
  {
    if !Ungrouped(b, inv, isLayer, quantize, policy) {
      var g := StackPlace(b, ts, i, inv, GroupKey(isLayer), quantize, policy);
    }
  }

  // Every tensor of a float source has exactly one place in the plan, the right one.
  lemma FloatPlacement(specs: seq<BlobSpec>, inv: Inventory, isLayer: string -> bool, quantize: string, policy: Policy, x: string)
    returns (k: nat, i: nat)
    requires WellFiled(inv) && x in inv
    requires Uses(specs) == multiset(inv.Keys) && AllPlannedFloat(specs, inv, isLayer, quantize, policy)
    ensures OnlyAt(AllTensors(specs), k, i, x)
    ensures PlacedFloat(AllTensors(specs)[k], i, inv, x, isLayer, quantize, policy)
  {
    k, i := PlaceOf(specs, inv, x);
    var j := BlobOf(specs, k);
    assert PlannedFloat(specs[j], inv, isLayer, quantize, policy);
    FloatReads(specs[j], AllTensors(specs)[k], i, inv, isLayer, quantize, policy);
  }

  // Each projection of each group has exactly one stack; its slots are its experts.
  ghost predicate StackOf(ts: TensorSpec, g: string, p: string, members: seq<SourceTensor>, quantize: string, policy: Policy) {
    exists n: nat :: SlotsFilled(g, NamesOf(members), n) && Stacked(ts, g, p, n, members, quantize, policy)
  }

  lemma ProjectionName(group: string, names: seq<string>, p: string) returns (i: nat)
    requires p in Projections(group, names)
    ensures ExpertName(group, i, p) in names
  {
    var k :| 0 <= k < |names| && Parses(group, names[k]) && ParseExpertTensor(group, names[k]).value.proj == p;
    NameOfSlot(group, names[k]);
    i := ParseExpertTensor(group, names[k]).value.index;
  }

  lemma NamedMember(tensors: seq<SourceTensor>, x: string)
    requires x in NamesOf(tensors)
    ensures exists t :: t in tensors && t.name == x
  {
    var k :| 0 <= k < |tensors| && NamesOf(tensors)[k] == x;
    assert tensors[k] in tensors;
  }

  lemma InStackOf(ts: TensorSpec, i: nat, j: nat, g: string, p: string, members: seq<SourceTensor>, quantize: string,
                  policy: Policy)
    requires InStack(ts, i, ExpertName(g, j, p), g, members, quantize, policy)
    ensures StackOf(ts, g, p, members, quantize, policy)
  {
    var q, n: nat :|
      && 0 <= i < n && ExpertName(g, j, p) == ExpertName(g, i, q)
      && SlotsFilled(g, NamesOf(members), n) && Stacked(ts, g, q, n, members, quantize, policy);
    NamesDecideSlots(g, j, p, i, q);
  }

  ghost predicate OneStack(ts: seq<TensorSpec>, g: string, p: string, members: seq<SourceTensor>, quantize: string, policy: Policy) {
    exists k :: 0 <= k < |ts| && StackOf(ts[k], g, p, members, quantize, policy)
      && forall k' :: 0 <= k' < |ts| && StackOf(ts[k'], g, p, members, quantize, policy) ==> k' == k
  }

  // Two stacks of one projection would both read its expert 0.
  lemma {:induction false} OneStackAt(ts: seq<TensorSpec>, k: nat, specs: seq<BlobSpec>, inv: Inventory, g: string, p: string,
                                      members: seq<SourceTensor>, quantize: string, policy: Policy)
    requires ts == AllTensors(specs) && Uses(specs) == multiset(inv.Keys)
    requires k < |ts| && StackOf(ts[k], g, p, members, quantize, policy) && ExpertName(g, 0, p) in inv
    ensures OneStack(ts, g, p, members, quantize, policy)
  {
    var k0, i0 := PlaceOf(specs, inv, ExpertName(g, 0, p));
    forall k' | 0 <= k' < |ts| && StackOf(ts[k'], g, p, members, quantize, policy) ensures k' == k0 {
      var n: nat :| SlotsFilled(g, NamesOf(members), n) && Stacked(ts[k'], g, p, n, members, quantize, policy);
      assert ReadAt(ts, k', 0, ExpertName(g, 0, p));
    }
  }

  lemma ProjectionMember(inv: Inventory, key: string -> Option<string>, g: string, p: string) returns (i: nat)
    requires WellFiled(inv) && g in GroupsOf(Listing(inv), key) && p in Projections(g, NamesOf(GroupsOf(Listing(inv), key)[g]))
    ensures ExpertName(g, i, p) in inv && key(ExpertName(g, i, p)) == Some(g)
  {
    var members := GroupsOf(Listing(inv), key)[g];
    i := ProjectionName(g, NamesOf(members), p);
    NamedMember(members, ExpertName(g, i, p));
    var t :| t in members && t.name == ExpertName(g, i, p);
    MemberOf(inv, key, g, t);
  }

  lemma FirstExpert(ts: TensorSpec, inv: Inventory, key: string -> Option<string>, g: string, p: string, quantize: string,
                    policy: Policy)
    requires WellFiled(inv) && g in GroupsOf(Listing(inv), key)
    requires StackOf(ts, g, p, GroupsOf(Listing(inv), key)[g], quantize, policy)
    ensures ExpertName(g, 0, p) in inv
  {
    MemberOf(inv, key, g, ts.sources[0]);
  }

  lemma {:induction false} FloatStacks(specs: seq<BlobSpec>, inv: Inventory, isLayer: string -> bool, quantize: string,
                                       policy: Policy,
                                       g: string, p: string)
    requires WellFiled(inv)
    requires Uses(specs) == multiset(inv.Keys) && AllPlannedFloat(specs, inv, isLayer, quantize, policy)
    requires g in FloatGroups(inv, isLayer) && p in Projections(g, NamesOf(FloatGroups(inv, isLayer)[g]))
    ensures OneStack(AllTensors(specs), g, p, FloatGroups(inv, isLayer)[g], quantize, policy)
  {
    var members, ts := FloatGroups(inv, isLayer)[g], AllTensors(specs);
    var j := ProjectionMember(inv, GroupKey(isLayer), g, p);
    var k, i := FloatPlacement(specs, inv, isLayer, quantize, policy, ExpertName(g, j, p));
    InStackOf(ts[k], i, j, g, p, members, quantize, policy);
    FirstExpert(ts[k], inv, GroupKey(isLayer), g, p, quantize, policy);
    OneStackAt(ts, k, specs, inv, g, p, members, quantize, policy);
  }

  // ---------- block-FP8 sources ----------

  // The tensor decodes the n experts of projection p of group g, of which x is expert i.
  ghost predicate InDecodeSlot(ts: TensorSpec, i: int, x: string, g: string, p: string, n: nat, members: seq<SourceTensor>,
                               inv: Inventory, target: string, policy: Policy)
  {
    && 0 <= i < n && x == ExpertName(g, i, p)
    && SlotsFilled(g, NamesOf(members), n) && DecodeStacked(ts, g, p, n, members, inv, target, policy)
  }

  // Source i is expert i's weight, and its own scale stands as far behind the weights.
  ghost predicate InDecodeStack(ts: TensorSpec, i: int, x: string, g: string, members: seq<SourceTensor>, inv: Inventory,
                                target: string, policy: Policy)
  {
    exists p, n :: InDecodeSlot(ts, i, x, g, p, n, members, inv, target, policy)
  }

  // The scale of the weight at place j follows it at half the length of the sources.
  ghost predicate ScaleFollows(ts: TensorSpec, j: int, inv: Inventory, w: string) {
    var i := j + |ts.sources| / 2;
    && IsFP8Weight(inv, w) && Fp8ScaleFor(inv, w).value in inv
    && 0 <= j < i < |ts.sources| && ts.sources[j] == inv[w] && ts.sources[i] == inv[Fp8ScaleFor(inv, w).value]
  }

  ghost predicate PlacedFP8(ts: TensorSpec, i: int, inv: Inventory, x: string, isLayer: string -> bool, target: string,
                            policy: Policy)
    requires x in inv
  {
    && 0 <= i < |ts.sources| && ts.sources[i] == inv[x]
    && match RouteOf(inv, isLayer, x)
       case Copied => ts == CopyBlob(inv[x], "").tensors[0]
       case Member(g) => g in MemberGroups(inv, isLayer) && InStack(ts, i, x, g, MemberGroups(inv, isLayer)[g], "", policy)
       case Fp8Alone => ScaleFollows(ts, i, inv, x) && ts == DecodeBlob(inv, inv[x], ts.sources[1], target, policy).tensors[0]
       case Fp8Member(g) =>
         && ScaleFollows(ts, i, inv, x) && g in Fp8Groups(inv, isLayer)
         && InDecodeStack(ts, i, x, g, Fp8Groups(inv, isLayer)[g], inv, target, policy)
       case Consumed => exists w :: ScaleFollows(ts, i - |ts.sources| / 2, inv, w) && Fp8ScaleFor(inv, w) == Some(x)
  }

  lemma AloneReads(b: BlobSpec, i: nat, inv: Inventory, isLayer: string -> bool, target: string, policy: Policy)
    requires WellFiled(inv) && RouteOf(inv, isLayer, b.name) == Fp8Alone && DecodedAlone(b, inv, target, policy)
    requires i < |b.tensors[0].sources|
    ensures var ts := b.tensors[0]; var x := ts.sources[i].name;
      x in inv && PlacedFP8(ts, i, inv, x, isLayer, target, policy)
  {
    var ts := b.tensors[0];
    assert ScaleFollows(ts, 0, inv, b.name);
    if i == 1 {
      ScaleConsumed(inv, isLayer, b.name);
      assert ScaleFollows(ts, 1 - |ts.sources| / 2, inv, b.name);
    }
  }

  lemma ScaleConsumed(inv: Inventory, isLayer: string -> bool, w: string)
    requires IsFP8Weight(inv, w)
    ensures RouteOf(inv, isLayer, Fp8ScaleFor(inv, w).value) == Consumed
  {
    assert w in Fp8Weights(inv);
  }

  // What a decoded stack reads: weights of the group first, then their scales.
  lemma DecodeStackPlace(ts: TensorSpec, i: nat, g: string, p: string, n: nat, inv: Inventory, isLayer: string -> bool,
                         target: string, policy: Policy)
    requires WellFiled(inv) && g in Fp8Groups(inv, isLayer)
    requires var members := Fp8Groups(inv, isLayer)[g];
      SlotsFilled(g, NamesOf(members), n) && DecodeStacked(ts, g, p, n, members, inv, target, policy)
    requires i < n
    ensures var x := ts.sources[i].name;
      && x in inv && ts.sources[i] == inv[x] && RouteOf(inv, isLayer, x) == Fp8Member(g) && ScaleFollows(ts, i, inv, x)
      && InDecodeStack(ts, i, x, g, Fp8Groups(inv, isLayer)[g], inv, target, policy)
  {
    var weights, scales := ts.sources[..n], ts.sources[n..];
    assert weights[i] == ts.sources[i] && scales[i] == ts.sources[n + i];
    MemberOf(inv, Fp8Key(inv, isLayer), g, weights[i]);
    assert |ts.sources| / 2 == n;
    assert InDecodeSlot(ts, i, ts.sources[i].name, g, p, n, Fp8Groups(inv, isLayer)[g], inv, target, policy);
  }

  lemma DecodeStackReads(b: BlobSpec, ts: TensorSpec, i: nat, inv: Inventory, isLayer: string -> bool, target: string,
                         policy: Policy)
    requires WellFiled(inv) && FromFp8Group(b, Fp8Groups(inv, isLayer), inv, target, policy)
    requires ts in b.tensors && i < |ts.sources|
    ensures ts.sources[i].name in inv && PlacedFP8(ts, i, inv, ts.sources[i].name, isLayer, target, policy)
  {
    var groups := Fp8Groups(inv, isLayer);
    var g, specs, n: nat :| g in groups && Fp8GroupPlan(g, groups[g], specs, n, inv, target, policy) && b in Blobs(g, specs);
    var j := FromSpecs(g, specs, b, ts);
    var p := Sorted(Projections(g, NamesOf(groups[g])))[j];
    assert DecodeStacked(specs[j], g, p, n, groups[g], inv, target, policy);
    if i < n {
      DecodeStackPlace(ts, i, g, p, n, inv, isLayer, target, policy);
    } else {
      DecodeStackPlace(ts, i - n, g, p, n, inv, isLayer, target, policy);
      assert |ts.sources| / 2 == n;
      ScaleConsumed(inv, isLayer, ts.sources[i - n].name);
    }
  }

  lemma FP8Reads(b: BlobSpec, ts: TensorSpec, i: nat, inv: Inventory, isLayer: string -> bool, target: string, policy: Policy)
    requires WellFiled(inv) && PlannedBlockFP8(b, inv, isLayer, target, policy) && ts in b.tensors && i < |ts.sources|
    ensures ts.sources[i].name in inv && PlacedFP8(ts, i, inv, ts.sources[i].name, isLayer, target, policy)
  {
    if PlannedAlone(b, inv, isLayer, target, policy) {
      if RouteOf(inv, isLayer, b.name) == Fp8Alone {
        AloneReads(b, i, inv, isLayer, target, policy);
      }
    } else if FromGroup(b, MemberGroups(inv, isLayer), "", policy) {
      var g := StackPlace(b, ts, i, inv, MemberKey(inv, isLayer), "", policy);
    } else {
      DecodeStackReads(b, ts, i, inv, isLayer, target, policy);
    }
  }

  // Every tensor of a block-FP8 source has exactly one place in the plan, the right one.
  lemma FP8Placement(specs: seq<BlobSpec>, inv: Inventory, isLayer: string -> bool, target: string, policy: Policy, x: string)
    returns (k: nat, i: nat)
    requires WellFiled(inv) && x in inv
    requires Uses(specs) == multiset(inv.Keys) && AllPlannedFP8(specs, inv, isLayer, target, policy)
    ensures OnlyAt(AllTensors(specs), k, i, x)
    ensures PlacedFP8(AllTensors(specs)[k], i, inv, x, isLayer, target, policy)
  {
    k, i := PlaceOf(specs, inv, x);
    var j := BlobOf(specs, k);
    assert PlannedBlockFP8(specs[j], inv, isLayer, target, policy);
    FP8Reads(specs[j], AllTensors(specs)[k], i, inv, isLayer, target, policy);
  }

  // Tensor k alone reads the weight, at place i, and alone reads its scale.
  ghost predicate OnlyReader(ts: seq<TensorSpec>, k: int, i: nat, inv: Inventory, w: string)
    requires IsFP8Weight(inv, w)
  {
    && OnlyAt(ts, k, i, w)
    && OnlyAt(ts, k, i + |ts[k].sources| / 2, Fp8ScaleFor(inv, w).value)
  }

  ghost predicate ReadAndPlaced(ts: seq<TensorSpec>, k: int, i: nat, inv: Inventory, w: string, isLayer: string -> bool,
                                target: string, policy: Policy)
    requires IsFP8Weight(inv, w)
  {
    && OnlyReader(ts, k, i, inv, w) && PlacedFP8(ts[k], i, inv, w, isLayer, target, policy) && ScaleFollows(ts[k], i, inv, w)
  }

  // Every FP8 weight is read by one tensor, which decodes it, and which alone reads its scale.
  lemma WeightWithScale(specs: seq<BlobSpec>, inv: Inventory, isLayer: string -> bool, target: string, policy: Policy, w: string)
    returns (k: nat, i: nat)
    requires WellFiled(inv) && IsFP8Weight(inv, w)
    requires Uses(specs) == multiset(inv.Keys) && AllPlannedFP8(specs, inv, isLayer, target, policy)
    ensures ReadAndPlaced(AllTensors(specs), k, i, inv, w, isLayer, target, policy)
  {
    k, i := FP8Placement(specs, inv, isLayer, target, policy, w);
    WeightRoute(inv, isLayer, w);
    var k', i' := PlaceOf(specs, inv, Fp8ScaleFor(inv, w).value);
    assert ReadAt(AllTensors(specs), k, i + |AllTensors(specs)[k].sources| / 2, Fp8ScaleFor(inv, w).value);
  }

  lemma WeightRoute(inv: Inventory, isLayer: string -> bool, w: string)
    requires IsFP8Weight(inv, w)
    ensures RouteOf(inv, isLayer, w) == match PerExpertGroup(w, isLayer) case Some(g) => Fp8Member(g) case None => Fp8Alone
  {
    ScalesAreNoWeights(inv);
    assert w in Fp8Weights(inv);
  }

  lemma {:induction false} MemberStacks(specs: seq<BlobSpec>, inv: Inventory, isLayer: string -> bool, target: string,
                                        policy: Policy,
                                        g: string, p: string)
    requires WellFiled(inv)
    requires Uses(specs) == multiset(inv.Keys) && AllPlannedFP8(specs, inv, isLayer, target, policy)
    requires g in MemberGroups(inv, isLayer) && p in Projections(g, NamesOf(MemberGroups(inv, isLayer)[g]))
    ensures OneStack(AllTensors(specs), g, p, MemberGroups(inv, isLayer)[g], "", policy)
  {
    var members, ts := MemberGroups(inv, isLayer)[g], AllTensors(specs);
    var j := ProjectionMember(inv, MemberKey(inv, isLayer), g, p);
    var k, i := FP8Placement(specs, inv, isLayer, target, policy, ExpertName(g, j, p));
    InStackOf(ts[k], i, j, g, p, members, "", policy);
    FirstExpert(ts[k], inv, MemberKey(inv, isLayer), g, p, "", policy);
    OneStackAt(ts, k, specs, inv, g, p, members, "", policy);
  }

  ghost predicate DecodeStackOf(ts: TensorSpec, g: string, p: string, members: seq<SourceTensor>, inv: Inventory,
                                target: string, policy: Policy)
  {
    exists n: nat :: SlotsFilled(g, NamesOf(members), n) && DecodeStacked(ts, g, p, n, members, inv, target, policy)
  }

  ghost predicate OneDecodeStack(ts: seq<TensorSpec>, g: string, p: string, members: seq<SourceTensor>, inv: Inventory,
                                 target: string, policy: Policy)
  {
    exists k :: 0 <= k < |ts| && DecodeStackOf(ts[k], g, p, members, inv, target, policy)
      && forall k' :: 0 <= k' < |ts| && DecodeStackOf(ts[k'], g, p, members, inv, target, policy) ==> k' == k
  }

  lemma InDecodeStackOf(ts: TensorSpec, i: nat, j: nat, g: string, p: string, members: seq<SourceTensor>, inv: Inventory,
                        target: string, policy: Policy)
    requires InDecodeStack(ts, i, ExpertName(g, j, p), g, members, inv, target, policy)
    ensures DecodeStackOf(ts, g, p, members, inv, target, policy)
  {
    var q, n :| InDecodeSlot(ts, i, ExpertName(g, j, p), g, q, n, members, inv, target, policy);
    NamesDecideSlots(g, j, p, i, q);
  }

  lemma FirstWeight(ts: TensorSpec, inv: Inventory, isLayer: string -> bool, g: string, p: string, target: string, policy: Policy)
    requires WellFiled(inv) && g in Fp8Groups(inv, isLayer)
    requires DecodeStackOf(ts, g, p, Fp8Groups(inv, isLayer)[g], inv, target, policy)
    ensures ReadAt([ts], 0, 0, ExpertName(g, 0, p)) && ExpertName(g, 0, p) in inv
  {
    var members := Fp8Groups(inv, isLayer)[g];
    var n: nat :| SlotsFilled(g, NamesOf(members), n) && DecodeStacked(ts, g, p, n, members, inv, target, policy);
    assert ts.sources[..n][0] == ts.sources[0];
    MemberOf(inv, Fp8Key(inv, isLayer), g, ts.sources[0]);
  }

  lemma {:induction false} DecodeStacks(specs: seq<BlobSpec>, inv: Inventory, isLayer: string -> bool, target: string,
                                        policy: Policy,
                                        g: string, p: string)
    requires WellFiled(inv)
    requires Uses(specs) == multiset(inv.Keys) && AllPlannedFP8(specs, inv, isLayer, target, policy)
    requires g in Fp8Groups(inv, isLayer) && p in Projections(g, NamesOf(Fp8Groups(inv, isLayer)[g]))
    ensures OneDecodeStack(AllTensors(specs), g, p, Fp8Groups(inv, isLayer)[g], inv, target, policy)
  {
    var members, ts := Fp8Groups(inv, isLayer)[g], AllTensors(specs);
    var j := ProjectionMember(inv, Fp8Key(inv, isLayer), g, p);
    var k, i := FP8Placement(specs, inv, isLayer, target, policy, ExpertName(g, j, p));
    InDecodeStackOf(ts[k], i, j, g, p, members, inv, target, policy);
    FirstWeight(ts[k], inv, isLayer, g, p, target, policy);
    var k0, i0 := PlaceOf(specs, inv, ExpertName(g, 0, p));
    forall k' | 0 <= k' < |ts| && DecodeStackOf(ts[k'], g, p, members, inv, target, policy) ensures k' == k0 {
      FirstWeight(ts[k'], inv, isLayer, g, p, target, policy);
      assert ReadAt(ts, k', 0, ExpertName(g, 0, p));
    }
  }

  // ---------- whole plans ----------

  ghost predicate HasFloatPlace(ts: seq<TensorSpec>, inv: Inventory, isLayer: string -> bool, quantize: string, policy: Policy, x: string)
    requires x in inv
  {
    exists k, i :: OnlyAt(ts, k, i, x) && PlacedFloat(ts[k], i, inv, x, isLayer, quantize, policy)
  }

  // One place for every tensor, and one stack for every projection of every group.
  ghost predicate FloatWellPlaced(ts: seq<TensorSpec>, inv: Inventory, isLayer: string -> bool, quantize: string, policy: Policy) {
    var groups := FloatGroups(inv, isLayer);
    && (forall x :: x in inv ==> HasFloatPlace(ts, inv, isLayer, quantize, policy, x))
    && (forall g, p :: g in groups && p in Projections(g, NamesOf(groups[g])) ==> OneStack(ts, g, p, groups[g], quantize, policy))
  }

  lemma {:induction false} FloatIsWellPlaced(specs: seq<BlobSpec>, inv: Inventory, isLayer: string -> bool,
                                             quantize: string, policy: Policy)
    requires WellFiled(inv)
    requires Uses(specs) == multiset(inv.Keys) && AllPlannedFloat(specs, inv, isLayer, quantize, policy)
    ensures FloatWellPlaced(AllTensors(specs), inv, isLayer, quantize, policy)
  {
    var groups := FloatGroups(inv, isLayer);
    forall x | x in inv ensures HasFloatPlace(AllTensors(specs), inv, isLayer, quantize, policy, x) {
      var k, i := FloatPlacement(specs, inv, isLayer, quantize, policy, x);
    }
    forall g, p | g in groups && p in Projections(g, NamesOf(groups[g]))
      ensures OneStack(AllTensors(specs), g, p, groups[g], quantize, policy)
    {
      FloatStacks(specs, inv, isLayer, quantize, policy, g, p);
    }
  }

  ghost predicate HasFP8Place(ts: seq<TensorSpec>, inv: Inventory, isLayer: string -> bool, target: string, policy: Policy, x: string)
    requires x in inv
  {
    exists k, i :: OnlyAt(ts, k, i, x) && PlacedFP8(ts[k], i, inv, x, isLayer, target, policy)
  }

  // The weight and its scale are sources of the same decoding tensor and of no other tensor.
  ghost predicate DecodedOnce(ts: seq<TensorSpec>, inv: Inventory, w: string)
    requires IsFP8Weight(inv, w)
  {
    exists k: nat, i: nat :: OnlyReader(ts, k, i, inv, w) && ScaleFollows(ts[k], i, inv, w)
  }

  // One place for every tensor, with FP8 weights and their scales together, and one stack for
  // every projection of every group.
  ghost predicate FP8WellPlaced(ts: seq<TensorSpec>, inv: Inventory, isLayer: string -> bool, target: string, policy: Policy) {
    var groups, fp8Groups := MemberGroups(inv, isLayer), Fp8Groups(inv, isLayer);
    && (forall x :: x in inv ==> HasFP8Place(ts, inv, isLayer, target, policy, x))
    && (forall w :: IsFP8Weight(inv, w) ==> DecodedOnce(ts, inv, w))
    && (forall g, p :: g in groups && p in Projections(g, NamesOf(groups[g])) ==> OneStack(ts, g, p, groups[g], "", policy))
    && (forall g, p :: g in fp8Groups && p in Projections(g, NamesOf(fp8Groups[g])) ==>
          OneDecodeStack(ts, g, p, fp8Groups[g], inv, target, policy))
  }

  lemma {:induction false} FP8TensorsPlaced(specs: seq<BlobSpec>, inv: Inventory, isLayer: string -> bool, target: string,
                                            policy: Policy)
    requires WellFiled(inv)
    requires Uses(specs) == multiset(inv.Keys) && AllPlannedFP8(specs, inv, isLayer, target, policy)
    ensures forall x :: x in inv ==> HasFP8Place(AllTensors(specs), inv, isLayer, target, policy, x)
    ensures forall w :: IsFP8Weight(inv, w) ==> DecodedOnce(AllTensors(specs), inv, w)
  {
    forall x | x in inv ensures HasFP8Place(AllTensors(specs), inv, isLayer, target, policy, x) {
      var k, i := FP8Placement(specs, inv, isLayer, target, policy, x);
    }
    forall w | IsFP8Weight(inv, w) ensures DecodedOnce(AllTensors(specs), inv, w) {
      var k, i := WeightWithScale(specs, inv, isLayer, target, policy, w);
    }
  }

  lemma {:induction false} FP8IsWellPlaced(specs: seq<BlobSpec>, inv: Inventory, isLayer: string -> bool, target: string,
                                           policy: Policy)
    requires WellFiled(inv)
    requires Uses(specs) == multiset(inv.Keys) && AllPlannedFP8(specs, inv, isLayer, target, policy)
    ensures FP8WellPlaced(AllTensors(specs), inv, isLayer, target, policy)
  {
    var groups, fp8Groups := MemberGroups(inv, isLayer), Fp8Groups(inv, isLayer);
    FP8TensorsPlaced(specs, inv, isLayer, target, policy);
    forall g, p | g in groups && p in Projections(g, NamesOf(groups[g]))
      ensures OneStack(AllTensors(specs), g, p, groups[g], "", policy)
    {
      MemberStacks(specs, inv, isLayer, target, policy, g, p);
    }
    forall g, p | g in fp8Groups && p in Projections(g, NamesOf(fp8Groups[g]))
      ensures OneDecodeStack(AllTensors(specs), g, p, fp8Groups[g], inv, target, policy)
    {
      DecodeStacks(specs, inv, isLayer, target, policy, g, p);
    }
  }
}
