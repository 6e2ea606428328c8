// Whether a plan's names clash, told from the inventory: what every source becomes part of,
// and under which name, decides it.
module PlanNames {
  import opened Text
  import opened SortedKeys
  import opened ImportPlan
  import opened ExpertNames
  import opened ExpertGroups
  import opened ExpertSlots
  import opened ExpertPlans
  import opened Fp8ExpertPlans
  import opened SourcePlans
  import opened BlockFp8Plans
  import opened PlanPlacement

  // ---------- outputs ----------

  // A tensor or blob of a plan, by what goes into it: one source whole, the experts of one
  // projection, or all experts of a group, each also in its decoded form.
  datatype Output =
    | Whole(name: string)
    | Stack(group: string, proj: string)
    | DecodedStack(group: string, proj: string)
    | Group(group: string)
    | DecodedGroup(group: string)

  function OutName(o: Output): string {
    match o
    case Whole(x) => x
    case Stack(g, p) => StackedName(g, p)
    case DecodedStack(g, p) => StackedName(g, p)
    case Group(g) => g
    case DecodedGroup(g) => g
  }

  // What each source becomes part of; nothing of its own for the scale of a weight.
  type Outputs = string -> Option<Output>

  predicate SameName(a: Option<Output>, b: Option<Output>) {
    a.Some? && b.Some? && OutName(a.value) == OutName(b.value)
  }

  // Different outputs have different names.
  ghost predicate NamesApart(inv: Inventory, out: Outputs) {
    forall x, y :: x in inv && y in inv && SameName(out(x), out(y)) ==> out(x) == out(y)
  }

  // ---------- distinct names, item by item ----------

  // The item is one output: it carries its name, reads the source that stands for it first,
  // and reads nothing that belongs to another.
  ghost predicate Serves(ts: TensorSpec, inv: Inventory, out: Outputs, anchor: Output -> string) {
    && ts.sources != [] && out(ts.sources[0].name).Some?
    && var o := out(ts.sources[0].name).value;
    && ts.name == OutName(o) && ts.sources[0].name == anchor(o)
    && forall i :: 0 <= i < |ts.sources| ==> ts.sources[i].name in inv && PartOf(out(ts.sources[i].name), o)
  }

  predicate PartOf(part: Option<Output>, o: Output) {
    part == None || part == Some(o)
  }

  ghost predicate AllServe(ts: seq<TensorSpec>, inv: Inventory, out: Outputs, anchor: Output -> string) {
    forall k :: 0 <= k < |ts| ==> Serves(ts[k], inv, out, anchor)
  }

  lemma {:induction false} NameAt(ts: seq<TensorSpec>, k: nat)
    requires k < |ts|
    ensures |TensorNames(ts)| == |ts| && TensorNames(ts)[k] == ts[k].name
  {
    if k > 0 {
      NameAt(ts[1..], k - 1);
    } else if |ts| > 1 {
      NameAt(ts[1..], 0);
    }
  }

  lemma OneOf(ts: seq<TensorSpec>, inv: Inventory, out: Outputs, anchor: Output -> string, x: string) returns (k: nat)
    requires TensorUses(ts) == multiset(inv.Keys) && AllServe(ts, inv, out, anchor)
    requires x in inv && out(x).Some?
    ensures k < |ts| && out(ts[k].sources[0].name) == out(x) && ts[k].name == OutName(out(x).value)
  {
    var i;
    k, i := OnePlace(ts, x);
    assert Serves(ts[k], inv, out, anchor);
  }

  lemma FirstRead(ts: seq<TensorSpec>, inv: Inventory, out: Outputs, anchor: Output -> string, k: nat)
    requires AllServe(ts, inv, out, anchor) && k < |ts|
    ensures ts[k].sources != [] && ts[k].sources[0].name in inv && out(ts[k].sources[0].name).Some?
    ensures ReadAt(ts, k, 0, ts[k].sources[0].name)
    ensures ts[k].name == OutName(out(ts[k].sources[0].name).value)
    ensures ts[k].sources[0].name == anchor(out(ts[k].sources[0].name).value)
  {
    assert Serves(ts[k], inv, out, anchor);
  }

  lemma {:induction false} SameOutputSameItem(ts: seq<TensorSpec>, inv: Inventory, out: Outputs, anchor: Output -> string,
                                              k: nat, k': nat)
    requires TensorUses(ts) == multiset(inv.Keys) && AllServe(ts, inv, out, anchor)
    requires k < |ts| && k' < |ts| && out(ts[k].sources[0].name) == out(ts[k'].sources[0].name)
    ensures k == k'
  {
    FirstRead(ts, inv, out, anchor, k);
    FirstRead(ts, inv, out, anchor, k');
    var k0, i0 := OnePlace(ts, ts[k].sources[0].name);
  }

  // Items that read every source once have distinct names exactly if their outputs have.
  lemma {:induction false} ServedApart(ts: seq<TensorSpec>, inv: Inventory, out: Outputs, anchor: Output -> string)
    requires TensorUses(ts) == multiset(inv.Keys) && AllServe(ts, inv, out, anchor)
    ensures Distinct(TensorNames(ts)) <==> NamesApart(inv, out)
  {
    var names := TensorNames(ts);
    if ts != [] {
      NameAt(ts, 0);
    }
    if Distinct(names) {
      forall x, y | x in inv && y in inv && SameName(out(x), out(y)) ensures out(x) == out(y) {
        var k := OneOf(ts, inv, out, anchor, x);
        var k' := OneOf(ts, inv, out, anchor, y);
        NameAt(ts, k);
        NameAt(ts, k');
      }
    }
    if NamesApart(inv, out) {
      forall k, k' | 0 <= k < k' < |ts| ensures names[k] != names[k'] {
        NameAt(ts, k);
        NameAt(ts, k');
        FirstRead(ts, inv, out, anchor, k);
        FirstRead(ts, inv, out, anchor, k');
        if names[k] == names[k'] {
          SameOutputSameItem(ts, inv, out, anchor, k, k');
        }
      }
    }
  }

  // ---------- blobs as items ----------

  function Sources(tensors: seq<TensorSpec>): seq<SourceTensor> {
    if tensors == [] then [] else tensors[0].sources + Sources(tensors[1..])
  }

  // A blob with all that its tensors read.
  function Joint(b: BlobSpec): TensorSpec {
    TensorSpec(b.name, Sources(b.tensors), TransformNone, "", "", None)
  }

  function Joints(specs: seq<BlobSpec>): seq<TensorSpec> {
    seq(|specs|, k requires 0 <= k < |specs| => Joint(specs[k]))
  }

  lemma {:induction false} SourcesUses(tensors: seq<TensorSpec>)
    ensures SourceNames(Sources(tensors)) == TensorUses(tensors)
  {
    if tensors != [] {
      SourcesUses(tensors[1..]);
      SourceNamesJoin(tensors[0].sources, Sources(tensors[1..]));
    }
  }

  lemma {:induction false} JointsUses(specs: seq<BlobSpec>)
    ensures TensorUses(Joints(specs)) == Uses(specs) && TensorNames(Joints(specs)) == BlobNames(specs)
  {
    if specs != [] {
      assert Joints(specs)[1..] == Joints(specs[1..]);
      JointsUses(specs[1..]);
      SourcesUses(specs[0].tensors);
    }
  }

  lemma {:induction false} OutputNamesFlat(specs: seq<BlobSpec>)
    ensures OutputNames(specs) == TensorNames(AllTensors(specs))
  {
    if specs != [] {
      OutputNamesFlat(specs[1..]);
      TensorNamesJoin(specs[0].tensors, AllTensors(specs[1..]));
    }
  }

  lemma {:induction false} SourceIn(tensors: seq<TensorSpec>, i: nat) returns (k: nat, j: nat)
    requires i < |Sources(tensors)|
    ensures k < |tensors| && j < |tensors[k].sources| && Sources(tensors)[i] == tensors[k].sources[j]
  {
    var head := tensors[0].sources;
    if i < |head| {
      k, j := 0, i;
    } else {
      k, j := SourceIn(tensors[1..], i - |head|);
      k := k + 1;
    }
  }

  lemma OneTensor(b: BlobSpec, ts: TensorSpec)
    requires b.tensors == [ts]
    ensures Joint(b).sources == ts.sources
  {
    assert Sources([ts][1..]) == [];
  }

  // Both name checks of a plan at once.
  lemma {:induction false} PlanApart(specs: seq<BlobSpec>, inv: Inventory, tensorOut: Outputs, blobOut: Outputs,
                                     anchor: Output -> string)
    requires Uses(specs) == multiset(inv.Keys)
    requires AllServe(AllTensors(specs), inv, tensorOut, anchor) && AllServe(Joints(specs), inv, blobOut, anchor)
    ensures NamesDistinct(specs) <==> NamesApart(inv, tensorOut) && NamesApart(inv, blobOut)
  {
    UsesFlat(specs);
    OutputNamesFlat(specs);
    JointsUses(specs);
    ServedApart(AllTensors(specs), inv, tensorOut, anchor);
    ServedApart(Joints(specs), inv, blobOut, anchor);
  }

  // ---------- the precision of a group ----------

  type Choice = (string, seq<nat>) -> string

  function ProjOf(g: string, x: string): string {
    match ParseExpertTensor(g, x)
    case Ok(slot) => slot.proj
    case Err(_) => ""
  }

  lemma ProjOfExpert(g: string, i: nat, p: string, x: string)
    requires x == ExpertName(g, i, p) && Parses(g, x)
    ensures ProjOf(g, x) == p
  {
    NameOfSlot(g, x);
    var slot := ParseExpertTensor(g, x).value;
    NamesDecideSlots(g, i, p, slot.index, slot.proj);
  }

  // What the policy decides for the stack that expert t goes into.
  function Precision(g: string, t: SourceTensor, n: nat, choose: Choice): string {
    choose(StackedName(g, ProjOf(g, t.name)), [n] + t.shape)
  }

  predicate Expert(g: string, t: SourceTensor, members: seq<SourceTensor>) {
    t in members && Parses(g, t.name)
  }

  // One decision for all projections of the group.
  ghost predicate OnePrecision(g: string, members: seq<SourceTensor>, choose: Choice) {
    forall n: nat, a, b :: SlotsFilled(g, NamesOf(members), n) && Expert(g, a, members) && Expert(g, b, members) ==>
      Precision(g, a, n, choose) == Precision(g, b, n, choose)
  }

  // The first n sources of a stack are the experts of its projection.
  ghost predicate HoldsExperts(ts: TensorSpec, g: string, p: string, n: nat, members: seq<SourceTensor>, choose: Choice) {
    && 0 < n <= |ts.sources| && ts.name == StackedName(g, p)
    && InSlotOrder(g, p, ts.sources[..n], members) && OneLayout(ts.sources[..n])
    && ts.quantize == choose(ts.name, [n] + ts.sources[0].shape)
  }

  function FirstProjection(g: string, members: seq<SourceTensor>): string {
    var projs := Sorted(Projections(g, NamesOf(members)));
    if projs == [] then "" else projs[0]
  }

  ghost predicate AllHold(specs: seq<TensorSpec>, g: string, n: nat, members: seq<SourceTensor>, choose: Choice) {
    var projs := Sorted(Projections(g, NamesOf(members)));
    && |specs| == |projs|
    && forall k :: 0 <= k < |specs| ==> HoldsExperts(specs[k], g, projs[k], n, members, choose)
  }

  ghost predicate FromInventory(members: seq<SourceTensor>, inv: Inventory) {
    forall t :: t in members ==> t.name in inv && t == inv[t.name]
  }

  lemma OneCount(g: string, names: seq<string>, p: string, n: nat, m: nat)
    requires p in Projections(g, names) && SlotsFilled(g, names, n) && SlotsFilled(g, names, m)
    ensures n == m
  {
    var least := if n < m then n else m;
    assert ExpertName(g, least, p) in names <==> least < n;
    assert ExpertName(g, least, p) in names <==> least < m;
  }

  lemma ProjectionAt(g: string, members: seq<SourceTensor>, p: string) returns (k: nat)
    requires p in Projections(g, NamesOf(members))
    ensures k < |Sorted(Projections(g, NamesOf(members)))| && Sorted(Projections(g, NamesOf(members)))[k] == p
  {
    var projs := Sorted(Projections(g, NamesOf(members)));
    SortedLists(Projections(g, NamesOf(members)));
    k := IndexIn(projs, p);
  }

  lemma ExpertProjection(g: string, t: SourceTensor, members: seq<SourceTensor>) returns (i: nat, p: string)
    requires Expert(g, t, members)
    ensures t.name == ExpertName(g, i, p) && p == ProjOf(g, t.name) && p in Projections(g, NamesOf(members))
    ensures ExpertName(g, i, p) in NamesOf(members)
  {
    NameOfSlot(g, t.name);
    i, p := ParseExpertTensor(g, t.name).value.index, ProjOf(g, t.name);
    var k :| 0 <= k < |members| && members[k] == t;
    assert NamesOf(members)[k] == t.name;
  }

  // The stack of an expert's projection has the precision the expert calls for.
  lemma StackOfExpert(g: string, t: SourceTensor, members: seq<SourceTensor>, specs: seq<TensorSpec>,
                      n: nat, choose: Choice, inv: Inventory)
    returns (k: nat)
    requires SlotsFilled(g, NamesOf(members), n) && AllHold(specs, g, n, members, choose)
    requires FromInventory(members, inv) && Expert(g, t, members)
    ensures k < |specs| && specs[k].quantize == Precision(g, t, n, choose)
  {
    var i, p := ExpertProjection(g, t, members);
    k := ProjectionAt(g, members, p);
    assert HoldsExperts(specs[k], g, p, n, members, choose);
    var slots := specs[k].sources[..n];
    assert slots[i] in members && slots[i].name == t.name;
    assert slots[i] == t && SameLayout(slots[i], slots[0]);
  }

  lemma FirstSlot(ts: TensorSpec, g: string, p: string, n: nat, members: seq<SourceTensor>, choose: Choice)
    requires HoldsExperts(ts, g, p, n, members, choose)
    ensures ts.sources[0] in members && ts.sources[0].name == ExpertName(g, 0, p)
  {
    assert ts.sources[..n][0] == ts.sources[0];
  }

  lemma PrecisionOfStack(ts: TensorSpec, g: string, p: string, n: nat, members: seq<SourceTensor>, choose: Choice)
    requires HoldsExperts(ts, g, p, n, members, choose) && Parses(g, ExpertName(g, 0, p))
    ensures Expert(g, ts.sources[0], members) && ts.quantize == Precision(g, ts.sources[0], n, choose)
  {
    FirstSlot(ts, g, p, n, members, choose);
    ProjOfExpert(g, 0, p, ExpertName(g, 0, p));
  }

  lemma FirstParses(g: string, p: string)
    ensures Parses(g, ExpertName(g, 0, p))
  {
    ParsesIffPrinted(g, ExpertName(g, 0, p), 0, p);
  }

  // The stacks of a group share a quantization exactly if its experts call for one.
  lemma OneQuantizationIff(g: string, members: seq<SourceTensor>, specs: seq<TensorSpec>, n: nat,
                           choose: Choice, inv: Inventory)
    requires SlotsFilled(g, NamesOf(members), n) && AllHold(specs, g, n, members, choose) && FromInventory(members, inv)
    ensures OneQuantization(specs) <==> OnePrecision(g, members, choose)
  {
    if OneQuantization(specs) {
      forall m: nat, a, b | SlotsFilled(g, NamesOf(members), m) && Expert(g, a, members) && Expert(g, b, members)
        ensures Precision(g, a, m, choose) == Precision(g, b, m, choose)
      {
        var i, p := ExpertProjection(g, a, members);
        OneCount(g, NamesOf(members), p, n, m);
        var k := StackOfExpert(g, a, members, specs, n, choose, inv);
        var k' := StackOfExpert(g, b, members, specs, n, choose, inv);
      }
    }
    if OnePrecision(g, members, choose) {
      var projs := Sorted(Projections(g, NamesOf(members)));
      forall k | 0 <= k < |specs| ensures specs[k].quantize == specs[0].quantize {
        FirstParses(g, projs[k]);
        FirstParses(g, projs[0]);
        assert HoldsExperts(specs[k], g, projs[k], n, members, choose) && HoldsExperts(specs[0], g, projs[0], n, members, choose);
        PrecisionOfStack(specs[k], g, projs[k], n, members, choose);
        PrecisionOfStack(specs[0], g, projs[0], n, members, choose);
      }
    }
  }

  // ---------- what a group's blobs serve ----------

  // The outputs when a group's stacks stay apart, and when they share a blob.
  ghost predicate Merges(tensorOut: Outputs, blobOut: Outputs, tensors: seq<TensorSpec>, whole: Output) {
    forall k, i :: 0 <= k < |tensors| && 0 <= i < |tensors[k].sources| ==>
      Merged(tensorOut, blobOut, tensors[k].sources[i].name, if OneQuantization(tensors) then Some(whole) else None)
  }

  predicate Merged(tensorOut: Outputs, blobOut: Outputs, x: string, whole: Option<Output>) {
    blobOut(x) == if tensorOut(x).Some? && whole.Some? then whole else tensorOut(x)
  }

  lemma WholeServes(g: string, tensors: seq<TensorSpec>, inv: Inventory, tensorOut: Outputs,
                    blobOut: Outputs, anchor: Output -> string, whole: Output)
    requires tensors != [] && OneQuantization(tensors) && AllServe(tensors, inv, tensorOut, anchor)
    requires Merges(tensorOut, blobOut, tensors, whole) && OutName(whole) == g
    requires tensors[0].sources != [] && anchor(whole) == tensors[0].sources[0].name
    ensures Serves(Joint(BlobSpec(g, tensors, map[])), inv, blobOut, anchor)
  {
    var all := Sources(tensors);
    assert Serves(tensors[0], inv, tensorOut, anchor);
    assert all[0] == tensors[0].sources[0];
    assert Merged(tensorOut, blobOut, tensors[0].sources[0].name, Some(whole));
    forall i | 0 <= i < |all| ensures all[i].name in inv && PartOf(blobOut(all[i].name), whole) {
      var k, j := SourceIn(tensors, i);
      assert Serves(tensors[k], inv, tensorOut, anchor);
      assert Merged(tensorOut, blobOut, tensors[k].sources[j].name, Some(whole));
    }
  }

  lemma SingleServes(ts: TensorSpec, inv: Inventory, tensorOut: Outputs, blobOut: Outputs, anchor: Output -> string)
    requires Serves(ts, inv, tensorOut, anchor)
    requires forall i :: 0 <= i < |ts.sources| ==> Merged(tensorOut, blobOut, ts.sources[i].name, None)
    ensures Serves(Joint(BlobSpec(ts.name, [ts], map[])), inv, blobOut, anchor)
  {
    OneTensor(BlobSpec(ts.name, [ts], map[]), ts);
    var all := Joint(BlobSpec(ts.name, [ts], map[])).sources;
    assert Merged(tensorOut, blobOut, ts.sources[0].name, None);
    forall i | 0 <= i < |all| ensures all[i].name in inv && PartOf(blobOut(all[i].name), tensorOut(ts.sources[0].name).value) {
      assert Merged(tensorOut, blobOut, ts.sources[i].name, None);
    }
  }

  // The first source of the first stack stands for the whole group.
  predicate Anchored(tensors: seq<TensorSpec>, anchor: Output -> string, whole: Output) {
    tensors != [] ==> tensors[0].sources != [] && anchor(whole) == tensors[0].sources[0].name
  }

  ghost predicate BlobServes(b: BlobSpec, inv: Inventory, tensorOut: Outputs, blobOut: Outputs, anchor: Output -> string) {
    Serves(Joint(b), inv, blobOut, anchor) && AllServe(b.tensors, inv, tensorOut, anchor)
  }

  lemma BlobsServe(b: BlobSpec, g: string, tensors: seq<TensorSpec>, inv: Inventory, tensorOut: Outputs,
                   blobOut: Outputs, anchor: Output -> string, whole: Output)
    requires b in Blobs(g, tensors) && OutName(whole) == g
    requires AllServe(tensors, inv, tensorOut, anchor)
    requires Merges(tensorOut, blobOut, tensors, whole) && Anchored(tensors, anchor, whole)
    ensures BlobServes(b, inv, tensorOut, blobOut, anchor)
  {
    if OneQuantization(tensors) {
      WholeServes(g, tensors, inv, tensorOut, blobOut, anchor, whole);
    } else {
      var k :| 0 <= k < |tensors| && b == Singles(tensors)[k];
      assert Serves(tensors[k], inv, tensorOut, anchor);
      forall i | 0 <= i < |tensors[k].sources| ensures Merged(tensorOut, blobOut, tensors[k].sources[i].name, None) {
      }
      SingleServes(tensors[k], inv, tensorOut, blobOut, anchor);
    }
  }

  ghost predicate BlobsOfServe(g: string, tensors: seq<TensorSpec>, inv: Inventory, tensorOut: Outputs, blobOut: Outputs,
                               anchor: Output -> string)
  {
    forall b :: b in Blobs(g, tensors) ==> BlobServes(b, inv, tensorOut, blobOut, anchor)
  }

  lemma AllOfGroupServe(g: string, tensors: seq<TensorSpec>, inv: Inventory, tensorOut: Outputs,
                        blobOut: Outputs, anchor: Output -> string, whole: Output)
    requires OutName(whole) == g && AllServe(tensors, inv, tensorOut, anchor)
    requires Merges(tensorOut, blobOut, tensors, whole) && Anchored(tensors, anchor, whole)
    ensures BlobsOfServe(g, tensors, inv, tensorOut, blobOut, anchor)
  {
    forall b | b in Blobs(g, tensors) ensures BlobServes(b, inv, tensorOut, blobOut, anchor) {
      BlobsServe(b, g, tensors, inv, tensorOut, blobOut, anchor, whole);
    }
  }

  // ---------- from blobs to all tensors ----------

  lemma {:induction false} AllBlobsServe(specs: seq<BlobSpec>, inv: Inventory, tensorOut: Outputs, blobOut: Outputs,
                                         anchor: Output -> string)
    requires Uses(specs) == multiset(inv.Keys)
    requires forall j :: 0 <= j < |specs| ==> BlobServes(specs[j], inv, tensorOut, blobOut, anchor)
    ensures NamesDistinct(specs) <==> NamesApart(inv, tensorOut) && NamesApart(inv, blobOut)
  {
    var ts := AllTensors(specs);
    forall k | 0 <= k < |ts| ensures Serves(ts[k], inv, tensorOut, anchor) {
      var j := BlobOf(specs, k);
      assert BlobServes(specs[j], inv, tensorOut, blobOut, anchor);
    }
    forall j | 0 <= j < |specs| ensures Serves(Joints(specs)[j], inv, blobOut, anchor) {
      assert BlobServes(specs[j], inv, tensorOut, blobOut, anchor);
    }
    PlanApart(specs, inv, tensorOut, blobOut, anchor);
  }

  // ---------- which outputs a source becomes part of ----------

  // The source that stands for an output: itself, or expert 0 of the (first) projection.
  function Anchor(members: Groups, decoded: Groups): Output -> string {
    (o: Output) =>
      match o
      case Whole(x) => x
      case Stack(g, p) => ExpertName(g, 0, p)
      case DecodedStack(g, p) => ExpertName(g, 0, p)
      case Group(g) => if g in members then ExpertName(g, 0, FirstProjection(g, members[g])) else ""
      case DecodedGroup(g) => if g in decoded then ExpertName(g, 0, FirstProjection(g, decoded[g])) else ""
  }

  // The experts of one projection, and what else the stack reads, go into the stack.
  lemma StackServes(ts: TensorSpec, g: string, p: string, n: nat, members: seq<SourceTensor>, choose: Choice,
                    inv: Inventory, out: Outputs, anchor: Output -> string, o: Output)
    requires HoldsExperts(ts, g, p, n, members, choose) && AllParse(g, NamesOf(members)) && FromInventory(members, inv)
    requires OutName(o) == StackedName(g, p) && anchor(o) == ExpertName(g, 0, p)
    requires forall t :: t in members && ProjOf(g, t.name) == p ==> out(t.name) == Some(o)
    requires forall i :: n <= i < |ts.sources| ==> ts.sources[i].name in inv && out(ts.sources[i].name) == None
    ensures Serves(ts, inv, out, anchor)
  {
    forall i | 0 <= i < n ensures ts.sources[i].name in inv && out(ts.sources[i].name) == Some(o) {
      var t := ts.sources[..n][i];
      assert t == ts.sources[i] && t.name == ExpertName(g, i, p);
      MemberParses(g, t, members);
      ProjOfExpert(g, i, p, t.name);
    }
    FirstSlot(ts, g, p, n, members, choose);
  }

  lemma MemberParses(g: string, t: SourceTensor, members: seq<SourceTensor>)
    requires t in members && AllParse(g, NamesOf(members))
    ensures Parses(g, t.name)
  {
    var k :| 0 <= k < |members| && members[k] == t;
    assert NamesOf(members)[k] == t.name;
  }

  lemma KeyedFromInventory(inv: Inventory, key: string -> Option<string>, g: string)
    requires WellFiled(inv) && g in GroupsOf(Listing(inv), key)
    ensures FromInventory(GroupsOf(Listing(inv), key)[g], inv)
    ensures forall t :: t in GroupsOf(Listing(inv), key)[g] ==> key(t.name) == Some(g)
  {
    forall t | t in GroupsOf(Listing(inv), key)[g] ensures t.name in inv && t == inv[t.name] && key(t.name) == Some(g) {
      MemberOf(inv, key, g, t);
    }
  }

  // ---------- float sources ----------

  function FloatChoice(quantize: string, policy: Policy): Choice {
    (name: string, shape: seq<nat>) => if quantize == "" then "" else policy(name, shape, quantize)
  }

  function FloatTensorOut(isLayer: string -> bool): Outputs {
    (x: string) =>
      match PerExpertGroup(x, isLayer)
      case None => Some(Whole(x))
      case Some(g) => Some(Stack(g, ProjOf(g, x)))
  }

  ghost function FloatBlobOut(inv: Inventory, isLayer: string -> bool, quantize: string, policy: Policy): Outputs {
    (x: string) =>
      match PerExpertGroup(x, isLayer)
      case Some(g) =>
        if g in FloatGroups(inv, isLayer) && OnePrecision(g, FloatGroups(inv, isLayer)[g], FloatChoice(quantize, policy))
        then Some(Group(g)) else FloatTensorOut(isLayer)(x)
      case None => Some(Whole(x))
  }

  lemma StackedHolds(ts: TensorSpec, g: string, p: string, n: nat, members: seq<SourceTensor>,
                     quantize: string, policy: Policy)
    requires Stacked(ts, g, p, n, members, quantize, policy)
    ensures HoldsExperts(ts, g, p, n, members, FloatChoice(quantize, policy))
  {
    assert ts.sources[..n] == ts.sources;
  }

  lemma FirstOfGroup(specs: seq<TensorSpec>, g: string, n: nat, members: seq<SourceTensor>, choose: Choice,
                     anchor: Output -> string, whole: Output)
    requires AllHold(specs, g, n, members, choose) && anchor(whole) == ExpertName(g, 0, FirstProjection(g, members))
    ensures Anchored(specs, anchor, whole)
  {
    if specs == [] {
      return;
    }
    var p := FirstProjection(g, members);
    assert HoldsExperts(specs[0], g, p, n, members, choose);
    FirstSlot(specs[0], g, p, n, members, choose);
  }

  lemma FloatStackServes(ts: TensorSpec, g: string, p: string, n: nat, inv: Inventory, isLayer: string -> bool,
                         quantize: string, policy: Policy)
    requires WellFiled(inv) && g in FloatGroups(inv, isLayer) && AllParse(g, NamesOf(FloatGroups(inv, isLayer)[g]))
    requires Stacked(ts, g, p, n, FloatGroups(inv, isLayer)[g], quantize, policy)
    ensures Serves(ts, inv, FloatTensorOut(isLayer), Anchor(FloatGroups(inv, isLayer), map[]))
  {
    var members := FloatGroups(inv, isLayer)[g];
    KeyedFromInventory(inv, GroupKey(isLayer), g);
    StackedHolds(ts, g, p, n, members, quantize, policy);
    StackServes(ts, g, p, n, members, FloatChoice(quantize, policy), inv, FloatTensorOut(isLayer),
                Anchor(FloatGroups(inv, isLayer), map[]), Stack(g, p));
  }

  lemma FloatHold(specs: seq<TensorSpec>, g: string, n: nat, inv: Inventory, isLayer: string -> bool,
                  quantize: string, policy: Policy)
    requires g in FloatGroups(inv, isLayer) && GroupPlan(g, FloatGroups(inv, isLayer)[g], specs, n, quantize, policy)
    ensures AllHold(specs, g, n, FloatGroups(inv, isLayer)[g], FloatChoice(quantize, policy))
  {
    var members := FloatGroups(inv, isLayer)[g];
    var projs := Sorted(Projections(g, NamesOf(members)));
    forall k | 0 <= k < |specs| ensures HoldsExperts(specs[k], g, projs[k], n, members, FloatChoice(quantize, policy)) {
      StackedHolds(specs[k], g, projs[k], n, members, quantize, policy);
    }
  }

  lemma FloatStacksServe(specs: seq<TensorSpec>, g: string, n: nat, inv: Inventory, isLayer: string -> bool,
                         quantize: string, policy: Policy)
    requires WellFiled(inv) && g in FloatGroups(inv, isLayer) && AllParse(g, NamesOf(FloatGroups(inv, isLayer)[g]))
    requires GroupPlan(g, FloatGroups(inv, isLayer)[g], specs, n, quantize, policy)
    ensures AllServe(specs, inv, FloatTensorOut(isLayer), Anchor(FloatGroups(inv, isLayer), map[]))
  {
    var projs := Sorted(Projections(g, NamesOf(FloatGroups(inv, isLayer)[g])));
    forall k | 0 <= k < |specs| ensures Serves(specs[k], inv, FloatTensorOut(isLayer), Anchor(FloatGroups(inv, isLayer), map[])) {
      FloatStackServes(specs[k], g, projs[k], n, inv, isLayer, quantize, policy);
    }
  }

  lemma FloatMember(ts: TensorSpec, g: string, p: string, n: nat, inv: Inventory, isLayer: string -> bool,
                    quantize: string, policy: Policy, i: nat)
    requires WellFiled(inv) && g in FloatGroups(inv, isLayer) && i < |ts.sources|
    requires Stacked(ts, g, p, n, FloatGroups(inv, isLayer)[g], quantize, policy)
    ensures PerExpertGroup(ts.sources[i].name, isLayer) == Some(g)
  {
    KeyedFromInventory(inv, GroupKey(isLayer), g);
    assert ts.sources[i] in FloatGroups(inv, isLayer)[g];
    assert GroupKey(isLayer)(ts.sources[i].name) == Some(g);
  }

  lemma FloatMerges(specs: seq<TensorSpec>, g: string, n: nat, inv: Inventory, isLayer: string -> bool,
                    quantize: string, policy: Policy)
    requires WellFiled(inv) && g in FloatGroups(inv, isLayer)
    requires GroupPlan(g, FloatGroups(inv, isLayer)[g], specs, n, quantize, policy)
    ensures Merges(FloatTensorOut(isLayer), FloatBlobOut(inv, isLayer, quantize, policy), specs, Group(g))
  {
    var members := FloatGroups(inv, isLayer)[g];
    KeyedFromInventory(inv, GroupKey(isLayer), g);
    FloatHold(specs, g, n, inv, isLayer, quantize, policy);
    OneQuantizationIff(g, members, specs, n, FloatChoice(quantize, policy), inv);
    forall k, i | 0 <= k < |specs| && 0 <= i < |specs[k].sources|
      ensures Merged(FloatTensorOut(isLayer), FloatBlobOut(inv, isLayer, quantize, policy), specs[k].sources[i].name,
                     if OneQuantization(specs) then Some(Group(g)) else None)
    {
      FloatMember(specs[k], g, Sorted(Projections(g, NamesOf(members)))[k], n, inv, isLayer, quantize, policy, i);
    }
  }

  lemma FloatGroupServes(b: BlobSpec, g: string, specs: seq<TensorSpec>, n: nat, inv: Inventory,
                         isLayer: string -> bool, quantize: string, policy: Policy)
    requires WellFiled(inv) && g in FloatGroups(inv, isLayer) && AllParse(g, NamesOf(FloatGroups(inv, isLayer)[g]))
    requires GroupPlan(g, FloatGroups(inv, isLayer)[g], specs, n, quantize, policy) && b in Blobs(g, specs)
    ensures BlobServes(b, inv, FloatTensorOut(isLayer), FloatBlobOut(inv, isLayer, quantize, policy),
                       Anchor(FloatGroups(inv, isLayer), map[]))
  {
    var anchor := Anchor(FloatGroups(inv, isLayer), map[]);
    FloatHold(specs, g, n, inv, isLayer, quantize, policy);
    FirstOfGroup(specs, g, n, FloatGroups(inv, isLayer)[g], FloatChoice(quantize, policy), anchor, Group(g));
    FloatStacksServe(specs, g, n, inv, isLayer, quantize, policy);
    FloatMerges(specs, g, n, inv, isLayer, quantize, policy);
    BlobsServe(b, g, specs, inv, FloatTensorOut(isLayer), FloatBlobOut(inv, isLayer, quantize, policy), anchor, Group(g));
  }

  // The tensor has the name of its first source, and its other sources have no output.
  ghost predicate Lone(ts: TensorSpec, tensorOut: Outputs, blobOut: Outputs) {
    && tensorOut(ts.name) == blobOut(ts.name) == Some(Whole(ts.name))
    && forall i :: 0 < i < |ts.sources| ==> tensorOut(ts.sources[i].name) == blobOut(ts.sources[i].name) == None
  }

  // A blob of one tensor, whose first source gives it its name.
  lemma AloneServes(b: BlobSpec, ts: TensorSpec, inv: Inventory, tensorOut: Outputs, blobOut: Outputs,
                    anchor: Output -> string)
    requires b == BlobSpec(ts.name, [ts], map[]) && ts.sources != [] && ts.sources[0].name == ts.name
    requires anchor(Whole(ts.name)) == ts.name && Lone(ts, tensorOut, blobOut)
    requires forall i :: 0 <= i < |ts.sources| ==> ts.sources[i].name in inv
    ensures BlobServes(b, inv, tensorOut, blobOut, anchor)
  {
    forall i | 0 <= i < |ts.sources| ensures Merged(tensorOut, blobOut, ts.sources[i].name, None) {
    }
    SingleServes(ts, inv, tensorOut, blobOut, anchor);
  }

  lemma FloatBlobServes(b: BlobSpec, inv: Inventory, isLayer: string -> bool, quantize: string, policy: Policy)
    requires WellFiled(inv) && PlannedFloat(b, inv, isLayer, quantize, policy) && AllStackable(FloatGroups(inv, isLayer))
    ensures BlobServes(b, inv, FloatTensorOut(isLayer), FloatBlobOut(inv, isLayer, quantize, policy),
                       Anchor(FloatGroups(inv, isLayer), map[]))
  {
    var groups := FloatGroups(inv, isLayer);
    if Ungrouped(b, inv, isLayer, quantize, policy) {
      AloneServes(b, b.tensors[0], inv, FloatTensorOut(isLayer), FloatBlobOut(inv, isLayer, quantize, policy), Anchor(groups, map[]));
    } else {
      var g, specs, n: nat :| g in groups && GroupPlan(g, groups[g], specs, n, quantize, policy) && b in Blobs(g, specs);
      FloatGroupServes(b, g, specs, n, inv, isLayer, quantize, policy);
    }
  }

  // A float plan's names are distinct exactly if different tensors, stacks and groups of the
  // inventory have different names.
  lemma {:induction false} FloatNamesIff(specs: seq<BlobSpec>, inv: Inventory, isLayer: string -> bool, quantize: string,
                                         policy: Policy)
    requires WellFiled(inv) && AllStackable(FloatGroups(inv, isLayer))
    requires Uses(specs) == multiset(inv.Keys) && AllPlannedFloat(specs, inv, isLayer, quantize, policy)
    ensures NamesDistinct(specs)
       <==> NamesApart(inv, FloatTensorOut(isLayer)) && NamesApart(inv, FloatBlobOut(inv, isLayer, quantize, policy))
  {
    forall j | 0 <= j < |specs|
      ensures BlobServes(specs[j], inv, FloatTensorOut(isLayer), FloatBlobOut(inv, isLayer, quantize, policy),
                         Anchor(FloatGroups(inv, isLayer), map[]))
    {
      FloatBlobServes(specs[j], inv, isLayer, quantize, policy);
    }
    AllBlobsServe(specs, inv, FloatTensorOut(isLayer), FloatBlobOut(inv, isLayer, quantize, policy),
                  Anchor(FloatGroups(inv, isLayer), map[]));
  }

  // ---------- block-FP8 sources ----------

  function DecodeChoice(target: string, policy: Policy): Choice {
    (name: string, shape: seq<nat>) => policy(name, shape, target)
  }

  function FP8TensorOut(inv: Inventory, isLayer: string -> bool): Outputs {
    (x: string) =>
      match RouteOf(inv, isLayer, x)
      case Consumed => None
      case Copied => Some(Whole(x))
      case Fp8Alone => Some(Whole(x))
      case Member(g) => Some(Stack(g, ProjOf(g, x)))
      case Fp8Member(g) => Some(DecodedStack(g, ProjOf(g, x)))
  }

  // Experts that are not FP8 keep their precision, so their stacks share a blob.
  ghost function FP8BlobOut(inv: Inventory, isLayer: string -> bool, target: string, policy: Policy): Outputs {
    (x: string) =>
      match RouteOf(inv, isLayer, x)
      case Consumed => None
      case Copied => Some(Whole(x))
      case Fp8Alone => Some(Whole(x))
      case Member(g) => Some(Group(g))
      case Fp8Member(g) =>
        if g in Fp8Groups(inv, isLayer) && OnePrecision(g, Fp8Groups(inv, isLayer)[g], DecodeChoice(target, policy))
        then Some(DecodedGroup(g)) else FP8TensorOut(inv, isLayer)(x)
  }

  function FP8Anchor(inv: Inventory, isLayer: string -> bool): Output -> string {
    Anchor(MemberGroups(inv, isLayer), Fp8Groups(inv, isLayer))
  }

  lemma MemberStackServes(ts: TensorSpec, g: string, p: string, n: nat, inv: Inventory, isLayer: string -> bool,
                          policy: Policy)
    requires WellFiled(inv) && g in MemberGroups(inv, isLayer) && AllParse(g, NamesOf(MemberGroups(inv, isLayer)[g]))
    requires Stacked(ts, g, p, n, MemberGroups(inv, isLayer)[g], "", policy)
    ensures Serves(ts, inv, FP8TensorOut(inv, isLayer), FP8Anchor(inv, isLayer))
  {
    var members := MemberGroups(inv, isLayer)[g];
    KeyedFromInventory(inv, MemberKey(inv, isLayer), g);
    MembersRoute(inv, isLayer, g);
    StackedHolds(ts, g, p, n, members, "", policy);
    StackServes(ts, g, p, n, members, FloatChoice("", policy), inv, FP8TensorOut(inv, isLayer), FP8Anchor(inv, isLayer), Stack(g, p));
  }

  lemma MembersRoute(inv: Inventory, isLayer: string -> bool, g: string)
    requires WellFiled(inv) && g in MemberGroups(inv, isLayer)
    ensures forall t :: t in MemberGroups(inv, isLayer)[g] ==> RouteOf(inv, isLayer, t.name) == Member(g)
  {
    KeyedFromInventory(inv, MemberKey(inv, isLayer), g);
    forall t | t in MemberGroups(inv, isLayer)[g] ensures RouteOf(inv, isLayer, t.name) == Member(g) {
      assert MemberKey(inv, isLayer)(t.name) == Some(g);
    }
  }

  lemma Fp8MembersRoute(inv: Inventory, isLayer: string -> bool, g: string)
    requires WellFiled(inv) && g in Fp8Groups(inv, isLayer)
    ensures forall t :: t in Fp8Groups(inv, isLayer)[g] ==> RouteOf(inv, isLayer, t.name) == Fp8Member(g)
  {
    KeyedFromInventory(inv, Fp8Key(inv, isLayer), g);
    forall t | t in Fp8Groups(inv, isLayer)[g] ensures RouteOf(inv, isLayer, t.name) == Fp8Member(g) {
      assert Fp8Key(inv, isLayer)(t.name) == Some(g);
    }
  }

  lemma KeptPrecision(g: string, members: seq<SourceTensor>, policy: Policy)
    ensures OnePrecision(g, members, FloatChoice("", policy))
  {
  }

  lemma MemberHold(specs: seq<TensorSpec>, g: string, n: nat, inv: Inventory, isLayer: string -> bool,
                   policy: Policy)
    requires g in MemberGroups(inv, isLayer) && GroupPlan(g, MemberGroups(inv, isLayer)[g], specs, n, "", policy)
    ensures AllHold(specs, g, n, MemberGroups(inv, isLayer)[g], FloatChoice("", policy))
  {
    var members := MemberGroups(inv, isLayer)[g];
    var projs := Sorted(Projections(g, NamesOf(members)));
    forall k | 0 <= k < |specs| ensures HoldsExperts(specs[k], g, projs[k], n, members, FloatChoice("", policy)) {
      StackedHolds(specs[k], g, projs[k], n, members, "", policy);
    }
  }

  lemma MemberStacksServe(specs: seq<TensorSpec>, g: string, n: nat, inv: Inventory, isLayer: string -> bool,
                          policy: Policy)
    requires WellFiled(inv) && g in MemberGroups(inv, isLayer) && AllParse(g, NamesOf(MemberGroups(inv, isLayer)[g]))
    requires GroupPlan(g, MemberGroups(inv, isLayer)[g], specs, n, "", policy)
    ensures AllServe(specs, inv, FP8TensorOut(inv, isLayer), FP8Anchor(inv, isLayer))
  {
    var projs := Sorted(Projections(g, NamesOf(MemberGroups(inv, isLayer)[g])));
    forall k | 0 <= k < |specs| ensures Serves(specs[k], inv, FP8TensorOut(inv, isLayer), FP8Anchor(inv, isLayer)) {
      MemberStackServes(specs[k], g, projs[k], n, inv, isLayer, policy);
    }
  }

  lemma MemberSource(ts: TensorSpec, g: string, p: string, n: nat, inv: Inventory, isLayer: string -> bool,
                     policy: Policy, i: nat)
    requires WellFiled(inv) && g in MemberGroups(inv, isLayer) && i < |ts.sources|
    requires Stacked(ts, g, p, n, MemberGroups(inv, isLayer)[g], "", policy)
    ensures RouteOf(inv, isLayer, ts.sources[i].name) == Member(g)
  {
    MembersRoute(inv, isLayer, g);
    assert ts.sources[i] in MemberGroups(inv, isLayer)[g];
  }

  lemma MemberMerges(specs: seq<TensorSpec>, g: string, n: nat, inv: Inventory, isLayer: string -> bool,
                     target: string, policy: Policy)
    requires WellFiled(inv) && g in MemberGroups(inv, isLayer)
    requires GroupPlan(g, MemberGroups(inv, isLayer)[g], specs, n, "", policy)
    ensures Merges(FP8TensorOut(inv, isLayer), FP8BlobOut(inv, isLayer, target, policy), specs, Group(g))
  {
    var members := MemberGroups(inv, isLayer)[g];
    KeyedFromInventory(inv, MemberKey(inv, isLayer), g);
    MemberHold(specs, g, n, inv, isLayer, policy);
    OneQuantizationIff(g, members, specs, n, FloatChoice("", policy), inv);
    KeptPrecision(g, members, policy);
    forall k, i | 0 <= k < |specs| && 0 <= i < |specs[k].sources|
      ensures Merged(FP8TensorOut(inv, isLayer), FP8BlobOut(inv, isLayer, target, policy), specs[k].sources[i].name,
                     if OneQuantization(specs) then Some(Group(g)) else None)
    {
      MemberSource(specs[k], g, Sorted(Projections(g, NamesOf(members)))[k], n, inv, isLayer, policy, i);
    }
  }

  lemma MemberGroupServes(b: BlobSpec, g: string, specs: seq<TensorSpec>, n: nat, inv: Inventory,
                          isLayer: string -> bool, target: string, policy: Policy)
    requires WellFiled(inv) && g in MemberGroups(inv, isLayer) && AllParse(g, NamesOf(MemberGroups(inv, isLayer)[g]))
    requires GroupPlan(g, MemberGroups(inv, isLayer)[g], specs, n, "", policy) && b in Blobs(g, specs)
    ensures BlobServes(b, inv, FP8TensorOut(inv, isLayer), FP8BlobOut(inv, isLayer, target, policy), FP8Anchor(inv, isLayer))
  {
    var anchor := FP8Anchor(inv, isLayer);
    MemberHold(specs, g, n, inv, isLayer, policy);
    FirstOfGroup(specs, g, n, MemberGroups(inv, isLayer)[g], FloatChoice("", policy), anchor, Group(g));
    MemberStacksServe(specs, g, n, inv, isLayer, policy);
    MemberMerges(specs, g, n, inv, isLayer, target, policy);
    BlobsServe(b, g, specs, inv, FP8TensorOut(inv, isLayer), FP8BlobOut(inv, isLayer, target, policy), anchor, Group(g));
  }

  lemma DecodeStackedHolds(ts: TensorSpec, g: string, p: string, n: nat, members: seq<SourceTensor>,
                           inv: Inventory, target: string, policy: Policy)
    requires DecodeStacked(ts, g, p, n, members, inv, target, policy)
    ensures HoldsExperts(ts, g, p, n, members, DecodeChoice(target, policy)) && |ts.sources| == n + n
  {
    assert ts.sources[..n][0] == ts.sources[0];
  }

  // What a decoded stack reads behind its weights are their scales.
  lemma ScaleSource(ts: TensorSpec, g: string, p: string, n: nat, inv: Inventory, isLayer: string -> bool,
                    target: string, policy: Policy, i: nat)
    requires WellFiled(inv) && g in Fp8Groups(inv, isLayer)
    requires DecodeStacked(ts, g, p, n, Fp8Groups(inv, isLayer)[g], inv, target, policy) && i < n
    ensures ts.sources[n + i].name in inv && RouteOf(inv, isLayer, ts.sources[n + i].name) == Consumed
    ensures ts.sources[i].name in inv && RouteOf(inv, isLayer, ts.sources[i].name) == Fp8Member(g)
  {
    var weights, scales := ts.sources[..n], ts.sources[n..];
    Fp8MembersRoute(inv, isLayer, g);
    KeyedFromInventory(inv, Fp8Key(inv, isLayer), g);
    assert weights[i] == ts.sources[i] && scales[i] == ts.sources[n + i];
    assert IsFP8Weight(inv, weights[i].name);
    ScaleConsumed(inv, isLayer, weights[i].name);
  }

  lemma DecodedStackServes(ts: TensorSpec, g: string, p: string, n: nat, inv: Inventory, isLayer: string -> bool,
                           target: string, policy: Policy)
    requires WellFiled(inv) && g in Fp8Groups(inv, isLayer) && AllParse(g, NamesOf(Fp8Groups(inv, isLayer)[g]))
    requires DecodeStacked(ts, g, p, n, Fp8Groups(inv, isLayer)[g], inv, target, policy)
    ensures Serves(ts, inv, FP8TensorOut(inv, isLayer), FP8Anchor(inv, isLayer))
  {
    var members := Fp8Groups(inv, isLayer)[g];
    KeyedFromInventory(inv, Fp8Key(inv, isLayer), g);
    Fp8MembersRoute(inv, isLayer, g);
    DecodeStackedHolds(ts, g, p, n, members, inv, target, policy);
    forall i | n <= i < |ts.sources| ensures ts.sources[i].name in inv && FP8TensorOut(inv, isLayer)(ts.sources[i].name) == None {
      ScaleSource(ts, g, p, n, inv, isLayer, target, policy, i - n);
    }
    StackServes(ts, g, p, n, members, DecodeChoice(target, policy), inv, FP8TensorOut(inv, isLayer), FP8Anchor(inv, isLayer),
                DecodedStack(g, p));
  }

  lemma DecodedStacksServe(specs: seq<TensorSpec>, g: string, n: nat, inv: Inventory, isLayer: string -> bool,
                           target: string, policy: Policy)
    requires WellFiled(inv) && g in Fp8Groups(inv, isLayer) && AllParse(g, NamesOf(Fp8Groups(inv, isLayer)[g]))
    requires Fp8GroupPlan(g, Fp8Groups(inv, isLayer)[g], specs, n, inv, target, policy)
    ensures AllServe(specs, inv, FP8TensorOut(inv, isLayer), FP8Anchor(inv, isLayer))
  {
    var projs := Sorted(Projections(g, NamesOf(Fp8Groups(inv, isLayer)[g])));
    forall k | 0 <= k < |specs| ensures Serves(specs[k], inv, FP8TensorOut(inv, isLayer), FP8Anchor(inv, isLayer)) {
      DecodedStackServes(specs[k], g, projs[k], n, inv, isLayer, target, policy);
    }
  }

  lemma DecodedHold(specs: seq<TensorSpec>, g: string, n: nat, inv: Inventory, isLayer: string -> bool,
                    target: string, policy: Policy)
    requires g in Fp8Groups(inv, isLayer) && Fp8GroupPlan(g, Fp8Groups(inv, isLayer)[g], specs, n, inv, target, policy)
    ensures AllHold(specs, g, n, Fp8Groups(inv, isLayer)[g], DecodeChoice(target, policy))
  {
    var members := Fp8Groups(inv, isLayer)[g];
    var projs := Sorted(Projections(g, NamesOf(members)));
    forall k | 0 <= k < |specs| ensures HoldsExperts(specs[k], g, projs[k], n, members, DecodeChoice(target, policy)) {
      DecodeStackedHolds(specs[k], g, projs[k], n, members, inv, target, policy);
    }
  }

  lemma DecodedSource(ts: TensorSpec, g: string, p: string, n: nat, inv: Inventory, isLayer: string -> bool,
                      target: string, policy: Policy, i: nat)
    requires WellFiled(inv) && g in Fp8Groups(inv, isLayer) && i < |ts.sources|
    requires DecodeStacked(ts, g, p, n, Fp8Groups(inv, isLayer)[g], inv, target, policy)
    ensures RouteOf(inv, isLayer, ts.sources[i].name) == if i < n then Fp8Member(g) else Consumed
  {
    DecodeStackedHolds(ts, g, p, n, Fp8Groups(inv, isLayer)[g], inv, target, policy);
    ScaleSource(ts, g, p, n, inv, isLayer, target, policy, if i < n then i else i - n);
  }

  lemma DecodedMerges(specs: seq<TensorSpec>, g: string, n: nat, inv: Inventory, isLayer: string -> bool,
                      target: string, policy: Policy)
    requires WellFiled(inv) && g in Fp8Groups(inv, isLayer)
    requires Fp8GroupPlan(g, Fp8Groups(inv, isLayer)[g], specs, n, inv, target, policy)
    ensures Merges(FP8TensorOut(inv, isLayer), FP8BlobOut(inv, isLayer, target, policy), specs, DecodedGroup(g))
  {
    var members := Fp8Groups(inv, isLayer)[g];
    KeyedFromInventory(inv, Fp8Key(inv, isLayer), g);
    DecodedHold(specs, g, n, inv, isLayer, target, policy);
    OneQuantizationIff(g, members, specs, n, DecodeChoice(target, policy), inv);
    forall k, i | 0 <= k < |specs| && 0 <= i < |specs[k].sources|
      ensures Merged(FP8TensorOut(inv, isLayer), FP8BlobOut(inv, isLayer, target, policy), specs[k].sources[i].name,
                     if OneQuantization(specs) then Some(DecodedGroup(g)) else None)
    {
      DecodedSource(specs[k], g, Sorted(Projections(g, NamesOf(members)))[k], n, inv, isLayer, target, policy, i);
    }
  }

  lemma DecodedAnchored(specs: seq<TensorSpec>, g: string, n: nat, inv: Inventory, isLayer: string -> bool,
                        target: string, policy: Policy)
    requires g in Fp8Groups(inv, isLayer) && Fp8GroupPlan(g, Fp8Groups(inv, isLayer)[g], specs, n, inv, target, policy)
    ensures Anchored(specs, FP8Anchor(inv, isLayer), DecodedGroup(g))
  {
    DecodedHold(specs, g, n, inv, isLayer, target, policy);
    DecodedAnchor(g, MemberGroups(inv, isLayer), Fp8Groups(inv, isLayer));
    FirstOfGroup(specs, g, n, Fp8Groups(inv, isLayer)[g], DecodeChoice(target, policy), FP8Anchor(inv, isLayer), DecodedGroup(g));
  }

  lemma DecodedAnchor(g: string, members: Groups, decoded: Groups)
    requires g in decoded
    ensures Anchor(members, decoded)(DecodedGroup(g)) == ExpertName(g, 0, FirstProjection(g, decoded[g]))
  {
  }

  lemma DecodedReady(g: string, specs: seq<TensorSpec>, n: nat, inv: Inventory, isLayer: string -> bool,
                     target: string, policy: Policy)
    requires WellFiled(inv) && g in Fp8Groups(inv, isLayer) && AllParse(g, NamesOf(Fp8Groups(inv, isLayer)[g]))
    requires Fp8GroupPlan(g, Fp8Groups(inv, isLayer)[g], specs, n, inv, target, policy)
    ensures BlobsOfServe(g, specs, inv, FP8TensorOut(inv, isLayer), FP8BlobOut(inv, isLayer, target, policy), FP8Anchor(inv, isLayer))
  {
    DecodedAnchored(specs, g, n, inv, isLayer, target, policy);
    DecodedStacksServe(specs, g, n, inv, isLayer, target, policy);
    DecodedMerges(specs, g, n, inv, isLayer, target, policy);
    AllOfGroupServe(g, specs, inv, FP8TensorOut(inv, isLayer), FP8BlobOut(inv, isLayer, target, policy), FP8Anchor(inv, isLayer),
                    DecodedGroup(g));
  }

  lemma CopiedServes(b: BlobSpec, inv: Inventory, isLayer: string -> bool, target: string, policy: Policy)
    requires WellFiled(inv) && RouteOf(inv, isLayer, b.name) == Copied && PlainFloat(b, inv, "", policy)
    ensures BlobServes(b, inv, FP8TensorOut(inv, isLayer), FP8BlobOut(inv, isLayer, target, policy), FP8Anchor(inv, isLayer))
  {
    AloneServes(b, b.tensors[0], inv, FP8TensorOut(inv, isLayer), FP8BlobOut(inv, isLayer, target, policy), FP8Anchor(inv, isLayer));
  }

  lemma LoneSources(b: BlobSpec, inv: Inventory, isLayer: string -> bool, target: string, policy: Policy)
    requires WellFiled(inv) && DecodedAlone(b, inv, target, policy)
    ensures |b.tensors| == 1 && b == BlobSpec(b.tensors[0].name, b.tensors, map[]) && b.tensors[0].name == b.name
    ensures var sources := b.tensors[0].sources;
      && |sources| == 2 && sources[0].name == b.name && sources[0].name in inv
      && sources[1].name in inv && RouteOf(inv, isLayer, sources[1].name) == Consumed
  {
    ScaleConsumed(inv, isLayer, b.name);
  }

  lemma OutsByRoute(inv: Inventory, isLayer: string -> bool, target: string, policy: Policy, x: string)
    ensures RouteOf(inv, isLayer, x) == Fp8Alone ==>
      FP8TensorOut(inv, isLayer)(x) == FP8BlobOut(inv, isLayer, target, policy)(x) == Some(Whole(x))
    ensures RouteOf(inv, isLayer, x) == Consumed ==>
      FP8TensorOut(inv, isLayer)(x) == FP8BlobOut(inv, isLayer, target, policy)(x) == None
  {
  }

  lemma DecodedIsLone(ts: TensorSpec, inv: Inventory, isLayer: string -> bool, target: string, policy: Policy)
    requires RouteOf(inv, isLayer, ts.name) == Fp8Alone
    requires |ts.sources| == 2 && RouteOf(inv, isLayer, ts.sources[1].name) == Consumed
    ensures Lone(ts, FP8TensorOut(inv, isLayer), FP8BlobOut(inv, isLayer, target, policy))
  {
    OutsByRoute(inv, isLayer, target, policy, ts.name);
    OutsByRoute(inv, isLayer, target, policy, ts.sources[1].name);
    LoneIf(ts, FP8TensorOut(inv, isLayer), FP8BlobOut(inv, isLayer, target, policy));
  }

  lemma LoneIf(ts: TensorSpec, tensorOut: Outputs, blobOut: Outputs)
    requires tensorOut(ts.name) == blobOut(ts.name) == Some(Whole(ts.name))
    requires |ts.sources| == 2 && tensorOut(ts.sources[1].name) == blobOut(ts.sources[1].name) == None
    ensures Lone(ts, tensorOut, blobOut)
  {
  }

  lemma DecodedAloneServes(b: BlobSpec, inv: Inventory, isLayer: string -> bool, target: string, policy: Policy)
    requires WellFiled(inv) && RouteOf(inv, isLayer, b.name) == Fp8Alone && DecodedAlone(b, inv, target, policy)
    ensures BlobServes(b, inv, FP8TensorOut(inv, isLayer), FP8BlobOut(inv, isLayer, target, policy), FP8Anchor(inv, isLayer))
  {
    LoneSources(b, inv, isLayer, target, policy);
    DecodedIsLone(b.tensors[0], inv, isLayer, target, policy);
    AloneServes(b, b.tensors[0], inv, FP8TensorOut(inv, isLayer), FP8BlobOut(inv, isLayer, target, policy), FP8Anchor(inv, isLayer));
  }

  lemma DecodedBlobServes(b: BlobSpec, inv: Inventory, isLayer: string -> bool, target: string, policy: Policy)
    requires WellFiled(inv) && FromFp8Group(b, Fp8Groups(inv, isLayer), inv, target, policy)
    requires AllFp8Stackable(Fp8Groups(inv, isLayer), inv)
    ensures BlobServes(b, inv, FP8TensorOut(inv, isLayer), FP8BlobOut(inv, isLayer, target, policy), FP8Anchor(inv, isLayer))
  {
    var groups := Fp8Groups(inv, isLayer);
    var g, specs, n: nat :| g in groups && Fp8GroupPlan(g, groups[g], specs, n, inv, target, policy) && b in Blobs(g, specs);
    DecodedReady(g, specs, n, inv, isLayer, target, policy);
  }

  lemma FP8BlobServes(b: BlobSpec, inv: Inventory, isLayer: string -> bool, target: string, policy: Policy)
    requires WellFiled(inv) && PlannedBlockFP8(b, inv, isLayer, target, policy)
    requires AllStackable(MemberGroups(inv, isLayer)) && AllFp8Stackable(Fp8Groups(inv, isLayer), inv)
    ensures BlobServes(b, inv, FP8TensorOut(inv, isLayer), FP8BlobOut(inv, isLayer, target, policy), FP8Anchor(inv, isLayer))
  {
    if PlannedAlone(b, inv, isLayer, target, policy) {
      if RouteOf(inv, isLayer, b.name) == Copied {
        CopiedServes(b, inv, isLayer, target, policy);
      } else {
        DecodedAloneServes(b, inv, isLayer, target, policy);
      }
    } else if FromGroup(b, MemberGroups(inv, isLayer), "", policy) {
      var groups := MemberGroups(inv, isLayer);
      var g, specs, n: nat :| g in groups && GroupPlan(g, groups[g], specs, n, "", policy) && b in Blobs(g, specs);
      MemberGroupServes(b, g, specs, n, inv, isLayer, target, policy);
    } else {
      DecodedBlobServes(b, inv, isLayer, target, policy);
    }
  }

  // The same for a block-FP8 plan.
  lemma {:induction false} FP8NamesIff(specs: seq<BlobSpec>, inv: Inventory, isLayer: string -> bool, target: string,
                                       policy: Policy)
    requires WellFiled(inv)
    requires AllStackable(MemberGroups(inv, isLayer)) && AllFp8Stackable(Fp8Groups(inv, isLayer), inv)
    requires Uses(specs) == multiset(inv.Keys) && AllPlannedFP8(specs, inv, isLayer, target, policy)
    ensures NamesDistinct(specs)
       <==> NamesApart(inv, FP8TensorOut(inv, isLayer)) && NamesApart(inv, FP8BlobOut(inv, isLayer, target, policy))
  {
    forall j | 0 <= j < |specs|
      ensures BlobServes(specs[j], inv, FP8TensorOut(inv, isLayer), FP8BlobOut(inv, isLayer, target, policy), FP8Anchor(inv, isLayer))
    {
      FP8BlobServes(specs[j], inv, isLayer, target, policy);
    }
    AllBlobsServe(specs, inv, FP8TensorOut(inv, isLayer), FP8BlobOut(inv, isLayer, target, policy), FP8Anchor(inv, isLayer));
  }

  lemma SomeMember(inv: Inventory, key: string -> Option<string>, g: string) returns (x: string)
    requires WellFiled(inv) && g in GroupsOf(Listing(inv), key)
    ensures x in inv && key(x) == Some(g)
  {
    ListingNames(inv);
    GroupsAreRight(Listing(inv), key, g);
    x :| x in Keyed(inv.Keys, key, g);
  }

  // A group with FP8 and other experts gets two blobs of its name, and the source is refused,
  // unless the FP8 projections differ in precision.
  lemma HalfFP8GroupClashes(inv: Inventory, isLayer: string -> bool, target: string, policy: Policy, g: string)
    requires WellFiled(inv) && g in MemberGroups(inv, isLayer) && g in Fp8Groups(inv, isLayer)
    requires OnePrecision(g, Fp8Groups(inv, isLayer)[g], DecodeChoice(target, policy))
    ensures !NamesApart(inv, FP8BlobOut(inv, isLayer, target, policy))
  {
    var x := SomeMember(inv, MemberKey(inv, isLayer), g);
    var y := SomeMember(inv, Fp8Key(inv, isLayer), g);
    TwoBlobs(inv, isLayer, target, policy, g, x, y);
  }

  lemma TwoBlobs(inv: Inventory, isLayer: string -> bool, target: string, policy: Policy, g: string,
                 x: string, y: string)
    requires g in Fp8Groups(inv, isLayer) && OnePrecision(g, Fp8Groups(inv, isLayer)[g], DecodeChoice(target, policy))
    requires x in inv && y in inv && MemberKey(inv, isLayer)(x) == Some(g) && Fp8Key(inv, isLayer)(y) == Some(g)
    ensures !NamesApart(inv, FP8BlobOut(inv, isLayer, target, policy))
  {
    var out := FP8BlobOut(inv, isLayer, target, policy);
    assert RouteOf(inv, isLayer, x) == Member(g) && RouteOf(inv, isLayer, y) == Fp8Member(g);
    assert SameName(out(x), out(y));
  }
}
