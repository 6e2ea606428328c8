// Counting what a group's plan reads: every member once, and nothing else.
module PlanUses {
  import opened Text
  import opened SortedKeys
  import opened ImportPlan
  import opened ExpertNames
  import opened ExpertGroups
  import opened ExpertSlots
  import opened ExpertPlans
  import opened Fp8ExpertPlans

  function Union(sets: seq<set<string>>): set<string> {
    if sets == [] then {} else sets[0] + Union(sets[1..])
  }

  lemma {:induction false} InUnion(sets: seq<set<string>>, x: string)
    ensures x in Union(sets) <==> exists k :: 0 <= k < |sets| && x in sets[k]
  {
    if sets != [] {
      InUnion(sets[1..], x);
      if x in Union(sets[1..]) {
        var k :| 0 <= k < |sets| - 1 && x in sets[1..][k];
        assert x in sets[k + 1];
      }
    }
  }

  predicate PairwiseDisjoint(sets: seq<set<string>>) {
    forall j, k :: 0 <= j < k < |sets| ==> sets[j] !! sets[k]
  }

  // Tensors that read disjoint sets of sources, each source once, read the union once.
  lemma {:induction false} DisjointUses(tensors: seq<TensorSpec>, sets: seq<set<string>>)
    requires |tensors| == |sets| && PairwiseDisjoint(sets)
    requires forall k :: 0 <= k < |tensors| ==> SourceNames(tensors[k].sources) == multiset(sets[k])
    ensures TensorUses(tensors) == multiset(Union(sets))
  {
    if tensors != [] {
      DisjointUses(tensors[1..], sets[1..]);
      forall x | x in sets[0] ensures x !in Union(sets[1..]) {
        InUnion(sets[1..], x);
      }
      OnceEach(sets[0], Union(sets[1..]));
    }
  }

  // ---------- slots ----------

  function SlotNames(group: string, proj: string, n: nat): set<string> {
    if n == 0 then {} else SlotNames(group, proj, n - 1) + {ExpertName(group, n - 1, proj)}
  }

  lemma {:induction false} InSlotNames(group: string, proj: string, n: nat, x: string)
    ensures x in SlotNames(group, proj, n) <==> exists i: nat :: i < n && x == ExpertName(group, i, proj)
  {
    if n > 0 {
      InSlotNames(group, proj, n - 1, x);
    }
  }

  predicate Named(sources: seq<SourceTensor>, group: string, proj: string) {
    forall i :: 0 <= i < |sources| ==> sources[i].name == ExpertName(group, i, proj)
  }

  lemma {:induction false} SlotUses(sources: seq<SourceTensor>, group: string, proj: string)
    requires Named(sources, group, proj)
    ensures SourceNames(sources) == multiset(SlotNames(group, proj, |sources|))
    decreases |sources|
  {
    if sources != [] {
      var n := |sources| - 1;
      var last := ExpertName(group, n, proj);
      SlotUses(sources[..n], group, proj);
      assert sources == sources[..n] + [sources[n]];
      SourceNamesJoin(sources[..n], [sources[n]]);
      SourceNamesOne(sources[n]);
      LaterSlotIsNew(group, proj, n, n);
      OnceEach(SlotNames(group, proj, n), {last});
    }
  }

  lemma {:induction false} LaterSlotIsNew(group: string, proj: string, m: nat, n: nat)
    requires m <= n
    ensures ExpertName(group, n, proj) !in SlotNames(group, proj, m)
  {
    var last := ExpertName(group, n, proj);
    InSlotNames(group, proj, m, last);
    forall i: nat | i < m ensures last != ExpertName(group, i, proj) {
      if last == ExpertName(group, i, proj) {
        NamesDecideSlots(group, n, proj, i, proj);
      }
    }
  }

  function GroupSlots(group: string, projs: seq<string>, n: nat): (sets: seq<set<string>>)
    ensures |sets| == |projs|
  {
    seq(|projs|, k requires 0 <= k < |projs| => SlotNames(group, projs[k], n))
  }

  lemma SlotsDisjoint(group: string, projs: seq<string>, n: nat)
    requires Distinct(projs)
    ensures PairwiseDisjoint(GroupSlots(group, projs, n))
  {
    var sets := GroupSlots(group, projs, n);
    forall j, k, x | 0 <= j < k < |sets| && x in sets[j] ensures x !in sets[k] {
      InSlotNames(group, projs[j], n, x);
      InSlotNames(group, projs[k], n, x);
      if x in sets[k] {
        var i: nat :| i < n && x == ExpertName(group, i, projs[j]);
        var i': nat :| i' < n && x == ExpertName(group, i', projs[k]);
        NamesDecideSlots(group, i, projs[j], i', projs[k]);
      }
    }
  }

  // A group whose slots are filled holds exactly the names of its slots.
  lemma SlotsAreMembers(group: string, names: seq<string>, n: nat)
    requires AllParse(group, names) && SlotsFilled(group, names, n)
    ensures Union(GroupSlots(group, Sorted(Projections(group, names)), n)) == Elements(names)
  {
    var projs := Sorted(Projections(group, names));
    var sets := GroupSlots(group, projs, n);
    SortedLists(Projections(group, names));
    forall x ensures x in Union(sets) <==> x in names {
      InUnion(sets, x);
      if x in Union(sets) {
        var k :| 0 <= k < |sets| && x in sets[k];
        InSlotNames(group, projs[k], n, x);
        assert projs[k] in Elements(projs);
      }
      if x in names {
        MemberHasSlot(group, names, n, x);
      }
    }
  }

  lemma MemberHasSlot(group: string, names: seq<string>, n: nat, x: string)
    requires AllParse(group, names) && SlotsFilled(group, names, n) && x in names
    ensures var projs := Sorted(Projections(group, names));
      exists k :: 0 <= k < |projs| && x in GroupSlots(group, projs, n)[k]
  {
    var projs := Sorted(Projections(group, names));
    SortedLists(Projections(group, names));
    var j :| 0 <= j < |names| && names[j] == x;
    assert Parses(group, names[j]);
    NameOfSlot(group, x);
    var slot := ParseExpertTensor(group, x).value;
    assert slot.proj in Projections(group, names);
    assert slot.proj in Elements(projs);
    var k :| 0 <= k < |projs| && projs[k] == slot.proj;
    InSlotNames(group, slot.proj, n, x);
    assert x in GroupSlots(group, projs, n)[k];
  }

  // ---------- float groups ----------

  // A planned group reads each of its members exactly once.
  lemma GroupUses(group: string, tensors: seq<SourceTensor>, specs: seq<TensorSpec>, n: nat, quantize: string, policy: Policy)
    requires AllParse(group, NamesOf(tensors))
    requires GroupPlan(group, tensors, specs, n, quantize, policy)
    ensures Uses(Blobs(group, specs)) == multiset(Elements(NamesOf(tensors)))
  {
    var projs := Sorted(Projections(group, NamesOf(tensors)));
    var sets := GroupSlots(group, projs, n);
    SortedLists(Projections(group, NamesOf(tensors)));
    SlotsDisjoint(group, projs, n);
    forall k | 0 <= k < |specs| ensures SourceNames(specs[k].sources) == multiset(sets[k]) {
      SlotUses(specs[k].sources, group, projs[k]);
    }
    DisjointUses(specs, sets);
    SlotsAreMembers(group, NamesOf(tensors), n);
    BlobsUses(group, specs);
  }

  // ---------- FP8 groups ----------

  function ScalesOf(inv: Inventory, weights: set<string>): set<string> {
    set w | w in weights && Fp8ScaleFor(inv, w).Some? :: Fp8ScaleFor(inv, w).value
  }

  lemma NewScale(inv: Inventory, weights: set<string>, w: string)
    requires Fp8ScaleFor(inv, w).Some? && w !in weights
    ensures Fp8ScaleFor(inv, w).value !in ScalesOf(inv, weights)
    ensures ScalesOf(inv, weights + {w}) == ScalesOf(inv, weights) + {Fp8ScaleFor(inv, w).value}
  {
    forall v | v in weights && Fp8ScaleFor(inv, v).Some? ensures Fp8ScaleFor(inv, v) != Fp8ScaleFor(inv, w) {
      if Fp8ScaleFor(inv, v) == Fp8ScaleFor(inv, w) {
        ScalesDiffer(inv, v, w);
      }
    }
  }

  // scales[i] is named after the scale of slot i.
  ghost predicate ScalesNamed(inv: Inventory, scales: seq<SourceTensor>, group: string, proj: string) {
    forall i :: 0 <= i < |scales| ==> ScaleNamed(inv, scales[i], ExpertName(group, i, proj))
  }

  predicate ScaleNamed(inv: Inventory, scale: SourceTensor, weight: string) {
    Fp8ScaleFor(inv, weight) == Some(scale.name)
  }

  lemma MatchingScalesNamed(inv: Inventory, weights: seq<SourceTensor>, scales: seq<SourceTensor>, group: string, proj: string)
    requires WellFiled(inv) && Named(weights, group, proj) && ScalesMatch(inv, weights, scales)
    ensures ScalesNamed(inv, scales, group, proj)
  {
    forall i | 0 <= i < |scales| ensures ScaleNamed(inv, scales[i], ExpertName(group, i, proj)) {
      assert weights[i].name == ExpertName(group, i, proj);
    }
  }

  lemma {:induction false} ScaleUses(inv: Inventory, scales: seq<SourceTensor>, group: string, proj: string)
    requires ScalesNamed(inv, scales, group, proj)
    ensures SourceNames(scales) == multiset(ScalesOf(inv, SlotNames(group, proj, |scales|)))
    decreases |scales|
  {
    if scales == [] {
      NoScales(inv);
    } else {
      var n := |scales| - 1;
      ScaleUses(inv, scales[..n], group, proj);
      SourceNamesJoin(scales[..n], [scales[n]]);
      SourceNamesOne(scales[n]);
      assert scales == scales[..n] + [scales[n]];
      NextScale(inv, group, proj, n, scales[n]);
    }
  }

  lemma NoScales(inv: Inventory)
    ensures ScalesOf(inv, {}) == {}
  {
  }

  lemma NextScale(inv: Inventory, group: string, proj: string, n: nat, scale: SourceTensor)
    requires ScaleNamed(inv, scale, ExpertName(group, n, proj))
    ensures multiset(ScalesOf(inv, SlotNames(group, proj, n))) + multiset{scale.name}
         == multiset(ScalesOf(inv, SlotNames(group, proj, n + 1)))
  {
    var slots := SlotNames(group, proj, n);
    LaterSlotIsNew(group, proj, n, n);
    NewScale(inv, slots, ExpertName(group, n, proj));
    OnceEach(ScalesOf(inv, slots), {scale.name});
  }

  predicate AllWeights(names: set<string>) {
    forall x :: x in names ==> HasSuffix(x, ".weight")
  }

  lemma WeightsAndScalesDiffer(inv: Inventory, a: set<string>, b: set<string>)
    requires AllWeights(a)
    ensures a !! ScalesOf(inv, b)
  {
    forall w | w in b && Fp8ScaleFor(inv, w).Some? ensures Fp8ScaleFor(inv, w).value !in a {
      ScaleIsNoWeight(inv, w);
    }
  }

  lemma ScalesDisjoint(inv: Inventory, a: set<string>, b: set<string>)
    requires a !! b
    ensures ScalesOf(inv, a) !! ScalesOf(inv, b)
  {
    forall v, w | v in a && w in b && Fp8ScaleFor(inv, v).Some? && Fp8ScaleFor(inv, w).Some?
      ensures Fp8ScaleFor(inv, v) != Fp8ScaleFor(inv, w)
    {
      if Fp8ScaleFor(inv, v) == Fp8ScaleFor(inv, w) {
        ScalesDiffer(inv, v, w);
      }
    }
  }

  // Weights together with their scales.
  function WithScales(inv: Inventory, weights: set<string>): set<string> {
    weights + ScalesOf(inv, weights)
  }

  lemma WithScalesDisjoint(inv: Inventory, a: set<string>, b: set<string>)
    requires a !! b && AllWeights(a) && AllWeights(b)
    ensures WithScales(inv, a) !! WithScales(inv, b)
  {
    ScalesDisjoint(inv, a, b);
    WeightsAndScalesDiffer(inv, a, b);
    WeightsAndScalesDiffer(inv, b, a);
  }

  lemma {:induction false} SlotNamesAreWeights(group: string, proj: string, n: nat)
    ensures AllWeights(SlotNames(group, proj, n))
  {
    forall x | x in SlotNames(group, proj, n) ensures HasSuffix(x, ".weight") {
      InSlotNames(group, proj, n, x);
    }
  }

  lemma {:induction false} DecodeStackUses(ts: TensorSpec, group: string, proj: string, n: nat, tensors: seq<SourceTensor>,
                                           inv: Inventory, target: string, policy: Policy)
    requires WellFiled(inv) && DecodeStacked(ts, group, proj, n, tensors, inv, target, policy)
    ensures SourceNames(ts.sources) == multiset(WithScales(inv, SlotNames(group, proj, n)))
  {
    var weights, scales := ts.sources[..n], ts.sources[n..];
    assert ts.sources == weights + scales;
    SourceNamesJoin(weights, scales);
    SlotUses(weights, group, proj);
    MatchingScalesNamed(inv, weights, scales, group, proj);
    ScaleUses(inv, scales, group, proj);
    SlotNamesAreWeights(group, proj, n);
    WeightsAndScalesDiffer(inv, SlotNames(group, proj, n), SlotNames(group, proj, n));
    OnceEach(SlotNames(group, proj, n), ScalesOf(inv, SlotNames(group, proj, n)));
  }

  function EachWithScales(inv: Inventory, sets: seq<set<string>>): (r: seq<set<string>>)
    ensures |r| == |sets|
  {
    seq(|sets|, k requires 0 <= k < |sets| => WithScales(inv, sets[k]))
  }

  lemma {:induction false} UnionWithScales(inv: Inventory, sets: seq<set<string>>)
    ensures Union(EachWithScales(inv, sets)) == WithScales(inv, Union(sets))
  {
    if sets == [] {
      NoScales(inv);
    } else {
      UnionWithScales(inv, sets[1..]);
      assert EachWithScales(inv, sets)[1..] == EachWithScales(inv, sets[1..]);
      ScalesJoin(inv, sets[0], Union(sets[1..]));
    }
  }

  lemma ScalesJoin(inv: Inventory, a: set<string>, b: set<string>)
    ensures ScalesOf(inv, a + b) == ScalesOf(inv, a) + ScalesOf(inv, b)
  {
  }

  // A planned FP8 group reads each of its weights and each weight's scale exactly once.
  lemma Fp8GroupUses(group: string, tensors: seq<SourceTensor>, specs: seq<TensorSpec>, n: nat,
                     inv: Inventory, target: string, policy: Policy)
    requires WellFiled(inv) && AllParse(group, NamesOf(tensors))
    requires Fp8GroupPlan(group, tensors, specs, n, inv, target, policy)
    ensures Uses(Blobs(group, specs)) == multiset(WithScales(inv, Elements(NamesOf(tensors))))
  {
    var projs := Sorted(Projections(group, NamesOf(tensors)));
    var sets := GroupSlots(group, projs, n);
    SortedLists(Projections(group, NamesOf(tensors)));
    SlotsDisjoint(group, projs, n);
    forall j, k | 0 <= j < k < |sets| ensures EachWithScales(inv, sets)[j] !! EachWithScales(inv, sets)[k] {
      SlotNamesAreWeights(group, projs[j], n);
      SlotNamesAreWeights(group, projs[k], n);
      WithScalesDisjoint(inv, sets[j], sets[k]);
    }
    forall k | 0 <= k < |specs| ensures SourceNames(specs[k].sources) == multiset(EachWithScales(inv, sets)[k]) {
      DecodeStackUses(specs[k], group, projs[k], n, tensors, inv, target, policy);
    }
    DisjointUses(specs, EachWithScales(inv, sets));
    UnionWithScales(inv, sets);
    SlotsAreMembers(group, NamesOf(tensors), n);
    BlobsUses(group, specs);
  }
}
