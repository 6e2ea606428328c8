// What a filed and validated group of experts says about the names it came from.
module ExpertSlots {
  import opened SortedKeys
  import opened ExpertNames
  import opened ExpertGroups

  function Projections(group: string, names: seq<string>): set<string> {
    set k | 0 <= k < |names| && Parses(group, names[k]) :: ParseExpertTensor(group, names[k]).value.proj
  }

  // Each projection has a tensor for every expert 0 to n - 1 and for no other.
  ghost predicate SlotsFilled(group: string, names: seq<string>, n: nat) {
    forall p, i: nat :: p in Projections(group, names) ==> (ExpertName(group, i, p) in names <==> i < n)
  }

  predicate SameProjection(group: string, a: string, b: string) {
    var s, t := ParseExpertTensor(group, a), ParseExpertTensor(group, b);
    s.Ok? && t.Ok? && s.value.proj == t.value.proj
  }

  lemma FiledSlot<T>(group: string, names: seq<string>, values: seq<T>, table: ByProjection<T>, p: string, i: nat)
    requires |names| == |values| && Filed(group, names, values, table)
    ensures Holds(table, p, i) <==> ExpertName(group, i, p) in names
    ensures Holds(table, p, i) ==>
      exists k :: 0 <= k < |names| && names[k] == ExpertName(group, i, p) && values[k] == table[p][i]
  {
    if ExpertName(group, i, p) in names {
      var k :| 0 <= k < |names| && names[k] == ExpertName(group, i, p);
      assert FiledAt(group, names, values, table, k);
      var slot := ParseExpertTensor(group, names[k]).value;
      NameOfSlot(group, names[k]);
      NamesDecideSlots(group, i, p, slot.index, slot.proj);
    }
  }

  lemma ProjectionOf(group: string, names: seq<string>, i: nat, p: string)
    requires AllParse(group, names) && ExpertName(group, i, p) in names
    ensures p in Projections(group, names)
  {
    var k :| 0 <= k < |names| && names[k] == ExpertName(group, i, p);
    assert Parses(group, names[k]);
    NameOfSlot(group, names[k]);
    var slot := ParseExpertTensor(group, names[k]).value;
    NamesDecideSlots(group, i, p, slot.index, slot.proj);
  }

  lemma FiledProjections<T>(group: string, names: seq<string>, values: seq<T>, table: ByProjection<T>)
    requires |names| == |values| && Filed(group, names, values, table)
    ensures table.Keys == Projections(group, names)
  {
    forall k | 0 <= k < |names| ensures Parses(group, names[k]) {
      assert FiledAt(group, names, values, table, k);
    }
    forall p | p in table ensures p in Projections(group, names) {
      var i: nat :| i in table[p];
      assert Holds(table, p, i);
      ProjectionOf(group, names, i, p);
    }
    forall k | 0 <= k < |names| && Parses(group, names[k])
      ensures ParseExpertTensor(group, names[k]).value.proj in table
    {
      assert FiledAt(group, names, values, table, k);
    }
  }

  lemma CoversIffFilled<T>(group: string, names: seq<string>, values: seq<T>, table: ByProjection<T>)
    requires |names| == |values| && Filed(group, names, values, table)
    ensures forall n: nat :: Covers(table, n) <==> SlotsFilled(group, names, n)
  {
    FiledProjections(group, names, values, table);
    forall p, i: nat ensures Holds(table, p, i) <==> ExpertName(group, i, p) in names {
      FiledSlot(group, names, values, table, p, i);
    }
    forall n: nat ensures Covers(table, n) <==> SlotsFilled(group, names, n) {
      CoversOne(group, names, table, n);
    }
  }

  lemma CoversOne<T>(group: string, names: seq<string>, table: ByProjection<T>, n: nat)
    requires table.Keys == Projections(group, names)
    requires forall p, i: nat :: Holds(table, p, i) <==> ExpertName(group, i, p) in names
    ensures Covers(table, n) <==> SlotsFilled(group, names, n)
  {
    if Covers(table, n) {
      forall p, i: nat | p in Projections(group, names) ensures ExpertName(group, i, p) in names <==> i < n {
        assert Holds(table, p, i) <==> ExpertName(group, i, p) in names;
      }
    }
    if SlotsFilled(group, names, n) {
      forall p, i: nat | p in table ensures i in table[p] <==> i < n {
        assert Holds(table, p, i) <==> ExpertName(group, i, p) in names;
      }
    }
  }

  // ---------- layouts ----------

  ghost predicate Equivalence<T(!new)>(same: (T, T) -> bool) {
    && (forall a, b :: same(a, b) ==> same(b, a))
    && (forall a, b, c :: same(a, b) && same(b, c) ==> same(a, c))
  }

  predicate UniformExperts<T>(experts: map<nat, T>, same: (T, T) -> bool) {
    0 in experts ==> forall i: nat :: i in experts ==> same(experts[i], experts[0])
  }

  ghost predicate UniformStacks<T>(table: ByProjection<T>, same: (T, T) -> bool) {
    forall p :: p in table ==> UniformExperts(table[p], same)
  }

  // The experts of the first k projections agree within each.
  ghost predicate UniformUpTo<T>(table: ByProjection<T>, projs: seq<string>, k: nat, same: (T, T) -> bool) {
    k <= |projs| && forall j :: 0 <= j < k ==> projs[j] in table && UniformExperts(table[projs[j]], same)
  }

  lemma UniformNext<T>(table: ByProjection<T>, projs: seq<string>, k: nat, same: (T, T) -> bool)
    requires k < |projs| && projs[k] in table && UniformUpTo(table, projs, k, same)
    ensures UniformUpTo(table, projs, k + 1, same) <==> UniformExperts(table[projs[k]], same)
    ensures !UniformExperts(table[projs[k]], same) ==> !UniformStacks(table, same)
  {
  }

  lemma AllUniform<T>(table: ByProjection<T>, projs: seq<string>, same: (T, T) -> bool)
    requires Elements(projs) == table.Keys && UniformUpTo(table, projs, |projs|, same)
    ensures UniformStacks(table, same)
  {
    forall p | p in table ensures UniformExperts(table[p], same) {
      assert p in Elements(projs);
    }
  }

  // Experts of one projection agree.
  ghost predicate SameLayouts<T>(group: string, names: seq<string>, values: seq<T>, same: (T, T) -> bool)
    requires |names| == |values|
  {
    forall j, k :: 0 <= j < |names| && 0 <= k < |names| && SameProjection(group, names[j], names[k]) ==>
      same(values[j], values[k])
  }

  lemma SlotIndex<T>(group: string, names: seq<string>, values: seq<T>, table: ByProjection<T>, p: string, i: nat)
    returns (k: nat)
    requires |names| == |values| && Filed(group, names, values, table) && Holds(table, p, i)
    ensures k < |names| && names[k] == ExpertName(group, i, p) && values[k] == table[p][i]
    ensures Parses(group, names[k]) && ParseExpertTensor(group, names[k]).value == Slot(i, p)
  {
    FiledSlot(group, names, values, table, p, i);
    k :| 0 <= k < |names| && names[k] == ExpertName(group, i, p) && values[k] == table[p][i];
    assert FiledAt(group, names, values, table, k);
    NameOfSlot(group, names[k]);
    var slot := ParseExpertTensor(group, names[k]).value;
    NamesDecideSlots(group, i, p, slot.index, slot.proj);
  }

  lemma UniformIff<T(!new)>(group: string, names: seq<string>, values: seq<T>, table: ByProjection<T>, n: nat,
                            same: (T, T) -> bool)
    requires |names| == |values| && Filed(group, names, values, table) && Covers(table, n) && Equivalence(same)
    ensures UniformStacks(table, same) <==> SameLayouts(group, names, values, same)
  {
    if SameLayouts(group, names, values, same) {
      forall p, i: nat | p in table && 0 in table[p] && i in table[p] ensures same(table[p][i], table[p][0]) {
        assert Holds(table, p, i) && Holds(table, p, 0);
        var j := SlotIndex(group, names, values, table, p, i);
        var k := SlotIndex(group, names, values, table, p, 0);
        assert SameProjection(group, names[j], names[k]);
      }
    }
    if UniformStacks(table, same) {
      forall j, k | 0 <= j < |names| && 0 <= k < |names| && SameProjection(group, names[j], names[k])
        ensures same(values[j], values[k])
      {
        assert FiledAt(group, names, values, table, j) && FiledAt(group, names, values, table, k);
        var s, t := ParseExpertTensor(group, names[j]).value, ParseExpertTensor(group, names[k]).value;
        assert 0 in table[s.proj] && UniformExperts(table[s.proj], same);
        assert same(values[j], table[s.proj][0]) && same(values[k], table[s.proj][0]);
      }
    }
  }
}
