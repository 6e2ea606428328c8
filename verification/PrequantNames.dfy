// When the names of a prequantized plan clash, told from the inventory.
module PrequantNames {
  import opened SortedKeys
  import opened ImportPlan
  import opened SourcePlans
  import opened PrequantPlans
  import opened PrequantUses

  // ---------- distinct names, list by list ----------

  function Flatten(lists: seq<seq<string>>): seq<string> {
    if lists == [] then [] else Flatten(lists[..|lists| - 1]) + lists[|lists| - 1]
  }

  predicate Disjoint(a: seq<string>, b: seq<string>) {
    forall x :: x in a ==> x !in b
  }

  lemma DistinctJoin(a: seq<string>, b: seq<string>)
    ensures Distinct(a + b) <==> Distinct(a) && Distinct(b) && Disjoint(a, b)
  {
    var s := a + b;
    if Distinct(s) {
      forall i, j | 0 <= i < j < |a| ensures a[i] != a[j] {
        assert s[i] == a[i] && s[j] == a[j];
      }
      forall i, j | 0 <= i < j < |b| ensures b[i] != b[j] {
        assert s[|a| + i] == b[i] && s[|a| + j] == b[j];
      }
      forall x | x in a ensures x !in b {
        var i :| 0 <= i < |a| && a[i] == x;
        forall j | 0 <= j < |b| ensures b[j] != x {
          assert s[i] == x && s[|a| + j] == b[j];
        }
      }
    }
    if Distinct(a) && Distinct(b) && Disjoint(a, b) {
      forall i, j | 0 <= i < j < |s| ensures s[i] != s[j] {
        if i < |a| <= j {
          assert s[i] in a && s[j] == b[j - |a|];
        }
      }
    }
  }

  ghost predicate Apart(lists: seq<seq<string>>) {
    && (forall i :: 0 <= i < |lists| ==> Distinct(lists[i]))
    && (forall i, j :: 0 <= i < j < |lists| ==> Disjoint(lists[i], lists[j]))
  }

  lemma {:induction false} InFlatten(lists: seq<seq<string>>, x: string)
    ensures x in Flatten(lists) <==> exists i :: 0 <= i < |lists| && x in lists[i]
    decreases |lists|
  {
    if lists != [] {
      var n := |lists| - 1;
      InFlatten(lists[..n], x);
      if i :| 0 <= i < |lists| && x in lists[i] {
        assert i == n || x in lists[..n][i];
      }
    }
  }

  lemma {:induction false} FlattenDistinct(lists: seq<seq<string>>)
    ensures Distinct(Flatten(lists)) <==> Apart(lists)
    decreases |lists|
  {
    if lists != [] {
      var n := |lists| - 1;
      var front := lists[..n];
      FlattenDistinct(front);
      DistinctJoin(Flatten(front), lists[n]);
      DisjointFromAll(front, lists[n]);
      ApartSnoc(front, lists[n]);
      assert lists == front + [lists[n]];
    }
  }

  lemma {:induction false} DisjointFromAll(lists: seq<seq<string>>, last: seq<string>)
    ensures Disjoint(Flatten(lists), last) <==> forall i :: 0 <= i < |lists| ==> Disjoint(lists[i], last)
  {
    if Disjoint(Flatten(lists), last) {
      forall i, x | 0 <= i < |lists| && x in lists[i] ensures x !in last {
        InFlatten(lists, x);
      }
    }
    if forall i :: 0 <= i < |lists| ==> Disjoint(lists[i], last) {
      forall x | x in Flatten(lists) ensures x !in last {
        InFlatten(lists, x);
      }
    }
  }

  lemma ApartSnoc(lists: seq<seq<string>>, last: seq<string>)
    ensures Apart(lists + [last])
       <==> Apart(lists) && Distinct(last) && forall i :: 0 <= i < |lists| ==> Disjoint(lists[i], last)
  {
    var all := lists + [last];
    if Apart(all) {
      assert Distinct(all[|lists|]);
      forall i | 0 <= i < |lists| ensures Distinct(lists[i]) && Disjoint(lists[i], last) {
        assert all[i] == lists[i] && all[|lists|] == last;
      }
      forall i, j | 0 <= i < j < |lists| ensures Disjoint(lists[i], lists[j]) {
        assert all[i] == lists[i] && all[j] == lists[j];
      }
    }
  }

  // ---------- what each tensor contributes ----------

  function OutLists(inv: Inventory, patterns: seq<Pattern>, config: map<string, string>, names: seq<string>): (r: seq<seq<string>>)
    requires Listed(inv, names)
    ensures |r| == |names|
  {
    seq(|names|, i requires 0 <= i < |names| => OutputNames(Emit(inv, patterns, config, names[i])))
  }

  function BlobLists(inv: Inventory, patterns: seq<Pattern>, config: map<string, string>, names: seq<string>): (r: seq<seq<string>>)
    requires Listed(inv, names)
    ensures |r| == |names|
  {
    seq(|names|, i requires 0 <= i < |names| => BlobNames(Emit(inv, patterns, config, names[i])))
  }

  lemma OutListsFront(inv: Inventory, patterns: seq<Pattern>, config: map<string, string>, names: seq<string>, n: nat)
    requires Listed(inv, names) && |names| == n + 1
    ensures Listed(inv, names[..n])
    ensures OutLists(inv, patterns, config, names)
         == OutLists(inv, patterns, config, names[..n]) + [OutputNames(Emit(inv, patterns, config, names[n]))]
    ensures BlobLists(inv, patterns, config, names)
         == BlobLists(inv, patterns, config, names[..n]) + [BlobNames(Emit(inv, patterns, config, names[n]))]
  {
  }

  lemma FlattenSnoc(lists: seq<seq<string>>, last: seq<string>)
    ensures Flatten(lists + [last]) == Flatten(lists) + last
  {
    assert (lists + [last])[..|lists|] == lists;
  }

  lemma {:induction false} EmittedNames(inv: Inventory, patterns: seq<Pattern>, config: map<string, string>, names: seq<string>)
    requires Listed(inv, names)
    ensures OutputNames(EmitAll(inv, patterns, config, names)) == Flatten(OutLists(inv, patterns, config, names))
    ensures BlobNames(EmitAll(inv, patterns, config, names)) == Flatten(BlobLists(inv, patterns, config, names))
    decreases |names|
  {
    if names != [] {
      var n := |names| - 1;
      var before, last := EmitAll(inv, patterns, config, names[..n]), Emit(inv, patterns, config, names[n]);
      EmittedNames(inv, patterns, config, names[..n]);
      OutputNamesJoin(before, last);
      BlobNamesJoin(before, last);
      OutListsFront(inv, patterns, config, names, n);
      FlattenSnoc(OutLists(inv, patterns, config, names[..n]), OutputNames(last));
      FlattenSnoc(BlobLists(inv, patterns, config, names[..n]), BlobNames(last));
    }
  }

  // The tensor names of a weight fused with its companions.
  predicate FusedName(inv: Inventory, m: Match, x: string) {
    var out := OutWeight(m.base);
    || x == out || x == out + ".scale"
    || (Companion(inv, m.base, m.pattern.biasSuffix) && x == out + ".bias")
    || (Companion(inv, m.base, m.pattern.globalSuffix) && x == out + ".global_scale")
  }

  // A tensor that is neither matched nor anyone's companion.
  predicate CopiedAlone(inv: Inventory, patterns: seq<Pattern>, x: string) {
    x in inv && FirstMatch(x, inv, patterns).None? && x !in AllConsumed(inv, patterns, inv.Keys)
  }

  // The condition under which no names clash: matched weights have bases of their own, and no
  // copied tensor has a name that fusing makes.
  ghost predicate PrequantApart(inv: Inventory, patterns: seq<Pattern>) {
    && BasesDiffer(inv, patterns)
    && forall w, x :: Matched(inv, patterns, w) && CopiedAlone(inv, patterns, x) ==>
         !FusedName(inv, FirstMatch(w, inv, patterns).value, x)
  }

  lemma OutExts()
    ensures IsExt(".weight") && IsExt(".scale") && IsExt(".bias") && IsExt(".global_scale")
    ensures ".weight" != ".scale" && ".weight" != ".bias" && ".weight" != ".global_scale"
    ensures ".scale" != ".bias" && ".scale" != ".global_scale" && ".bias" != ".global_scale"
  {
    assert ".scale"[1] == 's' && ".bias"[1] == 'b' && ".global_scale"[1] == 'g' && ".weight"[1] == 'w';
  }

  lemma FusedSplit(inv: Inventory, m: Match, x: string) returns (head: string, ext: string)
    requires FusedName(inv, m, x)
    ensures x == head + ext && IsExt(ext) && head == if ext == ".weight" then m.base else OutWeight(m.base)
  {
    OutExts();
    var out := OutWeight(m.base);
    if x == out {
      head, ext := m.base, ".weight";
    } else if x == out + ".scale" {
      head, ext := out, ".scale";
    } else if x == out + ".bias" {
      head, ext := out, ".bias";
    } else {
      head, ext := out, ".global_scale";
    }
  }

  // Weights with different bases share no output name.
  lemma FusedApart(inv: Inventory, a: Match, b: Match, x: string)
    requires FusedName(inv, a, x) && FusedName(inv, b, x)
    ensures a.base == b.base
  {
    var h, e := FusedSplit(inv, a, x);
    var h', e' := FusedSplit(inv, b, x);
    ExtUnique(h, e, h', e');
    if e != ".weight" {
      OutExts();
      ExtUnique(a.base, ".weight", b.base, ".weight");
    }
  }

  lemma FusedDiffer(inv: Inventory, a: Match, b: Match, x: string)
    requires a.base != b.base && FusedName(inv, a, x)
    ensures !FusedName(inv, b, x)
  {
    if FusedName(inv, b, x) {
      FusedApart(inv, a, b, x);
    }
  }

  lemma OneBlob(b: BlobSpec)
    ensures OutputNames([b]) == TensorNames(b.tensors) && BlobNames([b]) == [b.name]
  {
    assert OutputNames([b][1..]) == [] && BlobNames([b][1..]) == [];
    assert TensorNames(b.tensors) + [] == TensorNames(b.tensors);
  }

  lemma OneName(ts: TensorSpec)
    ensures TensorNames([ts]) == [ts.name]
  {
    assert TensorNames([ts][1..]) == [];
  }

  // The names a fused blob gives its tensors.
  function FusedNames(inv: Inventory, m: Match): seq<string> {
    var out := OutWeight(m.base);
    [out, out + ".scale"]
      + (if Companion(inv, m.base, m.pattern.biasSuffix) then [out + ".bias"] else [])
      + (if Companion(inv, m.base, m.pattern.globalSuffix) then [out + ".global_scale"] else [])
  }

  lemma JoinFour(a: TensorSpec, b: TensorSpec, c: seq<TensorSpec>, d: seq<TensorSpec>)
    ensures TensorNames([a, b] + c + d) == [a.name, b.name] + TensorNames(c) + TensorNames(d)
  {
    assert [a, b] == [a] + [b];
    TensorNamesJoin([a], [b]);
    OneName(a);
    OneName(b);
    TensorNamesJoin([a, b], c);
    TensorNamesJoin([a, b] + c, d);
  }

  lemma PartNames(inv: Inventory, p: Pattern, base: string)
    ensures TensorNames(BiasTensors(inv, p, base)) == if Companion(inv, base, p.biasSuffix) then [OutWeight(base) + ".bias"] else []
    ensures TensorNames(GlobalTensors(inv, p, base))
         == if Companion(inv, base, p.globalSuffix) then [OutWeight(base) + ".global_scale"] else []
  {
    if Companion(inv, base, p.biasSuffix) {
      OneName(BiasTensors(inv, p, base)[0]);
    }
    if Companion(inv, base, p.globalSuffix) {
      OneName(GlobalTensors(inv, p, base)[0]);
    }
  }

  lemma FuseMakes(inv: Inventory, m: Match, name: string, config: map<string, string>)
    requires name in inv && m.base + m.pattern.scaleSuffix in inv
    ensures TensorNames(Fuse(inv, m, name, config).tensors) == FusedNames(inv, m)
  {
    var p, base, out := m.pattern, m.base, OutWeight(m.base);
    PartNames(inv, p, base);
    JoinFour(WeightTensor(p, out, inv[name]), ScaleTensor(p, out, inv[base + p.scaleSuffix]),
             BiasTensors(inv, p, base), GlobalTensors(inv, p, base));
  }

  lemma FusedNamesDistinct(inv: Inventory, m: Match)
    ensures Distinct(FusedNames(inv, m)) && forall x :: x in FusedNames(inv, m) <==> FusedName(inv, m, x)
  {
    var out := OutWeight(m.base);
    OutExts();
    SuffixesDiffer(out, "", ".scale");
    SuffixesDiffer(out, "", ".bias");
    SuffixesDiffer(out, "", ".global_scale");
    SuffixesDiffer(out, ".scale", ".bias");
    SuffixesDiffer(out, ".scale", ".global_scale");
    SuffixesDiffer(out, ".bias", ".global_scale");
    assert out + "" == out;
  }

  // Whether z is a tensor name, or a blob name, that tensor x of the source contributes.
  predicate Makes(inv: Inventory, patterns: seq<Pattern>, x: string, z: string)
    requires x in inv
  {
    match FirstMatch(x, inv, patterns)
    case Some(m) => FusedName(inv, m, z)
    case None => CopiedAlone(inv, patterns, x) && z == x
  }

  lemma EmitMakes(inv: Inventory, patterns: seq<Pattern>, config: map<string, string>, x: string)
    requires WellFiled(inv) && x in inv
    ensures Distinct(OutputNames(Emit(inv, patterns, config, x))) && Distinct(BlobNames(Emit(inv, patterns, config, x)))
    ensures forall z :: z in OutputNames(Emit(inv, patterns, config, x)) <==> Makes(inv, patterns, x, z)
    ensures forall z :: z in BlobNames(Emit(inv, patterns, config, x)) ==> Makes(inv, patterns, x, z)
  {
    match FirstMatch(x, inv, patterns)
    case Some(m) =>
      OneBlob(Fuse(inv, m, x, config));
      FuseMakes(inv, m, x, config);
      FusedNamesDistinct(inv, m);
    case None =>
      if CopiedAlone(inv, patterns, x) {
        OneBlob(CopyBlob(inv[x], ""));
        OneName(CopyBlob(inv[x], "").tensors[0]);
      }
  }

  // Two tensors contribute no common name.
  ghost predicate MakesApart(inv: Inventory, patterns: seq<Pattern>, x: string, y: string)
    requires x in inv && y in inv
  {
    forall z :: Makes(inv, patterns, x, z) ==> !Makes(inv, patterns, y, z)
  }

  lemma PairApart(inv: Inventory, patterns: seq<Pattern>, x: string, y: string)
    requires PrequantApart(inv, patterns) && x in inv && y in inv && x != y
    ensures MakesApart(inv, patterns, x, y)
  {
    forall z | Makes(inv, patterns, x, z) ensures !Makes(inv, patterns, y, z) {
      if Matched(inv, patterns, x) && Matched(inv, patterns, y) {
        assert BaseOf(inv, patterns, x) != BaseOf(inv, patterns, y);
        FusedDiffer(inv, FirstMatch(x, inv, patterns).value, FirstMatch(y, inv, patterns).value, z);
      }
    }
  }

  ghost predicate AllMakeApart(inv: Inventory, patterns: seq<Pattern>) {
    forall x, y :: x in inv && y in inv && x != y ==> MakesApart(inv, patterns, x, y)
  }

  lemma MakeApartIff(inv: Inventory, patterns: seq<Pattern>)
    ensures AllMakeApart(inv, patterns) <==> PrequantApart(inv, patterns)
  {
    if PrequantApart(inv, patterns) {
      forall x, y | x in inv && y in inv && x != y ensures MakesApart(inv, patterns, x, y) {
        PairApart(inv, patterns, x, y);
      }
    }
    if AllMakeApart(inv, patterns) {
      forall a, b | Matched(inv, patterns, a) && Matched(inv, patterns, b) && a != b
        ensures BaseOf(inv, patterns, a) != BaseOf(inv, patterns, b)
      {
        assert MakesApart(inv, patterns, a, b);
        assert Makes(inv, patterns, a, OutWeight(BaseOf(inv, patterns, a)));
      }
      forall w, x | Matched(inv, patterns, w) && CopiedAlone(inv, patterns, x)
        ensures !FusedName(inv, FirstMatch(w, inv, patterns).value, x)
      {
        assert w != x && MakesApart(inv, patterns, w, x);
        assert Makes(inv, patterns, x, x);
      }
    }
  }

  lemma ListsApart(inv: Inventory, patterns: seq<Pattern>, config: map<string, string>)
    requires WellFiled(inv) && Listed(inv, Sorted(inv.Keys)) && AllMakeApart(inv, patterns)
    ensures Apart(OutLists(inv, patterns, config, Sorted(inv.Keys))) && Apart(BlobLists(inv, patterns, config, Sorted(inv.Keys)))
  {
    var names := Sorted(inv.Keys);
    SortedLists(inv.Keys);
    forall i | 0 <= i < |names|
      ensures Distinct(OutLists(inv, patterns, config, names)[i]) && Distinct(BlobLists(inv, patterns, config, names)[i])
    {
      EmitMakes(inv, patterns, config, names[i]);
    }
    forall i, j | 0 <= i < j < |names|
      ensures Disjoint(OutLists(inv, patterns, config, names)[i], OutLists(inv, patterns, config, names)[j])
      ensures Disjoint(BlobLists(inv, patterns, config, names)[i], BlobLists(inv, patterns, config, names)[j])
    {
      EmitMakes(inv, patterns, config, names[i]);
      EmitMakes(inv, patterns, config, names[j]);
      assert MakesApart(inv, patterns, names[i], names[j]);
    }
  }

  lemma DisjointMakes(inv: Inventory, patterns: seq<Pattern>, config: map<string, string>, x: string, y: string)
    requires WellFiled(inv) && x in inv && y in inv
    requires Disjoint(OutputNames(Emit(inv, patterns, config, x)), OutputNames(Emit(inv, patterns, config, y)))
    ensures MakesApart(inv, patterns, x, y) && MakesApart(inv, patterns, y, x)
  {
    EmitMakes(inv, patterns, config, x);
    EmitMakes(inv, patterns, config, y);
  }

  lemma ListsApartMake(inv: Inventory, patterns: seq<Pattern>, config: map<string, string>, names: seq<string>, i: nat, j: nat)
    requires WellFiled(inv) && Listed(inv, names) && Apart(OutLists(inv, patterns, config, names)) && i < j < |names|
    ensures MakesApart(inv, patterns, names[i], names[j]) && MakesApart(inv, patterns, names[j], names[i])
  {
    var lists := OutLists(inv, patterns, config, names);
    assert Disjoint(lists[i], lists[j]);
    DisjointMakes(inv, patterns, config, names[i], names[j]);
  }

  lemma AllListsApartMake(inv: Inventory, patterns: seq<Pattern>, config: map<string, string>)
    requires WellFiled(inv) && Listed(inv, Sorted(inv.Keys)) && Apart(OutLists(inv, patterns, config, Sorted(inv.Keys)))
    ensures AllMakeApart(inv, patterns)
  {
    SortedLists(inv.Keys);
    forall x, y | x in inv && y in inv && x != y ensures MakesApart(inv, patterns, x, y) {
      TwoApartMake(inv, patterns, config, Sorted(inv.Keys), x, y);
    }
  }

  lemma TwoApartMake(inv: Inventory, patterns: seq<Pattern>, config: map<string, string>, names: seq<string>, x: string, y: string)
    requires WellFiled(inv) && Listed(inv, names) && Apart(OutLists(inv, patterns, config, names))
    requires x in Elements(names) && y in Elements(names) && x != y
    ensures x in inv && y in inv && MakesApart(inv, patterns, x, y)
  {
    var i := IndexIn(names, x);
    var j := IndexIn(names, y);
    if i < j {
      ListsApartMake(inv, patterns, config, names, i, j);
    } else {
      ListsApartMake(inv, patterns, config, names, j, i);
    }
  }

  // A prequantized plan's names are distinct exactly under the condition above.
  lemma {:induction false} PrequantNamesIff(inv: Inventory, patterns: seq<Pattern>, config: map<string, string>)
    requires WellFiled(inv) && Listed(inv, Sorted(inv.Keys))
    ensures NamesDistinct(EmitAll(inv, patterns, config, Sorted(inv.Keys))) <==> PrequantApart(inv, patterns)
  {
    var names := Sorted(inv.Keys);
    EmittedNames(inv, patterns, config, names);
    FlattenDistinct(OutLists(inv, patterns, config, names));
    FlattenDistinct(BlobLists(inv, patterns, config, names));
    MakeApartIff(inv, patterns);
    if AllMakeApart(inv, patterns) {
      ListsApart(inv, patterns, config);
    }
    if Apart(OutLists(inv, patterns, config, names)) {
      AllListsApartMake(inv, patterns, config);
    }
  }
}
