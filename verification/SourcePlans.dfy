// Planning a float source: which blob every source tensor goes to.
module SourcePlans {
  import opened Text
  import opened SortedKeys
  import opened ImportPlan
  import opened ExpertNames
  import opened ExpertGroups
  import opened ExpertPlans
  import opened PlanUses

  type Groups = map<string, seq<SourceTensor>>

  // The tensors of an inventory in name order.
  function Listing(inv: Inventory): seq<SourceTensor> {
    var names := Sorted(inv.Keys);
    SortedLists(inv.Keys);
    assert forall i :: 0 <= i < |names| ==> names[i] in Elements(names);
    seq(|names|, i requires 0 <= i < |names| => inv[names[i]])
  }

  function Appended(groups: Groups, key: Option<string>, t: SourceTensor): Groups {
    match key
    case None => groups
    case Some(g) => groups[g := (if g in groups then groups[g] else []) + [t]]
  }

  // Every tensor appended to the group its name maps to, if any.
  function GroupsOf(tensors: seq<SourceTensor>, key: string -> Option<string>): Groups {
    if tensors == [] then map[] else
      var n := |tensors| - 1;
      Appended(GroupsOf(tensors[..n], key), key(tensors[n].name), tensors[n])
  }

  function Keyed(names: set<string>, key: string -> Option<string>, g: string): set<string> {
    set x | x in names && key(x) == Some(g)
  }

  function NameSet(tensors: seq<SourceTensor>): set<string> {
    Elements(NamesOf(tensors))
  }

  // A group holds each name that maps to it, once.
  ghost predicate GroupRight(groups: Groups, names: set<string>, key: string -> Option<string>, g: string) {
    && (g in groups <==> Keyed(names, key, g) != {})
    && (g in groups ==> NameSet(groups[g]) == Keyed(names, key, g) && Distinct(NamesOf(groups[g])))
  }

  lemma NamesOfSnoc(tensors: seq<SourceTensor>, t: SourceTensor)
    ensures NamesOf(tensors + [t]) == NamesOf(tensors) + [t.name]
    ensures NameSet(tensors + [t]) == NameSet(tensors) + {t.name}
  {
    assert NamesOf(tensors + [t]) == NamesOf(tensors) + [t.name];
    assert t.name in NamesOf(tensors) + [t.name];
  }

  lemma {:induction false} GroupsAreRight(tensors: seq<SourceTensor>, key: string -> Option<string>, g: string)
    requires Distinct(NamesOf(tensors))
    ensures GroupRight(GroupsOf(tensors, key), NameSet(tensors), key, g)
    decreases |tensors|
  {
    if tensors == [] {
      assert NamesOf(tensors) == [];
    } else {
      var n := |tensors| - 1;
      var t := tensors[n];
      assert tensors == tensors[..n] + [t];
      NamesOfSnoc(tensors[..n], t);
      DistinctSnoc(NamesOf(tensors[..n]), t.name);
      GroupsAreRight(tensors[..n], key, g);
      GroupsSnoc(GroupsOf(tensors[..n], key), NameSet(tensors[..n]), key, t, g);
    }
  }

  lemma GroupsSnoc(groups: Groups, names: set<string>, key: string -> Option<string>, t: SourceTensor, g: string)
    requires GroupRight(groups, names, key, g) && t.name !in names
    ensures GroupRight(Appended(groups, key(t.name), t), names + {t.name}, key, g)
  {
    if key(t.name) == Some(g) {
      assert Keyed(names + {t.name}, key, g) == Keyed(names, key, g) + {t.name};
      if g in groups {
        NamesOfSnoc(groups[g], t);
        DistinctSnoc(NamesOf(groups[g]), t.name);
        assert t.name !in NamesOf(groups[g]) by {
          assert t.name !in NameSet(groups[g]);
        }
      } else {
        NamesOfSnoc([], t);
        assert [] + [t] == [t] && NamesOf([]) == [];
      }
    } else {
      assert Keyed(names + {t.name}, key, g) == Keyed(names, key, g);
    }
  }

  lemma ListingNames(inv: Inventory)
    requires WellFiled(inv)
    ensures NamesOf(Listing(inv)) == Sorted(inv.Keys)
    ensures Distinct(NamesOf(Listing(inv))) && NameSet(Listing(inv)) == inv.Keys
  {
    var names := Sorted(inv.Keys);
    SortedLists(inv.Keys);
    forall i | 0 <= i < |names| ensures names[i] in inv {
      assert names[i] in Elements(names);
    }
  }

  // ---------- planning the groups ----------

  ghost predicate GroupsApart(groups: Groups) {
    && (forall g :: g in groups ==> Distinct(NamesOf(groups[g])))
    && (forall g, h :: g in groups && h in groups && g != h ==> NameSet(groups[g]) !! NameSet(groups[h]))
  }

  lemma {:induction false} GroupsOfApart(tensors: seq<SourceTensor>, key: string -> Option<string>)
    requires Distinct(NamesOf(tensors))
    ensures GroupsApart(GroupsOf(tensors, key))
  {
    var groups := GroupsOf(tensors, key);
    forall g | g in groups ensures Distinct(NamesOf(groups[g])) {
      GroupsAreRight(tensors, key, g);
    }
    forall g, h | g in groups && h in groups && g != h ensures NameSet(groups[g]) !! NameSet(groups[h]) {
      GroupsAreRight(tensors, key, g);
      GroupsAreRight(tensors, key, h);
    }
  }

  // The members of the groups in done.
  function MembersOf(groups: Groups, done: set<string>): set<string> {
    set g, x | g in groups && g in done && x in NameSet(groups[g]) :: x
  }

  lemma InMembersOf(groups: Groups, done: set<string>, x: string)
    ensures x in MembersOf(groups, done) <==> exists g :: g in groups && g in done && x in NameSet(groups[g])
  {
  }

  lemma MembersMore(groups: Groups, done: set<string>, g: string)
    requires GroupsApart(groups) && g in groups && g !in done
    ensures MembersOf(groups, done + {g}) == MembersOf(groups, done) + NameSet(groups[g])
    ensures MembersOf(groups, done) !! NameSet(groups[g])
  {
    forall x ensures x in MembersOf(groups, done + {g}) <==> x in MembersOf(groups, done) + NameSet(groups[g]) {
      InMembersOf(groups, done + {g}, x);
      InMembersOf(groups, done, x);
    }
    forall x | x in MembersOf(groups, done) ensures x !in NameSet(groups[g]) {
      var h :| h in groups && h in done && x in NameSet(groups[h]);
      assert NameSet(groups[h]) !! NameSet(groups[g]);
    }
  }

  // One more batch of blobs that reads other sources.
  lemma {:induction false} UseMore(specs: seq<BlobSpec>, a: set<string>, more: seq<BlobSpec>, b: set<string>)
    requires Uses(specs) == multiset(a) && Uses(more) == multiset(b) && a !! b
    ensures Uses(specs + more) == multiset(a + b)
  {
    UsesJoin(specs, more);
    OnceEach(a, b);
  }

  // A blob of some group's plan.
  ghost predicate FromGroup(b: BlobSpec, groups: Groups, quantize: string, policy: Policy) {
    exists g, specs, n: nat ::
      g in groups && GroupPlan(g, groups[g], specs, n, quantize, policy) && b in Blobs(g, specs)
  }

  ghost predicate AllFromGroups(blobs: seq<BlobSpec>, groups: Groups, quantize: string, policy: Policy) {
    forall i :: 0 <= i < |blobs| ==> FromGroup(blobs[i], groups, quantize, policy)
  }

  method PlanOneGroup(groups: Groups, g: string, quantize: string, policy: Policy) returns (r: Result<seq<BlobSpec>, string>)
    requires g in groups
    ensures r.Ok? <==> Stackable(g, groups[g])
    ensures r.Ok? ==> Uses(r.value) == multiset(NameSet(groups[g])) && AllFromGroups(r.value, groups, quantize, policy)
  {
    r := PlanExpertGroup(g, groups[g], quantize, policy);
    if r.Ok? {
      GroupRead(groups, g, r.value, quantize, policy);
    }
  }

  lemma {:induction false} GroupRead(groups: Groups, g: string, blobs: seq<BlobSpec>, quantize: string, policy: Policy)
    requires g in groups && AllParse(g, NamesOf(groups[g]))
    requires exists specs, n: nat :: GroupPlan(g, groups[g], specs, n, quantize, policy) && blobs == Blobs(g, specs)
    ensures Uses(blobs) == multiset(NameSet(groups[g])) && AllFromGroups(blobs, groups, quantize, policy)
  {
    var specs, n: nat :| GroupPlan(g, groups[g], specs, n, quantize, policy) && blobs == Blobs(g, specs);
    GroupUses(g, groups[g], specs, n, quantize, policy);
    forall i | 0 <= i < |blobs| ensures FromGroup(blobs[i], groups, quantize, policy) {
      assert blobs[i] in Blobs(g, specs);
    }
  }

  // The groups in done are planned: each member is read once.
  ghost predicate GroupsPlanned(specs: seq<BlobSpec>, groups: Groups, done: set<string>, quantize: string, policy: Policy) {
    && AllFromGroups(specs, groups, quantize, policy)
    && Uses(specs) == multiset(MembersOf(groups, done))
    && forall g :: g in done && g in groups ==> Stackable(g, groups[g])
  }

  lemma {:induction false} PlannedMore(specs: seq<BlobSpec>, groups: Groups, done: set<string>, g: string, more: seq<BlobSpec>,
                                       quantize: string, policy: Policy)
    requires GroupsApart(groups) && GroupsPlanned(specs, groups, done, quantize, policy)
    requires g in groups && g !in done && Stackable(g, groups[g])
    requires Uses(more) == multiset(NameSet(groups[g])) && AllFromGroups(more, groups, quantize, policy)
    ensures GroupsPlanned(specs + more, groups, done + {g}, quantize, policy)
  {
    MembersMore(groups, done, g);
    UseMore(specs, MembersOf(groups, done), more, NameSet(groups[g]));
    FromGroupsJoin(specs, more, groups, quantize, policy);
  }

  lemma FromGroupsJoin(a: seq<BlobSpec>, b: seq<BlobSpec>, groups: Groups, quantize: string, policy: Policy)
    requires AllFromGroups(a, groups, quantize, policy) && AllFromGroups(b, groups, quantize, policy)
    ensures AllFromGroups(a + b, groups, quantize, policy)
  {
  }

  lemma NonePlanned(groups: Groups, quantize: string, policy: Policy)
    ensures GroupsPlanned([], groups, {}, quantize, policy)
  {
    assert MembersOf(groups, {}) == {};
  }

  ghost predicate AllStackable(groups: Groups) {
    forall g :: g in groups ==> Stackable(g, groups[g])
  }

  lemma OneNotStackable(groups: Groups, g: string)
    requires g in groups && !Stackable(g, groups[g])
    ensures !AllStackable(groups)
  {
  }

  // Plans the groups in name order; stops at the first that cannot be stacked.
  method PlanGroups(groups: Groups, quantize: string, policy: Policy) returns (r: Result<seq<BlobSpec>, string>)
    requires GroupsApart(groups)
    ensures r.Ok? <==> AllStackable(groups)
    ensures r.Ok? ==> GroupsPlanned(r.value, groups, groups.Keys, quantize, policy)
  {
    var gs := Sorted(groups.Keys);
    SortedLists(groups.Keys);
    var specs: seq<BlobSpec> := [];
    ghost var done: set<string> := {};
    NonePlanned(groups, quantize, policy);
    for k := 0 to |gs|
      invariant done == Elements(gs[..k])
      invariant GroupsPlanned(specs, groups, done, quantize, policy)
    {
      ElementsNext(gs, k);
      var planned := PlanOneGroup(groups, gs[k], quantize, policy);
      if planned.Err? {
        OneNotStackable(groups, gs[k]);
        return Err(planned.error);
      }
      PlannedMore(specs, groups, done, gs[k], planned.value, quantize, policy);
      specs := specs + planned.value;
      done := done + {gs[k]};
    }
    assert gs[..|gs|] == gs;
    return Ok(specs);
  }

  // ---------- float sources ----------

  function GroupKey(isLayer: string -> bool): string -> Option<string> {
    (name: string) => PerExpertGroup(name, isLayer)
  }

  function FloatGroups(inv: Inventory, isLayer: string -> bool): Groups {
    GroupsOf(Listing(inv), GroupKey(isLayer))
  }

  function Unkeyed(names: set<string>, key: string -> Option<string>): set<string> {
    set x | x in names && key(x).None?
  }

  function FloatQuantize(t: SourceTensor, quantize: string, policy: Policy): string {
    if quantize == "" then "" else policy(t.name, t.shape, quantize)
  }

  // One source tensor copied into a blob of its own.
  function CopyBlob(t: SourceTensor, q: string): BlobSpec {
    BlobSpec(t.name, [TensorSpec(t.name, [t], TransformNone, q, "", None)], map[])
  }

  ghost predicate PlainFloat(b: BlobSpec, inv: Inventory, quantize: string, policy: Policy) {
    b.name in inv && b == CopyBlob(inv[b.name], FloatQuantize(inv[b.name], quantize, policy))
  }

  lemma CopyUses(t: SourceTensor, q: string)
    ensures Uses([CopyBlob(t, q)]) == multiset({t.name})
  {
    var b := CopyBlob(t, q);
    UsesOne(b);
    TensorUsesOne(b.tensors[0]);
    SourceNamesOne(t);
  }

  method SplitFloat(inv: Inventory, isLayer: string -> bool) returns (groups: Groups, plain: seq<string>)
    requires WellFiled(inv)
    ensures groups == FloatGroups(inv, isLayer)
    ensures Distinct(plain) && Elements(plain) == Unkeyed(inv.Keys, GroupKey(isLayer))
  {
    var names := Sorted(inv.Keys);
    SortedLists(inv.Keys);
    ghost var key := GroupKey(isLayer);
    groups, plain := map[], [];
    ListingLength(inv);
    for i := 0 to |names|
      invariant groups == GroupsOf(Listing(inv)[..i], key)
      invariant PlainSoFar(plain, names[..i], key)
    {
      ElementsNext(names, i);
      GroupsNext(inv, key, i);
      PlainNext(plain, names, key, i);
      var t := inv[names[i]];
      match PerExpertGroup(names[i], isLayer)
      case Some(gp) =>
        groups := groups[gp := (if gp in groups then groups[gp] else []) + [t]];
      case None =>
        plain := plain + [names[i]];
    }
    assert names[..|names|] == names && Listing(inv)[..|names|] == Listing(inv);
  }

  ghost predicate PlainSoFar(plain: seq<string>, names: seq<string>, key: string -> Option<string>) {
    Distinct(plain) && Elements(plain) == Unkeyed(Elements(names), key)
  }

  lemma PlainNext(plain: seq<string>, names: seq<string>, key: string -> Option<string>, i: nat)
    requires Distinct(names) && i < |names| && PlainSoFar(plain, names[..i], key)
    ensures PlainSoFar(if key(names[i]).None? then plain + [names[i]] else plain, names[..i + 1], key)
  {
    ElementsNext(names, i);
    if key(names[i]).None? {
      assert names[i] !in Elements(plain);
      DistinctSnoc(plain, names[i]);
      ElementsSnoc(plain, names[i]);
    }
  }

  lemma ElementsSnoc<T>(s: seq<T>, x: T)
    ensures Elements(s + [x]) == Elements(s) + {x}
  {
    assert x in s + [x];
  }

  lemma ListingLength(inv: Inventory)
    ensures |Listing(inv)| == |Sorted(inv.Keys)|
  {
  }

  lemma GroupsNext(inv: Inventory, key: string -> Option<string>, i: nat)
    requires WellFiled(inv) && i < |Listing(inv)|
    ensures |Listing(inv)| == |Sorted(inv.Keys)| && Sorted(inv.Keys)[i] in inv
    ensures GroupsOf(Listing(inv)[..i + 1], key)
         == Appended(GroupsOf(Listing(inv)[..i], key), key(Sorted(inv.Keys)[i]), inv[Sorted(inv.Keys)[i]])
  {
    ListingNames(inv);
    var tensors := Listing(inv);
    assert tensors[..i + 1][..i] == tensors[..i];
    assert NamesOf(tensors)[i] == tensors[i].name;
    SortedLists(inv.Keys);
    assert Sorted(inv.Keys)[i] in Elements(Sorted(inv.Keys));
  }

  ghost predicate AllPlain(specs: seq<BlobSpec>, names: set<string>, inv: Inventory, quantize: string, policy: Policy) {
    forall i :: 0 <= i < |specs| ==> specs[i].name in names && PlainFloat(specs[i], inv, quantize, policy)
  }

  lemma PlainSnoc(specs: seq<BlobSpec>, b: BlobSpec, names: set<string>, inv: Inventory, quantize: string, policy: Policy)
    requires AllPlain(specs, names, inv, quantize, policy) && PlainFloat(b, inv, quantize, policy)
    ensures AllPlain(specs + [b], names + {b.name}, inv, quantize, policy)
  {
  }

  lemma {:induction false} CopyMore(specs: seq<BlobSpec>, names: set<string>, inv: Inventory, name: string,
                                    quantize: string, policy: Policy)
    requires WellFiled(inv) && name in inv && name !in names
    requires Uses(specs) == multiset(names) && AllPlain(specs, names, inv, quantize, policy)
    ensures var b := CopyBlob(inv[name], FloatQuantize(inv[name], quantize, policy));
      Uses(specs + [b]) == multiset(names + {name}) && AllPlain(specs + [b], names + {name}, inv, quantize, policy)
  {
    var b := CopyBlob(inv[name], FloatQuantize(inv[name], quantize, policy));
    CopyUses(inv[name], FloatQuantize(inv[name], quantize, policy));
    UseMore(specs, names, [b], {name});
    PlainSnoc(specs, b, names, inv, quantize, policy);
  }

  method PlanPlain(inv: Inventory, plain: seq<string>, quantize: string, policy: Policy) returns (specs: seq<BlobSpec>)
    requires WellFiled(inv) && Distinct(plain) && Elements(plain) <= inv.Keys
    ensures Uses(specs) == multiset(Elements(plain)) && AllPlain(specs, Elements(plain), inv, quantize, policy)
  {
    specs := [];
    for i := 0 to |plain|
      invariant Uses(specs) == multiset(Elements(plain[..i])) && AllPlain(specs, Elements(plain[..i]), inv, quantize, policy)
    {
      ElementsNext(plain, i);
      CopyMore(specs, Elements(plain[..i]), inv, plain[i], quantize, policy);
      var t := inv[plain[i]];
      var q := "";
      if quantize != "" {
        q := policy(plain[i], t.shape, quantize);
      }
      specs := specs + [BlobSpec(plain[i], [TensorSpec(plain[i], [t], TransformNone, q, "", None)], map[])];
    }
    assert plain[..|plain|] == plain;
  }

  // Every name is in its group or in none.
  lemma Partition(names: set<string>, key: string -> Option<string>, groups: Groups)
    requires forall g :: GroupRight(groups, names, key, g)
    ensures Unkeyed(names, key) + MembersOf(groups, groups.Keys) == names
    ensures Unkeyed(names, key) !! MembersOf(groups, groups.Keys)
  {
    forall x ensures x in MembersOf(groups, groups.Keys) <==> x in names && key(x).Some? {
      InMembersOf(groups, groups.Keys, x);
      if x in names && key(x).Some? {
        assert GroupRight(groups, names, key, key(x).value);
        assert x in Keyed(names, key, key(x).value);
      }
      if x in MembersOf(groups, groups.Keys) {
        var g :| g in groups && x in NameSet(groups[g]);
        assert GroupRight(groups, names, key, g);
      }
    }
  }

  // A tensor that belongs to no group, copied.
  ghost predicate Ungrouped(b: BlobSpec, inv: Inventory, isLayer: string -> bool, quantize: string, policy: Policy) {
    PerExpertGroup(b.name, isLayer).None? && PlainFloat(b, inv, quantize, policy)
  }

  ghost predicate PlannedFloat(b: BlobSpec, inv: Inventory, isLayer: string -> bool, quantize: string, policy: Policy) {
    Ungrouped(b, inv, isLayer, quantize, policy) || FromGroup(b, FloatGroups(inv, isLayer), quantize, policy)
  }

  ghost predicate AllPlannedFloat(specs: seq<BlobSpec>, inv: Inventory, isLayer: string -> bool, quantize: string, policy: Policy) {
    forall i :: 0 <= i < |specs| ==> PlannedFloat(specs[i], inv, isLayer, quantize, policy)
  }

  // Fails exactly when some group of experts cannot be stacked; otherwise every source
  // tensor is read exactly once, and those outside every group are the ones copied.
  method PlanFloat(inv: Inventory, quantize: string, policy: Policy, isLayer: string -> bool)
    returns (r: Result<seq<BlobSpec>, string>)
    requires WellFiled(inv)
    ensures r.Ok? <==> AllStackable(FloatGroups(inv, isLayer))
    ensures r.Ok? ==> Uses(r.value) == multiset(inv.Keys)
    ensures r.Ok? ==> AllPlannedFloat(r.value, inv, isLayer, quantize, policy)
  {
    var groups, plain := SplitFloat(inv, isLayer);
    var key := GroupKey(isLayer);
    ListingNames(inv);
    GroupsOfApart(Listing(inv), key);
    var specs := PlanPlain(inv, plain, quantize, policy);
    var grouped := PlanGroups(groups, quantize, policy);
    if grouped.Err? {
      return Err(grouped.error);
    }
    forall g ensures GroupRight(groups, inv.Keys, key, g) {
      GroupsAreRight(Listing(inv), key, g);
    }
    Partition(inv.Keys, key, groups);
    UseMore(specs, Elements(plain), grouped.value, MembersOf(groups, groups.Keys));
    return Ok(specs + grouped.value);
  }
}
