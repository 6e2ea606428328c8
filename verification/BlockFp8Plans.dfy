// Planning a block-FP8 source: every FP8 weight is decoded with its scale, alone or with
// its sibling experts; everything else is copied.
module BlockFp8Plans {
  import opened Text
  import opened SortedKeys
  import opened ImportPlan
  import opened ExpertNames
  import opened ExpertGroups
  import opened ExpertPlans
  import opened Fp8ExpertPlans
  import opened PlanUses
  import opened SourcePlans

  function Fp8Weights(inv: Inventory): set<string> {
    set x | x in inv && IsFP8Weight(inv, x)
  }

  // The scales folded into the blobs of their weights.
  function Scales(inv: Inventory): set<string> {
    ScalesOf(inv, Fp8Weights(inv))
  }

  datatype Route = Consumed | Fp8Member(group: string) | Fp8Alone | Member(group: string) | Copied

  function RouteOf(inv: Inventory, isLayer: string -> bool, name: string): Route {
    if name in Scales(inv) then Consumed
    else if IsFP8Weight(inv, name) then
      match PerExpertGroup(name, isLayer)
      case Some(g) => Fp8Member(g)
      case None => Fp8Alone
    else
      match PerExpertGroup(name, isLayer)
      case Some(g) => Member(g)
      case None => Copied
  }

  function MemberKey(inv: Inventory, isLayer: string -> bool): string -> Option<string> {
    (name: string) => match RouteOf(inv, isLayer, name) case Member(g) => Some(g) case _ => None
  }

  function Fp8Key(inv: Inventory, isLayer: string -> bool): string -> Option<string> {
    (name: string) => match RouteOf(inv, isLayer, name) case Fp8Member(g) => Some(g) case _ => None
  }

  function Routed(inv: Inventory, isLayer: string -> bool, names: set<string>, route: Route): set<string> {
    set x | x in names && RouteOf(inv, isLayer, x) == route
  }

  function DecodeBlob(inv: Inventory, weight: SourceTensor, scale: SourceTensor, target: string, policy: Policy): BlobSpec {
    BlobSpec(weight.name,
             [TensorSpec(weight.name, [weight, scale], TransformDecodeFP8, policy(weight.name, weight.shape, target),
                         "BF16", Some(weight.shape))],
             map[])
  }

  ghost predicate DecodedAlone(b: BlobSpec, inv: Inventory, target: string, policy: Policy) {
    && IsFP8Weight(inv, b.name)
    && b == DecodeBlob(inv, inv[b.name], inv[Fp8ScaleFor(inv, b.name).value], target, policy)
  }

  lemma DecodeUses(inv: Inventory, name: string, target: string, policy: Policy)
    requires WellFiled(inv) && IsFP8Weight(inv, name)
    ensures Uses([DecodeBlob(inv, inv[name], inv[Fp8ScaleFor(inv, name).value], target, policy)])
         == multiset{name} + multiset{Fp8ScaleFor(inv, name).value}
  {
    var weight, scale := inv[name], inv[Fp8ScaleFor(inv, name).value];
    var b := DecodeBlob(inv, weight, scale, target, policy);
    UsesOne(b);
    TensorUsesOne(b.tensors[0]);
    SourceNamesTwo(weight, scale);
  }

  method ConsumedScales(inv: Inventory) returns (consumed: set<string>)
    ensures consumed == Scales(inv)
  {
    var names := Sorted(inv.Keys);
    SortedLists(inv.Keys);
    consumed := {};
    for i := 0 to |names|
      invariant consumed == ScalesOf(inv, Fp8Weights(inv) * Elements(names[..i]))
    {
      ElementsNext(names, i);
      var known := Fp8Weights(inv) * Elements(names[..i]);
      if IsFP8Weight(inv, names[i]) {
        consumed := consumed + {Fp8ScaleFor(inv, names[i]).value};
        NewScale(inv, known, names[i]);
        assert Fp8Weights(inv) * Elements(names[..i + 1]) == known + {names[i]};
      } else {
        assert Fp8Weights(inv) * Elements(names[..i + 1]) == known;
      }
    }
    assert names[..|names|] == names && Fp8Weights(inv) * inv.Keys == Fp8Weights(inv);
  }

  // ---------- one pass over the tensors ----------

  // What the blobs emitted so far read: the copied tensors, and the lone FP8 weights with
  // their scales.
  ghost predicate Emitted(specs: seq<BlobSpec>, inv: Inventory, isLayer: string -> bool, names: set<string>) {
    Uses(specs) == multiset(Routed(inv, isLayer, names, Copied))
                 + multiset(WithScales(inv, Routed(inv, isLayer, names, Fp8Alone)))
  }

  // Only tensors without a group, and no scale of a weight, are copied; only FP8 weights
  // without a group are decoded alone.
  ghost predicate PlannedAlone(b: BlobSpec, inv: Inventory, isLayer: string -> bool, target: string, policy: Policy) {
    || (RouteOf(inv, isLayer, b.name) == Copied && PlainFloat(b, inv, "", policy))
    || (RouteOf(inv, isLayer, b.name) == Fp8Alone && DecodedAlone(b, inv, target, policy))
  }

  ghost predicate AllAlone(specs: seq<BlobSpec>, inv: Inventory, isLayer: string -> bool, target: string, policy: Policy) {
    forall i :: 0 <= i < |specs| ==> PlannedAlone(specs[i], inv, isLayer, target, policy)
  }

  lemma RoutedNext(inv: Inventory, isLayer: string -> bool, names: set<string>, x: string, route: Route)
    requires x !in names
    ensures Routed(inv, isLayer, names + {x}, route)
         == if RouteOf(inv, isLayer, x) == route then Routed(inv, isLayer, names, route) + {x} else Routed(inv, isLayer, names, route)
  {
  }

  lemma WithScalesNext(inv: Inventory, weights: set<string>, x: string)
    requires AllWeights(weights + {x}) && Fp8ScaleFor(inv, x).Some? && x !in weights
    ensures multiset(WithScales(inv, weights + {x}))
         == multiset(WithScales(inv, weights)) + multiset{x} + multiset{Fp8ScaleFor(inv, x).value}
  {
    var scale := Fp8ScaleFor(inv, x).value;
    NewScale(inv, weights, x);
    WeightsAndScalesDiffer(inv, weights + {x}, weights + {x});
    OnceEach(weights, {x});
    OnceEach(ScalesOf(inv, weights), {scale});
    OnceEach(weights, ScalesOf(inv, weights));
    OnceEach(weights + {x}, ScalesOf(inv, weights + {x}));
  }

  lemma EmitCopied(specs: seq<BlobSpec>, inv: Inventory, isLayer: string -> bool, names: set<string>, x: string)
    requires WellFiled(inv) && Emitted(specs, inv, isLayer, names) && x !in names && x in inv
    requires RouteOf(inv, isLayer, x) == Copied
    ensures Emitted(specs + [CopyBlob(inv[x], "")], inv, isLayer, names + {x})
  {
    CopyUses(inv[x], "");
    UsesJoin(specs, [CopyBlob(inv[x], "")]);
    RoutedNext(inv, isLayer, names, x, Copied);
    RoutedNext(inv, isLayer, names, x, Fp8Alone);
    OnceEach(Routed(inv, isLayer, names, Copied), {x});
  }

  lemma EmitDecoded(specs: seq<BlobSpec>, inv: Inventory, isLayer: string -> bool, names: set<string>, x: string,
                    target: string, policy: Policy)
    requires WellFiled(inv) && Emitted(specs, inv, isLayer, names) && x !in names
    requires RouteOf(inv, isLayer, x) == Fp8Alone
    ensures Emitted(specs + [DecodeBlob(inv, inv[x], inv[Fp8ScaleFor(inv, x).value], target, policy)],
                    inv, isLayer, names + {x})
  {
    DecodeUses(inv, x, target, policy);
    UsesJoin(specs, [DecodeBlob(inv, inv[x], inv[Fp8ScaleFor(inv, x).value], target, policy)]);
    RoutedNext(inv, isLayer, names, x, Copied);
    RoutedNext(inv, isLayer, names, x, Fp8Alone);
    WithScalesNext(inv, Routed(inv, isLayer, names, Fp8Alone), x);
  }

  lemma EmitNothing(specs: seq<BlobSpec>, inv: Inventory, isLayer: string -> bool, names: set<string>, x: string)
    requires Emitted(specs, inv, isLayer, names) && x !in names
    requires RouteOf(inv, isLayer, x) != Copied && RouteOf(inv, isLayer, x) != Fp8Alone
    ensures Emitted(specs, inv, isLayer, names + {x})
  {
    RoutedNext(inv, isLayer, names, x, Copied);
    RoutedNext(inv, isLayer, names, x, Fp8Alone);
  }

  lemma EmittedNone(inv: Inventory, isLayer: string -> bool)
    ensures Emitted([], inv, isLayer, {})
  {
    assert Routed(inv, isLayer, {}, Copied) == {} && Routed(inv, isLayer, {}, Fp8Alone) == {};
    NoScales(inv);
  }

  datatype Pass = Pass(specs: seq<BlobSpec>, groups: Groups, fp8Groups: Groups)

  // Where one tensor goes.
  function Send(pass: Pass, inv: Inventory, route: Route, name: string, target: string, policy: Policy): Pass
    requires name in inv && (route == Fp8Alone ==> Fp8ScaleFor(inv, name).Some?)
  {
    match route
    case Consumed => pass
    case Fp8Member(g) => pass.(fp8Groups := Appended(pass.fp8Groups, Some(g), inv[name]))
    case Fp8Alone =>
      pass.(specs := pass.specs + [DecodeBlob(inv, inv[name], inv[Fp8ScaleFor(inv, name).value], target, policy)])
    case Member(g) => pass.(groups := Appended(pass.groups, Some(g), inv[name]))
    case Copied => pass.(specs := pass.specs + [CopyBlob(inv[name], "")])
  }

  ghost predicate PassRight(pass: Pass, inv: Inventory, isLayer: string -> bool, i: nat, target: string, policy: Policy)
    requires i <= |Sorted(inv.Keys)| == |Listing(inv)|
  {
    && Emitted(pass.specs, inv, isLayer, Elements(Sorted(inv.Keys)[..i]))
    && AllAlone(pass.specs, inv, isLayer, target, policy)
    && pass.groups == GroupsOf(Listing(inv)[..i], MemberKey(inv, isLayer))
    && pass.fp8Groups == GroupsOf(Listing(inv)[..i], Fp8Key(inv, isLayer))
  }

  lemma RouteHasScale(inv: Inventory, isLayer: string -> bool, name: string)
    requires RouteOf(inv, isLayer, name) == Fp8Alone
    ensures IsFP8Weight(inv, name) && Fp8ScaleFor(inv, name).Some?
  {
  }

  lemma SendEmits(pass: Pass, inv: Inventory, isLayer: string -> bool, names: set<string>, name: string, target: string,
                  policy: Policy)
    requires WellFiled(inv) && name in inv && name !in names
    requires Emitted(pass.specs, inv, isLayer, names)
    requires RouteOf(inv, isLayer, name) == Fp8Alone ==> Fp8ScaleFor(inv, name).Some?
    ensures Emitted(Send(pass, inv, RouteOf(inv, isLayer, name), name, target, policy).specs, inv, isLayer, names + {name})
  {
    var route := RouteOf(inv, isLayer, name);
    if route == Copied {
      EmitCopied(pass.specs, inv, isLayer, names, name);
    } else if route == Fp8Alone {
      EmitDecoded(pass.specs, inv, isLayer, names, name, target, policy);
    } else {
      EmitNothing(pass.specs, inv, isLayer, names, name);
    }
  }

  lemma AloneSnoc(specs: seq<BlobSpec>, b: BlobSpec, inv: Inventory, isLayer: string -> bool, target: string, policy: Policy)
    requires AllAlone(specs, inv, isLayer, target, policy) && PlannedAlone(b, inv, isLayer, target, policy)
    ensures AllAlone(specs + [b], inv, isLayer, target, policy)
  {
  }

  lemma SendAlone(pass: Pass, inv: Inventory, isLayer: string -> bool, name: string, target: string, policy: Policy)
    requires WellFiled(inv) && name in inv && AllAlone(pass.specs, inv, isLayer, target, policy)
    requires RouteOf(inv, isLayer, name) == Fp8Alone ==> Fp8ScaleFor(inv, name).Some?
    ensures AllAlone(Send(pass, inv, RouteOf(inv, isLayer, name), name, target, policy).specs, inv, isLayer, target, policy)
  {
    var route := RouteOf(inv, isLayer, name);
    if route == Copied {
      AloneSnoc(pass.specs, CopyBlob(inv[name], ""), inv, isLayer, target, policy);
    } else if route == Fp8Alone {
      RouteHasScale(inv, isLayer, name);
      var b := DecodeBlob(inv, inv[name], inv[Fp8ScaleFor(inv, name).value], target, policy);
      AloneSnoc(pass.specs, b, inv, isLayer, target, policy);
    }
  }

  lemma SendGroups(pass: Pass, inv: Inventory, isLayer: string -> bool, name: string, target: string, policy: Policy)
    requires name in inv && (RouteOf(inv, isLayer, name) == Fp8Alone ==> Fp8ScaleFor(inv, name).Some?)
    ensures var sent := Send(pass, inv, RouteOf(inv, isLayer, name), name, target, policy);
      && sent.groups == Appended(pass.groups, MemberKey(inv, isLayer)(name), inv[name])
      && sent.fp8Groups == Appended(pass.fp8Groups, Fp8Key(inv, isLayer)(name), inv[name])
  {
  }

  lemma SendRight(pass: Pass, inv: Inventory, isLayer: string -> bool, i: nat, target: string, policy: Policy)
    requires WellFiled(inv) && i < |Sorted(inv.Keys)| == |Listing(inv)|
    requires PassRight(pass, inv, isLayer, i, target, policy)
    ensures var name := Sorted(inv.Keys)[i];
      && name in inv && (RouteOf(inv, isLayer, name) == Fp8Alone ==> Fp8ScaleFor(inv, name).Some?)
      && PassRight(Send(pass, inv, RouteOf(inv, isLayer, name), name, target, policy), inv, isLayer, i + 1, target, policy)
  {
    var names := Sorted(inv.Keys);
    var name := names[i];
    SortedLists(inv.Keys);
    ElementsNext(names, i);
    GroupsNext(inv, MemberKey(inv, isLayer), i);
    GroupsNext(inv, Fp8Key(inv, isLayer), i);
    if RouteOf(inv, isLayer, name) == Fp8Alone {
      RouteHasScale(inv, isLayer, name);
    }
    SendEmits(pass, inv, isLayer, Elements(names[..i]), name, target, policy);
    SendAlone(pass, inv, isLayer, name, target, policy);
    SendGroups(pass, inv, isLayer, name, target, policy);
  }

  lemma PassStarts(inv: Inventory, isLayer: string -> bool, target: string, policy: Policy)
    requires |Sorted(inv.Keys)| == |Listing(inv)|
    ensures PassRight(Pass([], map[], map[]), inv, isLayer, 0, target, policy)
  {
    EmittedNone(inv, isLayer);
    assert Elements(Sorted(inv.Keys)[..0]) == {};
  }

  method RouteTensors(inv: Inventory, target: string, policy: Policy, isLayer: string -> bool)
    returns (specs: seq<BlobSpec>, groups: Groups, fp8Groups: Groups)
    requires WellFiled(inv)
    ensures |Sorted(inv.Keys)| == |Listing(inv)|
    ensures PassRight(Pass(specs, groups, fp8Groups), inv, isLayer, |Listing(inv)|, target, policy)
  {
    var consumed := ConsumedScales(inv);
    var names := Sorted(inv.Keys);
    ListingLength(inv);
    specs, groups, fp8Groups := [], map[], map[];
    PassStarts(inv, isLayer, target, policy);
    for i := 0 to |names|
      invariant PassRight(Pass(specs, groups, fp8Groups), inv, isLayer, i, target, policy)
    {
      SendRight(Pass(specs, groups, fp8Groups), inv, isLayer, i, target, policy);
      specs, groups, fp8Groups := RouteOne(inv, consumed, specs, groups, fp8Groups, names[i], target, policy, isLayer);
    }
  }

  method RouteOne(inv: Inventory, consumed: set<string>, specs: seq<BlobSpec>, groups: Groups, fp8Groups: Groups,
                  name: string, target: string, policy: Policy, isLayer: string -> bool)
    returns (specs': seq<BlobSpec>, groups': Groups, fp8Groups': Groups)
    requires consumed == Scales(inv) && name in inv
    requires WellFiled(inv) && (RouteOf(inv, isLayer, name) == Fp8Alone ==> Fp8ScaleFor(inv, name).Some?)
    ensures Pass(specs', groups', fp8Groups')
         == Send(Pass(specs, groups, fp8Groups), inv, RouteOf(inv, isLayer, name), name, target, policy)
  {
    specs', groups', fp8Groups' := specs, groups, fp8Groups;
    if name in consumed {
      return;
    }
    var t := inv[name];
    if IsFP8Weight(inv, name) {
      match PerExpertGroup(name, isLayer)
      case Some(gp) =>
        fp8Groups' := fp8Groups[gp := (if gp in fp8Groups then fp8Groups[gp] else []) + [t]];
      case None =>
        var scale := inv[Fp8ScaleFor(inv, name).value];
        specs' := specs + [BlobSpec(name, [TensorSpec(name, [t, scale], TransformDecodeFP8, policy(name, t.shape, target),
                                                      "BF16", Some(t.shape))], map[])];
    } else {
      match PerExpertGroup(name, isLayer)
      case Some(gp) =>
        groups' := groups[gp := (if gp in groups then groups[gp] else []) + [t]];
      case None =>
        specs' := specs + [BlobSpec(name, [TensorSpec(name, [t], TransformNone, "", "", None)], map[])];
    }
  }

  // ---------- groups of FP8 experts ----------

  ghost predicate FromFp8Group(b: BlobSpec, groups: Groups, inv: Inventory, target: string, policy: Policy) {
    exists g, specs, n: nat ::
      g in groups && Fp8GroupPlan(g, groups[g], specs, n, inv, target, policy) && b in Blobs(g, specs)
  }

  ghost predicate AllFromFp8Groups(blobs: seq<BlobSpec>, groups: Groups, inv: Inventory, target: string, policy: Policy) {
    forall i :: 0 <= i < |blobs| ==> FromFp8Group(blobs[i], groups, inv, target, policy)
  }

  // The groups in done are planned: each member and its scale is read once.
  ghost predicate Fp8GroupsPlanned(specs: seq<BlobSpec>, groups: Groups, inv: Inventory, done: set<string>,
                                   target: string, policy: Policy) {
    && AllFromFp8Groups(specs, groups, inv, target, policy)
    && Uses(specs) == multiset(WithScales(inv, MembersOf(groups, done)))
    && forall g :: g in done && g in groups ==> Fp8Stackable(g, groups[g], inv)
  }

  ghost predicate AllMembersWeights(groups: Groups) {
    forall g :: g in groups ==> AllWeights(NameSet(groups[g]))
  }

  method PlanOneFp8Group(groups: Groups, g: string, inv: Inventory, target: string, policy: Policy)
    returns (r: Result<seq<BlobSpec>, string>)
    requires WellFiled(inv) && g in groups
    ensures r.Ok? <==> Fp8Stackable(g, groups[g], inv)
    ensures r.Ok? ==> Uses(r.value) == multiset(WithScales(inv, NameSet(groups[g])))
    ensures r.Ok? ==> AllFromFp8Groups(r.value, groups, inv, target, policy)
  {
    r := PlanFP8ExpertGroup(g, groups[g], inv, target, policy);
    if r.Ok? {
      Fp8GroupRead(groups, g, inv, r.value, target, policy);
    }
  }

  lemma {:induction false} Fp8GroupRead(groups: Groups, g: string, inv: Inventory, blobs: seq<BlobSpec>, target: string,
                                        policy: Policy)
    requires WellFiled(inv) && g in groups && AllParse(g, NamesOf(groups[g]))
    requires exists specs, n: nat :: Fp8GroupPlan(g, groups[g], specs, n, inv, target, policy) && blobs == Blobs(g, specs)
    ensures Uses(blobs) == multiset(WithScales(inv, NameSet(groups[g])))
    ensures AllFromFp8Groups(blobs, groups, inv, target, policy)
  {
    var specs, n: nat :| Fp8GroupPlan(g, groups[g], specs, n, inv, target, policy) && blobs == Blobs(g, specs);
    Fp8GroupUses(g, groups[g], specs, n, inv, target, policy);
    forall i | 0 <= i < |blobs| ensures FromFp8Group(blobs[i], groups, inv, target, policy) {
      assert blobs[i] in Blobs(g, specs);
    }
  }

  lemma MembersAreWeights(groups: Groups, done: set<string>)
    requires AllMembersWeights(groups)
    ensures AllWeights(MembersOf(groups, done))
  {
    forall x | x in MembersOf(groups, done) ensures HasSuffix(x, ".weight") {
      InMembersOf(groups, done, x);
      var g :| g in groups && g in done && x in NameSet(groups[g]);
      assert AllWeights(NameSet(groups[g]));
    }
  }

  lemma {:induction false} Fp8PlannedMore(specs: seq<BlobSpec>, groups: Groups, inv: Inventory, done: set<string>, g: string,
                                          more: seq<BlobSpec>, target: string, policy: Policy)
    requires GroupsApart(groups) && AllMembersWeights(groups)
    requires Fp8GroupsPlanned(specs, groups, inv, done, target, policy)
    requires g in groups && g !in done && Fp8Stackable(g, groups[g], inv)
    requires Uses(more) == multiset(WithScales(inv, NameSet(groups[g]))) && AllFromFp8Groups(more, groups, inv, target, policy)
    ensures Fp8GroupsPlanned(specs + more, groups, inv, done + {g}, target, policy)
  {
    MembersMore(groups, done, g);
    MembersAreWeights(groups, done);
    UseMoreWithScales(specs, MembersOf(groups, done), more, NameSet(groups[g]), inv);
    FromFp8GroupsJoin(specs, more, groups, inv, target, policy);
  }

  lemma FromFp8GroupsJoin(a: seq<BlobSpec>, b: seq<BlobSpec>, groups: Groups, inv: Inventory, target: string, policy: Policy)
    requires AllFromFp8Groups(a, groups, inv, target, policy) && AllFromFp8Groups(b, groups, inv, target, policy)
    ensures AllFromFp8Groups(a + b, groups, inv, target, policy)
  {
  }

  lemma {:induction false} UseMoreWithScales(specs: seq<BlobSpec>, a: set<string>, more: seq<BlobSpec>, b: set<string>,
                                             inv: Inventory)
    requires a !! b && AllWeights(a) && AllWeights(b)
    requires Uses(specs) == multiset(WithScales(inv, a)) && Uses(more) == multiset(WithScales(inv, b))
    ensures Uses(specs + more) == multiset(WithScales(inv, a + b))
  {
    WithScalesJoin(inv, a, b);
    UseMore(specs, WithScales(inv, a), more, WithScales(inv, b));
  }

  lemma WithScalesJoin(inv: Inventory, a: set<string>, b: set<string>)
    requires a !! b && AllWeights(a) && AllWeights(b)
    ensures WithScales(inv, a) !! WithScales(inv, b)
    ensures WithScales(inv, a + b) == WithScales(inv, a) + WithScales(inv, b)
  {
    WithScalesDisjoint(inv, a, b);
    ScalesJoin(inv, a, b);
  }

  lemma NoFp8Planned(groups: Groups, inv: Inventory, target: string, policy: Policy)
    ensures Fp8GroupsPlanned([], groups, inv, {}, target, policy)
  {
    assert MembersOf(groups, {}) == {};
    NoScales(inv);
  }

  ghost predicate AllFp8Stackable(groups: Groups, inv: Inventory) {
    forall g :: g in groups ==> Fp8Stackable(g, groups[g], inv)
  }

  lemma OneNotFp8Stackable(groups: Groups, inv: Inventory, g: string)
    requires g in groups && !Fp8Stackable(g, groups[g], inv)
    ensures !AllFp8Stackable(groups, inv)
  {
  }

  method PlanFp8Groups(groups: Groups, inv: Inventory, target: string, policy: Policy)
    returns (r: Result<seq<BlobSpec>, string>)
    requires WellFiled(inv) && GroupsApart(groups) && AllMembersWeights(groups)
    ensures r.Ok? <==> AllFp8Stackable(groups, inv)
    ensures r.Ok? ==> Fp8GroupsPlanned(r.value, groups, inv, groups.Keys, target, policy)
  {
    var gs := Sorted(groups.Keys);
    SortedLists(groups.Keys);
    var specs: seq<BlobSpec> := [];
    ghost var done: set<string> := {};
    NoFp8Planned(groups, inv, target, policy);
    for k := 0 to |gs|
      invariant done == Elements(gs[..k])
      invariant Fp8GroupsPlanned(specs, groups, inv, done, target, policy)
    {
      ElementsNext(gs, k);
      var planned := PlanOneFp8Group(groups, gs[k], inv, target, policy);
      if planned.Err? {
        OneNotFp8Stackable(groups, inv, gs[k]);
        return Err(planned.error);
      }
      Fp8PlannedMore(specs, groups, inv, done, gs[k], planned.value, target, policy);
      specs := specs + planned.value;
      done := done + {gs[k]};
    }
    assert gs[..|gs|] == gs;
    return Ok(specs);
  }

  // ---------- the whole source ----------

  function MemberGroups(inv: Inventory, isLayer: string -> bool): Groups {
    GroupsOf(Listing(inv), MemberKey(inv, isLayer))
  }

  function Fp8Groups(inv: Inventory, isLayer: string -> bool): Groups {
    GroupsOf(Listing(inv), Fp8Key(inv, isLayer))
  }

  lemma KeyedMembers(inv: Inventory, key: string -> Option<string>)
    requires WellFiled(inv)
    ensures var groups := GroupsOf(Listing(inv), key);
      GroupsApart(groups) && MembersOf(groups, groups.Keys) == set x | x in inv && key(x).Some?
  {
    var groups := GroupsOf(Listing(inv), key);
    ListingNames(inv);
    GroupsOfApart(Listing(inv), key);
    forall g ensures GroupRight(groups, inv.Keys, key, g) {
      GroupsAreRight(Listing(inv), key, g);
    }
    Partition(inv.Keys, key, groups);
    assert MembersOf(groups, groups.Keys) == inv.Keys - Unkeyed(inv.Keys, key);
  }

  lemma Fp8MembersAreWeights(inv: Inventory, isLayer: string -> bool)
    requires WellFiled(inv)
    ensures AllMembersWeights(Fp8Groups(inv, isLayer))
  {
    var groups, key := Fp8Groups(inv, isLayer), Fp8Key(inv, isLayer);
    ListingNames(inv);
    forall g, x | g in groups && x in NameSet(groups[g]) ensures HasSuffix(x, ".weight") {
      GroupsAreRight(Listing(inv), key, g);
      assert key(x) == Some(g);
    }
  }

  // Copied tensors, members of groups, and FP8 weights with their scales are all there is.
  lemma RoutesPartition(inv: Inventory, isLayer: string -> bool)
    requires WellFiled(inv)
    ensures var copied, alone := Routed(inv, isLayer, inv.Keys, Copied), Routed(inv, isLayer, inv.Keys, Fp8Alone);
      var members := MembersOf(MemberGroups(inv, isLayer), MemberGroups(inv, isLayer).Keys);
      var fp8Members := MembersOf(Fp8Groups(inv, isLayer), Fp8Groups(inv, isLayer).Keys);
      multiset(copied) + multiset(WithScales(inv, alone)) + multiset(members) + multiset(WithScales(inv, fp8Members))
        == multiset(inv.Keys)
  {
    var copied, alone := Routed(inv, isLayer, inv.Keys, Copied), Routed(inv, isLayer, inv.Keys, Fp8Alone);
    var members := MembersOf(MemberGroups(inv, isLayer), MemberGroups(inv, isLayer).Keys);
    var fp8Members := MembersOf(Fp8Groups(inv, isLayer), Fp8Groups(inv, isLayer).Keys);
    KeyedMembers(inv, MemberKey(inv, isLayer));
    KeyedMembers(inv, Fp8Key(inv, isLayer));
    WeightRoutes(inv, isLayer, alone, fp8Members);
    OtherRoutes(inv, isLayer, copied, members);
    ScalesAreNoWeights(inv);
    CountParts(inv, copied, alone, members, fp8Members);
  }

  lemma WeightRoutes(inv: Inventory, isLayer: string -> bool, alone: set<string>, members: set<string>)
    requires alone == Routed(inv, isLayer, inv.Keys, Fp8Alone)
    requires members == set x | x in inv && Fp8Key(inv, isLayer)(x).Some?
    ensures alone + members == Fp8Weights(inv) && alone !! members
  {
    ScalesAreNoWeights(inv);
    forall x | x in inv ensures x in alone + members <==> x in Fp8Weights(inv) {
      if IsFP8Weight(inv, x) {
        assert x in Fp8Weights(inv) && x !in Scales(inv);
      }
    }
  }

  lemma OtherRoutes(inv: Inventory, isLayer: string -> bool, copied: set<string>, members: set<string>)
    requires copied == Routed(inv, isLayer, inv.Keys, Copied)
    requires members == set x | x in inv && MemberKey(inv, isLayer)(x).Some?
    ensures copied + members == inv.Keys - (Fp8Weights(inv) + Scales(inv)) && copied !! members
  {
    forall x | x in inv ensures x in copied + members <==> x !in Fp8Weights(inv) && x !in Scales(inv) {
    }
  }

  lemma CountParts(inv: Inventory, copied: set<string>, alone: set<string>, members: set<string>, fp8Members: set<string>)
    requires alone + fp8Members == Fp8Weights(inv) && alone !! fp8Members && AllWeights(Fp8Weights(inv))
    requires copied + members == inv.Keys - (Fp8Weights(inv) + Scales(inv)) && copied !! members
    ensures multiset(copied) + multiset(WithScales(inv, alone)) + multiset(members) + multiset(WithScales(inv, fp8Members))
         == multiset(inv.Keys)
  {
    var folded := WithScales(inv, Fp8Weights(inv));
    assert AllWeights(alone) && AllWeights(fp8Members);
    WithScalesJoin(inv, alone, fp8Members);
    OnceEach(WithScales(inv, alone), WithScales(inv, fp8Members));
    OnceEach(copied, members);
    ScalesListed(inv);
    OnceEach(copied + members, folded);
    assert (copied + members) + folded == inv.Keys;
  }

  lemma ScalesAreNoWeights(inv: Inventory)
    ensures AllWeights(Fp8Weights(inv)) && Fp8Weights(inv) !! Scales(inv)
  {
    WeightsAndScalesDiffer(inv, Fp8Weights(inv), Fp8Weights(inv));
  }

  lemma ScalesListed(inv: Inventory)
    ensures Scales(inv) <= inv.Keys
  {
  }

  ghost predicate PlannedBlockFP8(b: BlobSpec, inv: Inventory, isLayer: string -> bool, target: string, policy: Policy) {
    || PlannedAlone(b, inv, isLayer, target, policy)
    || FromGroup(b, MemberGroups(inv, isLayer), "", policy)
    || FromFp8Group(b, Fp8Groups(inv, isLayer), inv, target, policy)
  }

  // Fails exactly when some group cannot be stacked; otherwise every source tensor, scales
  // included, is read exactly once.
  method PlanBlockFP8(inv: Inventory, target: string, policy: Policy, isLayer: string -> bool)
    returns (r: Result<seq<BlobSpec>, string>)
    requires WellFiled(inv)
    ensures r.Ok? <==> AllStackable(MemberGroups(inv, isLayer)) && AllFp8Stackable(Fp8Groups(inv, isLayer), inv)
    ensures r.Ok? ==> Uses(r.value) == multiset(inv.Keys)
    ensures r.Ok? ==> AllPlannedFP8(r.value, inv, isLayer, target, policy)
  {
    var specs, groups, fp8Groups := RouteTensors(inv, target, policy, isLayer);
    PassDone(inv, isLayer, specs, groups, fp8Groups, target, policy);
    KeyedMembers(inv, MemberKey(inv, isLayer));
    KeyedMembers(inv, Fp8Key(inv, isLayer));
    Fp8MembersAreWeights(inv, isLayer);
    var grouped := PlanGroups(groups, "", policy);
    if grouped.Err? {
      return Err(grouped.error);
    }
    var decoded := PlanFp8Groups(fp8Groups, inv, target, policy);
    if decoded.Err? {
      return Err(decoded.error);
    }
    JoinParts(inv, isLayer, specs, grouped.value, decoded.value, target, policy);
    return Ok(specs + grouped.value + decoded.value);
  }

  ghost predicate AllPlannedFP8(specs: seq<BlobSpec>, inv: Inventory, isLayer: string -> bool, target: string, policy: Policy) {
    forall i :: 0 <= i < |specs| ==> PlannedBlockFP8(specs[i], inv, isLayer, target, policy)
  }

  lemma {:induction false} JoinParts(inv: Inventory, isLayer: string -> bool, specs: seq<BlobSpec>, grouped: seq<BlobSpec>,
                                     decoded: seq<BlobSpec>, target: string, policy: Policy)
    requires WellFiled(inv) && Emitted(specs, inv, isLayer, inv.Keys)
    requires AllAlone(specs, inv, isLayer, target, policy)
    requires var groups := MemberGroups(inv, isLayer); GroupsPlanned(grouped, groups, groups.Keys, "", policy)
    requires var groups := Fp8Groups(inv, isLayer); Fp8GroupsPlanned(decoded, groups, inv, groups.Keys, target, policy)
    ensures Uses(specs + grouped + decoded) == multiset(inv.Keys)
    ensures AllPlannedFP8(specs + grouped + decoded, inv, isLayer, target, policy)
  {
    UsesJoin(specs, grouped);
    UsesJoin(specs + grouped, decoded);
    RoutesPartition(inv, isLayer);
    var all := specs + grouped + decoded;
    forall i | 0 <= i < |all| ensures PlannedBlockFP8(all[i], inv, isLayer, target, policy) {
      if i < |specs| {
        assert all[i] == specs[i];
      } else if i < |specs| + |grouped| {
        assert all[i] == grouped[i - |specs|];
      } else {
        assert all[i] == decoded[i - |specs| - |grouped|];
      }
    }
  }

  lemma PassDone(inv: Inventory, isLayer: string -> bool, specs: seq<BlobSpec>, groups: Groups, fp8Groups: Groups,
                 target: string, policy: Policy)
    requires |Sorted(inv.Keys)| == |Listing(inv)|
    requires PassRight(Pass(specs, groups, fp8Groups), inv, isLayer, |Listing(inv)|, target, policy)
    ensures Emitted(specs, inv, isLayer, inv.Keys)
    ensures AllAlone(specs, inv, isLayer, target, policy)
    ensures groups == MemberGroups(inv, isLayer) && fp8Groups == Fp8Groups(inv, isLayer)
  {
    SortedLists(inv.Keys);
    assert Sorted(inv.Keys)[..|Listing(inv)|] == Sorted(inv.Keys) && Listing(inv)[..|Listing(inv)|] == Listing(inv);
  }
}
