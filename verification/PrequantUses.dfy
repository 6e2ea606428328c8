// A prequantized plan without colliding names reads every tensor once, except the
// activation scales, which it does not read.
module PrequantUses {
  import opened SortedKeys
  import opened ImportPlan
  import opened SourcePlans
  import opened PrequantPlans

  // A suffix that starts with a dot and has no other.
  predicate IsExt(s: string) {
    s != "" && s[0] == '.' && forall i :: 1 <= i < |s| ==> s[i] != '.'
  }

  lemma LastDot(a: string, s: string)
    requires IsExt(s)
    ensures (a + s)[|a|] == '.' && forall k :: |a| < k < |a + s| ==> (a + s)[k] != '.'
  {
  }

  // The last dot tells where such a suffix starts.
  lemma ExtUnique(a: string, s: string, b: string, t: string)
    requires IsExt(s) && IsExt(t) && a + s == b + t
    ensures a == b && s == t
  {
    var whole := a + s;
    LastDot(a, s);
    LastDot(b, t);
    assert a == whole[..|a|] && b == whole[..|b|];
    assert s == whole[|a|..] && t == whole[|b|..];
  }

  function FusedSuffixes(p: Pattern): set<string> {
    {p.scaleSuffix, p.biasSuffix, p.globalSuffix} - {""}
  }

  function IgnoredSuffixes(p: Pattern): set<string> {
    set s | s in p.ignoreSuffixes
  }

  predicate PatternOk(p: Pattern) {
    && IsExt(p.weightSuffix) && p.scaleSuffix != ""
    && (forall s :: s in FusedSuffixes(p) + IgnoredSuffixes(p) ==> IsExt(s))
    && FusedSuffixes(p) !! IgnoredSuffixes(p)
    && p.scaleSuffix != p.biasSuffix && p.scaleSuffix != p.globalSuffix
    && (p.biasSuffix != "" ==> p.biasSuffix != p.globalSuffix)
  }

  // What the table of patterns must keep to: suffixes of the right shape, no suffix
  // used twice in a pattern, and no companion suffix that is a weight suffix.
  ghost predicate TableOk(patterns: seq<Pattern>) {
    && (forall p :: p in patterns ==> PatternOk(p))
    && (forall p, q :: p in patterns && q in patterns ==> q.weightSuffix !in FusedSuffixes(p) + IgnoredSuffixes(p))
  }

  // ---------- what one tensor's blob reads ----------

  function Reads(inv: Inventory, patterns: seq<Pattern>, name: string): set<string> {
    match FirstMatch(name, inv, patterns)
    case Some(m) => {name} + Fused(inv, m)
    case None => if name in AllConsumed(inv, patterns, inv.Keys) then {} else {name}
  }

  lemma OneSource(ts: TensorSpec, t: SourceTensor)
    requires ts.sources == [t]
    ensures TensorUses([ts]) == multiset{t.name}
  {
    TensorUsesOne(ts);
    SourceNamesOne(t);
  }

  function IfThere(inv: Inventory, base: string, suffix: string): set<string> {
    if Companion(inv, base, suffix) then {base + suffix} else {}
  }

  lemma FusedParts(inv: Inventory, m: Match)
    requires PatternOk(m.pattern) && m.base + m.pattern.scaleSuffix in inv
    ensures var p, b := m.pattern, m.base;
      Fused(inv, m) == {b + p.scaleSuffix} + IfThere(inv, b, p.biasSuffix) + IfThere(inv, b, p.globalSuffix)
  {
  }

  lemma PartsUses(inv: Inventory, p: Pattern, base: string)
    requires WellFiled(inv)
    ensures TensorUses(BiasTensors(inv, p, base)) == multiset(IfThere(inv, base, p.biasSuffix))
    ensures TensorUses(GlobalTensors(inv, p, base)) == multiset(IfThere(inv, base, p.globalSuffix))
  {
    if Companion(inv, base, p.biasSuffix) {
      OneSource(BiasTensors(inv, p, base)[0], inv[base + p.biasSuffix]);
    }
    if Companion(inv, base, p.globalSuffix) {
      OneSource(GlobalTensors(inv, p, base)[0], inv[base + p.globalSuffix]);
    }
  }

  lemma SuffixesDiffer(base: string, s: string, t: string)
    requires s != t
    ensures base + s != base + t
  {
    assert (base + s)[|base|..] == s && (base + t)[|base|..] == t;
  }

  lemma FuseSum(inv: Inventory, m: Match, name: string, config: map<string, string>)
    requires WellFiled(inv) && name in inv && m.base + m.pattern.scaleSuffix in inv
    ensures var p, b := m.pattern, m.base;
      Uses([Fuse(inv, m, name, config)]) == multiset{name} + multiset{b + p.scaleSuffix}
        + multiset(IfThere(inv, b, p.biasSuffix)) + multiset(IfThere(inv, b, p.globalSuffix))
  {
    var p, b := m.pattern, m.base;
    var scale := inv[b + p.scaleSuffix];
    var w, s := WeightTensor(p, OutWeight(b), inv[name]), ScaleTensor(p, OutWeight(b), scale);
    var bias, global := BiasTensors(inv, p, b), GlobalTensors(inv, p, b);
    UsesOne(Fuse(inv, m, name, config));
    TensorUsesJoin([w, s] + bias, global);
    TensorUsesJoin([w, s], bias);
    TensorUsesJoin([w], [s]);
    assert [w] + [s] == [w, s];
    OneSource(w, inv[name]);
    OneSource(s, scale);
    PartsUses(inv, p, b);
  }

  lemma PartsDiffer(inv: Inventory, p: Pattern, b: string)
    requires PatternOk(p) && p.weightSuffix !in FusedSuffixes(p)
    ensures var name, scale := b + p.weightSuffix, b + p.scaleSuffix;
      var bias, global := IfThere(inv, b, p.biasSuffix), IfThere(inv, b, p.globalSuffix);
      name != scale && name !in bias && name !in global && scale !in bias && scale !in global && bias !! global
  {
    SuffixesDiffer(b, p.weightSuffix, p.scaleSuffix);
    SuffixesDiffer(b, p.scaleSuffix, p.biasSuffix);
    SuffixesDiffer(b, p.scaleSuffix, p.globalSuffix);
    if p.biasSuffix != "" {
      SuffixesDiffer(b, p.weightSuffix, p.biasSuffix);
      SuffixesDiffer(b, p.biasSuffix, p.globalSuffix);
    }
    if p.globalSuffix != "" {
      SuffixesDiffer(b, p.weightSuffix, p.globalSuffix);
    }
  }

  lemma FuseUses(inv: Inventory, m: Match, config: map<string, string>)
    requires WellFiled(inv) && PatternOk(m.pattern) && m.base + m.pattern.scaleSuffix in inv
    requires m.base + m.pattern.weightSuffix in inv
    requires m.pattern.weightSuffix !in FusedSuffixes(m.pattern)
    ensures var name := m.base + m.pattern.weightSuffix;
      Uses([Fuse(inv, m, name, config)]) == multiset({name} + Fused(inv, m))
  {
    var p, b := m.pattern, m.base;
    FuseSum(inv, m, b + p.weightSuffix, config);
    FusedParts(inv, m);
    PartsDiffer(inv, p, b);
    SumParts(b + p.weightSuffix, b + p.scaleSuffix, IfThere(inv, b, p.biasSuffix), IfThere(inv, b, p.globalSuffix));
  }

  lemma SumParts(name: string, scale: string, bias: set<string>, global: set<string>)
    requires name != scale && name !in bias && name !in global && scale !in bias && scale !in global && bias !! global
    ensures multiset{name} + multiset{scale} + multiset(bias) + multiset(global)
         == multiset({name} + ({scale} + bias + global))
  {
  }

  lemma EmitUses(inv: Inventory, patterns: seq<Pattern>, config: map<string, string>, name: string)
    requires WellFiled(inv) && TableOk(patterns) && name in inv
    ensures Uses(Emit(inv, patterns, config, name)) == multiset(Reads(inv, patterns, name))
  {
    match FirstMatch(name, inv, patterns)
    case Some(m) =>
      FirstMatchFits(name, inv, patterns);
      FuseUses(inv, m, config);
    case None =>
      CopyUses(inv[name], "");
  }

  // ---------- no two blobs read the same tensor ----------

  // A companion of a matched weight, split at its last dot.
  lemma CompanionSplit(inv: Inventory, patterns: seq<Pattern>, n: string, c: string) returns (s: string)
    requires TableOk(patterns) && FirstMatch(n, inv, patterns).Some?
    requires var m := FirstMatch(n, inv, patterns).value; c in Fused(inv, m) + Dropped(inv, m)
    ensures var m := FirstMatch(n, inv, patterns).value;
      && m.pattern in patterns && c == m.base + s && IsExt(s) && s in FusedSuffixes(m.pattern) + IgnoredSuffixes(m.pattern)
      && (c in Fused(inv, m) <==> s in FusedSuffixes(m.pattern))
      && (c in Dropped(inv, m) <==> s in IgnoredSuffixes(m.pattern))
  {
    var m := FirstMatch(n, inv, patterns).value;
    var p := m.pattern;
    FirstMatchFits(n, inv, patterns);
    s :| s in FusedSuffixes(p) + IgnoredSuffixes(p) && c == m.base + s && c in inv;
    forall t | t in FusedSuffixes(p) + IgnoredSuffixes(p) && c == m.base + t ensures t == s {
      ExtUnique(m.base, s, m.base, t);
    }
  }

  // Weights with different bases have no companion in common.
  lemma {:induction false} CompanionsApart(inv: Inventory, patterns: seq<Pattern>, a: string, b: string, c: string)
    requires TableOk(patterns) && FirstMatch(a, inv, patterns).Some? && FirstMatch(b, inv, patterns).Some?
    requires var m := FirstMatch(a, inv, patterns).value; c in Fused(inv, m) + Dropped(inv, m)
    requires var m := FirstMatch(b, inv, patterns).value; c in Fused(inv, m) + Dropped(inv, m)
    ensures FirstMatch(a, inv, patterns).value.base == FirstMatch(b, inv, patterns).value.base
  {
    var s := CompanionSplit(inv, patterns, a, c);
    var t := CompanionSplit(inv, patterns, b, c);
    ExtUnique(FirstMatch(a, inv, patterns).value.base, s, FirstMatch(b, inv, patterns).value.base, t);
  }

  // A weight is nobody's companion.
  lemma {:induction false} WeightIsNoCompanion(inv: Inventory, patterns: seq<Pattern>, w: string, n: string)
    requires TableOk(patterns) && FirstMatch(w, inv, patterns).Some? && FirstMatch(n, inv, patterns).Some?
    ensures var m := FirstMatch(n, inv, patterns).value; w !in Fused(inv, m) + Dropped(inv, m)
  {
    var m := FirstMatch(n, inv, patterns).value;
    if w in Fused(inv, m) + Dropped(inv, m) {
      var s := CompanionSplit(inv, patterns, n, w);
      FirstMatchFits(w, inv, patterns);
      var mine := FirstMatch(w, inv, patterns).value;
      ExtUnique(m.base, s, mine.base, mine.pattern.weightSuffix);
    }
  }

  predicate Matched(inv: Inventory, patterns: seq<Pattern>, name: string) {
    name in inv && FirstMatch(name, inv, patterns).Some?
  }

  function BaseOf(inv: Inventory, patterns: seq<Pattern>, name: string): string
    requires Matched(inv, patterns, name)
  {
    FirstMatch(name, inv, patterns).value.base
  }

  // Matched weights all have bases of their own.
  ghost predicate BasesDiffer(inv: Inventory, patterns: seq<Pattern>) {
    forall a, b :: Matched(inv, patterns, a) && Matched(inv, patterns, b) && a != b ==>
      BaseOf(inv, patterns, a) != BaseOf(inv, patterns, b)
  }

  lemma {:induction false} CompanionConsumed(inv: Inventory, patterns: seq<Pattern>, n: string, c: string)
    requires Matched(inv, patterns, n)
    requires var m := FirstMatch(n, inv, patterns).value; c in Fused(inv, m) + Dropped(inv, m)
    ensures c in AllConsumed(inv, patterns, inv.Keys)
  {
  }

  lemma {:induction false} FusedReadOnce(inv: Inventory, patterns: seq<Pattern>, a: string, b: string, c: string)
    requires TableOk(patterns) && BasesDiffer(inv, patterns) && Matched(inv, patterns, a) && b in inv && a != b
    requires c in Fused(inv, FirstMatch(a, inv, patterns).value)
    ensures c !in Reads(inv, patterns, b)
  {
    CompanionConsumed(inv, patterns, a, c);
    if Matched(inv, patterns, b) {
      WeightIsNoCompanion(inv, patterns, b, a);
      assert BaseOf(inv, patterns, a) != BaseOf(inv, patterns, b);
      if c in Fused(inv, FirstMatch(b, inv, patterns).value) {
        CompanionsApart(inv, patterns, a, b, c);
      }
    }
  }

  lemma ReadsApart(inv: Inventory, patterns: seq<Pattern>, a: string, b: string, c: string)
    requires TableOk(patterns) && BasesDiffer(inv, patterns) && a in inv && b in inv && a != b
    requires c in Reads(inv, patterns, a)
    ensures c !in Reads(inv, patterns, b)
  {
    if Matched(inv, patterns, a) && c in Fused(inv, FirstMatch(a, inv, patterns).value) {
      FusedReadOnce(inv, patterns, a, b, c);
    } else if Matched(inv, patterns, b) && c in Fused(inv, FirstMatch(b, inv, patterns).value) {
      FusedReadOnce(inv, patterns, b, a, c);
    }
  }

  // ---------- the whole plan ----------

  function ReadsOf(inv: Inventory, patterns: seq<Pattern>, names: set<string>): set<string> {
    set n, c | n in names && c in Reads(inv, patterns, n) :: c
  }

  // The activation scales: companions of a matched weight that its pattern drops.
  function Ignored(inv: Inventory, patterns: seq<Pattern>): set<string> {
    set n, c | n in inv && FirstMatch(n, inv, patterns).Some? && c in Dropped(inv, FirstMatch(n, inv, patterns).value) :: c
  }

  lemma ReadsOfNext(inv: Inventory, patterns: seq<Pattern>, names: set<string>, name: string)
    requires TableOk(patterns) && BasesDiffer(inv, patterns) && names <= inv.Keys && name in inv && name !in names
    ensures ReadsOf(inv, patterns, names + {name}) == ReadsOf(inv, patterns, names) + Reads(inv, patterns, name)
    ensures ReadsOf(inv, patterns, names) !! Reads(inv, patterns, name)
  {
    forall c | c in ReadsOf(inv, patterns, names) ensures c !in Reads(inv, patterns, name) {
      var n :| n in names && c in Reads(inv, patterns, n);
      ReadsApart(inv, patterns, n, name, c);
    }
  }

  lemma {:induction false} EmitStep(inv: Inventory, patterns: seq<Pattern>, config: map<string, string>, specs: seq<BlobSpec>,
                                    names: set<string>, name: string)
    requires WellFiled(inv) && TableOk(patterns) && BasesDiffer(inv, patterns)
    requires names <= inv.Keys && name in inv && name !in names
    requires Uses(specs) == multiset(ReadsOf(inv, patterns, names))
    ensures Uses(specs + Emit(inv, patterns, config, name)) == multiset(ReadsOf(inv, patterns, names + {name}))
  {
    ReadsOfNext(inv, patterns, names, name);
    EmitUses(inv, patterns, config, name);
    UseMore(specs, ReadsOf(inv, patterns, names), Emit(inv, patterns, config, name), Reads(inv, patterns, name));
  }

  lemma ReadsOfNone(inv: Inventory, patterns: seq<Pattern>)
    ensures ReadsOf(inv, patterns, {}) == {}
  {
  }

  lemma {:induction false} EmitAllUses(inv: Inventory, patterns: seq<Pattern>, config: map<string, string>,
                                       names: seq<string>, k: nat)
    requires WellFiled(inv) && TableOk(patterns) && BasesDiffer(inv, patterns) && Listed(inv, names) && Distinct(names)
    requires k <= |names|
    ensures Uses(EmitAll(inv, patterns, config, names[..k])) == multiset(ReadsOf(inv, patterns, Elements(names[..k])))
  {
    if k == 0 {
      ReadsOfNone(inv, patterns);
      assert names[..0] == [];
    } else {
      EmitAllUses(inv, patterns, config, names, k - 1);
      ElementsNext(names, k - 1);
      EmitNext(inv, patterns, config, names, k - 1);
      EmitStep(inv, patterns, config, EmitAll(inv, patterns, config, names[..k - 1]), Elements(names[..k - 1]), names[k - 1]);
    }
  }

  // Everything but the ignored scales is read.
  lemma ReadsAllButIgnored(inv: Inventory, patterns: seq<Pattern>)
    requires TableOk(patterns) && BasesDiffer(inv, patterns)
    ensures ReadsOf(inv, patterns, inv.Keys) == inv.Keys - Ignored(inv, patterns)
  {
    forall c ensures c in ReadsOf(inv, patterns, inv.Keys) <==> c in inv.Keys - Ignored(inv, patterns) {
      if c in ReadsOf(inv, patterns, inv.Keys) {
        var n :| n in inv && c in Reads(inv, patterns, n);
        ReadIsNotIgnored(inv, patterns, n, c);
      } else if c in inv && c !in Ignored(inv, patterns) {
        UnreadIsIgnored(inv, patterns, c);
      }
    }
  }

  lemma ReadIsNotIgnored(inv: Inventory, patterns: seq<Pattern>, n: string, c: string)
    requires TableOk(patterns) && BasesDiffer(inv, patterns) && n in inv && c in Reads(inv, patterns, n)
    ensures c in inv && c !in Ignored(inv, patterns)
  {
    var mine := FirstMatch(n, inv, patterns);
    forall w | Matched(inv, patterns, w) ensures c !in Dropped(inv, FirstMatch(w, inv, patterns).value) {
      var m := FirstMatch(w, inv, patterns).value;
      if c in Dropped(inv, m) {
        CompanionConsumed(inv, patterns, w, c);
        if mine.Some? {
          WeightIsNoCompanion(inv, patterns, n, w);
          assert Matched(inv, patterns, n);
          CompanionsApart(inv, patterns, n, w, c);
          var s := CompanionSplit(inv, patterns, n, c);
          var t := CompanionSplit(inv, patterns, w, c);
        }
      }
    }
  }

  lemma UnreadIsIgnored(inv: Inventory, patterns: seq<Pattern>, c: string)
    requires c in inv && c !in ReadsOf(inv, patterns, inv.Keys)
    ensures c in Ignored(inv, patterns)
  {
    assert c !in Reads(inv, patterns, c);
    assert c in AllConsumed(inv, patterns, inv.Keys);
    var n :| n in inv && FirstMatch(n, inv, patterns).Some?
      && c in Fused(inv, FirstMatch(n, inv, patterns).value) + Dropped(inv, FirstMatch(n, inv, patterns).value);
    assert c !in Reads(inv, patterns, n);
  }

  // A plan whose matched weights have bases of their own reads every tensor exactly once, but
  // for the ignored activation scales, which it does not read at all.
  lemma {:induction false} PrequantLinear(inv: Inventory, patterns: seq<Pattern>, config: map<string, string>)
    requires WellFiled(inv) && TableOk(patterns) && Listed(inv, Sorted(inv.Keys)) && BasesDiffer(inv, patterns)
    ensures Uses(EmitAll(inv, patterns, config, Sorted(inv.Keys))) == multiset(inv.Keys - Ignored(inv, patterns))
  {
    var names := Sorted(inv.Keys);
    SortedLists(inv.Keys);
    EmitAllUses(inv, patterns, config, names, |names|);
    assert names[..|names|] == names;
    ReadsAllButIgnored(inv, patterns);
  }

  // ---------- the three producers ----------

  lemma WeightExts()
    ensures IsExt(".weight") && IsExt(".weight_packed") && IsExt(".scales") && IsExt(".biases")
  {
  }

  lemma ScaleExts()
    ensures IsExt(".weight_scale") && IsExt(".weight_scale_2") && IsExt(".weight_global_scale")
  {
  }

  lemma InputExts()
    ensures IsExt(".input_scale") && IsExt(".input_global_scale")
  {
  }

  lemma MlxOk()
    ensures PatternOk(MLX)
  {
    WeightExts();
  }

  lemma CompressedOk()
    ensures PatternOk(COMPRESSED)
  {
    WeightExts();
    ScaleExts();
    InputExts();
  }

  lemma ModelOptOk()
    ensures PatternOk(MODELOPT)
  {
    WeightExts();
    ScaleExts();
    InputExts();
  }

  // No companion suffix is a weight suffix.
  lemma CompanionsAreNotWeights(p: Pattern)
    requires p == MLX || p == COMPRESSED || p == MODELOPT
    ensures ".weight" !in FusedSuffixes(p) + IgnoredSuffixes(p)
    ensures ".weight_packed" !in FusedSuffixes(p) + IgnoredSuffixes(p)
  {
  }

  lemma PatternsOk()
    ensures TableOk(PATTERNS)
  {
    MlxOk();
    CompressedOk();
    ModelOptOk();
    forall p | p in PATTERNS ensures p == MLX || p == COMPRESSED || p == MODELOPT {
    }
    forall p, q | p in PATTERNS && q in PATTERNS ensures q.weightSuffix !in FusedSuffixes(p) + IgnoredSuffixes(p) {
      CompanionsAreNotWeights(p);
    }
  }
}
