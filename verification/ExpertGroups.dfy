// Sorting per-expert tensors into slots, and the check that no slot is missing.
module ExpertGroups {
  import opened Text
  import opened SortedKeys
  import opened ExpertNames

  // Tensors by projection, then by expert index.
  type ByProjection<T> = map<string, map<nat, T>>

  predicate Holds<T>(table: ByProjection<T>, proj: string, i: nat) {
    proj in table && i in table[proj]
  }

  predicate Parses(group: string, name: string) {
    ParseExpertTensor(group, name).Ok?
  }

  // Every name's value is in the slot the name spells out, and no slot holds anything else.
  ghost predicate Filed<T>(group: string, names: seq<string>, values: seq<T>, table: ByProjection<T>)
    requires |names| == |values|
  {
    && (forall k :: 0 <= k < |names| ==> FiledAt(group, names, values, table, k))
    && (forall p, i: nat :: Holds(table, p, i) ==> ExpertName(group, i, p) in names)
    && (forall p :: p in table ==> table[p] != map[])
  }

  ghost predicate FiledAt<T>(group: string, names: seq<string>, values: seq<T>, table: ByProjection<T>, k: nat)
    requires k < |names| == |values|
  {
    Parses(group, names[k]) && InSlot(table, ParseExpertTensor(group, names[k]).value, values[k])
  }

  ghost predicate InSlot<T>(table: ByProjection<T>, slot: Slot, value: T) {
    Holds(table, slot.proj, slot.index) && table[slot.proj][slot.index] == value
  }

  lemma NameOfSlot(group: string, name: string)
    requires Parses(group, name)
    ensures var slot := ParseExpertTensor(group, name).value;
      name == ExpertName(group, slot.index, slot.proj)
  {
    var slot := ParseExpertTensor(group, name).value;
    ParsesIffPrinted(group, name, slot.index, slot.proj);
  }

  function Put<T>(table: ByProjection<T>, slot: Slot, value: T): ByProjection<T> {
    var experts := if slot.proj in table then table[slot.proj] else map[];
    table[slot.proj := experts[slot.index := value]]
  }

  // One more tensor: its name must parse to a slot that is still free.
  function FileOne<T>(group: string, table: ByProjection<T>, name: string, value: T): Result<ByProjection<T>, string> {
    match ParseExpertTensor(group, name)
    case Err(e) => Err(e)
    case Ok(slot) =>
      if Holds(table, slot.proj, slot.index) then Err("duplicate expert index")
      else Ok(Put(table, slot, value))
  }

  function FileAll<T>(group: string, names: seq<string>, values: seq<T>): Result<ByProjection<T>, string>
    requires |names| == |values|
  {
    if names == [] then Ok(map[]) else
      var n := |names| - 1;
      match FileAll(group, names[..n], values[..n])
      case Err(e) => Err(e)
      case Ok(table) => FileOne(group, table, names[n], values[n])
  }

  lemma {:induction false} FileNext<T>(group: string, names: seq<string>, values: seq<T>, k: nat, table: ByProjection<T>)
    requires |names| == |values| && k < |names| && FileAll(group, names[..k], values[..k]) == Ok(table)
    ensures FileAll(group, names[..k + 1], values[..k + 1]) == FileOne(group, table, names[k], values[k])
  {
    assert names[..k + 1][..k] == names[..k] && values[..k + 1][..k] == values[..k];
  }

  method GroupByProjection<T>(group: string, names: seq<string>, values: seq<T>) returns (r: Result<ByProjection<T>, string>)
    requires |names| == |values|
    ensures r == FileAll(group, names, values)
  {
    var table: ByProjection<T> := map[];
    for k := 0 to |names|
      invariant FileAll(group, names[..k], values[..k]) == Ok(table)
    {
      FileNext(group, names, values, k, table);
      var parsed := ParseExpertTensor(group, names[k]);
      if parsed.Err? {
        ErrorStays(group, names, values, k + 1);
        return Err(parsed.error);
      }
      var slot := parsed.value;
      var experts := if slot.proj in table then table[slot.proj] else map[];
      if slot.index in experts {
        ErrorStays(group, names, values, k + 1);
        return Err("duplicate expert index");
      }
      table := table[slot.proj := experts[slot.index := values[k]]];
    }
    assert names[..|names|] == names && values[..|values|] == values;
    return Ok(table);
  }

  lemma {:induction false} ErrorStays<T>(group: string, names: seq<string>, values: seq<T>, k: nat)
    requires |names| == |values| && k <= |names| && FileAll(group, names[..k], values[..k]).Err?
    ensures FileAll(group, names, values) == FileAll(group, names[..k], values[..k])
    decreases |names|
  {
    var n := |names| - 1;
    if k == |names| {
      assert names[..k] == names && values[..k] == values;
    } else {
      assert names[..n][..k] == names[..k] && values[..n][..k] == values[..k];
      ErrorStays(group, names[..n], values[..n], k);
    }
  }

  predicate AllParse(group: string, names: seq<string>) {
    forall k :: 0 <= k < |names| ==> Parses(group, names[k])
  }

  // Grouping fails exactly on a name that does not parse or comes twice: names decide
  // slots, so a duplicate slot is a duplicate name.
  lemma {:induction false} GroupingFiles<T>(group: string, names: seq<string>, values: seq<T>)
    requires |names| == |values|
    ensures FileAll(group, names, values).Ok? <==> AllParse(group, names) && Distinct(names)
    ensures FileAll(group, names, values).Ok? ==> Filed(group, names, values, FileAll(group, names, values).value)
    decreases |names|
  {
    if names != [] {
      var n := |names| - 1;
      var r := FileAll(group, names[..n], values[..n]);
      GroupingFiles(group, names[..n], values[..n]);
      AllParseSnoc(group, names[..n], names[n]);
      DistinctSnoc(names[..n], names[n]);
      assert names == names[..n] + [names[n]] && values == values[..n] + [values[n]];
      if r.Ok? {
        FilingOne(group, names[..n], values[..n], r.value, names[n], values[n]);
      }
    }
  }

  // With distinct names, which an inventory guarantees, no slot is ever claimed twice: a
  // refusal is always over a name that does not parse.
  lemma {:induction false} DuplicateIsUnreachable<T>(group: string, names: seq<string>, values: seq<T>)
    requires |names| == |values| && Distinct(names) && FileAll(group, names, values).Err?
    ensures exists k :: 0 <= k < |names| && !Parses(group, names[k])
  {
    GroupingFiles(group, names, values);
  }

  lemma AllParseSnoc(group: string, names: seq<string>, name: string)
    ensures AllParse(group, names + [name]) <==> AllParse(group, names) && Parses(group, name)
  {
    var all := names + [name];
    if AllParse(group, all) {
      assert Parses(group, all[|names|]);
      forall k | 0 <= k < |names| ensures Parses(group, names[k]) {
        assert Parses(group, all[k]);
      }
    }
  }

  lemma FilingOne<T>(group: string, names: seq<string>, values: seq<T>, table: ByProjection<T>, name: string, value: T)
    requires |names| == |values| && Filed(group, names, values, table)
    ensures var r := FileOne(group, table, name, value);
      && (r.Ok? <==> Parses(group, name) && name !in names)
      && (r.Ok? ==> Filed(group, names + [name], values + [value], r.value))
  {
    if Parses(group, name) {
      FreeIffNew(group, names, values, table, name);
      if name !in names {
        FiledSnoc(group, names, values, table, name, value);
      }
    }
  }

  lemma DistinctSnoc<T>(s: seq<T>, x: T)
    ensures Distinct(s + [x]) <==> Distinct(s) && x !in s
  {
    var all := s + [x];
    if Distinct(all) {
      forall i | 0 <= i < |s| ensures s[i] != x {
        assert all[i] != all[|s|];
      }
      forall i, j | 0 <= i < j < |s| ensures s[i] != s[j] {
        assert all[i] != all[j];
      }
    }
  }

  lemma FreeIffNew<T>(group: string, names: seq<string>, values: seq<T>, table: ByProjection<T>, name: string)
    requires |names| == |values| && Filed(group, names, values, table) && Parses(group, name)
    ensures var slot := ParseExpertTensor(group, name).value;
      Holds(table, slot.proj, slot.index) <==> name in names
  {
    NameOfSlot(group, name);
    if name in names {
      var k :| 0 <= k < |names| && names[k] == name;
      assert FiledAt(group, names, values, table, k);
    }
  }

  lemma FiledSnoc<T>(group: string, names: seq<string>, values: seq<T>, table: ByProjection<T>, name: string, value: T)
    requires |names| == |values| && Filed(group, names, values, table) && Parses(group, name)
    requires var slot := ParseExpertTensor(group, name).value; !Holds(table, slot.proj, slot.index)
    ensures Filed(group, names + [name], values + [value], Put(table, ParseExpertTensor(group, name).value, value))
  {
    var slot := ParseExpertTensor(group, name).value;
    NameOfSlot(group, name);
    var more := Put(table, slot, value);
    forall p, i: nat | Holds(more, p, i) ensures ExpertName(group, i, p) in names + [name] {
      assert Holds(table, p, i) || Slot(i, p) == slot;
    }
    assert slot.index in more[slot.proj];
    forall k | 0 <= k < |names| + 1 ensures FiledAt(group, names + [name], values + [value], more, k) {
      if k < |names| {
        assert FiledAt(group, names, values, table, k);
      }
    }
  }

  // ---------- validation ----------

  // Every projection covers exactly the experts 0 to n - 1.
  ghost predicate Covers<T>(table: ByProjection<T>, n: nat) {
    forall p, i: nat :: p in table ==> (i in table[p] <==> i < n)
  }

  function Below(n: nat): (s: set<nat>)
    ensures |s| == n && forall i: nat :: i in s <==> i < n
  {
    if n == 0 then {} else Below(n - 1) + {n - 1}
  }

  // n keys that include 0 to n - 1 are nothing but those.
  lemma Pigeonhole(keys: set<nat>)
    requires forall i: nat :: i < |keys| ==> i in keys
    ensures forall i: nat :: i in keys ==> i < |keys|
  {
    forall i: nat | i in keys ensures i < |keys| {
      if i >= |keys| {
        Larger(Below(|keys|), keys, i);
      }
    }
  }

  lemma Larger(a: set<nat>, b: set<nat>, x: nat)
    requires a <= b && x in b && x !in a
    ensures |a| < |b|
  {
    Fewer(a, b - {x});
  }

  lemma {:induction false} Fewer(a: set<nat>, b: set<nat>)
    requires a <= b
    ensures |a| <= |b|
    decreases |a|
  {
    if a != {} {
      var x :| x in a;
      Fewer(a - {x}, b - {x});
    }
  }

  // The slots map directly to runtime slots, or the group is refused.
  method ValidateExpertProjections<T>(table: ByProjection<T>) returns (r: Result<nat, string>)
    ensures r.Ok? <==> exists n: nat :: Covers(table, n)
    ensures r.Ok? ==> Covers(table, r.value) && (table == map[] ==> r.value == 0)
  {
    var expected: int := -1;
    var projections := Sorted(table.Keys);
    SortedLists(table.Keys);
    for k := 0 to |projections|
      invariant -1 <= expected && (expected == -1 <==> k == 0)
      invariant forall j, i: nat :: 0 <= j < k ==> (Holds(table, projections[j], i) <==> i < expected)
    {
      assert projections[k] in Elements(projections);
      var experts := table[projections[k]];
      for index := 0 to |experts|
        invariant forall i: nat :: i < index ==> i in experts
      {
        if index !in experts {
          Missing(table, projections[k], index);
          return Err("missing expert index");
        }
      }
      Pigeonhole(experts.Keys);
      if expected >= 0 && |experts| != expected {
        assert projections[0] in Elements(projections);
        Uneven(table, projections[0], projections[k], expected, |experts|);
        return Err("expert counts differ");
      }
      expected := |experts|;
      assert forall i: nat :: Holds(table, projections[k], i) <==> i < expected;
    }
    forall p, i: nat | p in table ensures i in table[p] <==> i < (if expected < 0 then 0 else expected) {
      assert p in Elements(projections);
      var j :| 0 <= j < |projections| && projections[j] == p;
      assert Holds(table, projections[j], i) <==> i < expected;
    }
    var count: nat := if expected < 0 then 0 else expected;
    assert Covers(table, count);
    return Ok(count);
  }

  lemma Missing<T>(table: ByProjection<T>, p: string, index: nat)
    requires p in table && index !in table[p] && index < |table[p]|
    ensures !exists n: nat :: Covers(table, n)
  {
    forall n: nat ensures !Covers(table, n) {
      if Covers(table, n) {
        assert n <= index;
        CoversExactly(table[p].Keys, n);
      }
    }
  }

  lemma CoversExactly(keys: set<nat>, n: nat)
    requires forall i: nat :: i in keys <==> i < n
    ensures |keys| == n
  {
    assert keys == Below(n);
  }

  lemma Uneven<T>(table: ByProjection<T>, p: string, q: string, m: nat, n: nat)
    requires p in table && q in table && m != n
    requires forall i: nat :: Holds(table, p, i) <==> i < m
    requires forall i: nat :: i in table[q] <==> i < n
    ensures !exists n: nat :: Covers(table, n)
  {
    var least := if m < n then m else n;
    assert Holds(table, p, least) <==> least < m;
    assert least in table[q] <==> least < n;
  }
}
