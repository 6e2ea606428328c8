// Names of per-expert tensors: which group a tensor belongs to, and which slot in it.
module ExpertNames {
  import opened Text
  import opened Decimal

  // Accepts only the index's own decimal form.
  function ExpertIndex(s: string): Result<nat, string> {
    match GoAtoi(s)
    case None => Err("non-numeric expert index")
    case Some(n) =>
      if n < 0 || Itoa(n) != s then Err("invalid expert index") else Ok(n)
  }

  lemma {:induction false} IndexIsCanonical(s: string, n: nat)
    ensures ExpertIndex(s) == Ok(n) <==> n <= MAX_INT && s == Itoa(n)
  {
    if s == Itoa(n) {
      AtoiItoa(n);
      assert IsDigit(s[0]);
    }
  }

  // <group>.<index>.<projection>.weight
  function ExpertName(group: string, i: nat, proj: string): string {
    group + "." + (Itoa(i) + "." + proj) + ".weight"
  }

  function StackedName(group: string, proj: string): string {
    group + "." + proj + ".weight"
  }

  datatype Slot = Slot(index: nat, proj: string)

  function ParseExpertTensor(group: string, name: string): Result<Slot, string> {
    if !HasPrefix(name, group + ".") then Err("expert tensor is not under its group") else
    var rest := name[|group + "."|..];
    if !HasSuffix(rest, ".weight") then Err("expert tensor does not end in .weight") else
    var mid := rest[..|rest| - |".weight"|];
    if !Contains(mid, ".") then Err("expert tensor is not <index>.<projection>.weight") else
    match ExpertIndex(Before(mid, "."))
    case Err(e) => Err(e)
    case Ok(n) => Ok(Slot(n, After(mid, ".")))
  }

  lemma SplitAt(s: string, sep: string)
    requires Contains(s, sep)
    ensures s == Before(s, sep) + sep + After(s, sep)
  {
    var i := Index(s, sep);
    assert s == s[..i] + s[i..i + |sep|] + s[i + |sep|..];
  }

  lemma DigitsHaveNoDot(s: string)
    requires forall i :: 0 <= i < |s| ==> IsDigit(s[i])
    ensures !Contains(s, ".")
  {
    forall i | 0 <= i < |s| ensures !OccursAt(s, ".", i) {
      assert s[i..i + 1] == [s[i]];
    }
  }

  lemma {:induction false} CutIndex(n: nat, proj: string)
    ensures var mid := Itoa(n) + "." + proj;
      Contains(mid, ".") && Before(mid, ".") == Itoa(n) && After(mid, ".") == proj
  {
    DigitsHaveNoDot(Itoa(n));
    FirstTag(Itoa(n), ".", proj);
  }

  lemma Unwrap(head: string, mid: string, tail: string, name: string)
    ensures name == head + mid + tail <==>
      HasPrefix(name, head) && HasSuffix(name[|head|..], tail) && name[|head|..][..|name| - |head| - |tail|] == mid
  {
    if name == head + mid + tail {
      assert name[|head|..] == mid + tail;
    }
    if HasPrefix(name, head) && HasSuffix(name[|head|..], tail) && name[|head|..][..|name| - |head| - |tail|] == mid {
      assert name == name[..|head|] + name[|head|..];
      var rest := name[|head|..];
      assert rest == rest[..|rest| - |tail|] + rest[|rest| - |tail|..];
      Assoc(head, mid, tail);
    }
  }

  // Parsing and printing of expert names are inverse, so no two names share a slot.
  lemma ParsesIffPrinted(group: string, name: string, i: nat, proj: string)
    ensures ParseExpertTensor(group, name) == Ok(Slot(i, proj)) <==> i <= MAX_INT && name == ExpertName(group, i, proj)
  {
    var mid := Itoa(i) + "." + proj;
    Unwrap(group + ".", mid, ".weight", name);
    CutIndex(i, proj);
    if ParseExpertTensor(group, name) == Ok(Slot(i, proj)) {
      var rest := name[|group + "."|..];
      var found := rest[..|rest| - |".weight"|];
      SplitAt(found, ".");
      IndexIsCanonical(Before(found, "."), i);
    } else if name == ExpertName(group, i, proj) {
      IndexIsCanonical(Itoa(i), i);
    }
  }

  lemma NamesDecideSlots(group: string, i: nat, p: string, j: nat, q: string)
    requires ExpertName(group, i, p) == ExpertName(group, j, q)
    ensures i == j && p == q
  {
    var name := ExpertName(group, i, p);
    var mid, mid' := Itoa(i) + "." + p, Itoa(j) + "." + q;
    Unwrap(group + ".", mid, ".weight", name);
    Unwrap(group + ".", mid', ".weight", name);
    CutIndex(i, p);
    CutIndex(j, q);
    ItoaInjective(i, j);
  }

  // ---------- groups ----------

  const MARKERS: seq<string> := [
    ".mlp.experts.", ".mlp.shared_experts.", ".mlp.switch_mlp.",
    ".moe.experts.", ".mixer.experts.", ".mixer.shared_experts."]

  // isLayer stands for the regular expression that recognises a layer prefix.
  function FirstGroup(name: string, markers: seq<string>, isLayer: string -> bool): Option<string>
    requires forall i :: 0 <= i < |markers| ==> markers[i] != ""
  {
    if markers == [] then None
    else
      var marker := markers[0];
      if Contains(name, marker) && isLayer(Before(name, marker)) then
        Some(Before(name, marker) + marker[..|marker| - 1])
      else FirstGroup(name, markers[1..], isLayer)
  }

  function ExpertGroupPrefix(name: string, isLayer: string -> bool): Option<string> {
    if !HasSuffix(name, ".weight") then None else FirstGroup(name, MARKERS, isLayer)
  }

  // A weight that must be stacked with its sibling experts.
  function PerExpertGroup(name: string, isLayer: string -> bool): Option<string> {
    match ExpertGroupPrefix(name, isLayer)
    case None => None
    case Some(group) =>
      if !HasPrefix(name, group + ".") then None else
      var rest := name[|group + "."|..];
      if !Contains(rest, ".") || GoAtoi(Before(rest, ".")).None? then None else Some(group)
  }
}
