// Removing discovered GPUs in place and renumbering the rest.
module GpuDevices {
  import opened Text
  import opened Decimal
  import opened GpuOverlap

  // A device, with whatever else discovery recorded of it.
  datatype Device<T> = Device(library: string, id: string, filterID: string, other: T)

  // ---------- renumbering ----------

  // tokens lists a library's user-visible devices.
  function Remapped<T>(d: Device<T>, tokens: string -> seq<string>): Device<T> {
    var visible := tokens(d.library);
    var index := GoAtoi(if d.filterID == "" then d.id else d.filterID);
    if index.None? || index.value < 0 || index.value >= |visible| then d
    else d.(filterID := visible[index.value])
  }

  function Renumbered<T>(d: Device<T>, n: nat, tokens: string -> seq<string>): Device<T> {
    Remapped(if GoAtoi(d.id).Some? then d.(filterID := d.id, id := Itoa(n)) else d, tokens)
  }

  function Count(seen: map<string, nat>, library: string): nat {
    if library in seen then seen[library] else 0
  }

  // The unmarked devices, renumbered by how many of their library were seen before.
  function Compacted<T>(devices: seq<Device<T>>, marks: seq<bool>, seen: map<string, nat>,
                        renumber: (Device<T>, nat) -> Device<T>): seq<Device<T>>
    requires |devices| == |marks|
  {
    if devices == [] then []
    else if marks[0] then Compacted(devices[1..], marks[1..], seen, renumber)
    else
      var d := devices[0];
      var n := Count(seen, d.library);
      [renumber(d, n)] + Compacted(devices[1..], marks[1..], seen[d.library := n + 1], renumber)
  }

  function Renumber<T>(tokens: string -> seq<string>): (Device<T>, nat) -> Device<T> {
    (d: Device<T>, n: nat) => Renumbered(d, n, tokens)
  }

  // Takes element i out of the first n, moving the later ones down.
  method DeleteAt<T>(a: array<T>, i: nat, n: nat)
    requires i < n <= a.Length
    modifies a
    ensures a[..n - 1] == old(a[..i]) + old(a[i + 1..n])
  {
    for k := i to n - 1
      invariant forall j :: 0 <= j < i ==> a[j] == old(a[j])
      invariant forall j :: i <= j < k ==> a[j] == old(a[j + 1])
      invariant forall j :: k <= j < n ==> a[j] == old(a[j])
    {
      a[k] := a[k + 1];
    }
  }

  // The devices done, then those to come, as they will be.
  ghost predicate OnTheWay<T>(all: seq<Device<T>>, done: seq<Device<T>>, ds: seq<Device<T>>, ms: seq<bool>,
                              seen: map<string, nat>, renumber: (Device<T>, nat) -> Device<T>)
  {
    |ds| == |ms| && done + Compacted(ds, ms, seen, renumber) == all
  }

  lemma DropNext<T>(all: seq<Device<T>>, done: seq<Device<T>>, ds: seq<Device<T>>, ms: seq<bool>,
                    seen: map<string, nat>, renumber: (Device<T>, nat) -> Device<T>)
    requires ds != [] && OnTheWay(all, done, ds, ms, seen, renumber) && ms[0]
    ensures OnTheWay(all, done, ds[1..], ms[1..], seen, renumber)
  {
  }

  lemma KeepNext<T>(all: seq<Device<T>>, done: seq<Device<T>>, ds: seq<Device<T>>, ms: seq<bool>,
                    seen: map<string, nat>, renumber: (Device<T>, nat) -> Device<T>)
    requires ds != [] && OnTheWay(all, done, ds, ms, seen, renumber) && !ms[0]
    ensures var d := ds[0];
      var n := Count(seen, d.library);
      OnTheWay(all, done + [renumber(d, n)], ds[1..], ms[1..], seen[d.library := n + 1], renumber)
  {
    var d := ds[0];
    var n := Count(seen, d.library);
    Assoc(done, [renumber(d, n)], Compacted(ds[1..], ms[1..], seen[d.library := n + 1], renumber));
  }

  method RenumberAt<T>(devices: array<Device<T>>, i: nat, n: nat, tokens: string -> seq<string>)
    requires i < devices.Length
    modifies devices
    ensures devices[..] == old(devices[..])[i := Renumbered(old(devices[i]), n, tokens)]
  {
    if GoAtoi(devices[i].id).Some? {
      devices[i] := devices[i].(filterID := devices[i].id);
      devices[i] := devices[i].(id := Itoa(n));
    }
    devices[i] := Remapped(devices[i], tokens);
  }

  lemma CutRange<T>(a: seq<T>, b: seq<T>, i: nat, n: nat, x: T)
    requires i < n <= |a| && b == a[i := x]
    ensures b[..i + 1] == a[..i] + [x] && b[i + 1..n] == a[i..n][1..]
  {
  }

  // Renumbers device i and counts it.
  method KeepAt<T>(devices: array<Device<T>>, i: nat, n: nat, seen: map<string, nat>, tokens: string -> seq<string>)
    returns (seen': map<string, nat>)
    requires i < n <= devices.Length
    modifies devices
    ensures var d := old(devices[i]);
      && devices[..i + 1] == old(devices[..i]) + [Renumbered(d, Count(seen, d.library), tokens)]
      && seen' == seen[d.library := Count(seen, d.library) + 1]
    ensures devices[i + 1..n] == old(devices[i..n])[1..]
  {
    var library := devices[i].library;
    var postFilteredID := seen;
    if library !in postFilteredID {
      postFilteredID := postFilteredID[library := 0];
    }
    ghost var before := devices[..];
    RenumberAt(devices, i, postFilteredID[library], tokens);
    CutRange(before, devices[..], i, n, devices[i]);
    seen' := postFilteredID[library := postFilteredID[library] + 1];
  }

  method CompactDevices<T>(devices: array<Device<T>>, needsDelete: array<bool>, tokens: string -> seq<string>) returns (n: nat)
    requires devices.Length == needsDelete.Length
    modifies devices, needsDelete
    ensures n <= devices.Length
    ensures devices[..n] == Compacted(old(devices[..]), old(needsDelete[..]), map[], Renumber(tokens))
  {
    n := devices.Length;
    var postFilteredID: map<string, nat> := map[];
    var i := 0;
    ghost var all := Compacted(devices[..], needsDelete[..], map[], Renumber(tokens));
    assert devices[0..n] == devices[..] && needsDelete[0..n] == needsDelete[..] && devices[..0] == [];
    while i < n
      invariant 0 <= i <= n <= devices.Length
      invariant OnTheWay(all, devices[..i], devices[i..n], needsDelete[i..n], postFilteredID, Renumber(tokens))
      decreases n - i
    {
      i, n, postFilteredID := StepAt(devices, needsDelete, i, n, postFilteredID, tokens, all);
    }
    assert devices[i..n] == [];
  }

  // One round of the loop: device i is deleted, or renumbered and kept.
  method StepAt<T>(devices: array<Device<T>>, needsDelete: array<bool>, i: nat, n: nat, seen: map<string, nat>,
                   tokens: string -> seq<string>, ghost all: seq<Device<T>>)
    returns (i': nat, n': nat, seen': map<string, nat>)
    requires i < n <= devices.Length == needsDelete.Length
    requires OnTheWay(all, devices[..i], devices[i..n], needsDelete[i..n], seen, Renumber(tokens))
    modifies devices, needsDelete
    ensures i' <= n' <= n && n' - i' < n - i
    ensures OnTheWay(all, devices[..i'], devices[i'..n'], needsDelete[i'..n'], seen', Renumber(tokens))
  {
    ghost var done, ds, ms := devices[..i], devices[i..n], needsDelete[i..n];
    if needsDelete[i] {
      DropNext(all, done, ds, ms, seen, Renumber(tokens));
      n' := DeleteBoth(devices, needsDelete, i, n);
      i', seen' := i, seen;
    } else {
      KeepNext(all, done, ds, ms, seen, Renumber(tokens));
      seen' := KeepAt(devices, i, n, seen, tokens);
      assert needsDelete[i + 1..n] == ms[1..];
      i', n' := i + 1, n;
    }
  }

  method DeleteBoth<T>(devices: array<Device<T>>, needsDelete: array<bool>, i: nat, n: nat) returns (n': nat)
    requires i < n <= devices.Length == needsDelete.Length
    modifies devices, needsDelete
    ensures n' == n - 1 && devices[..i] == old(devices[..i])
    ensures devices[i..n'] == old(devices[i..n])[1..] && needsDelete[i..n'] == old(needsDelete[i..n])[1..]
  {
    ghost var was, marks := devices[..], needsDelete[..];
    DeleteAt(devices, i, n);
    DeleteAt(needsDelete, i, n);
    n' := n - 1;
    CutJoined(devices[..n'], was, i, n);
    CutJoined(needsDelete[..n'], marks, i, n);
  }

  lemma CutJoined<T>(b: seq<T>, a: seq<T>, i: nat, n: nat)
    requires i < n <= |a| && b == a[..i] + a[i + 1..n]
    ensures b[..i] == a[..i] && b[i..] == a[i..n][1..]
  {
  }

  // ---------- what compaction means ----------

  function Survivors<T>(devices: seq<Device<T>>, marks: seq<bool>): seq<Device<T>>
    requires |devices| == |marks|
  {
    if devices == [] then []
    else if marks[0] then Survivors(devices[1..], marks[1..])
    else [devices[0]] + Survivors(devices[1..], marks[1..])
  }

  // Survivors of the same library before k.
  function Earlier<T>(s: seq<Device<T>>, k: nat): nat
    requires k < |s|
  {
    EarlierOf(s[..k], s[k].library)
  }

  function EarlierOf<T>(s: seq<Device<T>>, library: string): nat {
    if s == [] then 0 else (if s[0].library == library then 1 else 0) + EarlierOf(s[1..], library)
  }

  lemma EarlierCons<T>(d: Device<T>, rest: seq<Device<T>>, k: nat)
    ensures Earlier([d] + rest, 0) == 0
    ensures 0 < k <= |rest| ==>
      Earlier([d] + rest, k) == (if d.library == rest[k - 1].library then 1 else 0) + Earlier(rest, k - 1)
  {
    var s := [d] + rest;
    assert s[..0] == [];
    if 0 < k <= |rest| {
      assert s[..k][1..] == rest[..k - 1];
    }
  }

  // Exactly the unmarked devices remain, in order, each renumbered by the count of earlier
  // survivors of its library.
  lemma {:induction false} CompactedIs<T>(devices: seq<Device<T>>, marks: seq<bool>, seen: map<string, nat>,
                                          renumber: (Device<T>, nat) -> Device<T>, k: nat)
    requires |devices| == |marks|
    ensures |Compacted(devices, marks, seen, renumber)| == |Survivors(devices, marks)|
    ensures k < |Survivors(devices, marks)| ==>
      var s := Survivors(devices, marks);
      Compacted(devices, marks, seen, renumber)[k] == renumber(s[k], Count(seen, s[k].library) + Earlier(s, k))
    decreases |devices|
  {
    if devices != [] {
      var s := Survivors(devices, marks);
      if marks[0] {
        CompactedIs(devices[1..], marks[1..], seen, renumber, k);
      } else {
        var d := devices[0];
        var rest := Survivors(devices[1..], marks[1..]);
        CompactedIs(devices[1..], marks[1..], seen[d.library := Count(seen, d.library) + 1], renumber, if k > 0 then k - 1 else 0);
        EarlierCons(d, rest, k);
      }
    }
  }

  // Devices of one library that had numbers keep different numbers.
  lemma NumbersDiffer<T>(s: seq<Device<T>>, j: nat, k: nat, tokens: string -> seq<string>)
    requires j < k < |s| && s[j].library == s[k].library && GoAtoi(s[j].id).Some? && GoAtoi(s[k].id).Some?
    ensures Renumbered(s[j], Earlier(s, j), tokens).id != Renumbered(s[k], Earlier(s, k), tokens).id
  {
    EarlierGrows(s[..k], j);
    assert s[..k][..j] == s[..j];
    if Itoa(Earlier(s, j)) == Itoa(Earlier(s, k)) {
      ItoaInjective(Earlier(s, j), Earlier(s, k));
    }
  }

  lemma {:induction false} EarlierGrows<T>(s: seq<Device<T>>, j: nat)
    requires j < |s|
    ensures EarlierOf(s[..j], s[j].library) < EarlierOf(s, s[j].library)
  {
    if j > 0 {
      EarlierGrows(s[1..], j - 1);
      assert s[..j][1..] == s[1..][..j - 1];
    }
  }

  // A numbered device is afterwards filtered by its old number, or by the user's name for it.
  lemma FilterKeepsOldNumber<T>(d: Device<T>, n: nat, tokens: string -> seq<string>)
    requires GoAtoi(d.id).Some?
    ensures var r := Renumbered(d, n, tokens);
      var i := GoAtoi(d.id).value;
      r.filterID == if 0 <= i < |tokens(d.library)| then tokens(d.library)[i] else d.id
  {
    assert d.id != "";
  }

  // ---------- overlap removal as a whole ----------

  // What discovery has recorded: every device not yet marked is listed under its library,
  // directory and ID, and every entry is the index of such a device.
  ghost predicate Recorded<T>(supported: Supported, devices: seq<Device<T>>, dirs: seq<string>, marks: seq<bool>)
    requires |devices| == |dirs| == |marks|
  {
    && (forall i :: 0 <= i < |devices| && !marks[i] ==> Has(supported, devices[i].library, dirs[i], devices[i].id))
    && (forall lib, dir, id :: Has(supported, lib, dir, id) ==>
          EntryRight(supported[lib][dir][id], devices, dirs, marks, Place(lib, dir, id)))
  }

  predicate EntryRight<T>(i: nat, devices: seq<Device<T>>, dirs: seq<string>, marks: seq<bool>, at: Place)
    requires |devices| == |dirs| == |marks|
  {
    i < |devices| && !marks[i] && PlaceOf(devices, dirs, i) == at
  }

  function PlaceOf<T>(devices: seq<Device<T>>, dirs: seq<string>, i: nat): Place
    requires |devices| == |dirs|
  {
    if i < |devices| then Place(devices[i].library, dirs[i], devices[i].id) else Place("", "", "")
  }

  lemma RecordedOnce<T>(supported: Supported, devices: seq<Device<T>>, dirs: seq<string>, marks: seq<bool>)
    requires |devices| == |dirs| == |marks| && Recorded(supported, devices, dirs, marks)
    ensures FiledOnce(supported, (i: nat) => PlaceOf(devices, dirs, i))
  {
    forall lib, dir, id | Has(supported, lib, dir, id)
      ensures PlaceOf(devices, dirs, supported[lib][dir][id]) == Place(lib, dir, id)
    {
      assert EntryRight(supported[lib][dir][id], devices, dirs, marks, Place(lib, dir, id));
    }
  }

  lemma RecordedFits<T>(supported: Supported, devices: seq<Device<T>>, dirs: seq<string>, marks: seq<bool>, lib: string)
    requires |devices| == |dirs| == |marks| && Recorded(supported, devices, dirs, marks) && lib in supported
    ensures AllFit(supported[lib], |devices|)
  {
    forall dir, id | dir in supported[lib] && id in supported[lib][dir] ensures supported[lib][dir][id] < |devices| {
      assert Has(supported, lib, dir, id);
      assert EntryRight(supported[lib][dir][id], devices, dirs, marks, Place(lib, dir, id));
    }
  }

  lemma {:induction false} SurvivorAt<T>(devices: seq<Device<T>>, marks: seq<bool>, i: nat) returns (k: nat)
    requires |devices| == |marks| && i < |devices| && !marks[i]
    ensures k < |Survivors(devices, marks)| && Survivors(devices, marks)[k] == devices[i]
    decreases |devices|
  {
    if i == 0 {
      k := 0;
    } else {
      var j := SurvivorAt(devices[1..], marks[1..], i - 1);
      k := if marks[0] then j else j + 1;
    }
  }

  // A device with this library and ID came through, perhaps under a new number.
  ghost predicate CameThrough<T>(devices: seq<Device<T>>, was: seq<Device<T>>, library: string, id: string,
                                 tokens: string -> seq<string>)
  {
    exists k, i, n: nat ::
      && 0 <= k < |devices| && 0 <= i < |was| && was[i].library == library && was[i].id == id
      && devices[k] == Renumbered(was[i], n, tokens)
  }

  lemma {:induction false} SomeCopyComesThrough<T>(supported: Supported, devices: seq<Device<T>>, dirs: seq<string>,
                                                   marks: seq<bool>,
                                                   marked: seq<bool>, i: nat, tokens: string -> seq<string>)
    requires |devices| == |dirs| == |marks| == |marked| && i < |devices| && !marks[i]
    requires AllPopulated(supported) && Recorded(supported, devices, dirs, marks)
    requires forall j :: 0 <= j < |marks| ==> (marked[j] <==> marks[j] || Overlapped(supported, j))
    ensures CameThrough(Compacted(devices, marked, map[], Renumber(tokens)), devices, devices[i].library, devices[i].id, tokens)
  {
    var lib, id := devices[i].library, devices[i].id;
    RecordedOnce(supported, devices, dirs, marks);
    assert Has(supported, lib, dirs[i], id);
    LastCopyStays(supported, (j: nat) => PlaceOf(devices, dirs, j), lib, dirs[i], id);
    var dir :| Has(supported, lib, dir, id) && !Overlapped(supported, supported[lib][dir][id]);
    var j := supported[lib][dir][id];
    assert EntryRight(j, devices, dirs, marks, Place(lib, dir, id));
    var k := SurvivorAt(devices, marked, j);
    CompactedIs(devices, marked, map[], Renumber(tokens), k);
  }

  // Marks the overlaps, then deletes and renumbers: of every library and ID that was still
  // supported, some device is left.
  method RemoveOverlaps<T>(devices: array<Device<T>>, needsDelete: array<bool>, supported: Supported,
                           tokens: string -> seq<string>, ghost dirs: seq<string>)
    returns (n: nat)
    requires devices.Length == needsDelete.Length == |dirs|
    requires AllPopulated(supported) && Recorded(supported, devices[..], dirs, needsDelete[..])
    modifies devices, needsDelete
    ensures n <= devices.Length
    ensures forall i :: 0 <= i < devices.Length && !old(needsDelete[i]) ==>
      CameThrough(devices[..n], old(devices[..]), old(devices[i]).library, old(devices[i]).id, tokens)
  {
    ghost var was, marks := devices[..], needsDelete[..];
    forall lib | lib in supported ensures AllFit(supported[lib], needsDelete.Length) {
      RecordedFits(supported, was, dirs, marks, lib);
    }
    FilterOverlapByLibrary(supported, needsDelete);
    ghost var marked := needsDelete[..];
    n := CompactDevices(devices, needsDelete, tokens);
    forall i | 0 <= i < |was| && !marks[i] ensures CameThrough(devices[..n], was, was[i].library, was[i].id, tokens) {
      SomeCopyComesThrough(supported, was, dirs, marks, marked, i, tokens);
    }
  }
}
