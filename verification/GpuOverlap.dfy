// Marking GPUs that several versions of one library support.
module GpuOverlap {
  import opened SortedKeys

  // Device index by ID, for one library directory; by directory; by library.
  type ByID = map<string, nat>
  type ByDir = map<string, ByID>
  type Supported = map<string, ByDir>

  predicate SameIDs(dirs: ByDir) {
    forall a, b :: a in dirs && b in dirs ==> dirs[a].Keys == dirs[b].Keys
  }

  function Reversed<T>(s: seq<T>): (r: seq<T>)
    ensures |r| == |s| && forall i :: 0 <= i < |s| ==> r[i] == s[|s| - 1 - i]
  {
    seq(|s|, i requires 0 <= i < |s| => s[|s| - 1 - i])
  }

  // The newest directory if all support the same devices, and otherwise the oldest.
  function Settled(dirs: ByDir): string
    requires dirs != map[]
  {
    var names := Sorted(dirs.Keys);
    assert names != [];
    if SameIDs(dirs) then names[|names| - 1] else names[0]
  }

  predicate Differs(dirs: ByDir, newest: string, upTo: set<string>)
    requires newest in dirs
  {
    exists d :: d in upTo && d in dirs && d != newest && dirs[d].Keys != dirs[newest].Keys
  }

  lemma {:induction false} SubsetOfSameSize(a: set<string>, b: set<string>)
    requires a <= b && |a| == |b|
    ensures a == b
    decreases |a|
  {
    if a == {} {
      assert b == {};
    } else {
      var x :| x in a;
      SubsetOfSameSize(a - {x}, b - {x});
      assert a == (a - {x}) + {x} && b == (b - {x}) + {x};
    }
  }

  lemma DiffersIff(dirs: ByDir, newest: string)
    requires newest in dirs
    ensures Differs(dirs, newest, dirs.Keys) <==> !SameIDs(dirs)
  {
    if !SameIDs(dirs) {
      var a, b :| a in dirs && b in dirs && dirs[a].Keys != dirs[b].Keys;
      var d := if dirs[a].Keys != dirs[newest].Keys then a else b;
      assert d in dirs.Keys && d != newest && dirs[d].Keys != dirs[newest].Keys;
    }
  }

  // Whether some other directory supports other devices than newest does.
  method AnyMissing(dirs: ByDir, names: seq<string>, newest: string) returns (missing: bool)
    requires newest in dirs && Elements(names) == dirs.Keys
    ensures missing <==> !SameIDs(dirs)
  {
    missing := false;
    for i := 0 to |names|
      invariant missing <==> Differs(dirs, newest, Elements(names[..i]))
    {
      ElementsNext(names, i);
      assert names[i] in dirs;
      if names[i] == newest {
        continue;
      }
      var here := MissingIn(dirs[newest], dirs[names[i]]);
      if here {
        missing := true;
      }
    }
    assert names[..|names|] == names;
    DiffersIff(dirs, newest);
  }

  method MissingIn(newest: ByID, other: ByID) returns (missing: bool)
    ensures missing <==> newest.Keys != other.Keys
  {
    if |newest| != |other| {
      return true;
    }
    var rest := newest.Keys;
    while rest != {}
      invariant rest <= newest.Keys && newest.Keys - rest <= other.Keys
      decreases |rest|
    {
      var dev :| dev in rest;
      if dev !in other {
        return true;
      }
      rest := rest - {dev};
    }
    SubsetOfSameSize(newest.Keys, other.Keys);
    return false;
  }

  // The search tries the directories from the newest down, but once one differs the flag
  // stays set, so it ends at the last.
  method FindNewest(dirs: ByDir) returns (newest: string)
    requires dirs != map[]
    ensures newest == Settled(dirs) && newest in dirs
  {
    var names := Reversed(Sorted(dirs.Keys));
    Listed(dirs, names);
    newest := Search(dirs, names);
  }

  method Search(dirs: ByDir, names: seq<string>) returns (newest: string)
    requires names != [] && Elements(names) == dirs.Keys
    ensures newest == if SameIDs(dirs) then names[0] else names[|names| - 1]
    ensures newest in names
  {
    var anyMissing := false;
    newest := "";
    for i := 0 to |names|
      invariant anyMissing <==> i > 0
      invariant i > 0 ==> newest == names[i - 1] && !SameIDs(dirs)
    {
      newest := names[i];
      assert newest in Elements(names);
      var missing := AnyMissing(dirs, names, newest);
      anyMissing := anyMissing || missing;
      if !anyMissing {
        break;
      }
    }
  }

  lemma ReversedElements<T>(s: seq<T>)
    ensures Elements(Reversed(s)) == Elements(s)
  {
    forall i | 0 <= i < |s| ensures s[i] in Reversed(s) {
      assert Reversed(s)[|s| - 1 - i] == s[i];
    }
  }

  lemma Listed(dirs: ByDir, names: seq<string>)
    requires dirs != map[] && names == Reversed(Sorted(dirs.Keys))
    ensures names != [] && Elements(names) == dirs.Keys && forall i :: 0 <= i < |names| ==> names[i] in dirs
  {
    SortedLists(dirs.Keys);
    ReversedElements(Sorted(dirs.Keys));
    var d :| d in dirs;
    assert d in Elements(names);
    forall i | 0 <= i < |names| ensures names[i] in dirs {
      assert names[i] in Elements(names);
    }
  }

  // ---------- the newest directory that supports all devices ----------

  // The directory supports every device that some directory supports.
  ghost predicate CoversAll(dirs: ByDir, d: string) {
    d in dirs && forall e :: e in dirs ==> dirs[e].Keys <= dirs[d].Keys
  }

  // Newest in the order of directory names as strings, in which v9 comes after v13.
  ghost predicate NewestCovering(dirs: ByDir, d: string) {
    CoversAll(dirs, d) && forall e :: CoversAll(dirs, e) ==> Leq(e, d)
  }

  function Oldest(dirs: ByDir): (d: string)
    requires dirs != map[]
    ensures d in dirs && forall e :: e in dirs ==> Leq(d, e)
  {
    var names := Sorted(dirs.Keys);
    SortedLists(dirs.Keys);
    OldestFirst(dirs.Keys, names);
    names[0]
  }

  lemma OldestFirst(keys: set<string>, names: seq<string>)
    requires keys != {} && Elements(names) == keys && Ascending(names)
    ensures names != [] && names[0] in keys && forall e :: e in keys ==> Leq(names[0], e)
  {
    var d :| d in keys;
    assert d in names && names[0] in Elements(names);
    forall e | e in keys ensures Leq(names[0], e) {
      assert e in Elements(names);
      LeqTotal(e, e);
    }
  }

  lemma {:induction false} NewestLast(dirs: ByDir, e: string)
    requires dirs != map[] && SameIDs(dirs) && e in dirs
    ensures Leq(e, Settled(dirs))
  {
    var names := Sorted(dirs.Keys);
    SortedLists(dirs.Keys);
    assert e in Elements(names);
    LeqTotal(e, e);
  }

  // When some directory supports all devices, the newest such one is settled on exactly when
  // all directories support the same devices or only the oldest supports them all.
  lemma SettlesOnNewestCoveringIff(dirs: ByDir)
    requires exists d :: CoversAll(dirs, d)
    ensures dirs != map[]
    ensures NewestCovering(dirs, Settled(dirs))
       <==> SameIDs(dirs) || forall e :: CoversAll(dirs, e) ==> e == Oldest(dirs)
  {
    var d :| CoversAll(dirs, d);
    SettledListed(dirs);
    if SameIDs(dirs) {
      forall e | CoversAll(dirs, e) ensures Leq(e, Settled(dirs)) {
        NewestLast(dirs, e);
      }
    } else {
      forall e | CoversAll(dirs, e) && Leq(e, Oldest(dirs)) ensures e == Oldest(dirs) {
        LeqAntisymmetric(e, Oldest(dirs));
      }
      LeqTotal(Oldest(dirs), Oldest(dirs));
    }
  }

  lemma SettledListed(dirs: ByDir)
    requires dirs != map[]
    ensures Settled(dirs) in dirs
  {
    Listed(dirs, Reversed(Sorted(dirs.Keys)));
    SortedLists(dirs.Keys);
    assert Settled(dirs) in Elements(Sorted(dirs.Keys));
  }

  // Two versions: the newer supports both devices, the older only one.
  function TwoVersions(newer: string, older: string): ByDir {
    map[newer := map["0" := 0, "1" := 1], older := map["0" := 2]]
  }

  lemma {:induction false} OlderIsSettledOn(newer: string, older: string)
    requires Leq(older, newer) && older != newer
    ensures CoversAll(TwoVersions(newer, older), newer) && Settled(TwoVersions(newer, older)) == older
    ensures !NewestCovering(TwoVersions(newer, older), older)
  {
    var dirs := TwoVersions(newer, older);
    var both, one: ByID := map["0" := 0, "1" := 1], map["0" := 2];
    assert "1" in both && "1" !in one && "0" in both;
    assert dirs[newer] == both && dirs[older] == one;
    if Oldest(dirs) == newer {
      LeqAntisymmetric(older, newer);
    }
  }

  // With v13 for devices 0 and 1 and v12 for device 0 alone, v12 is settled on.
  lemma NewestCoveringIsPassedOver()
    ensures CoversAll(TwoVersions("cuda_v13", "cuda_v12"), "cuda_v13")
    ensures Settled(TwoVersions("cuda_v13", "cuda_v12")) == "cuda_v12"
    ensures !NewestCovering(TwoVersions("cuda_v13", "cuda_v12"), "cuda_v12")
  {
    LeqFrom("cuda_v", "12", "13");
    assert "cuda_v" + "12" == "cuda_v12" && "cuda_v" + "13" == "cuda_v13";
    OlderIsSettledOn("cuda_v13", "cuda_v12");
  }

  lemma {:induction false} LeqFrom(head: string, a: string, b: string)
    requires Leq(a, b)
    ensures Leq(head + a, head + b)
  {
    if head == [] {
      assert head + a == a && head + b == b;
    } else {
      assert (head + a)[1..] == head[1..] + a && (head + b)[1..] == head[1..] + b;
      LeqFrom(head[1..], a, b);
    }
  }

  // ---------- marking ----------

  // Index j is a device of one directory that another, kept one also supports.
  ghost predicate MarkedBy(other: ByID, kept: ByID, j: int) {
    exists id :: id in other && id in kept && other[id] == j
  }

  ghost predicate InLibrary(dirs: ByDir, kept: string, j: int)
    requires kept in dirs
  {
    exists d :: d in dirs && d != kept && MarkedBy(dirs[d], dirs[kept], j)
  }

  ghost predicate AllPopulated(supported: Supported) {
    forall lib :: lib in supported ==> supported[lib] != map[]
  }

  ghost predicate Overlapped(supported: Supported, j: int)
    requires AllPopulated(supported)
  {
    exists lib :: lib in supported && InSettled(supported[lib], j)
  }

  ghost predicate InSettled(dirs: ByDir, j: int)
    requires dirs != map[]
  {
    Settled(dirs) in dirs && InLibrary(dirs, Settled(dirs), j)
  }

  predicate Fits(other: ByID, n: nat) {
    forall id :: id in other ==> other[id] < n
  }

  ghost predicate AllFit(dirs: ByDir, n: nat) {
    forall d :: d in dirs ==> Fits(dirs[d], n)
  }

  method MarkDir(other: ByID, kept: ByID, needsDelete: array<bool>)
    requires Fits(other, needsDelete.Length)
    modifies needsDelete
    ensures forall j :: 0 <= j < needsDelete.Length ==> (needsDelete[j] <==> old(needsDelete[j]) || MarkedBy(other, kept, j))
  {
    var rest := other;
    ghost var done: ByID := map[];
    while rest != map[]
      invariant forall id :: id in other <==> id in rest || id in done
      invariant forall id :: id in rest ==> rest[id] == other[id]
      invariant forall id :: id in done ==> id in other && done[id] == other[id]
      invariant forall j :: 0 <= j < needsDelete.Length ==> (needsDelete[j] <==> old(needsDelete[j]) || MarkedBy(done, kept, j))
      decreases |rest|
    {
      var dev :| dev in rest;
      ghost var before := done;
      done := done[dev := rest[dev]];
      forall j ensures MarkedBy(done, kept, j) <==> MarkedBy(before, kept, j) || (dev in kept && rest[dev] == j) {
        MarkedNext(before, kept, dev, rest[dev], j);
      }
      if dev in kept {
        needsDelete[rest[dev]] := true;
      }
      rest := rest - {dev};
    }
    assert done == other;
  }

  lemma MarkedNext(other: ByID, kept: ByID, dev: string, i: nat, j: int)
    requires dev in other ==> other[dev] == i
    ensures MarkedBy(other[dev := i], kept, j) <==> MarkedBy(other, kept, j) || (dev in kept && i == j)
  {
    var more := other[dev := i];
    if MarkedBy(other, kept, j) {
      var id :| id in other && id in kept && other[id] == j;
      assert id in more && more[id] == j;
    }
    if dev in kept && i == j {
      assert dev in more && more[dev] == j;
    }
  }

  method MarkLibrary(dirs: ByDir, needsDelete: array<bool>)
    requires dirs != map[] && AllFit(dirs, needsDelete.Length)
    modifies needsDelete
    ensures forall j :: 0 <= j < needsDelete.Length ==> (needsDelete[j] <==> old(needsDelete[j]) || InSettled(dirs, j))
  {
    var newest := FindNewest(dirs);
    var rest := dirs.Keys;
    while rest != {}
      invariant rest <= dirs.Keys
      invariant forall j :: 0 <= j < needsDelete.Length ==>
        (needsDelete[j] <==> old(needsDelete[j]) || InDirs(dirs, newest, dirs.Keys - rest, j))
      decreases |rest|
    {
      var d :| d in rest;
      forall j ensures InDirs(dirs, newest, dirs.Keys - (rest - {d}), j)
        <==> InDirs(dirs, newest, dirs.Keys - rest, j) || (d != newest && MarkedBy(dirs[d], dirs[newest], j))
      {
        DirsNext(dirs, newest, rest, d, j);
      }
      if d != newest {
        MarkDir(dirs[d], dirs[newest], needsDelete);
      }
      rest := rest - {d};
    }
    assert dirs.Keys - {} == dirs.Keys;
  }

  ghost predicate InDirs(dirs: ByDir, kept: string, done: set<string>, j: int)
    requires kept in dirs
  {
    exists d :: d in done && d in dirs && d != kept && MarkedBy(dirs[d], dirs[kept], j)
  }

  lemma DirsNext(dirs: ByDir, kept: string, rest: set<string>, d: string, j: int)
    requires kept in dirs && d in rest && rest <= dirs.Keys
    ensures InDirs(dirs, kept, dirs.Keys - (rest - {d}), j)
      <==> InDirs(dirs, kept, dirs.Keys - rest, j) || (d != kept && MarkedBy(dirs[d], dirs[kept], j))
  {
    assert dirs.Keys - (rest - {d}) == (dirs.Keys - rest) + {d};
  }

  // Marks, in every library, the devices that the directory settled on also supports.
  method FilterOverlapByLibrary(supported: Supported, needsDelete: array<bool>)
    requires AllPopulated(supported) && forall lib :: lib in supported ==> AllFit(supported[lib], needsDelete.Length)
    modifies needsDelete
    ensures forall j :: 0 <= j < needsDelete.Length ==> (needsDelete[j] <==> old(needsDelete[j]) || Overlapped(supported, j))
  {
    var rest := supported.Keys;
    while rest != {}
      invariant rest <= supported.Keys
      invariant forall j :: 0 <= j < needsDelete.Length ==>
        (needsDelete[j] <==> old(needsDelete[j]) || InLibraries(supported, supported.Keys - rest, j))
      decreases |rest|
    {
      var lib :| lib in rest;
      forall j ensures InLibraries(supported, supported.Keys - (rest - {lib}), j)
        <==> InLibraries(supported, supported.Keys - rest, j) || InSettled(supported[lib], j)
      {
        LibrariesNext(supported, rest, lib, j);
      }
      MarkLibrary(supported[lib], needsDelete);
      rest := rest - {lib};
    }
    assert supported.Keys - {} == supported.Keys;
  }

  ghost predicate InLibraries(supported: Supported, done: set<string>, j: int)
    requires AllPopulated(supported)
  {
    exists lib :: lib in done && lib in supported && InSettled(supported[lib], j)
  }

  lemma LibrariesNext(supported: Supported, rest: set<string>, lib: string, j: int)
    requires AllPopulated(supported) && lib in rest && rest <= supported.Keys
    ensures InLibraries(supported, supported.Keys - (rest - {lib}), j)
      <==> InLibraries(supported, supported.Keys - rest, j) || InSettled(supported[lib], j)
  {
    assert supported.Keys - (rest - {lib}) == (supported.Keys - rest) + {lib};
  }

  // ---------- no device is lost ----------

  predicate Has(supported: Supported, lib: string, dir: string, id: string) {
    lib in supported && dir in supported[lib] && id in supported[lib][dir]
  }

  datatype Place = Place(lib: string, dir: string, id: string)

  // Each index was filed once.
  ghost predicate FiledOnce(supported: Supported, place: nat -> Place) {
    forall lib, dir, id :: Has(supported, lib, dir, id) ==> place(supported[lib][dir][id]) == Place(lib, dir, id)
  }

  // An entry is marked exactly when it is outside the directory settled on and that one has
  // its ID too.
  lemma MarkedIff(supported: Supported, place: nat -> Place, lib: string, dir: string, id: string)
    requires AllPopulated(supported) && FiledOnce(supported, place) && Has(supported, lib, dir, id)
    ensures Settled(supported[lib]) in supported[lib]
    ensures var kept := Settled(supported[lib]);
      Overlapped(supported, supported[lib][dir][id]) <==> dir != kept && id in supported[lib][kept]
  {
    SettledListed(supported[lib]);
    var kept, i := Settled(supported[lib]), supported[lib][dir][id];
    if Overlapped(supported, i) {
      var l :| l in supported && InSettled(supported[l], i);
      var d :| d in supported[l] && d != Settled(supported[l]) && MarkedBy(supported[l][d], supported[l][Settled(supported[l])], i);
      var x :| x in supported[l][d] && x in supported[l][Settled(supported[l])] && supported[l][d][x] == i;
      assert Has(supported, l, d, x);
      assert Place(l, d, x) == Place(lib, dir, id);
    }
    if dir != kept && id in supported[lib][kept] {
      assert MarkedBy(supported[lib][dir], supported[lib][kept], i);
      assert InSettled(supported[lib], i);
    }
  }

  // Some copy of every (library, ID) is left unmarked, whichever directory was settled on.
  lemma LastCopyStays(supported: Supported, place: nat -> Place, lib: string, dir: string, id: string)
    requires AllPopulated(supported) && FiledOnce(supported, place) && Has(supported, lib, dir, id)
    ensures exists d :: Has(supported, lib, d, id) && !Overlapped(supported, supported[lib][d][id])
  {
    SettledListed(supported[lib]);
    var kept := Settled(supported[lib]);
    var d := if id in supported[lib][kept] then kept else dir;
    assert Has(supported, lib, d, id);
    MarkedIff(supported, place, lib, d, id);
  }
}
