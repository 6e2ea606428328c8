// Naming uploaded files by their paths below the deepest directory that holds them all.
module FileNames {
  import opened Text

  // A cleaned absolute path on one volume, as its components; [] is the root directory.
  type Path = seq<string>

  predicate Clean(p: Path) {
    forall i :: 0 <= i < |p| ==> p[i] != ".." && p[i] != "." && p[i] != ""
  }

  function Dir(p: Path): Path {
    if p == [] then [] else p[..|p| - 1]
  }

  // a is p or a directory above it.
  predicate IsAncestor(a: Path, p: Path) {
    a <= p
  }

  function CommonLength(a: Path, b: Path): (n: nat)
    ensures n <= |a| && n <= |b|
  {
    if a == [] || b == [] || a[0] != b[0] then 0 else 1 + CommonLength(a[1..], b[1..])
  }

  // The way from base to target: up to the last common directory, then down.
  function Rel(base: Path, target: Path): Path {
    var n := CommonLength(base, target);
    seq(|base| - n, i => "..") + target[n..]
  }

  lemma {:induction false} CommonIsShared(a: Path, b: Path)
    ensures a[..CommonLength(a, b)] == b[..CommonLength(a, b)]
    ensures CommonLength(a, b) == |a| <==> IsAncestor(a, b)
  {
    if a != [] && b != [] && a[0] == b[0] {
      CommonIsShared(a[1..], b[1..]);
      assert a == [a[0]] + a[1..] && b == [b[0]] + b[1..];
      var n := CommonLength(a[1..], b[1..]);
      assert a[..n + 1] == [a[0]] + a[1..][..n] && b[..n + 1] == [b[0]] + b[1..][..n];
    }
  }

  // The relative path leads out of base exactly when base is no ancestor.
  predicate StaysBelow(rel: Path) {
    rel == [] || rel[0] != ".."
  }

  lemma RelOutside(base: Path, target: Path)
    requires !IsAncestor(base, target)
    ensures !StaysBelow(Rel(base, target))
  {
    CommonIsShared(base, target);
    var n := CommonLength(base, target);
    var up := seq(|base| - n, i => "..");
    assert up[0] == "..";
    assert (up + target[n..])[0] == up[0];
  }

  lemma RelInside(base: Path, target: Path)
    requires IsAncestor(base, target)
    ensures Rel(base, target) == target[|base|..] && base + Rel(base, target) == target
  {
    CommonIsShared(base, target);
    var up := seq(0, i => "..");
    assert up + target[|base|..] == target[|base|..];
  }

  lemma RelStaysBelow(base: Path, target: Path)
    requires Clean(target)
    ensures StaysBelow(Rel(base, target)) <==> IsAncestor(base, target)
  {
    if IsAncestor(base, target) {
      RelInside(base, target);
    } else {
      RelOutside(base, target);
    }
  }

  type Files = map<string, Path>

  ghost predicate AllClean(files: Files) {
    forall f :: f in files ==> Clean(files[f])
  }

  ghost predicate CommonAncestor(root: Path, files: Files) {
    forall f :: f in files ==> IsAncestor(root, Dir(files[f]))
  }

  // The deepest directory above all files.
  ghost predicate DeepestAncestor(root: Path, files: Files) {
    CommonAncestor(root, files) && forall a :: CommonAncestor(a, files) ==> IsAncestor(a, root)
  }

  // There is only one, whatever order the files are visited in.
  lemma DeepestIsOne(a: Path, b: Path, files: Files)
    requires DeepestAncestor(a, files) && DeepestAncestor(b, files)
    ensures a == b
  {
  }

  lemma OneFile(f: string, p: Path)
    ensures DeepestAncestor(Dir(p), map[f := p])
  {
    var files := map[f := p];
    forall a | CommonAncestor(a, files) ensures IsAncestor(a, Dir(p)) {
      assert f in files;
    }
  }

  // Going up until dir is below root gives the deepest ancestor of one more file.
  lemma OneMore(root: Path, shrunk: Path, files: Files, f: string, p: Path)
    requires DeepestAncestor(root, files) && f !in files
    requires IsAncestor(shrunk, root) && IsAncestor(shrunk, Dir(p))
    requires forall a :: IsAncestor(a, root) && IsAncestor(a, Dir(p)) ==> IsAncestor(a, shrunk)
    ensures DeepestAncestor(shrunk, files[f := p])
  {
    var more := files[f := p];
    forall g | g in more ensures IsAncestor(shrunk, Dir(more[g])) {
      if g != f {
        assert g in files;
      }
    }
    forall a | CommonAncestor(a, more) ensures IsAncestor(a, shrunk) {
      forall g | g in files ensures IsAncestor(a, Dir(files[g])) {
        assert g in more;
      }
      assert f in more;
    }
  }

  lemma ShorterAncestor(a: Path, root: Path)
    requires IsAncestor(a, root) && a != root
    ensures IsAncestor(a, Dir(root))
  {
  }

  // Goes up from root until dir is below it; None would mean that not even the root
  // directory is above dir.
  method Shrink(start: Path, dir: Path) returns (root: Option<Path>)
    requires Clean(dir)
    ensures root.Some?
    ensures IsAncestor(root.value, start) && IsAncestor(root.value, dir)
    ensures forall a :: IsAncestor(a, start) && IsAncestor(a, dir) ==> IsAncestor(a, root.value)
  {
    var at := start;
    while true
      invariant IsAncestor(at, start)
      invariant forall a :: IsAncestor(a, start) && IsAncestor(a, dir) ==> IsAncestor(a, at)
      decreases |at|
    {
      RelStaysBelow(at, dir);
      var rel := Rel(at, dir);
      if StaysBelow(rel) {
        return Some(at);
      }
      var parent := Dir(at);
      if parent == at {
        return None;
      }
      forall a | IsAncestor(a, start) && IsAncestor(a, dir) ensures IsAncestor(a, parent) {
        ShorterAncestor(a, at);
      }
      at := parent;
    }
  }

  // rest and done split the files.
  ghost predicate Split(rest: Files, done: Files, files: Files) {
    && rest.Keys !! done.Keys && rest.Keys + done.Keys == files.Keys
    && (forall f :: f in rest ==> rest[f] == files[f])
    && (forall f :: f in done ==> done[f] == files[f])
  }

  lemma SplitNext(rest: Files, done: Files, files: Files, f: string)
    requires Split(rest, done, files) && f in rest
    ensures f in files && f !in done && Split(rest - {f}, done[f := rest[f]], files)
  {
    assert f in rest.Keys;
  }

  lemma SplitDone(done: Files, files: Files)
    requires Split(map[], done, files)
    ensures done == files
  {
  }

  // On one volume this succeeds for any two or more files.
  method CommonFileRoot(files: Files) returns (root: Option<Path>)
    requires AllClean(files)
    ensures root.Some? <==> |files| >= 2
    ensures root.Some? ==> DeepestAncestor(root.value, files)
  {
    if |files| < 2 {
      return None;
    }
    root := None;
    var rest := files;
    ghost var done: Files := map[];
    while rest != map[]
      invariant Split(rest, done, files)
      invariant root.None? <==> done == map[]
      invariant root.Some? ==> DeepestAncestor(root.value, done)
      decreases |rest|
    {
      var f :| f in rest;
      SplitNext(rest, done, files, f);
      root := Join(root, rest[f], done, f);
      done := done[f := rest[f]];
      rest := rest - {f};
    }
    SplitDone(done, files);
  }

  method Join(root: Option<Path>, abs: Path, ghost done: Files, ghost f: string) returns (joined: Option<Path>)
    requires Clean(abs) && f !in done
    requires (root.None? <==> done == map[]) && (root.Some? ==> DeepestAncestor(root.value, done))
    ensures joined.Some? && DeepestAncestor(joined.value, done[f := abs])
  {
    var dir := Dir(abs);
    if root.None? {
      OneFile(f, abs);
      return Some(dir);
    }
    joined := Shrink(root.value, dir);
    OneMore(root.value, joined.value, done, f, abs);
  }

  // The path below the common root, or the base name.
  method NameOf(root: Option<Path>, abs: Path, base: string) returns (name: Path)
    requires Clean(abs) && (root.Some? ==> IsAncestor(root.value, Dir(abs)))
    ensures root.None? ==> name == [base]
    ensures root.Some? && abs != [] ==> root.value + name == abs
  {
    name := [base];
    if root.Some? {
      var rel := Rel(root.value, abs);
      RelStaysBelow(root.value, abs);
      RelInside(root.value, abs);
      if rel != [] && rel[0] != ".." {
        name := rel;
      }
    }
  }

  // Every name leads from the common root back to its file.
  ghost predicate NamesLeadBack(root: Path, names: map<string, Path>, files: Files) {
    forall f :: f in names && f in files && files[f] != [] ==> root + names[f] == files[f]
  }

  method CreateRequestFileNames(files: Files, base: string -> string) returns (names: map<string, Path>)
    requires AllClean(files)
    ensures names.Keys == files.Keys
    ensures |files| < 2 ==> forall f :: f in files ==> names[f] == [base(f)]
    ensures |files| >= 2 ==> exists root :: DeepestAncestor(root, files) && NamesLeadBack(root, names, files)
  {
    var root := CommonFileRoot(files);
    names := NameAll(root, files, base);
    assert root.Some? ==> DeepestAncestor(root.value, files) && NamesLeadBack(root.value, names, files);
  }

  ghost predicate Named(name: Path, root: Option<Path>, abs: Path, base: string) {
    (root.None? ==> name == [base]) && (root.Some? && abs != [] ==> root.value + name == abs)
  }

  lemma FileOk(root: Option<Path>, files: Files, f: string)
    requires AllClean(files) && (root.Some? ==> CommonAncestor(root.value, files)) && f in files
    ensures Clean(files[f]) && (root.Some? ==> IsAncestor(root.value, Dir(files[f])))
  {
  }

  method NameAll(root: Option<Path>, files: Files, base: string -> string) returns (names: map<string, Path>)
    requires AllClean(files) && (root.Some? ==> CommonAncestor(root.value, files))
    ensures names.Keys == files.Keys
    ensures forall f :: f in files ==> Named(names[f], root, files[f], base(f))
  {
    names := map[];
    var rest := files.Keys;
    while rest != {}
      invariant rest <= files.Keys && names.Keys == files.Keys - rest
      invariant forall f :: f in names ==> Named(names[f], root, files[f], base(f))
      decreases |rest|
    {
      var f :| f in rest;
      FileOk(root, files, f);
      var name := NameOf(root, files[f], base(f));
      names := names[f := name];
      rest := rest - {f};
    }
  }

  // Different files get different names.
  lemma NamesDistinct(files: Files, names: map<string, Path>, root: Path, f: string, g: string)
    requires names.Keys == files.Keys && f in files && g in files && files[f] != files[g]
    requires NamesLeadBack(root, names, files)
    requires files[f] != [] && files[g] != []
    ensures names[f] != names[g]
  {
  }
}
