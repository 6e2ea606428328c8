// String operations used across the model, stated by what they find.
module Text {

  datatype Option<+T> = None | Some(value: T)

  datatype Result<+T, +E> = Ok(value: T) | Err(error: E)

  lemma Assoc<T>(a: seq<T>, b: seq<T>, c: seq<T>)
    ensures (a + b) + c == a + (b + c)
  {
  }

  // sep occurs in s at position i.
  predicate OccursAt(s: string, sep: string, i: int)
  {
    0 <= i && i + |sep| <= |s| && s[i..i + |sep|] == sep
  }

  // First occurrence of sep in s at or after i, or -1.
  function IndexFrom(s: string, sep: string, i: nat): (r: int)
    requires i <= |s|
    ensures r == -1 || (i <= r && OccursAt(s, sep, r))
    decreases |s| - i
  {
    if OccursAt(s, sep, i) then i
    else if i == |s| then -1
    else IndexFrom(s, sep, i + 1)
  }

  function Index(s: string, sep: string): (r: int)
    ensures r == -1 || OccursAt(s, sep, r)
  {
    IndexFrom(s, sep, 0)
  }

  // No occurrence comes before the one Index reports.
  lemma IndexIsFirst(s: string, sep: string)
    ensures forall j :: OccursAt(s, sep, j) ==> 0 <= Index(s, sep) <= j
  {
    IndexFromIsFirst(s, sep, 0);
  }

  lemma {:induction false} IndexFromIsFirst(s: string, sep: string, i: nat)
    requires i <= |s|
    ensures forall j :: i <= j && OccursAt(s, sep, j) ==> 0 <= IndexFrom(s, sep, i) <= j
    decreases |s| - i
  {
    if !OccursAt(s, sep, i) && i < |s| {
      IndexFromIsFirst(s, sep, i + 1);
    }
  }

  predicate Contains(s: string, sep: string)
  {
    Index(s, sep) >= 0
  }

  // Text after the first occurrence of sep.
  function After(s: string, sep: string): string
    requires Contains(s, sep)
  {
    s[Index(s, sep) + |sep|..]
  }

  function Before(s: string, sep: string): string
    requires Contains(s, sep)
  {
    s[..Index(s, sep)]
  }

  predicate HasPrefix(s: string, p: string)
  {
    |p| <= |s| && s[..|p|] == p
  }

  predicate HasSuffix(s: string, p: string)
  {
    |p| <= |s| && s[|s| - |p|..] == p
  }

  lemma NotSuffix(s: string, p: string)
    requires s != "" && p != "" && s[|s| - 1] != p[|p| - 1]
    ensures !HasSuffix(s, p)
  {
    if |p| <= |s| {
      assert s[|s| - |p|..][|p| - 1] == s[|s| - 1];
    }
  }

  function TrimPrefix(s: string, p: string): string
  {
    if HasPrefix(s, p) then s[|p|..] else s
  }

  // A first occurrence is the only position that is an occurrence with none before it.
  lemma IndexIs(s: string, sep: string, i: int)
    requires OccursAt(s, sep, i)
    requires forall j :: 0 <= j < i ==> !OccursAt(s, sep, j)
    ensures Index(s, sep) == i
  {
    IndexIsFirst(s, sep);
  }

  lemma OccursInPrefix(s: string, t: string, sep: string, i: int)
    requires 0 <= i && i + |sep| <= |s|
    ensures OccursAt(s + t, sep, i) == OccursAt(s, sep, i)
  {
    assert (s + t)[i..i + |sep|] == s[i..i + |sep|];
  }

  lemma OccursInSuffix(s: string, n: nat, sep: string, i: int)
    requires n <= |s| && n <= i
    ensures OccursAt(s, sep, i) == OccursAt(s[n..], sep, i - n)
  {
    if i + |sep| <= |s| {
      assert s[i..i + |sep|] == s[n..][i - n..i - n + |sep|];
    }
  }

  // Later text never moves a first occurrence that is already there.
  lemma IndexStable(s: string, t: string, sep: string)
    requires Contains(s, sep)
    ensures Index(s + t, sep) == Index(s, sep)
    ensures After(s + t, sep) == After(s, sep) + t
    ensures Before(s + t, sep) == Before(s, sep)
  {
    var i := Index(s, sep);
    IndexIsFirst(s, sep);
    OccursInPrefix(s, t, sep, i);
    forall j | 0 <= j < i ensures !OccursAt(s + t, sep, j) {
      OccursInPrefix(s, t, sep, j);
    }
    IndexIs(s + t, sep, i);
  }

  // No proper prefix of the tag is also a suffix of it.
  predicate Borderless(tag: string)
  {
    forall k :: 0 < k < |tag| ==> tag[k..] != tag[..|tag| - k]
  }

  // A tag that cannot overlap itself is found exactly where it was written.
  lemma FirstTag(text: string, tag: string, rest: string)
    requires !Contains(text, tag) && Borderless(tag) && tag != ""
    ensures Index(text + tag + rest, tag) == |text|
    ensures Before(text + tag + rest, tag) == text
    ensures After(text + tag + rest, tag) == rest
  {
    var s := text + tag + rest;
    assert s[|text|..|text| + |tag|] == tag;
    IndexIsFirst(text, tag);
    forall j | 0 <= j < |text| ensures !OccursAt(s, tag, j) {
      if j + |tag| <= |text| {
        assert s[j..j + |tag|] == text[j..j + |tag|];
        assert !OccursAt(text, tag, j);
      } else {
        var k := |text| - j;
        assert s[|text|..j + |tag|] == tag[..|tag| - k];
        assert s[j..j + |tag|][k..] == s[|text|..j + |tag|];
      }
    }
    IndexIs(s, tag, |text|);
  }

  // A tag whose first character occurs nowhere else in it cannot overlap itself.
  lemma LeadOnceBorderless(tag: string)
    requires tag != "" && forall k :: 0 < k < |tag| ==> tag[k] != tag[0]
    ensures Borderless(tag)
  {
    forall k | 0 < k < |tag| ensures tag[k..] != tag[..|tag| - k] {
      assert tag[k..][0] == tag[k] != tag[..|tag| - k][0];
    }
  }

  function UpperChar(c: char): char {
    if 'a' <= c <= 'z' then (c - 'a') + 'A' else c
  }

  // ASCII upper case.
  function Upper(s: string): string {
    seq(|s|, i requires 0 <= i < |s| => UpperChar(s[i]))
  }
}
