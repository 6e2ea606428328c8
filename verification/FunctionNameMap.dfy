// Renaming user tool names to identifiers the model can call, and back.
module FunctionNames {
  import opened Text
  import opened Decimal

  // The letter and digit classes of Unicode.
  datatype Alphabet = Alphabet(isLetter: char -> bool, isDigit: char -> bool)

  // ---------- one name ----------

  function MapChar(ab: Alphabet, c: char): string {
    if c == ' ' || c == '-' || c == '.' then "_"
    else if ab.isLetter(c) || ab.isDigit(c) || c == '_' || c == '$' then [c]
    else ""
  }

  function MapChars(ab: Alphabet, s: string): (r: string)
    ensures '.' !in r
  {
    if s == "" then "" else MapChar(ab, s[0]) + MapChars(ab, s[1..])
  }

  // Only an ASCII digit is seen in front: the source looks at the first byte.
  function ConvertToValidChars(ab: Alphabet, name: string): (r: string)
    ensures r != "" && '.' !in r && !IsDigit(r[0])
  {
    var candidate := MapChars(ab, name);
    if candidate == "" then "unnamed"
    else if IsDigit(candidate[0]) then "_" + candidate
    else candidate
  }

  // The names tried in turn: f, f_2, f_3, ...
  function Candidate(base: string, k: nat): string {
    if k <= 1 then base else base + ("_" + Itoa(k))
  }

  lemma CandidatesDiffer(base: string, j: nat, k: nat)
    requires 1 <= j < k
    ensures Candidate(base, j) != Candidate(base, k)
  {
    var dk := "_" + Itoa(k);
    assert Candidate(base, k)[|base|..] == dk;
    if j > 1 {
      var dj := "_" + Itoa(j);
      assert Candidate(base, j)[|base|..] == dj;
      if dj == dk {
        assert dj[1..] == Itoa(j) && dk[1..] == Itoa(k);
        ItoaInjective(j, k);
      }
    }
  }

  function FirstCandidates(base: string, n: nat): set<string> {
    set j | 1 <= j <= n :: Candidate(base, j)
  }

  lemma {:induction false} CountCandidates(base: string, n: nat)
    ensures |FirstCandidates(base, n)| == n
  {
    if n == 0 {
      assert FirstCandidates(base, 0) == {};
    } else {
      CountCandidates(base, n - 1);
      var c := Candidate(base, n);
      forall j | 1 <= j < n ensures Candidate(base, j) != c { CandidatesDiffer(base, j, n); }
      assert c !in FirstCandidates(base, n - 1);
      assert FirstCandidates(base, n) == FirstCandidates(base, n - 1) + {c};
    }
  }

  lemma SubsetSize<T>(a: set<T>, b: set<T>)
    requires a <= b
    ensures |a| <= |b|
  {
    assert b == a + (b - a);
  }

  // k tries that all failed need k names that are already taken.
  lemma TriesBounded(used: set<string>, base: string, k: nat)
    requires forall j :: 1 <= j <= k ==> Candidate(base, j) in used
    ensures k <= |used|
  {
    CountCandidates(base, k);
    SubsetSize(FirstCandidates(base, k), used);
  }

  predicate FirstFree(used: set<string>, base: string, k: nat) {
    1 <= k && Candidate(base, k) !in used && forall j :: 1 <= j < k ==> Candidate(base, j) in used
  }

  function FreeFrom(used: set<string>, base: string, k: nat): (r: nat)
    requires 1 <= k && forall j :: 1 <= j < k ==> Candidate(base, j) in used
    ensures FirstFree(used, base, r) && r <= |used| + 1
    decreases |used| + 1 - k
  {
    TriesBounded(used, base, k - 1);
    if Candidate(base, k) !in used then k
    else
      TriesBounded(used, base, k);
      FreeFrom(used, base, k + 1)
  }

  function Derive(used: set<string>, base: string): string {
    Candidate(base, FreeFrom(used, base, 1))
  }

  predicate IsBuiltin(name: string) {
    name == "browser.open" || name == "browser.search" || name == "browser.find" || name == "python"
  }

  // ---------- the map ----------

  datatype Names = Names(userToHarmony: map<string, string>, harmonyToUser: map<string, string>) {
    function HarmonyNameFor(ab: Alphabet, user: string): string {
      if IsBuiltin(user) then user else Derive(harmonyToUser.Keys, ConvertToValidChars(ab, user))
    }

    function Add(ab: Alphabet, user: string): Names {
      var h := HarmonyNameFor(ab, user);
      Names(userToHarmony[user := h], harmonyToUser[h := user])
    }

    function Original(harmony: string): string {
      if harmony in harmonyToUser then harmonyToUser[harmony] else harmony
    }
  }

  class FunctionNameMap {
    var userToHarmony: map<string, string>
    var harmonyToUser: map<string, string>
    const alphabet: Alphabet

    constructor (alphabet: Alphabet)
      ensures Contents() == Names(map[], map[]) && this.alphabet == alphabet
    {
      this.alphabet := alphabet;
      userToHarmony, harmonyToUser := map[], map[];
    }

    function Contents(): Names
      reads this
    {
      Names(userToHarmony, harmonyToUser)
    }

    method ConvertAndAdd(user: string) returns (harmony: string)
      modifies this
      ensures harmony == old(Contents()).HarmonyNameFor(alphabet, user)
      ensures Contents() == old(Contents()).Add(alphabet, user)
    {
      harmony := DeriveName(user);
      if user == "browser.open" || user == "browser.search" || user == "browser.find" || user == "python" {
        harmony := user;
      }
      userToHarmony := userToHarmony[user := harmony];
      harmonyToUser := harmonyToUser[harmony := user];
    }

    method OriginalFromConverted(harmony: string) returns (user: string)
      ensures user == Contents().Original(harmony)
    {
      if harmony in harmonyToUser {
        return harmonyToUser[harmony];
      }
      return harmony;
    }

    // The search ends after at most one try more than there are entries.
    method DeriveName(user: string) returns (candidate: string)
      ensures candidate == Derive(harmonyToUser.Keys, ConvertToValidChars(alphabet, user))
      ensures exists tries :: (1 <= tries <= |harmonyToUser| + 1
                && candidate == Candidate(ConvertToValidChars(alphabet, user), tries))
    {
      var original := ConvertToValidChars(alphabet, user);
      candidate := original;
      var count := 2;
      ghost var used := harmonyToUser.Keys;
      while candidate in harmonyToUser
        invariant count >= 2 && candidate == Candidate(original, count - 1)
        invariant forall j :: 1 <= j < count - 1 ==> Candidate(original, j) in used
        invariant count - 2 <= |used|
        decreases |used| + 2 - count
      {
        TriesBounded(used, original, count - 1);
        candidate := original + ("_" + Itoa(count));
        count := count + 1;
      }
      FreeIsUnique(used, original, count - 1);
    }
  }

  lemma {:induction false} FreeIsUnique(used: set<string>, base: string, k: nat)
    requires FirstFree(used, base, k)
    ensures FreeFrom(used, base, 1) == k
  {
  }

  // ---------- whole runs ----------

  datatype Run = Run(names: Names, returned: seq<string>)

  function AddAll(ab: Alphabet, users: seq<string>): (r: Run)
    ensures |r.returned| == |users|
    decreases |users|
  {
    if users == [] then Run(Names(map[], map[]), [])
    else
      var before := AddAll(ab, users[..|users| - 1]);
      var user := users[|users| - 1];
      Run(before.names.Add(ab, user), before.returned + [before.names.HarmonyNameFor(ab, user)])
  }

  const PYTHON := "python"

  // A user tool that is renamed to the name of a built-in one.
  predicate PythonAlias(ab: Alphabet, user: string) {
    !IsBuiltin(user) && ConvertToValidChars(ab, user) == PYTHON
  }

  // An alias took the harmony name before the built-in arrived.
  predicate AliasBeforeBuiltin(ab: Alphabet, users: seq<string>) {
    exists i, j {:trigger users[i], users[j]} :: 0 <= i < j < |users|
      && PythonAlias(ab, users[i]) && users[j] == PYTHON && PYTHON !in users[..i]
  }

  predicate AllMapBack(ab: Alphabet, users: seq<string>) {
    var r := AddAll(ab, users);
    forall i :: 0 <= i < |users| ==> r.names.Original(r.returned[i]) == users[i]
  }

  // A derived name is never a dotted built-in, and is "python" only as an untouched base.
  lemma DerivedName(used: set<string>, base: string)
    requires '.' !in base
    ensures var d := Derive(used, base);
      && d !in used && (IsBuiltin(d) ==> d == PYTHON)
      && (d == PYTHON <==> base == PYTHON && PYTHON !in used)
  {
    var k := FreeFrom(used, base, 1);
    var d := Candidate(base, k);
    if k > 1 {
      assert '.' !in "_" + Itoa(k);
      assert IsDigit(d[|d| - 1]);
      assert Candidate(base, 1) in used;
    }
    assert "browser.open"[7] == "browser.search"[7] == "browser.find"[7] == '.';
  }

  predicate Hits(ab: Alphabet, user: string) {
    user == PYTHON || PythonAlias(ab, user)
  }

  predicate NoHitBefore(ab: Alphabet, users: seq<string>, i: nat)
    requires i <= |users|
  {
    forall k :: 0 <= k < i ==> !Hits(ab, users[k])
  }

  // What is known about entry i after all of users were added.
  ghost predicate EntryInvariant(ab: Alphabet, users: seq<string>, r: Run, i: nat)
    requires i < |users| == |r.returned|
  {
    var h, name := r.names.harmonyToUser, r.returned[i];
    && name in h
    && (name == PYTHON <==> users[i] == PYTHON || (PythonAlias(ab, users[i]) && NoHitBefore(ab, users, i)))
    && (IsBuiltin(name) && name != PYTHON ==> users[i] == name)
    && h[name] == if name == PYTHON && PYTHON in users then PYTHON else users[i]
  }

  ghost predicate RunInvariant(ab: Alphabet, users: seq<string>) {
    var r := AddAll(ab, users);
    && (PYTHON in r.names.harmonyToUser <==> !NoHitBefore(ab, users, |users|))
    && forall i :: 0 <= i < |users| ==> EntryInvariant(ab, users, r, i)
  }

  lemma {:induction false} AddAllSnoc(ab: Alphabet, users: seq<string>, user: string)
    ensures var r := AddAll(ab, users);
      AddAll(ab, users + [user])
        == Run(r.names.Add(ab, user), r.returned + [r.names.HarmonyNameFor(ab, user)])
  {
    assert (users + [user])[..|users|] == users;
  }

  lemma {:induction false} RunKeepsInvariant(ab: Alphabet, users: seq<string>)
    ensures RunInvariant(ab, users)
    decreases |users|
  {
    if users != [] {
      var front, last := users[..|users| - 1], users[|users| - 1];
      RunKeepsInvariant(ab, front);
      AddKeepsInvariant(ab, front, last, users);
    }
  }

  lemma AddKeepsInvariant(ab: Alphabet, users: seq<string>, user: string, all: seq<string>)
    requires RunInvariant(ab, users) && all == users + [user]
    ensures RunInvariant(ab, all)
  {
    var r, r' := AddAll(ab, users), AddAll(ab, all);
    AddAllSnoc(ab, users, user);
    PythonTaken(ab, users, user, r.names);
    forall i | 0 <= i < |all| ensures EntryInvariant(ab, all, r', i) {
      if i < |users| {
        OldEntryKept(ab, users, user, r, i);
      } else {
        NewEntry(ab, users, user, r);
      }
    }
  }

  lemma PythonTaken(ab: Alphabet, users: seq<string>, user: string, names: Names)
    requires PYTHON in names.harmonyToUser <==> !NoHitBefore(ab, users, |users|)
    ensures PYTHON in names.Add(ab, user).harmonyToUser <==> !NoHitBefore(ab, users + [user], |users| + 1)
  {
    var all := users + [user];
    DerivedName(names.harmonyToUser.Keys, ConvertToValidChars(ab, user));
    SameHits(ab, users, user, |users|);
    assert all[|users|] == user;
    assert NoHitBefore(ab, all, |users| + 1) == (NoHitBefore(ab, all, |users|) && !Hits(ab, all[|users|]));
  }

  lemma NewEntry(ab: Alphabet, users: seq<string>, user: string, r: Run)
    requires |users| == |r.returned|
    requires PYTHON in r.names.harmonyToUser <==> !NoHitBefore(ab, users, |users|)
    ensures var r' := Run(r.names.Add(ab, user), r.returned + [r.names.HarmonyNameFor(ab, user)]);
      EntryInvariant(ab, users + [user], r', |users|)
  {
    DerivedName(r.names.harmonyToUser.Keys, ConvertToValidChars(ab, user));
    SameHits(ab, users, user, |users|);
    assert (users + [user])[|users|] == user;
    if PYTHON in users {
      var j :| 0 <= j < |users| && users[j] == PYTHON;
      assert Hits(ab, users[j]);
    }
  }

  lemma SameHits(ab: Alphabet, users: seq<string>, user: string, i: nat)
    requires i <= |users|
    ensures NoHitBefore(ab, users + [user], i) == NoHitBefore(ab, users, i)
  {
    forall k | 0 <= k < i ensures (users + [user])[k] == users[k] {}
    if NoHitBefore(ab, users + [user], i) {
      forall k | 0 <= k < i ensures !Hits(ab, users[k]) { assert !Hits(ab, (users + [user])[k]); }
    }
  }

  lemma OldEntryKept(ab: Alphabet, users: seq<string>, user: string, r: Run, i: nat)
    requires |users| == |r.returned| && i < |users| && EntryInvariant(ab, users, r, i)
    ensures var r' := Run(r.names.Add(ab, user), r.returned + [r.names.HarmonyNameFor(ab, user)]);
      EntryInvariant(ab, users + [user], r', i)
  {
    var h := r.names.harmonyToUser;
    DerivedName(h.Keys, ConvertToValidChars(ab, user));
    SameHits(ab, users, user, i);
    assert (users + [user])[i] == users[i];
    assert PYTHON in users + [user] <==> PYTHON in users || user == PYTHON;
  }

  lemma {:induction false} FirstHit(ab: Alphabet, users: seq<string>, n: nat) returns (i: nat)
    requires n <= |users| && !NoHitBefore(ab, users, n)
    ensures i < n && Hits(ab, users[i]) && NoHitBefore(ab, users, i)
  {
    if NoHitBefore(ab, users, n - 1) {
      i := n - 1;
    } else {
      i := FirstHit(ab, users, n - 1);
    }
  }

  // Every name handed out maps back to the name it came from, unless an alias of "python"
  // was added before "python" itself; and then it does not.
  lemma NamesMapBackIff(ab: Alphabet, users: seq<string>)
    ensures AllMapBack(ab, users) <==> !AliasBeforeBuiltin(ab, users)
  {
    RunKeepsInvariant(ab, users);
    if AliasBeforeBuiltin(ab, users) {
      AliasIsLost(ab, users);
    }
    if !AllMapBack(ab, users) {
      LostIsAlias(ab, users);
    }
  }

  lemma NotInPrefix(users: seq<string>, name: string, i: nat, k: nat)
    requires k < i <= |users| && name !in users[..i]
    ensures users[k] != name
  {
    assert users[..i][k] == users[k];
  }

  lemma AliasIsLost(ab: Alphabet, users: seq<string>)
    requires RunInvariant(ab, users) && AliasBeforeBuiltin(ab, users)
    ensures !AllMapBack(ab, users)
  {
    var i, j :| 0 <= i < j < |users| && PythonAlias(ab, users[i]) && users[j] == PYTHON && PYTHON !in users[..i];
    assert Hits(ab, users[i]);
    var k := FirstHit(ab, users, i + 1);
    if k < i {
      NotInPrefix(users, PYTHON, i, k);
    }
    LostEntry(ab, users, k, j);
  }

  lemma LostEntry(ab: Alphabet, users: seq<string>, k: nat, j: nat)
    requires RunInvariant(ab, users) && k < |users| && j < |users| && users[j] == PYTHON
    requires PythonAlias(ab, users[k]) && NoHitBefore(ab, users, k)
    ensures !AllMapBack(ab, users)
  {
    var r := AddAll(ab, users);
    assert EntryInvariant(ab, users, r, k);
    assert r.names.Original(r.returned[k]) == PYTHON;
  }

  lemma LostIsAlias(ab: Alphabet, users: seq<string>)
    requires RunInvariant(ab, users) && !AllMapBack(ab, users)
    ensures AliasBeforeBuiltin(ab, users)
  {
    var r := AddAll(ab, users);
    var i :| 0 <= i < |users| && r.names.Original(r.returned[i]) != users[i];
    assert EntryInvariant(ab, users, r, i);
    var j :| 0 <= j < |users| && users[j] == PYTHON;
    assert Hits(ab, users[j]);
    forall k | 0 <= k < i ensures users[..i][k] != PYTHON { assert !Hits(ab, users[k]); }
    assert i < j;
  }

  // Then different tools also get different names.
  lemma {:induction false} DistinctNames(ab: Alphabet, users: seq<string>, i: nat, j: nat)
    requires !AliasBeforeBuiltin(ab, users) && i < |users| && j < |users| && users[i] != users[j]
    ensures AddAll(ab, users).returned[i] != AddAll(ab, users).returned[j]
  {
    NamesMapBackIff(ab, users);
  }

  // A character that passes into a name unchanged.
  predicate Unchanged(ab: Alphabet, c: char) {
    ab.isLetter(c) && c != ' ' && c != '-' && c != '.'
  }

  lemma {:induction false} MapStep(ab: Alphabet, c: char, rest: string)
    ensures MapChars(ab, [c] + rest) == MapChar(ab, c) + MapChars(ab, rest)
  {
    assert ([c] + rest)[1..] == rest;
  }

  lemma {:induction false} MapLetters(ab: Alphabet, word: string, rest: string)
    requires forall i :: 0 <= i < |word| ==> Unchanged(ab, word[i])
    ensures MapChars(ab, word + rest) == word + MapChars(ab, rest)
  {
    if word == "" {
      assert word + rest == rest;
    } else {
      var c, tail := word[0], word[1..];
      MapLetters(ab, tail, rest);
      assert word == [c] + tail && Unchanged(ab, c);
      Assoc([c], tail, rest);
      MapStep(ab, c, tail + rest);
      Assoc([c], tail, MapChars(ab, rest));
    }
  }

  // The failing family is inhabited: "python!" then "python" loses the first tool.
  lemma AliasLosesItsName(ab: Alphabet)
    requires forall c :: 'a' <= c <= 'z' ==> ab.isLetter(c)
    requires !ab.isLetter('!') && !ab.isDigit('!')
    ensures !AllMapBack(ab, ["python!", "python"])
  {
    var users := ["python!", "python"];
    MapLetters(ab, "python", "!");
    assert "python" + "!" == users[0];
    assert users[1] == PYTHON && users[..0] == [] && PythonAlias(ab, users[0]);
    NamesMapBackIff(ab, users);
  }
}
