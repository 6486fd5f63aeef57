/**
 The folder walk, which prunes ignored directories as it goes, against the plain walk filtered
 afterwards; and the subset of the ignore list handed to the watcher for its own pruning.
 */
module Walk {
  import opened Types
  import opened PathFilter

  datatype Node = File(name: string) | Dir(name: string, kids: seq<Node>) | Link(name: string)

  function Child(prefix: Path, name: string): Path { if prefix == "" then name else prefix + "/" + name }

  predicate Hex(c: char) { '0' <= c <= '9' || 'a' <= c <= 'f' }

  predicate TempFrom(name: string, i: nat)
    requires i + 13 <= |name|
  { name[i..i + 5] == ".tmp." && forall j :: i + 5 <= j < |name| ==> Hex(name[j]) }

  /** A daemon-private scratch file: `.tmp.` and at least eight hex digits to the end. */
  predicate IsTemp(name: string) {
    exists i :: 0 <= i <= |name| - 13 && TempFrom(name, i)
  }

  /** The files the walk lists, pruning directories the patterns match. */
  function Listed(prefix: Path, kids: seq<Node>, ignore: seq<string>, fold: bool): seq<Path>
    decreases kids
  {
    if kids == [] then []
    else
      var full := Child(prefix, kids[0].name);
      (if kids[0].Link? || (kids[0].File? && IsTemp(kids[0].name)) then []
       else if kids[0].File? then [full]
       else if MatchAny(full, ignore, fold) then []
       else Listed(full, kids[0].kids, ignore, fold))
      + Listed(prefix, kids[1..], ignore, fold)
  }

  function Synced(files: seq<Path>, wanted: seq<string>, ignore: seq<string>, fold: bool): seq<Path> {
    if files == [] then []
    else
      (if ShouldSync(files[0], wanted, ignore, fold) then [files[0]] else [])
      + Synced(files[1..], wanted, ignore, fold)
  }

  /** Names as a file system gives them. */
  predicate Named(kids: seq<Node>)
    decreases kids
  {
    kids != [] ==>
      && kids[0].name != "" && '/' !in kids[0].name
      && (kids[0].Dir? ==> Named(kids[0].kids))
      && Named(kids[1..])
  }

  // --- What the walk lists ---

  /** The tree holds a file at the names `parts`, one below the other. */
  predicate Holds(kids: seq<Node>, parts: seq<string>)
    decreases |parts|
  {
    && parts != []
    && exists i :: 0 <= i < |kids| && kids[i].name == parts[0]
                   && (if |parts| == 1 then kids[i].File? else kids[i].Dir? && Holds(kids[i].kids, parts[1..]))
  }

  function Joined(prefix: Path, parts: seq<string>): Path
    decreases |parts|
  { if parts == [] then prefix else Joined(Child(prefix, parts[0]), parts[1..]) }

  function Last(parts: seq<string>): string
    requires parts != []
  { parts[|parts| - 1] }

  lemma HexIs(c: char)
    ensures Hex(c) <==> c in "0123456789abcdef"
  {
  }

  /** A scratch name is anything followed by `.tmp.` and eight or more hex digits. */
  lemma ScratchNames(name: string)
    ensures IsTemp(name)
            <==> exists stem: string, digits: string ::
                   name == (stem + ".tmp.") + digits && |digits| >= 8 && forall c :: c in digits ==> Hex(c)
  {
    if IsTemp(name) {
      var i :| 0 <= i <= |name| - 13 && TempFrom(name, i);
      var stem, digits := name[..i], name[i + 5..];
      assert name == (stem + ".tmp.") + digits;
      forall c | c in digits ensures Hex(c) {
        var j :| 0 <= j < |digits| && digits[j] == c;
        assert name[i + 5 + j] == c;
      }
    }
    if stem: string, digits: string :|
      name == (stem + ".tmp.") + digits && |digits| >= 8 && forall c :: c in digits ==> Hex(c)
    {
      assert name[|stem|..|stem| + 5] == ".tmp.";
      forall j | |stem| + 5 <= j < |name| ensures Hex(name[j]) { assert name[j] == digits[j - |stem| - 5]; }
      assert TempFrom(name, |stem|);
    }
  }

  /** Without patterns to prune by, the walk lists exactly the tree's files, by their joined names, but for
      scratch files. */
  lemma {:induction false} ListedIsHeld(prefix: Path, kids: seq<Node>, fold: bool, f: Path)
    requires f in Listed(prefix, kids, [], fold)
    ensures exists parts :: Holds(kids, parts) && !IsTemp(Last(parts)) && f == Joined(prefix, parts)
    decreases kids
  {
    var x := kids[0];
    assert !MatchAny(Child(prefix, x.name), [], fold);
    hide MatchAny, IsTemp, Child, Holds, Joined;
    if f in Listed(prefix, kids[1..], [], fold) {
      ListedIsHeld(prefix, kids[1..], fold, f);
      var parts :| Holds(kids[1..], parts) && !IsTemp(Last(parts)) && f == Joined(prefix, parts);
      HoldsMore(kids, parts);
    } else if x.Dir? {
      ListedIsHeld(Child(prefix, x.name), x.kids, fold, f);
      var parts :| Holds(x.kids, parts) && !IsTemp(Last(parts)) && f == Joined(Child(prefix, x.name), parts);
      HeldBelow(prefix, kids, parts);
    } else {
      HeldHere(prefix, kids);
    }
  }

  lemma HeldBelow(prefix: Path, kids: seq<Node>, parts: seq<string>)
    requires kids != [] && kids[0].Dir? && Holds(kids[0].kids, parts)
    ensures var all := [kids[0].name] + parts;
            Holds(kids, all) && Last(all) == Last(parts)
            && Joined(prefix, all) == Joined(Child(prefix, kids[0].name), parts)
  {
    var all := [kids[0].name] + parts;
    assert all[1..] == parts && kids[0].name == all[0];
  }

  lemma HeldHere(prefix: Path, kids: seq<Node>)
    requires kids != [] && kids[0].File?
    ensures var parts := [kids[0].name];
            Holds(kids, parts) && Last(parts) == kids[0].name && Joined(prefix, parts) == Child(prefix, kids[0].name)
  {
    var parts := [kids[0].name];
    assert parts[1..] == [] && kids[0].name == parts[0];
  }

  lemma HoldsMore(kids: seq<Node>, parts: seq<string>)
    requires kids != [] && Holds(kids[1..], parts)
    ensures Holds(kids, parts)
  {
    var i :| 0 <= i < |kids[1..]| && kids[1..][i].name == parts[0]
      && (if |parts| == 1 then kids[1..][i].File? else kids[1..][i].Dir? && Holds(kids[1..][i].kids, parts[1..]));
    assert kids[i + 1] == kids[1..][i];
  }

  lemma {:induction false} HeldIsListed(prefix: Path, kids: seq<Node>, fold: bool, parts: seq<string>)
    requires Holds(kids, parts) && !IsTemp(Last(parts))
    ensures Joined(prefix, parts) in Listed(prefix, kids, [], fold)
    decreases kids
  {
    var i :| 0 <= i < |kids| && kids[i].name == parts[0]
      && (if |parts| == 1 then kids[i].File? else kids[i].Dir? && Holds(kids[i].kids, parts[1..]));
    var x := kids[0];
    assert !MatchAny(Child(prefix, x.name), [], fold);
    hide MatchAny, IsTemp, Child;
    if i > 0 {
      assert kids[1..][i - 1] == kids[i];
      assert Holds(kids[1..], parts);
      HeldIsListed(prefix, kids[1..], fold, parts);
    } else if |parts| == 1 {
      assert parts[1..] == [] && Last(parts) == x.name;
      assert Joined(prefix, parts) == Child(prefix, x.name);
    } else {
      assert Last(parts[1..]) == Last(parts);
      HeldIsListed(Child(prefix, x.name), x.kids, fold, parts[1..]);
    }
  }

  // --- The walk as it runs ---

  lemma {:induction false} ListedAppends(prefix: Path, a: seq<Node>, x: Node, ignore: seq<string>, fold: bool)
    ensures Listed(prefix, a + [x], ignore, fold) == Listed(prefix, a, ignore, fold) + Listed(prefix, [x], ignore, fold)
  {
    hide MatchAny, IsTemp, Child;
    if a == [] {
      assert a + [x] == [x];
    } else {
      assert (a + [x])[1..] == a[1..] + [x] && (a + [x])[0] == a[0];
      ListedAppends(prefix, a[1..], x, ignore, fold);
    }
  }

  lemma ListedOne(prefix: Path, x: Node, ignore: seq<string>, fold: bool)
    ensures Listed(prefix, [x], ignore, fold) ==
              if x.Link? || (x.File? && IsTemp(x.name)) then []
              else if x.File? then [Child(prefix, x.name)]
              else if MatchAny(Child(prefix, x.name), ignore, fold) then []
              else Listed(Child(prefix, x.name), x.kids, ignore, fold)
  {
    assert [x][1..] == [];
  }

  /** `_walkDir` */
  method WalkDir(prefix: Path, entries: seq<Node>, ignore: seq<string>, fold: bool) returns (results: seq<Path>)
    ensures results == Listed(prefix, entries, ignore, fold)
    decreases entries
  {
    results := [];
    var i := 0;
    while i < |entries|
      invariant 0 <= i <= |entries|
      invariant results == Listed(prefix, entries[..i], ignore, fold)
    {
      var entry := entries[i];
      assert entries[..i + 1] == entries[..i] + [entry];
      ListedAppends(prefix, entries[..i], entry, ignore, fold);
      ListedOne(prefix, entry, ignore, fold);
      i := i + 1;
      if entry.Link? { continue; }
      var full := Child(prefix, entry.name);
      if entry.Dir? {
        if MatchAny(full, ignore, fold) { continue; }
        var below := WalkDir(full, entry.kids, ignore, fold);
        results := results + below;
      } else {
        if IsTemp(entry.name) { continue; }
        results := results + [full];
      }
    }
    assert entries[..|entries|] == entries;
  }

  // --- Pruning against filtering ---

  lemma {:induction false} SyncedAppends(a: seq<Path>, b: seq<Path>, wanted: seq<string>, ignore: seq<string>,
          fold: bool)
    ensures Synced(a + b, wanted, ignore, fold) == Synced(a, wanted, ignore, fold) + Synced(b, wanted, ignore, fold)
  {
    if a == [] {
      assert a + b == b;
    } else {
      assert (a + b)[1..] == a[1..] + b;
      SyncedAppends(a[1..], b, wanted, ignore, fold);
    }
  }

  lemma {:induction false} SyncedIn(files: seq<Path>, wanted: seq<string>, ignore: seq<string>, fold: bool, f: Path)
    ensures f in Synced(files, wanted, ignore, fold) <==> f in files && ShouldSync(f, wanted, ignore, fold)
  {
    if files != [] { SyncedIn(files[1..], wanted, ignore, fold, f); }
  }

  /** No directory strictly between the root of the walk and the file is ignored. */
  predicate Reachable(prefix: Path, f: Path, ignore: seq<string>, fold: bool) {
    forall i :: |prefix| < i < |f| && f[i] == '/' ==> !MatchAny(f[..i], ignore, fold)
  }

  /** What a walk lists lies below where it started. */
  predicate Below(prefix: Path, f: Path) { prefix == "" || prefix + "/" <= f }

  lemma {:induction false} ListedBelow(prefix: Path, kids: seq<Node>, ignore: seq<string>, fold: bool, f: Path)
    requires f in Listed(prefix, kids, ignore, fold) && Named(kids)
    ensures Below(prefix, f)
    decreases kids
  {
    var head := Listed(prefix, kids[..1], ignore, fold);
    assert kids[..1] == [kids[0]];
    ListedOne(prefix, kids[0], ignore, fold);
    if f !in head {
      ListedBelow(prefix, kids[1..], ignore, fold, f);
    } else if kids[0].Dir? {
      var inner := Child(prefix, kids[0].name);
      ListedBelow(inner, kids[0].kids, ignore, fold, f);
      if prefix != "" { assert prefix + "/" <= inner + "/"; }
    }
  }

  /** Stepping into a directory that is not ignored changes nobody's reachability. */
  lemma StepDown(prefix: Path, name: string, f: Path, ignore: seq<string>, fold: bool)
    requires name != "" && '/' !in name && Child(prefix, name) + "/" <= f
    ensures Reachable(prefix, f, ignore, fold) <==>
              !MatchAny(Child(prefix, name), ignore, fold) && Reachable(Child(prefix, name), f, ignore, fold)
  {
    var inner := Child(prefix, name);
    hide MatchAny;
    assert f[..|inner|] == inner && f[|inner|] == '/';
    forall i | |prefix| < i < |inner| ensures f[i] != '/' {
      assert f[i] == inner[i];
      var offset := |inner| - |name|;
      assert offset <= |prefix| + 1;
      assert inner[offset..] == name;
      assert inner[i] == name[i - offset];
    }
  }

  /** The claim for one list of entries. Pruning only drops files, and drops none that syncs
      exactly when none lies in an ignored directory. */
  ghost predicate Agrees(prefix: Path, kids: seq<Node>, wanted: seq<string>, ignore: seq<string>, fold: bool) {
    var pruned := Synced(Listed(prefix, kids, ignore, fold), wanted, ignore, fold);
    var full := Synced(Listed(prefix, kids, [], fold), wanted, ignore, fold);
    && |pruned| <= |full|
    && (|pruned| == |full| ==> pruned == full)
    && (pruned == full <==> forall f :: f in full ==> Reachable(prefix, f, ignore, fold))
  }

  lemma AgreesAppends(prefix: Path, x: Node, rest: seq<Node>, wanted: seq<string>, ignore: seq<string>, fold: bool)
    requires Agrees(prefix, [x], wanted, ignore, fold) && Agrees(prefix, rest, wanted, ignore, fold)
    ensures Agrees(prefix, [x] + rest, wanted, ignore, fold)
  {
    var kids := [x] + rest;
    assert kids[1..] == rest && kids[0] == x;
    var p0, p1 := Listed(prefix, [x], ignore, fold), Listed(prefix, rest, ignore, fold);
    var f0, f1 := Listed(prefix, [x], [], fold), Listed(prefix, rest, [], fold);
    ListedOne(prefix, x, ignore, fold);
    ListedOne(prefix, x, [], fold);
    assert Listed(prefix, kids, ignore, fold) == p0 + p1;
    assert Listed(prefix, kids, [], fold) == f0 + f1;
    hide Listed, Reachable;
    SyncedAppends(p0, p1, wanted, ignore, fold);
    SyncedAppends(f0, f1, wanted, ignore, fold);
  }

  lemma AgreesOne(prefix: Path, x: Node, wanted: seq<string>, ignore: seq<string>, fold: bool)
    requires x.name != "" && '/' !in x.name && (x.Dir? ==> Named(x.kids))
    requires x.Dir? ==> Agrees(Child(prefix, x.name), x.kids, wanted, ignore, fold)
    ensures Agrees(prefix, [x], wanted, ignore, fold)
  {
    ListedOne(prefix, x, ignore, fold);
    ListedOne(prefix, x, [], fold);
    var inner := Child(prefix, x.name);
    if x.Dir? {
      var under := Listed(inner, x.kids, [], fold);
      forall f | f in Synced(under, wanted, ignore, fold)
        ensures Reachable(prefix, f, ignore, fold) <==>
                  !MatchAny(inner, ignore, fold) && Reachable(inner, f, ignore, fold)
      {
        SyncedIn(under, wanted, ignore, fold, f);
        ListedBelow(inner, x.kids, [], fold, f);
        StepDown(prefix, x.name, f, ignore, fold);
      }
      var full := Synced(under, wanted, ignore, fold);
      if MatchAny(inner, ignore, fold) && full != [] { assert full[0] in full; }
    } else if x.File? && !IsTemp(x.name) {
      LeafReachable(prefix, x.name, ignore, fold);
    }
  }

  lemma LeafReachable(prefix: Path, name: string, ignore: seq<string>, fold: bool)
    requires '/' !in name
    ensures Reachable(prefix, Child(prefix, name), ignore, fold)
  {
    var f := Child(prefix, name);
    forall i | |prefix| < i < |f| ensures f[i] != '/' {
      var offset := |f| - |name|;
      assert f[offset..] == name;
      assert f[i] == name[i - offset];
    }
  }

  /** For any tree and any patterns, the pruned walk then filtered gives the files of the whole
      walk then filtered, in the same order, exactly when no file that syncs lies in an ignored
      directory. */
  lemma {:induction false} PruningIsExact(prefix: Path, kids: seq<Node>, wanted: seq<string>, ignore: seq<string>,
          fold: bool)
    requires Named(kids)
    ensures Agrees(prefix, kids, wanted, ignore, fold)
    decreases kids
  {
    if kids != [] {
      var x := kids[0];
      if x.Dir? { PruningIsExact(Child(prefix, x.name), x.kids, wanted, ignore, fold); }
      AgreesOne(prefix, x, wanted, ignore, fold);
      PruningIsExact(prefix, kids[1..], wanted, ignore, fold);
      AgreesAppends(prefix, x, kids[1..], wanted, ignore, fold);
      assert kids == [x] + kids[1..];
    }
  }

  lemma SyncedIsReachable(prefix: Path, f: Path, ignore: seq<string>, fold: bool)
    requires forall i :: 0 <= i < |ignore| ==> Subtree(Classify(ignore[i]))
    requires !MatchAny(f, ignore, fold)
    ensures Reachable(prefix, f, ignore, fold)
  {
    hide MatchAny, Classify;
    forall i | |prefix| < i < |f| && f[i] == '/' ensures !MatchAny(f[..i], ignore, fold) {
      assert f == f[..i] + "/" + f[i + 1..];
      if MatchAny(f[..i], ignore, fold) { SubtreesAreClosed(f[..i], f[i + 1..], ignore, fold); }
    }
  }

  /** With only subtree patterns in the ignore list, pruning never changes what syncs. */
  lemma PrunedWalkIsFilteredWalk(prefix: Path, kids: seq<Node>, wanted: seq<string>, ignore: seq<string>, fold: bool)
    requires Named(kids)
    requires forall i :: 0 <= i < |ignore| ==> Subtree(Classify(ignore[i]))
    ensures Synced(Listed(prefix, kids, ignore, fold), wanted, ignore, fold)
            == Synced(Listed(prefix, kids, [], fold), wanted, ignore, fold)
  {
    PruningIsExact(prefix, kids, wanted, ignore, fold);
    var files := Listed(prefix, kids, [], fold);
    hide Listed, MatchAny, Reachable, Classify, Synced;
    forall f | f in Synced(files, wanted, ignore, fold) ensures Reachable(prefix, f, ignore, fold) {
      SyncedIn(files, wanted, ignore, fold, f);
      SyncedIsReachable(prefix, f, ignore, fold);
    }
  }

  lemma SplitBuild()
    ensures Split("build/x") == ["build", "x"] && '*' !in "build/x"
  {
    NoSlashIsOneSegment("build");
    NoSlashIsOneSegment("x");
    SplitJoin("build", "x");
    assert "build" + "/" + "x" == "build/x";
    hide Split;
    assert Split("build") == ["build"] && Split("x") == ["x"];
  }

  lemma BuildIsBase()
    ensures KindOf("build") == Base && !Special("build") && Slashed("build") == "build"
  {
    Edges("build");
    hide EndsWith;
    assert Slashed("build") == "build";
  }

  lemma BuildMatches()
    ensures MatchAny("build", ["build"], false) && !MatchAny("build/x", ["build"], false)
  {
    SplitBuild();
    BuildIsBase();
    hide Split, KindOf, Slashed, Special;
    assert Basename("build/x") == "x" != "build";
    MatchIsSegmentwise("build/x", "build");
    assert Match("build", "build");
    hide Match, Covers;
    assert Match(Shape("build", false), Shape(Slashed(["build"][0]), false));
  }

  /** A basename pattern is different: the walk skips the directory, though the pattern matches
      nothing inside it. */
  lemma BasenamePatternLosesFiles()
    ensures var tree := [Dir("build", [File("x")])];
            && Synced(Listed("", tree, ["build"], false), [], ["build"], false) == []
            && Synced(Listed("", tree, [], false), [], ["build"], false) == ["build/x"]
  {
    BuildMatches();
    assert !IsTemp("x") && Child("build", "x") == "build/x" && Child("", "build") == "build";
    assert !MatchAny("build", [], false);
    hide MatchAny, IsTemp, Child;
    ListedOne("build", File("x"), [], false);
    ListedOne("", Dir("build", [File("x")]), [], false);
    ListedOne("", Dir("build", [File("x")]), ["build"], false);
    assert ["build/x"][1..] == [];
  }

  // --- What the watcher is given ---

  predicate WithinCaps(p: string, maxLength: nat, maxStars: nat) { 0 < |p| <= maxLength && Stars(p) <= maxStars }

  function Stars(p: string): nat {
    if p == "" then 0 else Stars(p[..|p| - 1]) + if p[|p| - 1] == '*' then 1 else 0
  }

  lemma {:induction false} StarsAre(p: string)
    ensures Stars(p) == multiset(p)['*']
  {
    if p != "" {
      StarsAre(p[..|p| - 1]);
      assert p == p[..|p| - 1] + [p[|p| - 1]];
    }
  }

  method CountStars(p: string) returns (n: nat)
    ensures n == Stars(p)
  {
    n := 0;
    for i := 0 to |p|
      invariant n == Stars(p[..i])
    {
      assert p[..i + 1][..i] == p[..i];
      if p[i] == '*' { n := n + 1; }
    }
    assert p[..|p|] == p;
  }

  /** What is forwarded for one pattern: its text with slashes, and that in both normal forms. */
  function Forms(p: string, composed: string -> string, decomposed: string -> string): seq<string> {
    [Slashed(p), composed(Slashed(p)), decomposed(Slashed(p))]
  }

  /** `p` is one of the first `m` forms of a subtree pattern, within the caps. */
  ghost predicate FormOf(p: string, q: string, m: nat, composed: string -> string, decomposed: string -> string,
                         maxLength: nat, maxStars: nat)
    requires m <= 3
  {
    && Subtree(KindOf(composed(Slashed(q)))) && WithinCaps(p, maxLength, maxStars)
    && exists j :: 0 <= j < m && p == Forms(q, composed, decomposed)[j]
  }

  /** `p` is a form of one of the first `k` patterns. */
  ghost predicate Forwarded(p: string, patterns: seq<string>, k: nat, composed: string -> string,
                            decomposed: string -> string, maxLength: nat, maxStars: nat)
    requires k <= |patterns|
  { exists i :: 0 <= i < k && FormOf(p, patterns[i], 3, composed, decomposed, maxLength, maxStars) }

  /** `_dirPrefixIgnores`: every form of the subtree patterns within the watcher's caps, each once.
      The Unicode normal forms are the parameters `composed` and `decomposed`. */
  method DirPrefixIgnores(patterns: seq<string>, composed: string -> string, decomposed: string -> string,
                          maxLength: nat, maxStars: nat) returns (out: seq<string>)
    ensures forall p :: p in out <==> Forwarded(p, patterns, |patterns|, composed, decomposed, maxLength, maxStars)
    ensures forall i, j :: 0 <= i < j < |out| ==> out[i] != out[j]
  {
    hide KindOf, Slashed, WithinCaps;
    out := [];
    var seen: set<string> := {};
    for k := 0 to |patterns|
      invariant forall p :: p in out <==> p in seen
      invariant forall p :: p in seen <==> Forwarded(p, patterns, k, composed, decomposed, maxLength, maxStars)
      invariant forall i, j :: 0 <= i < j < |out| ==> out[i] != out[j]
    {
      var kind := KindOf(composed(Slashed(patterns[k])));
      if kind != RecursiveDir && kind != PathQualified { continue; }
      var forms := Forms(patterns[k], composed, decomposed);
      for m := 0 to 3
        invariant forall p :: p in out <==> p in seen
        invariant forall p :: p in seen <==>
                    Forwarded(p, patterns, k, composed, decomposed, maxLength, maxStars)
                    || FormOf(p, patterns[k], m, composed, decomposed, maxLength, maxStars)
        invariant forall i, j :: 0 <= i < j < |out| ==> out[i] != out[j]
      {
        var form := forms[m];
        if form in seen { continue; }
        var stars := CountStars(form);
        assert WithinCaps(form, maxLength, maxStars) <==> 0 < |form| <= maxLength && stars <= maxStars by {
          CapsAre(form, maxLength, maxStars);
        }
        if |form| == 0 || |form| > maxLength { continue; }
        if stars > maxStars { continue; }
        seen := seen + {form};
        out := out + [form];
      }
    }
  }

  lemma CapsAre(p: string, maxLength: nat, maxStars: nat)
    ensures WithinCaps(p, maxLength, maxStars) <==> 0 < |p| <= maxLength && Stars(p) <= maxStars
  {
  }

  /** What the normal forms have to do with each other and with the matcher: both forms of a text have
      one composed form, and composing a path and a pattern loses no match. */
  ghost predicate Normalizes(composed: string -> string, decomposed: string -> string, fold: bool) {
    && (forall s :: composed(composed(s)) == composed(s) == composed(decomposed(s)))
    && (forall f, q :: Match(Shape(f, fold), Shape(q, fold)) ==>
        Match(Shape(composed(f), fold), Shape(composed(q), fold)))
  }

  /** The watcher never prunes more than the filter ignores, whatever the caps dropped and in whatever
      normal form the volume gives the name. */
  lemma ForwardedIsNoWider(f: Path, patterns: seq<string>, forwarded: seq<string>, composed: string -> string,
                           decomposed: string -> string, fold: bool)
    requires Normalizes(composed, decomposed, fold)
    requires forall p :: p in forwarded ==>
               exists i :: 0 <= i < |patterns| && p in Forms(patterns[i], composed, decomposed)
    requires exists j :: 0 <= j < |forwarded| && Match(Shape(f, fold), Shape(forwarded[j], fold))
    ensures exists i ::
              0 <= i < |patterns| && Match(Shape(composed(f), fold), Shape(composed(Slashed(patterns[i])), fold))
  {
    hide Match, Shape, Slashed;
    var j :| 0 <= j < |forwarded| && Match(Shape(f, fold), Shape(forwarded[j], fold));
    assert forwarded[j] in forwarded;
    var i :| 0 <= i < |patterns| && forwarded[j] in Forms(patterns[i], composed, decomposed);
    assert composed(forwarded[j]) == composed(Slashed(patterns[i]));
  }
}
