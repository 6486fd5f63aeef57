/**
 The ignore and include patterns: the matcher, the classifier that warns about patterns matching
 nothing, and what each kind of pattern means segment by segment.
 */
module PathFilter {
  import opened Types

  // --- Strings ---

  predicate EndsWith(s: string, suffix: string) { |suffix| <= |s| && s[|s| - |suffix|..] == suffix }

  /** `split('/')` */
  function Split(s: string): (r: seq<string>)
    ensures |r| > 0
  {
    if s == "" then [""]
    else
      var rest := Split(s[1..]);
      if s[0] == '/' then [""] + rest else [[s[0]] + rest[0]] + rest[1..]
  }

  function Basename(f: Path): string { Split(f)[|Split(f)| - 1] }

  /** A relative path as the client keys it: no empty segment anywhere. */
  predicate Canonical(f: Path) { "" !in Split(f) }

  // --- The matcher and the classifier ---

  /** The suffix of a recursive pattern. */
  const TREE: string := "/" + "**"

  predicate Special(p: string) { '[' in p || ']' in p || '?' in p || '!' in p }

  /** `_matchPattern` */
  predicate Match(f: Path, p: string) {
    if Special(p) then false
    else if f == p then true
    else if '/' !in p then
      var base := Basename(f);
      base == p || ("*." <= p && EndsWith(base, p[1..])) || (p == "*~" && EndsWith(base, "~"))
    else if EndsWith(p, TREE) then
      var dir := p[..|p| - 3];
      '*' !in dir && (dir + "/" <= f || f == dir || ('/' !in dir && dir in Split(f)))
    else '*' !in p && p + "/" <= f
  }

  datatype Kind = Unsupported | Tilde | Ext | Base | RecursiveDir | PathQualified

  /** A Windows separator in a pattern reads as '/'. */
  function Slashed(p: string): string { seq(|p|, i requires 0 <= i < |p| => if p[i] == '\\' then '/' else p[i]) }

  /** `classifyPattern`, past its own separator folding. */
  function KindOf(p: string): Kind {
    if p == "" || "/" <= p || EndsWith(p, "/") || Special(p) then Unsupported
    else if '/' !in p then
      if p == "*~" then Tilde
      else if "*." <= p && '*' !in p[1..] then Ext
      else if '*' in p then Unsupported
      else Base
    else if EndsWith(p, TREE) then
      if '*' in p[..|p| - 3] then Unsupported else RecursiveDir
    else if '*' in p then Unsupported
    else PathQualified
  }

  function Classify(p: string): Kind { KindOf(Slashed(p)) }

  function Shape(s: string, fold: bool): string { if fold then Fold(s) else s }

  predicate MatchAny(f: Path, patterns: seq<string>, fold: bool) {
    exists i :: 0 <= i < |patterns| && Match(Shape(f, fold), Shape(Slashed(patterns[i]), fold))
  }

  predicate IsIncluded(f: Path, wanted: seq<string>, fold: bool) { wanted == [] || MatchAny(f, wanted, fold) }

  predicate ShouldSync(f: Path, wanted: seq<string>, ignore: seq<string>, fold: bool) {
    IsIncluded(f, wanted, fold) && !MatchAny(f, ignore, fold)
  }

  // --- What a pattern means ---

  /** Each kind of pattern in terms of whole path segments. */
  predicate Covers(p: string, f: Path) {
    match KindOf(p)
    case Unsupported => false
    case Base => Basename(f) == p
    case Ext => EndsWith(Basename(f), p[1..])
    case Tilde => EndsWith(Basename(f), "~")
    case RecursiveDir =>
      var dir := p[..|p| - 3];
      if '/' in dir then Split(dir) <= Split(f) else dir in Split(f)
    case PathQualified => Split(p) <= Split(f)
  }

  /** A subtree test on characters is one on segments: no sibling with a longer name matches. */
  lemma {:induction false} SplitPrefix(a: string, f: string)
    ensures f == a || a + "/" <= f <==> Split(a) <= Split(f)
  {
    if a != "" && f != "" && a[0] == f[0] {
      SplitPrefix(a[1..], f[1..]);
      assert (a + "/")[1..] == a[1..] + "/";
      assert a + "/" <= f <==> a[1..] + "/" <= f[1..];
      var x, y := Split(a[1..]), Split(f[1..]);
      if a[0] == '/' {
        assert Split(a) == [""] + x && Split(f) == [""] + y;
        HeadPrefix(x, y, "");
      } else {
        assert Split(a) == [[a[0]] + x[0]] + x[1..] && Split(f) == [[f[0]] + y[0]] + y[1..];
        ConsPrefix(x, y, a[0]);
      }
    } else if a == "" {
      assert f == "" || f[0] == '/' <==> Split(f)[0] == "";
    } else {
      SplitHead(a);
      SplitHead(f);
    }
  }

  lemma HeadPrefix(x: seq<string>, y: seq<string>, h: string)
    ensures x <= y <==> [h] + x <= [h] + y
  {
    assert ([h] + x)[1..] == x && ([h] + y)[1..] == y;
    assert forall i :: 0 <= i < |x| ==> ([h] + x)[i + 1] == x[i];
    assert forall i :: 0 <= i < |y| ==> ([h] + y)[i + 1] == y[i];
    if [h] + x <= [h] + y { assert forall i :: 0 <= i < |x| ==> x[i] == ([h] + y)[i + 1]; }
  }

  lemma ConsPrefix(x: seq<string>, y: seq<string>, c: char)
    requires |x| > 0 && |y| > 0
    ensures x <= y <==> [[c] + x[0]] + x[1..] <= [[c] + y[0]] + y[1..]
  {
    var u, v := [[c] + x[0]] + x[1..], [[c] + y[0]] + y[1..];
    assert forall i :: 0 < i < |x| ==> u[i] == x[i];
    assert forall i :: 0 < i < |y| ==> v[i] == y[i];
    if u <= v {
      assert u[0] == v[0] && u[0][1..] == x[0] && v[0][1..] == y[0];
      assert forall i :: 0 <= i < |x| ==> x[i] == y[i];
    }
  }

  lemma SplitHead(s: string)
    ensures s == "" ==> Split(s) == [""]
    ensures s != "" && s[0] == '/' ==> Split(s)[0] == "" && |Split(s)| > 1
    ensures s != "" && s[0] != '/' ==> Split(s)[0] != "" && Split(s)[0][0] == s[0]
  {
  }

  lemma {:induction false} NoSlashIsOneSegment(s: string)
    ensures '/' !in s <==> Split(s) == [s]
  {
    if s != "" {
      var rest := s[1..];
      NoSlashIsOneSegment(rest);
      assert s == [s[0]] + rest;
      if s[0] != '/' {
        assert Split(s)[0] == [s[0]] + Split(rest)[0] && |Split(s)| == |Split(rest)|;
        assert Split(rest)[0] == rest <==> Split(s)[0] == s;
      }
    }
  }

  lemma FirstSegment(p: string)
    ensures "/" <= p || p == "" ==> "" in Split(p)
  {
    if "/" <= p || p == "" { assert Split(p)[0] == ""; }
  }

  lemma {:induction false} LastSegment(p: string)
    requires EndsWith(p, "/")
    ensures |Split(p)| > 1 && Split(p)[|Split(p)| - 1] == ""
  {
    if |p| > 1 {
      EndsLater(p);
      LastSegment(p[1..]);
    } else {
      assert p == "/" && Split(p[1..]) == [""];
    }
  }

  lemma EndsLater(p: string)
    requires |p| > 1 && EndsWith(p, "/")
    ensures EndsWith(p[1..], "/")
  {
  }

  /** A prefix's empty segment is the path's. */
  lemma PrefixSegments(a: string, f: Path)
    requires "" in Split(a) && Split(a) <= Split(f)
    ensures "" in Split(f)
  {
    var i :| 0 <= i < |Split(a)| && Split(a)[i] == "";
    assert Split(f)[i] == "";
  }

  /** A pattern that begins or ends with '/' reaches no canonical path through its prefix. */
  lemma EdgeSlash(p: string, f: Path)
    requires Canonical(f) && ("/" <= p || EndsWith(p, "/") || p == "")
    ensures !(Split(p) <= Split(f)) && "" in Split(p)
  {
    FirstSegment(p);
    if EndsWith(p, "/") { LastSegment(p); }
    if Split(p) <= Split(f) { PrefixSegments(p, f); }
  }

  lemma {:induction false} BasenameIn(f: Path)
    ensures Basename(f) in Split(f)
    ensures forall c :: c in Basename(f) ==> c in f
  {
    if f != "" {
      BasenameIn(f[1..]);
      var rest := Split(f[1..]);
      if f[0] != '/' && |rest| == 1 {
        assert Basename(f) == [f[0]] + rest[0];
      } else {
        assert Basename(f) == Basename(f[1..]);
      }
    }
  }

  lemma SuffixChars(s: string, suffix: string, c: char)
    requires EndsWith(s, suffix) && c in suffix
    ensures c in s
  {
    var i :| 0 <= i < |suffix| && suffix[i] == c;
    assert s[|s| - |suffix| + i] == c;
  }

  lemma FlatMatch(f: Path, p: string)
    requires Canonical(f) && ('*' !in f || KindOf(p) != Unsupported) && '/' !in p && p != "" && !Special(p)
    ensures Match(f, p) <==> Covers(p, f)
  {
    var base := Basename(f);
    BasenameIn(f);
    NoSlashIsOneSegment(p);
    Edges(p);
    assert f == p ==> base == p;
    if KindOf(p) == Unsupported {
      assert '*' in p ==> base != p by { assert '*' !in base; }
      if "*." <= p && '*' in p[1..] && EndsWith(base, p[1..]) { SuffixChars(base, p[1..], '*'); }
    }
    assert base == p && p != "" ==> EndsWith(base, p[1..]);
    assert p == "*~" ==> p[1..] == "~";
    FlatCases(base, f, p);
  }

  lemma FlatCases(base: string, f: Path, p: string)
    requires base == Basename(f) && '/' !in p && p != "" && !Special(p) && !("/" <= p) && !EndsWith(p, "/")
    requires (f == p ==> base == p) && (base == p ==> EndsWith(base, p[1..])) && (p == "*~" ==> p[1..] == "~")
    requires KindOf(p) == Unsupported && '*' in p ==> base != p
    requires "*." <= p || p == "*~" ==> '*' in p
    requires KindOf(p) == Unsupported && "*." <= p && '*' in p[1..] ==> !EndsWith(base, p[1..])
    ensures Match(f, p) <==> Covers(p, f)
  {
    hide EndsWith, Basename, Special;
  }

  lemma TreeMatch(f: Path, p: string)
    requires Canonical(f) && ('*' !in f || KindOf(p) != Unsupported) && EndsWith(p, TREE) && !Special(p)
    ensures Match(f, p) <==> Covers(p, f)
  {
    var dir := p[..|p| - 3];
    Edges(p);
    TreeEdge(p);
    SplitPrefix(dir, f);
    NoSlashIsOneSegment(dir);
    assert '/' in p by { assert p[|p| - 3] == '/'; }
    assert '*' in p;
    if f == p {
      assert dir + "/" <= f;
      assert dir + "/" == p[..|p| - 2];
    }
    if "/" <= p {
      Edges(dir);
      EdgeSlash(dir, f);
    }
    if '/' !in dir && Split(dir) <= Split(f) { assert Split(f)[0] == dir; }
    hide Split, EndsWith, Special;
  }

  /** For every canonical path the matcher tests exactly what the pattern's kind means; an unsupported
      pattern matches nothing, as long as the path is free of '*'. */
  lemma MatchIsSegmentwise(f: Path, p: string)
    requires Canonical(f) && ('*' !in f || KindOf(p) != Unsupported)
    ensures Match(f, p) <==> Covers(p, f)
  {
    if Special(p) {
    } else if p == "" {
      EdgeSlash(p, f);
      BasenameIn(f);
    } else if '/' !in p {
      FlatMatch(f, p);
    } else if EndsWith(p, TREE) {
      TreeMatch(f, p);
    } else {
      SplitPrefix(p, f);
      if "/" <= p || EndsWith(p, "/") { EdgeSlash(p, f); }
      hide Split;
    }
  }

  // --- The whole list ---

  lemma ShapeKeeps(s: string, fold: bool, c: char)
    requires !('a' <= c <= 'z') && !('A' <= c <= 'Z')
    ensures c in Shape(s, fold) <==> c in s
  {
    if c in s {
      var i :| 0 <= i < |s| && s[i] == c;
      assert Fold(s)[i] == c;
    }
    if c in Fold(s) {
      var i :| 0 <= i < |Fold(s)| && Fold(s)[i] == c;
      assert Lower(s[i]) == c && s[i] == c;
    }
  }

  lemma {:induction false} SplitFold(s: string)
    ensures |Split(Fold(s))| == |Split(s)|
    ensures forall i :: 0 <= i < |Split(s)| ==> Split(Fold(s))[i] == Fold(Split(s)[i])
  {
    if s != "" {
      SplitFold(s[1..]);
      assert Fold(s)[1..] == Fold(s[1..]);
      if s[0] != '/' { assert Fold([s[0]] + Split(s[1..])[0]) == [Lower(s[0])] + Fold(Split(s[1..])[0]); }
    }
  }

  lemma ShapeKeepsCanonical(f: Path, fold: bool)
    requires Canonical(f)
    ensures Canonical(Shape(f, fold))
  {
    SplitFold(f);
    if fold {
      forall i | 0 <= i < |Split(Fold(f))| ensures Split(Fold(f))[i] != "" {
        assert Split(f)[i] in Split(f);
      }
    }
  }

  /** The edges of a pattern, character by character. */
  lemma Edges(p: string)
    ensures "/" <= p <==> |p| >= 1 && p[0] == '/'
    ensures "*." <= p <==> |p| >= 2 && p[0] == '*' && p[1] == '.'
    ensures EndsWith(p, "/") <==> |p| >= 1 && p[|p| - 1] == '/'
    ensures p == "*~" <==> |p| == 2 && p[0] == '*' && p[1] == '~'
  {
    LastChar(p);
    StartsWithOne(p, '/');
    StartsWithTwo(p, '*', '.');
    StartsWithTwo(p, '*', '~');
    hide EndsWith;
    assert p == "*~" <==> "*~" <= p && |p| == 2;
  }

  lemma LastChar(p: string)
    ensures EndsWith(p, "/") <==> |p| >= 1 && p[|p| - 1] == '/'
  {
    if |p| >= 1 { assert p[|p| - 1..] == [p[|p| - 1]]; }
  }

  lemma StartsWithOne(p: string, a: char)
    ensures [a] <= p <==> |p| >= 1 && p[0] == a
  {
  }

  lemma StartsWithTwo(p: string, a: char, b: char)
    ensures [a, b] <= p <==> |p| >= 2 && p[0] == a && p[1] == b
  {
    if |p| >= 2 { assert p[..2] == [p[0], p[1]]; }
  }

  lemma TreeEdge(p: string)
    ensures EndsWith(p, TREE) <==> |p| >= 3 && p[|p| - 3] == '/' && p[|p| - 2] == '*' && p[|p| - 1] == '*'
  {
    assert TREE == ['/', '*', '*'];
    if |p| >= 3 {
      var e := p[|p| - 3..];
      assert e == [p[|p| - 3], p[|p| - 2], p[|p| - 1]];
    }
  }

  predicate Plain(c: char) { !('a' <= c <= 'z') && !('A' <= c <= 'Z') }

  lemma ShapeChars(p: string, fold: bool)
    ensures |Shape(p, fold)| == |p|
    ensures forall i, c :: 0 <= i < |p| && Plain(c) ==> (Shape(p, fold)[i] == c <==> p[i] == c)
  {
  }

  /** Lower-casing does not change a pattern's kind. */
  lemma ShapeKeepsKind(p: string, fold: bool)
    ensures KindOf(Shape(p, fold)) == KindOf(p)
  {
    var q := Shape(p, fold);
    ShapeKeeps(p, fold, '['); ShapeKeeps(p, fold, ']'); ShapeKeeps(p, fold, '?'); ShapeKeeps(p, fold, '!');
    ShapeKeeps(p, fold, '/'); ShapeKeeps(p, fold, '*');
    ShapeChars(p, fold);
    Edges(p); Edges(q);
    TreeEdge(p); TreeEdge(q);
    assert Plain('/') && Plain('*') && Plain('.') && Plain('~');
    if |p| >= 1 {
      assert q[1..] == Shape(p[1..], fold);
      ShapeKeeps(p[1..], fold, '*');
    }
    if |p| >= 3 {
      assert q[..|p| - 3] == Shape(p[..|p| - 3], fold);
      ShapeKeeps(p[..|p| - 3], fold, '*');
    }
    hide EndsWith, Shape, Plain;
  }

  /** A list whose every pattern the operator was warned about matches no canonical path that is
      free of '*', on either kind of volume. */
  lemma UnsupportedMatchNothing(f: Path, patterns: seq<string>, fold: bool)
    requires Canonical(f) && '*' !in f
    requires forall i :: 0 <= i < |patterns| ==> Classify(patterns[i]) == Unsupported
    ensures !MatchAny(f, patterns, fold)
  {
    ShapeKeepsCanonical(f, fold);
    ShapeKeeps(f, fold, '*');
    forall i | 0 <= i < |patterns| ensures !Match(Shape(f, fold), Shape(Slashed(patterns[i]), fold)) {
      var p := Slashed(patterns[i]);
      ShapeKeepsKind(p, fold);
      MatchIsSegmentwise(Shape(f, fold), Shape(p, fold));
    }
  }

  /** The star is one that the matcher understands: the front of an extension or of `*~`, or one of the two
      after the last '/'. */
  predicate Meant(p: string, i: nat)
    requires i < |p| && p[i] == '*'
  {
    if '/' in p then |p| >= 3 && p[|p| - 3..] == TREE && i >= |p| - 2
    else i == 0 && (p == "*~" || (|p| >= 2 && p[1] == '.'))
  }

  /** The classifier warns exactly of a pattern that is empty, begins or ends with '/', has a character range,
      a single-character wildcard or a negation, or a star that is not meant. */
  lemma WarnsExactly(p: string)
    ensures KindOf(p) == Unsupported
            <==> (|| p == "" || p[0] == '/' || p[|p| - 1] == '/'
                  || '[' in p || ']' in p || '?' in p || '!' in p
                  || exists i :: 0 <= i < |p| && p[i] == '*' && !Meant(p, i))
  {
    Edges(p);
    if p == "" || "/" <= p || EndsWith(p, "/") || Special(p) {
    } else if '/' !in p {
      FlatWarns(p);
    } else {
      DeepWarns(p);
    }
  }

  lemma FlatWarns(p: string)
    requires p != "" && '/' !in p && !("/" <= p) && !EndsWith(p, "/") && !Special(p)
    ensures KindOf(p) == Unsupported <==> exists i :: 0 <= i < |p| && p[i] == '*' && !Meant(p, i)
  {
    Edges(p);
    hide Special, EndsWith;
    if p == "*~" {
    } else if "*." <= p {
      EndingWarns(p);
    } else if '*' in p {
      var k :| 0 <= k < |p| && p[k] == '*';
      assert !Meant(p, k);
    }
  }

  lemma EndingWarns(p: string)
    requires '/' !in p && |p| >= 2 && p[0] == '*' && p[1] == '.'
    ensures '*' in p[1..] <==> exists i :: 0 <= i < |p| && p[i] == '*' && !Meant(p, i)
  {
    if '*' in p[1..] {
      var j :| 0 <= j < |p[1..]| && p[1..][j] == '*';
      assert p[j + 1] == '*' && !Meant(p, j + 1);
    } else {
      assert forall i :: 1 <= i < |p| ==> p[i] == p[1..][i - 1];
    }
  }

  lemma DeepWarns(p: string)
    requires '/' in p && !("/" <= p) && !EndsWith(p, "/") && !Special(p)
    ensures KindOf(p) == Unsupported <==> exists i :: 0 <= i < |p| && p[i] == '*' && !Meant(p, i)
  {
    if EndsWith(p, TREE) {
      var dir := p[..|p| - 3];
      assert p[|p| - 3..] == TREE && p[|p| - 3] == '/';
      if '*' in dir {
        var i :| 0 <= i < |dir| && dir[i] == '*';
        assert p[i] == '*' && !Meant(p, i);
      } else {
        assert forall i :: 0 <= i < |p| - 3 ==> p[i] == dir[i];
      }
    } else if '*' in p {
      var i :| 0 <= i < |p| && p[i] == '*';
      assert |p| >= 3 ==> p[|p| - 3..] != TREE;
      assert !Meant(p, i);
    }
  }

  /** A path syncs exactly when nothing ignores it and the include list, if there is one, has it. */
  lemma SyncsExactly(f: Path, wanted: seq<string>, ignore: seq<string>, fold: bool)
    ensures ShouldSync(f, wanted, ignore, fold)
            <==> (&& (forall i :: 0 <= i < |ignore| ==> !Match(Shape(f, fold), Shape(Slashed(ignore[i]), fold)))
                  && (|| wanted == []
                      || exists i :: 0 <= i < |wanted| && Match(Shape(f, fold), Shape(Slashed(wanted[i]), fold))))
  {
    hide Match, Shape, Slashed;
  }

  /** What is left of the matcher for an unsupported pattern: its own text as the whole path or, if it
      has no '/', as the base name; and for `*.` followed by more stars, the rest as an ending. */
  predicate Literally(f: Path, p: string) {
    && !Special(p)
    && (f == p || ('/' !in p && (Basename(f) == p || ("*." <= p && EndsWith(Basename(f), p[1..])))))
  }

  /** An unsupported pattern matches exactly the canonical paths that have its text in them like that. */
  lemma UnsupportedIsLiteral(f: Path, p: string)
    requires Canonical(f) && KindOf(p) == Unsupported
    ensures Match(f, p) <==> Literally(f, p)
  {
    BasenameIn(f);
    Edges(p);
    if Special(p) {
    } else if p == "" {
      EdgeSlash(p, f);
    } else if '/' !in p {
      assert p != "*~";
    } else if EndsWith(p, TREE) {
      UnsupportedTree(f, p);
    } else if "/" <= p || EndsWith(p, "/") {
      EdgeSlash(p, f);
      SplitPrefix(p, f);
    }
  }

  lemma UnsupportedTree(f: Path, p: string)
    requires Canonical(f) && KindOf(p) == Unsupported && EndsWith(p, TREE) && !Special(p) && '/' in p
    ensures Match(f, p) <==> f == p
  {
    var dir := p[..|p| - 3];
    if '*' !in dir {
      TreeNotFromRoot(p, f);
      SplitPrefix(dir, f);
      NoSlashIsOneSegment(dir);
    }
    hide Split, EndsWith, Special;
  }

  /** Such a pattern is unsupported for its leading '/', which no canonical path has. */
  lemma TreeNotFromRoot(p: string, f: Path)
    requires Canonical(f) && KindOf(p) == Unsupported && EndsWith(p, TREE) && !Special(p) && '*' !in p[..|p| - 3]
    ensures var dir := p[..|p| - 3]; !(Split(dir) <= Split(f)) && "" in Split(dir)
  {
    var dir := p[..|p| - 3];
    Edges(p);
    TreeEdge(p);
    hide EndsWith, Special;
    assert p[|p| - 3] == '/' && p[|p| - 1] == '*';
    assert '/' in p;
    Edges(dir);
    EdgeSlash(dir, f);
  }

  /** So a list of them matches exactly the paths that are literally one of them, case folded or not:
      that is what the warning does not say, and every such path has a '*' in it. */
  lemma UnsupportedCanMatchStars(f: Path, patterns: seq<string>, fold: bool)
    requires Canonical(f)
    requires forall i :: 0 <= i < |patterns| ==> Classify(patterns[i]) == Unsupported
    ensures MatchAny(f, patterns, fold) <==>
            exists i :: 0 <= i < |patterns| && Literally(Shape(f, fold), Shape(Slashed(patterns[i]), fold))
    ensures MatchAny(f, patterns, fold) ==> '*' in f
  {
    ShapeKeepsCanonical(f, fold);
    forall i | 0 <= i < |patterns|
      ensures Match(Shape(f, fold), Shape(Slashed(patterns[i]), fold))
              <==> Literally(Shape(f, fold), Shape(Slashed(patterns[i]), fold))
    {
      ShapeKeepsKind(Slashed(patterns[i]), fold);
      UnsupportedIsLiteral(Shape(f, fold), Shape(Slashed(patterns[i]), fold));
    }
    hide Match, Literally, Shape, Slashed;
    if '*' !in f { UnsupportedMatchNothing(f, patterns, fold); }
  }

  /** And one that does. */
  lemma StarredNameMatches()
    ensures Classify("a*b") == Unsupported && Canonical("a*b") && MatchAny("a*b", ["a*b"], false)
  {
    assert Slashed("a*b") == "a*b";
    NoSlashIsOneSegment("a*b");
    assert "a*b"[1] == '*';
    assert Match(Shape("a*b", false), Shape(Slashed(["a*b"][0]), false));
  }

  /** Leaving the trailing recursive suffix off a path-qualified pattern changes nothing, for any path. */
  lemma TrailingStarsAreOptional(f: Path, p: string)
    requires KindOf(p) == PathQualified
    ensures KindOf(p + TREE) == RecursiveDir
    ensures Match(f, p) <==> Match(f, p + TREE)
  {
    var q := p + TREE;
    assert q[..|q| - 3] == p && EndsWith(q, TREE);
    assert forall c :: c in q ==> c in p || c == '/' || c == '*';
    assert forall c :: c in p ==> c in q;
    assert q[|q| - 1..] == "*";
    assert "/" <= q <==> "/" <= p;
    if f == q { assert p + "/" <= f; }
  }

  // --- Subtrees ---

  predicate Subtree(k: Kind) { k == RecursiveDir || k == PathQualified }

  lemma {:induction false} SplitJoin(a: string, b: string)
    ensures Split(a + "/" + b) == Split(a) + Split(b)
  {
    var s := a + "/" + b;
    if a == "" {
      assert s[0] == '/' && s[1..] == b;
    } else {
      SplitJoin(a[1..], b);
      assert s[1..] == a[1..] + "/" + b;
      SplitCons(a, s, b);
    }
  }

  /** What one more leading character does to the segments. */
  function Prepend(c: char, rest: seq<string>): seq<string>
    requires |rest| > 0
  { if c == '/' then [""] + rest else [[c] + rest[0]] + rest[1..] }

  lemma SplitPrepends(s: string)
    requires s != ""
    ensures Split(s) == Prepend(s[0], Split(s[1..]))
  {
  }

  lemma PrependAppends(c: char, x: seq<string>, y: seq<string>)
    requires |x| > 0
    ensures Prepend(c, x + y) == Prepend(c, x) + y
  {
    assert (x + y)[0] == x[0];
    assert (x + y)[1..] == x[1..] + y;
  }

  lemma SplitCons(a: string, s: string, b: string)
    requires a != "" && s != "" && s[0] == a[0] && Split(s[1..]) == Split(a[1..]) + Split(b)
    ensures Split(s) == Split(a) + Split(b)
  {
    SplitPrepends(a);
    SplitPrepends(s);
    PrependAppends(a[0], Split(a[1..]), Split(b));
    hide Split, Prepend;
  }

  lemma UnderPrefix(a: string, d: Path, rest: string)
    requires d == a || a + "/" <= d
    ensures a + "/" <= d + "/" + rest
  {
    var f := d + "/" + rest;
    if d == a {
      assert f[..|a| + 1] == a + "/";
    } else {
      assert f[..|a| + 1] == d[..|a| + 1] == a + "/";
    }
  }

  /** A pattern that excludes a directory excludes everything under it. */
  lemma SubtreeIsClosed(d: Path, rest: string, p: string)
    requires Subtree(KindOf(p)) && Match(d, p)
    ensures Match(d + "/" + rest, p)
  {
    var f := d + "/" + rest;
    if EndsWith(p, TREE) {
      var dir := p[..|p| - 3];
      if d == p {
        assert d == dir + "/" + "**";
        assert d[..|dir| + 1] == dir + "/";
        UnderPrefix(dir, d, rest);
      } else if d == dir || dir + "/" <= d {
        UnderPrefix(dir, d, rest);
      } else {
        SplitJoin(d, rest);
        assert dir in Split(f);
      }
    } else {
      UnderPrefix(p, d, rest);
    }
  }

  lemma NothingMatchesRoot(p: string)
    requires Subtree(KindOf(p))
    ensures !Match("", p)
  {
    Edges(p);
    TreeEdge(p);
  }

  lemma ShapeJoins(d: Path, rest: string, fold: bool)
    ensures Shape(d + "/" + rest, fold) == Shape(d, fold) + "/" + Shape(rest, fold)
    ensures Shape(d, fold) == "" <==> d == ""
  {
    if fold {
      var s, t := Fold(d + "/" + rest), Fold(d) + "/" + Fold(rest);
      assert |s| == |t|;
      assert forall i :: 0 <= i < |s| ==> s[i] == t[i];
    }
  }

  lemma SubtreesAreClosed(d: Path, rest: string, patterns: seq<string>, fold: bool)
    requires forall i :: 0 <= i < |patterns| ==> Subtree(Classify(patterns[i]))
    requires MatchAny(d, patterns, fold)
    ensures d != "" && MatchAny(d + "/" + rest, patterns, fold)
  {
    hide Match, KindOf, Slashed, Shape;
    var i :| 0 <= i < |patterns| && Match(Shape(d, fold), Shape(Slashed(patterns[i]), fold));
    var p := Shape(Slashed(patterns[i]), fold);
    assert Subtree(Classify(patterns[i]));
    ShapeKeepsKind(Slashed(patterns[i]), fold);
    ShapeJoins(d, rest, fold);
    SubtreeIsClosed(Shape(d, fold), Shape(rest, fold), p);
    NothingMatchesRoot(p);
  }
}
