/**
 The action-pin check over workflow files: reading a `uses:` line, judging its pin against the
 latest release, and rebuilding the line.
 */
module UsesLine {
  import opened Types

  // --- Strings ---

  predicate White(c: char) { c == ' ' || 9 <= c as int <= 13 }

  predicate AllWhite(s: string) { forall c :: c in s ==> White(c) }

  function TrimStart(s: string): (r: string)
    ensures |r| <= |s| && r == s[|s| - |r|..] && AllWhite(s[..|s| - |r|])
    ensures r == "" || !White(r[0])
  {
    if s != "" && White(s[0]) then
      var r := TrimStart(s[1..]);
      assert s[..|s| - |r|] == [s[0]] + s[1..][..|s| - 1 - |r|];
      r
    else s
  }

  function TrimEnd(s: string): (r: string)
    ensures |r| <= |s| && r == s[..|r|] && AllWhite(s[|r|..])
    ensures r == "" || !White(r[|r| - 1])
  {
    if s != "" && White(s[|s| - 1]) then
      var r := TrimEnd(s[..|s| - 1]);
      assert s[|r|..] == s[..|s| - 1][|r|..] + [s[|s| - 1]];
      r
    else s
  }

  function Trim(s: string): string { TrimEnd(TrimStart(s)) }

  /** `indexOf`, with the length for "not there". */
  function Find(s: string, c: char): (i: nat)
    ensures i <= |s| && (i < |s| ==> s[i] == c) && forall j :: 0 <= j < i ==> s[j] != c
  { if s == "" || s[0] == c then 0 else 1 + Find(s[1..], c) }

  /** `lastIndexOf` */
  function FindLast(s: string, c: char): (i: int)
    ensures -1 <= i < |s| && (i >= 0 ==> s[i] == c) && forall j :: i < j < |s| ==> s[j] != c
  {
    if s == "" then -1
    else if s[|s| - 1] == c then |s| - 1
    else FindLast(s[..|s| - 1], c)
  }

  /** Up to the first whitespace. */
  function FirstToken(s: string): (r: string)
    ensures |r| <= |s| && r == s[..|r|] && (forall c :: c in r ==> !White(c)) && (|r| < |s| ==> White(s[|r|]))
  { if s == "" || White(s[0]) then "" else [s[0]] + FirstToken(s[1..]) }

  // --- Versions ---

  predicate Digit(c: char) { '0' <= c <= '9' }

  function Digit10(c: char): nat
    requires Digit(c)
  { c as int - '0' as int }

  predicate AllDigits(s: string) { forall c :: c in s ==> Digit(c) }

  function Accumulate(n: nat, s: string): nat
    requires AllDigits(s)
    decreases s
  {
    if s == "" then n
    else
      assert s[0] in s;
      Accumulate(n * 10 + Digit10(s[0]), s[1..])
  }

  function Number(s: string): nat
    requires AllDigits(s)
  { Accumulate(0, s) }

  lemma {:induction false} AccumulateAppends(n: nat, s: string, c: char)
    requires AllDigits(s) && Digit(c)
    ensures AllDigits(s + [c]) && Accumulate(n, s + [c]) == 10 * Accumulate(n, s) + Digit10(c)
    decreases |s|
  {
    if s == "" {
      assert (s + [c])[1..] == "";
    } else {
      assert s[0] in s && (s + [c])[1..] == s[1..] + [c];
      AccumulateAppends(n * 10 + Digit10(s[0]), s[1..], c);
    }
  }

  /** A number as it is written. */
  function Written(n: nat): (s: string)
    ensures AllDigits(s) && s != ""
  {
    var last := [('0' as int + n % 10) as char];
    if n < 10 then last else Written(n / 10) + last
  }

  /** And it is read as what it says. */
  lemma {:induction false} NumberReads(n: nat)
    ensures Number(Written(n)) == n
  {
    var c := ('0' as int + n % 10) as char;
    if n < 10 {
      AccumulateAppends(0, "", c);
      assert "" + [c] == [c];
    } else {
      NumberReads(n / 10);
      AccumulateAppends(0, Written(n / 10), c);
    }
  }

  /** What counts as blank, and as a digit of a number or a hash. */
  lemma CharacterClasses(c: char)
    ensures White(c) <==> c == ' ' || c == '\t' || c == '\n' || c == '\U{0B}' || c == '\U{0C}' || c == '\r'
    ensures Digit(c) <==> c in "0123456789"
    ensures HexDigit(c) <==> c in "0123456789abcdefABCDEF"
  {
  }

  type Version = v: seq<nat> | |v| == 3 witness [0, 0, 0]

  function Bare(v: string): string { if "v" <= v then v[1..] else v }

  /** What is left to read, and what has been read. */
  function Scan(s: string, parts: Version, segment: nat, sawDigit: bool): Option<Version> {
    if s == "" || segment >= 3 then (if sawDigit then Some(parts) else None)
    else if Digit(s[0]) then
      Scan(s[1..], parts[segment := parts[segment] * 10 + Digit10(s[0])], segment, true)
    else if s[0] == '.' && sawDigit then Scan(s[1..], parts, segment + 1, sawDigit)
    else if sawDigit then Some(parts) else None
  }

  /** `semverParse` */
  function Semver(v: string): Option<Version> { Scan(Bare(v), [0, 0, 0], 0, false) }

  method SemverParse(v: string) returns (parsed: Option<Version>)
    ensures parsed == Semver(v)
  {
    var s := Bare(v);
    var parts: Version := [0, 0, 0];
    var segment, sawDigit, i := 0, false, 0;
    while i < |s| && segment < 3
      invariant 0 <= i <= |s| && 0 <= segment <= 3
      invariant Scan(s[i..], parts, segment, sawDigit) == Semver(v)
    {
      assert s[i..][1..] == s[i + 1..];
      if Digit(s[i]) {
        parts := parts[segment := parts[segment] * 10 + Digit10(s[i])];
        sawDigit := true;
      } else if s[i] == '.' && sawDigit {
        segment := segment + 1;
      } else {
        break;
      }
      i := i + 1;
    }
    parsed := if sawDigit then Some(parts) else None;
  }

  /** A string reads as a version exactly when it starts with a digit, after at most one `v`. */
  lemma {:induction false} SemverNeedsADigit(v: string)
    ensures Semver(v).Some? <==> Bare(v) != "" && Digit(Bare(v)[0])
  {
    var s := Bare(v);
    if s != "" && Digit(s[0]) { ScanKeepsDigit(s[1..], [0, 0, 0][0 := Digit10(s[0])], 0); }
  }

  lemma {:induction false} ScanKeepsDigit(s: string, parts: Version, segment: nat)
    ensures Scan(s, parts, segment, true).Some?
    decreases s
  {
    if s != "" && segment < 3 {
      if Digit(s[0]) { ScanKeepsDigit(s[1..], parts[segment := parts[segment] * 10 + Digit10(s[0])], segment); }
      else if s[0] == '.' { ScanKeepsDigit(s[1..], parts, segment + 1); }
    }
  }

  /** `isStableSemverTag`, with the segment's digits so far. */
  predicate StableFrom(s: string, dots: nat, some: bool) {
    if s == "" then dots == 2 && some
    else if Digit(s[0]) then StableFrom(s[1..], dots, true)
    else s[0] == '.' && some && dots < 2 && StableFrom(s[1..], dots + 1, false)
  }

  predicate Stable(tag: string) { StableFrom(Bare(tag), 0, false) }

  method IsStableSemverTag(name: string) returns (stable: bool)
    ensures stable == Stable(name)
  {
    var s := Bare(name);
    var dots, digits, i := 0, 0, 0;
    while i < |s|
      invariant 0 <= i <= |s| && dots <= 2
      invariant StableFrom(s[i..], dots, digits > 0) == Stable(name)
    {
      assert s[i..][1..] == s[i + 1..];
      if Digit(s[i]) {
        digits := digits + 1;
      } else if s[i] == '.' && digits > 0 && dots < 2 {
        dots, digits := dots + 1, 0;
      } else {
        return false;
      }
      i := i + 1;
    }
    stable := dots == 2 && digits > 0;
  }

  /** Digits, then a dot and digits, `dots` times more; `some` says digits came just before. */
  predicate Dotted(s: string, dots: nat, some: bool)
    decreases dots
  {
    if dots == 0 then AllDigits(s) && (some || s != "")
    else exists k :: 0 <= k < |s| && DotAt(s, k, some) && Dotted(s[k + 1..], dots - 1, false)
  }

  predicate DotAt(s: string, k: nat, some: bool)
    requires k < |s|
  { s[k] == '.' && AllDigits(s[..k]) && (some || k > 0) }

  /** A tag is stable exactly when it is three numbers joined by dots, with nothing after. */
  lemma StableIsDotted(tag: string)
    ensures Stable(tag) <==> Dotted(Bare(tag), 2, false)
  {
    StableShape(Bare(tag), 0, false);
  }

  lemma {:induction false} StableShape(s: string, dots: nat, some: bool)
    requires dots <= 2
    ensures StableFrom(s, dots, some) <==> Dotted(s, 2 - dots, some)
    decreases s
  {
    if s == "" {
    } else if Digit(s[0]) {
      StableShape(s[1..], dots, true);
      LeadingDigit(s, 2 - dots, some);
    } else {
      LeadingOther(s, 2 - dots, some);
      if s[0] == '.' && some && dots < 2 {
        StableShape(s[1..], dots + 1, false);
        assert DotAt(s, 0, some) && s[0 + 1..] == s[1..];
      }
    }
  }

  lemma LeadingDigit(s: string, dots: nat, some: bool)
    requires s != "" && Digit(s[0])
    ensures Dotted(s, dots, some) <==> Dotted(s[1..], dots, true)
  {
    if dots == 0 {
      assert s == [s[0]] + s[1..];
    } else {
      if Dotted(s, dots, some) { DigitDropped(s, dots, some); }
      if Dotted(s[1..], dots, true) { DigitAdded(s, dots, some); }
    }
  }

  lemma DigitDropped(s: string, dots: nat, some: bool)
    requires s != "" && Digit(s[0]) && dots > 0 && Dotted(s, dots, some)
    ensures Dotted(s[1..], dots, true)
  {
    var k :| 0 <= k < |s| && DotAt(s, k, some) && Dotted(s[k + 1..], dots - 1, false);
    DotMoves(s, k - 1, some);
    assert Dotted(s[1..][k - 1 + 1..], dots - 1, false);
  }

  lemma DigitAdded(s: string, dots: nat, some: bool)
    requires s != "" && Digit(s[0]) && dots > 0 && Dotted(s[1..], dots, true)
    ensures Dotted(s, dots, some)
  {
    var k :| 0 <= k < |s[1..]| && DotAt(s[1..], k, true) && Dotted(s[1..][k + 1..], dots - 1, false);
    DotMoves(s, k, some);
    assert Dotted(s[k + 1 + 1..], dots - 1, false);
  }

  /** A dot one further on, behind a digit. */
  lemma DotMoves(s: string, k: nat, some: bool)
    requires k + 1 < |s| && Digit(s[0])
    ensures DotAt(s, k + 1, some) <==> DotAt(s[1..], k, true)
    ensures s[1..][k + 1..] == s[k + 1 + 1..]
  {
    assert s[..k + 1] == [s[0]] + s[1..][..k];
  }

  lemma LeadingOther(s: string, dots: nat, some: bool)
    requires s != "" && !Digit(s[0])
    ensures Dotted(s, dots, some) ==> dots > 0 && DotAt(s, 0, some) && Dotted(s[1..], dots - 1, false)
  {
    assert s[0] in s;
    forall k | 0 < k < |s| ensures !DotAt(s, k, some) { assert s[0] in s[..k]; }
    if dots > 0 && Dotted(s, dots, some) {
      var k :| 0 <= k < |s| && DotAt(s, k, some) && Dotted(s[k + 1..], dots - 1, false);
      assert k == 0;
    }
  }

  lemma {:induction false} ScanNumber(ds: string, rest: string, parts: Version, segment: nat, saw: bool)
    requires AllDigits(ds) && segment < 3
    ensures Scan(ds + rest, parts, segment, saw)
            == Scan(rest, parts[segment := Accumulate(parts[segment], ds)], segment, saw || ds != "")
    decreases ds
  {
    if ds != "" { assert ds[0] in ds; }
    if ds == "" {
      assert ds + rest == rest && parts[segment := parts[segment]] == parts;
    } else {
      var next := parts[segment := parts[segment] * 10 + Digit10(ds[0])];
      assert (ds + rest)[1..] == ds[1..] + rest;
      ScanNumber(ds[1..], rest, next, segment, true);
      assert next[segment := Accumulate(next[segment], ds[1..])] == parts[segment := Accumulate(parts[segment], ds)];
    }
  }

  /** A stable tag reads as its three numbers. */
  lemma StableReads(a: string, b: string, c: string)
    requires AllDigits(a) && AllDigits(b) && AllDigits(c) && a != ""
    ensures Scan(a + "." + b + "." + c, [0, 0, 0], 0, false) == Some([Number(a), Number(b), Number(c)])
  {
    assert a + "." + b + "." + c == a + ("." + (b + ("." + c)));
    var p0: Version, p1: Version, p2: Version := [0, 0, 0], [Number(a), 0, 0], [Number(a), Number(b), 0];
    assert p0[0 := Number(a)] == p1 && p1[1 := Number(b)] == p2
        && p2[2 := Number(c)] == [Number(a), Number(b), Number(c)];
    ScanNumber(a, "." + (b + ("." + c)), p0, 0, false);
    ScanDot(b + ("." + c), p1, 0);
    ScanNumber(b, "." + c, p1, 1, true);
    ScanDot(c, p2, 1);
    ScanNumber(c, "", p2, 2, true);
    assert c + "" == c;
  }

  lemma ScanDot(rest: string, parts: Version, segment: nat)
    requires segment < 3
    ensures Scan("." + rest, parts, segment, true) == Scan(rest, parts, segment + 1, true)
  {
    assert ("." + rest)[1..] == rest;
  }

  function Compare(a: Version, b: Version): int {
    if a[0] != b[0] then (if a[0] > b[0] then 1 else -1)
    else if a[1] != b[1] then (if a[1] > b[1] then 1 else -1)
    else if a[2] != b[2] then (if a[2] > b[2] then 1 else -1)
    else 0
  }

  /** A release as the API lists it. */
  datatype Release = Release(tag: string, draft: bool, prerelease: bool)

  predicate Eligible(r: Release) { !r.draft && !r.prerelease && Stable(r.tag) }

  lemma StableHasVersion(tag: string)
    requires Stable(tag)
    ensures Semver(tag).Some?
  {
    SemverNeedsADigit(tag);
  }

  /** The scan of the release list: a greatest stable version, whatever the list's order. */
  method LatestOf(releases: seq<Release>) returns (best: Option<string>)
    ensures best.None? ==> forall r :: r in releases ==> !Eligible(r)
    ensures best.Some? ==> Semver(best.value).Some? && exists r :: r in releases && Eligible(r) && r.tag == best.value
    ensures best.Some? ==> forall r :: r in releases && Eligible(r) ==>
                             Semver(r.tag).Some? && Compare(Semver(r.tag).value, Semver(best.value).value) <= 0
  {
    best := None;
    var parsed: Version := [0, 0, 0];
    for i := 0 to |releases|
      invariant best.None? ==> forall r :: r in releases[..i] ==> !Eligible(r)
      invariant best.Some? ==> Semver(best.value) == Some(parsed)
      invariant best.Some? ==> exists r :: r in releases && Eligible(r) && r.tag == best.value
      invariant best.Some? ==> forall r :: r in releases[..i] && Eligible(r) ==>
                                 Semver(r.tag).Some? && Compare(Semver(r.tag).value, parsed) <= 0
    {
      var r := releases[i];
      assert releases[..i + 1] == releases[..i] + [r];
      if r.draft || r.prerelease { continue; }
      var stable := IsStableSemverTag(r.tag);
      if !stable { continue; }
      StableHasVersion(r.tag);
      var p := SemverParse(r.tag);
      if p.Some? && (best.None? || Compare(p.value, parsed) > 0) {
        best, parsed := Some(r.tag), p.value;
      }
    }
    assert releases[..|releases|] == releases;
  }

  // --- Reading a line ---

  datatype Pin = Pin(path: string, ref: string, comment: string)

  predicate Quote(c: char) { c == '"' || c == '\'' }

  function SplitRef(value: string, comment: string): Option<Pin> {
    var at := FindLast(value, '@');
    if at <= 0 || at == |value| - 1 then None else Some(Pin(value[..at], value[at + 1..], comment))
  }

  /** The value and comment after `uses:`. */
  function ParseValue(rest: string): Option<Pin>
    requires rest != ""
  {
    if Quote(rest[0]) then
      var close := Find(rest[1..], rest[0]);
      if close == |rest| - 1 then None
      else
        var after := rest[close + 2..];
        var h := Find(after, '#');
        SplitRef(rest[1..close + 1], if h < |after| then Trim(after[h + 1..]) else "")
    else
      var h := Find(rest, '#');
      if h == |rest| then SplitRef(rest, "") else SplitRef(Trim(rest[..h]), Trim(rest[h + 1..]))
  }

  /** What follows `uses:` on the line, trimmed; empty when there is none. */
  function AfterUses(line: string): string {
    var s := Trim(line);
    var t := if "-" <= s then Trim(s[1..]) else s;
    if "uses:" <= t then Trim(t[5..]) else ""
  }

  /** `parseUsesLine` */
  function Parse(line: string): Option<Pin> {
    var rest := AfterUses(line);
    if rest == "" then None else ParseValue(rest)
  }

  // --- Judging a pin ---

  datatype Latest = Latest(tag: string, sha: string)

  predicate HexDigit(c: char) { '0' <= c <= '9' || 'a' <= c <= 'f' || 'A' <= c <= 'F' }

  predicate IsSha(s: string) { |s| == 40 && forall c :: c in s ==> HexDigit(c) }

  datatype Problem =
    | ReusableBySha | NotStable | Behind | Ahead
    | NotASha | StaleSha | NoComment | NotAVersion | NamesAnother

  /** The per-pin part of `checkAction`. */
  function Check(p: Pin, reusable: bool, latest: Latest): Option<Problem>
    requires Stable(latest.tag)
  {
    StableHasVersion(latest.tag);
    var newest := Semver(latest.tag).value;
    if reusable then
      if IsSha(p.ref) then Some(ReusableBySha)
      else if !Stable(p.ref) then Some(NotStable)
      else
        StableHasVersion(p.ref);
        var order := Compare(Semver(p.ref).value, newest);
        if order < 0 then Some(Behind) else if order > 0 then Some(Ahead) else None
    else if !IsSha(p.ref) then Some(NotASha)
    else if Fold(p.ref) != Fold(latest.sha) then Some(StaleSha)
    else if p.comment == "" then Some(NoComment)
    else
      var named := Semver(FirstToken(p.comment));
      if named.None? then Some(NotAVersion)
      else if Compare(named.value, newest) != 0 then Some(NamesAnother)
      else None
  }

  /** The newer version, number by number. */
  predicate Older(a: Version, b: Version) {
    a[0] < b[0] || (a[0] == b[0] && (a[1] < b[1] || (a[1] == b[1] && a[2] < b[2])))
  }

  lemma CompareOrders(a: Version, b: Version)
    ensures Compare(a, b) < 0 <==> Older(a, b)
    ensures Compare(a, b) > 0 <==> Older(b, a)
    ensures Compare(a, b) == 0 <==> a == b
  {
  }

  /** The pin is as it should be. A reusable workflow: a stable tag, not a hash, of the latest version.
      Anything else: the latest commit's hash, whatever its case, with a comment that starts with that
      version. */
  predicate UpToDate(p: Pin, reusable: bool, latest: Latest) {
    if reusable then !IsSha(p.ref) && Stable(p.ref) && Semver(p.ref) == Semver(latest.tag)
    else
      && IsSha(p.ref) && Fold(p.ref) == Fold(latest.sha) && p.comment != ""
      && Semver(FirstToken(p.comment)) == Semver(latest.tag)
  }

  /** Every pin that is not is reported, and no other; and a tag is called behind or ahead as it is. */
  lemma OutdatedIsReported(p: Pin, reusable: bool, latest: Latest)
    requires Stable(latest.tag)
    ensures Check(p, reusable, latest) == None <==> UpToDate(p, reusable, latest)
    ensures reusable && Stable(p.ref) && !IsSha(p.ref) ==>
              && Semver(p.ref).Some? && Semver(latest.tag).Some?
              && (Check(p, reusable, latest) == Some(Behind) <==> Older(Semver(p.ref).value, Semver(latest.tag).value))
              && (Check(p, reusable, latest) == Some(Ahead) <==> Older(Semver(latest.tag).value, Semver(p.ref).value))
    ensures reusable && IsSha(p.ref) ==> Check(p, reusable, latest) == Some(ReusableBySha)
    ensures !reusable && !IsSha(p.ref) ==> Check(p, reusable, latest) == Some(NotASha)
    ensures !reusable && IsSha(p.ref) && Fold(p.ref) != Fold(latest.sha)
            ==> Check(p, reusable, latest) == Some(StaleSha)
  {
    hide Semver, Stable, FirstToken, IsSha, Compare, Older;
    StableHasVersion(latest.tag);
    var newest := Semver(latest.tag).value;
    if Stable(p.ref) {
      StableHasVersion(p.ref);
      CompareOrders(Semver(p.ref).value, newest);
      CompareOrders(newest, Semver(p.ref).value);
      NeverBoth(Semver(p.ref).value, newest);
    }
    if Semver(FirstToken(p.comment)).Some? { CompareOrders(Semver(FirstToken(p.comment)).value, newest); }
  }

  lemma NeverBoth(a: Version, b: Version)
    ensures !(Older(a, b) && Older(b, a)) && (Older(a, b) ==> a != b)
  {
  }

  // --- Rebuilding a line ---

  /** What the comment says beyond its version. */
  function Extra(comment: string): string {
    var c := Trim(comment);
    var first := FirstToken(c);
    if Semver(first).Some? then Trim(c[|first|..]) else c
  }

  function Tagged(tag: string): string { if "v" <= tag then tag else "v" + tag }

  function NewRef(reusable: bool, latest: Latest): string { if reusable then latest.tag else latest.sha }

  function NewComment(p: Pin, reusable: bool, latest: Latest): string {
    var extra := Extra(p.comment);
    if reusable then extra
    else if extra == "" then Tagged(latest.tag) else Tagged(latest.tag) + " " + extra
  }

  function Indent(line: string): string { line[..|line| - |TrimStart(line)|] }

  /** The line `applyFix` writes. */
  function Rebuild(line: string, p: Pin, reusable: bool, latest: Latest): string {
    var comment := NewComment(p, reusable, latest);
    Indent(line) + (if "-" <= TrimStart(line) then "- " else "")
    + "uses: " + p.path + "@" + NewRef(reusable, latest) + (if comment == "" then "" else " # " + comment)
  }

  // --- Fixing and reading back ---

  predicate Tidy(s: string) { s == "" || (!White(s[0]) && !White(s[|s| - 1])) }

  lemma TrimIsTidy(s: string)
    ensures Tidy(Trim(s))
    ensures Tidy(s) ==> Trim(s) == s
  {
  }

  lemma CommentIsTidy(rest: string, p: Pin)
    requires rest != "" && ParseValue(rest) == Some(p)
    ensures Tidy(p.comment) && p.path != "" && p.ref != ""
  {
    hide Trim, Tidy;
    EmptyIsTidy();
    if Quote(rest[0]) {
      var after := rest[Find(rest[1..], rest[0]) + 2..];
      var h := Find(after, '#');
      if h < |after| { TrimIsTidy(after[h + 1..]); }
    } else {
      var h := Find(rest, '#');
      if h < |rest| { TrimIsTidy(rest[h + 1..]); }
    }
  }

  lemma EmptyIsTidy()
    ensures Tidy("")
  {
  }

  /** The paths a rebuilt line gives back: no '#', and no quote or blank in front. */
  predicate Writable(path: string) { path != "" && '#' !in path && !Quote(path[0]) && !White(path[0]) }

  /** The refs the fix writes: a stable tag or a commit. */
  predicate RefText(ref: string) { ref != "" && forall c :: c in ref ==> c != '@' && c != '#' && !White(c) }

  lemma {:induction false} StableText(s: string, dots: nat, some: bool)
    requires StableFrom(s, dots, some)
    ensures forall c :: c in s ==> Digit(c) || c == '.'
  {
    if s != "" {
      if Digit(s[0]) { StableText(s[1..], dots, true); } else { StableText(s[1..], dots + 1, false); }
    }
  }

  lemma NewRefText(reusable: bool, latest: Latest)
    requires Stable(latest.tag) && IsSha(latest.sha)
    ensures RefText(NewRef(reusable, latest))
    ensures RefText(Tagged(latest.tag)) && Semver(Tagged(latest.tag)) == Semver(latest.tag)
  {
    StableText(Bare(latest.tag), 0, false);
    assert latest.tag == Bare(latest.tag) || latest.tag == "v" + Bare(latest.tag);
    assert Tagged(latest.tag) == "v" + Bare(latest.tag);
    assert Bare(Tagged(latest.tag)) == Bare(latest.tag);
  }

  /** Trimming drops a blank front. */
  lemma {:induction false} TrimStartSkips(front: string, s: string)
    requires AllWhite(front) && s != "" && !White(s[0])
    ensures TrimStart(front + s) == s
  {
    if front == "" {
      assert front + s == s;
    } else {
      assert (front + s)[1..] == front[1..] + s && White(front[0]);
      TrimStartSkips(front[1..], s);
    }
  }

  lemma TrimEndKeeps(s: string)
    requires s != "" && !White(s[|s| - 1])
    ensures TrimEnd(s) == s
  {
  }

  /** The part of a rebuilt line that carries the pin. */
  function Value(p: Pin): string { p.path + "@" + p.ref + (if p.comment == "" then "" else " # " + p.comment) }

  /** A rebuilt line says `uses:` and then the new pin, whatever stood before. */
  lemma RebuiltAfterUses(line: string, p: Pin, reusable: bool, latest: Latest)
    requires p.path != "" && Stable(latest.tag) && IsSha(latest.sha) && Tidy(NewComment(p, reusable, latest))
    ensures AfterUses(Rebuild(line, p, reusable, latest))
            == TrimStart(Value(Pin(p.path, NewRef(reusable, latest), NewComment(p, reusable, latest))))
  {
    NewRefText(reusable, latest);
    var ref, comment := NewRef(reusable, latest), NewComment(p, reusable, latest);
    var value := Value(Pin(p.path, ref, comment));
    ValueEnds(p.path, ref, comment);
    UsesLineReads(Indent(line), "-" <= TrimStart(line), value);
    var dash := if "-" <= TrimStart(line) then "- " else "";
    Regroup(Indent(line), dash, "uses: ", p.path, "@", ref, if comment == "" then "" else " # " + comment);
    hide AfterUses, NewRef, NewComment, TrimStart, Indent;
  }

  lemma Regroup(a: string, b: string, c: string, d: string, e: string, f: string, g: string)
    ensures a + b + c + d + e + f + g == a + (b + (c + (d + e + f + g)))
  {
  }

  lemma ValueEnds(path: string, ref: string, comment: string)
    requires RefText(ref) && Tidy(comment)
    ensures var v := Value(Pin(path, ref, comment)); v != "" && !White(v[|v| - 1])
  {
    var v := Value(Pin(path, ref, comment));
    if comment == "" {
      assert v[|v| - 1] == ref[|ref| - 1] && ref[|ref| - 1] in ref;
    } else {
      assert v[|v| - 1] == comment[|comment| - 1];
    }
  }

  /** Reading past `uses:`. */
  function PastKey(t: string): string { if "uses:" <= t then Trim(t[5..]) else "" }

  /** Reading a concatenation. */
  lemma Cat(a: string, b: string)
    ensures a <= a + b && (a + b)[|a|..] == b
    ensures a != "" ==> (a + b)[0] == a[0]
    ensures b != "" ==> (a + b)[|a + b| - 1] == b[|b| - 1]
  {
  }

  lemma KeyReads(value: string)
    requires value != "" && !White(value[|value| - 1])
    ensures PastKey("uses: " + value) == TrimStart(value)
  {
    assert "uses: " == "uses:" + " ";
    Regroup3("uses:", " ", value);
    Cat("uses:", " " + value);
    assert |"uses:"| == 5;
    TrimSuffix(value);
    hide Trim, TrimStart, White;
  }

  lemma Regroup3(a: string, b: string, c: string)
    ensures (a + b) + c == a + (b + c)
  {
  }

  lemma UsesLineReads(indent: string, dash: bool, value: string)
    requires AllWhite(indent) && value != "" && !White(value[|value| - 1])
    ensures AfterUses(indent + ((if dash then "- " else "") + ("uses: " + value))) == TrimStart(value)
  {
    var body := "uses: " + value;
    Cat("uses: ", value);
    KeyReads(value);
    assert "uses: "[0] == 'u';
    BodyReads(indent, dash, body);
  }

  lemma BodyReads(indent: string, dash: bool, body: string)
    requires AllWhite(indent) && body != "" && body[0] == 'u' && !White(body[|body| - 1])
    ensures AfterUses(indent + ((if dash then "- " else "") + body)) == PastKey(body)
  {
    if dash {
      Cat("- ", body);
      assert "- " == "-" + " ";
      Regroup3("-", " ", body);
      Cat("-", " " + body);
      LineReads(indent, "- " + body);
      TrimStartSkips(" ", body);
      TrimEndKeeps(body);
      hide TrimStart, TrimEnd, PastKey;
    } else {
      assert "" + body == body;
      LineReads(indent, body);
    }
  }

  lemma LineReads(indent: string, s: string)
    requires AllWhite(indent) && s != "" && !White(s[0]) && !White(s[|s| - 1])
    ensures AfterUses(indent + s) == PastKey(if s[0] == '-' then Trim(s[1..]) else s)
  {
    TrimStartSkips(indent, s);
    TrimEndKeeps(s);
    assert Trim(indent + s) == s;
    hide Trim, White, AllWhite;
    AfterUsesOf(indent + s, s);
  }

  lemma AfterUsesOf(line: string, s: string)
    requires Trim(line) == s && s != ""
    ensures AfterUses(line) == PastKey(if s[0] == '-' then Trim(s[1..]) else s)
  {
    hide Trim;
    assert "-" <= s <==> s[0] == '-';
  }

  lemma TrimSuffix(value: string)
    requires value != "" && !White(value[|value| - 1])
    ensures Trim(" " + value) == TrimStart(value)
  {
    SkipsBlank(value);
    NotAllWhite(value);
    hide TrimStart, TrimEnd, White;
    TrimEndKeeps(TrimStart(value));
  }

  lemma SkipsBlank(value: string)
    ensures TrimStart(" " + value) == TrimStart(value)
  {
    assert (" " + value)[1..] == value;
  }

  lemma NotAllWhite(value: string)
    requires value != "" && !White(value[|value| - 1])
    ensures var r := TrimStart(value); r != "" && r[|r| - 1] == value[|value| - 1]
  {
    assert value[|value| - 1] in value;
    assert value[..|value|] == value;
  }

  // --- The round trip ---

  lemma FindIs(s: string, c: char, i: nat)
    requires i <= |s| && (i < |s| ==> s[i] == c) && forall j :: 0 <= j < i ==> s[j] != c
    ensures Find(s, c) == i
  {
  }

  lemma FindLastIs(s: string, c: char, i: nat)
    requires i < |s| && s[i] == c && forall j :: i < j < |s| ==> s[j] != c
    ensures FindLast(s, c) == i
  {
  }

  lemma SplitsAtRef(path: string, ref: string, comment: string)
    requires path != "" && ref != "" && '@' !in ref
    ensures SplitRef(path + "@" + ref, comment) == Some(Pin(path, ref, comment))
  {
    var v := path + "@" + ref;
    forall j | |path| < j < |v| ensures v[j] != '@' { assert v[j] == ref[j - |path| - 1] && v[j] in ref; }
    FindLastIs(v, '@', |path|);
    assert v[..|path|] == path && v[|path| + 1..] == ref;
  }

  lemma NoHash(path: string, ref: string)
    requires '#' !in path && RefText(ref)
    ensures '#' !in path + "@" + ref
  {
  }

  lemma BareValueReads(path: string, ref: string)
    requires Writable(path) && RefText(ref)
    ensures ParseValue(path + "@" + ref) == Some(Pin(path, ref, ""))
  {
    var v := path + "@" + ref;
    NoHash(path, ref);
    assert v[0] == path[0];
    FindIs(v, '#', |v|);
    SplitsAtRef(path, ref, "");
    hide Find, SplitRef, RefText, Trim;
  }

  lemma UnquotedParse(rest: string)
    requires rest != "" && !Quote(rest[0]) && Find(rest, '#') < |rest|
    ensures var h := Find(rest, '#'); ParseValue(rest) == SplitRef(Trim(rest[..h]), Trim(rest[h + 1..]))
  {
    hide Find, SplitRef, Trim;
  }

  lemma NotedParse(v: string, h: nat, head: string, comment: string)
    requires h < |v| && h > 0 && Find(v, '#') == h && !Quote(v[0])
    requires Trim(v[..h]) == head && Trim(v[h + 1..]) == comment
    ensures ParseValue(v) == SplitRef(head, comment)
  {
    UnquotedParse(v);
  }

  /** Everything up to the mark reads as the head, everything after it as the comment. */
  lemma NotedFacts(v: string, head: string, comment: string)
    requires v == head + " # " + comment && '#' !in head && comment != "" && Tidy(comment)
    requires Trim(head + " ") == head && head != ""
    ensures var h := |head| + 1;
            && h < |v| && Find(v, '#') == h && Trim(v[..h]) == head && Trim(v[h + 1..]) == comment
            && v[0] == head[0]
  {
    CommentReads(head, comment);
    hide Trim, Tidy;
  }

  lemma NotedValueReads(v: string, head: string, comment: string)
    requires v == head + " # " + comment && comment != "" && Tidy(comment)
    requires head != "" && '#' !in head && !Quote(head[0]) && Trim(head + " ") == head
    ensures ParseValue(v) == SplitRef(head, comment)
  {
    NotedFacts(v, head, comment);
    NotedParse(v, |head| + 1, head, comment);
  }

  lemma HeadFacts(path: string, ref: string)
    requires Writable(path) && RefText(ref)
    ensures var head := path + "@" + ref;
            head != "" && '#' !in head && !Quote(head[0]) && Trim(head + " ") == head
  {
    NoHash(path, ref);
    HeadTrims(path, ref);
    hide Trim;
    assert (path + "@" + ref)[0] == path[0];
  }

  /** Reading a value back gives the pin it was written from. */
  lemma ValueReads(p: Pin)
    requires Writable(p.path) && RefText(p.ref) && Tidy(p.comment)
    ensures TrimStart(Value(p)) == Value(p) && ParseValue(Value(p)) == Some(p)
  {
    var v := Value(p);
    assert v[0] == p.path[0];
    assert TrimStart(v) == v;
    hide TrimStart, ParseValue, Writable, RefText, Tidy;
    if p.comment == "" {
      BareValueReads(p.path, p.ref);
      assert v == p.path + "@" + p.ref;
    } else {
      Regroup4(p.path + "@" + p.ref, " # ", p.comment);
      HeadFacts(p.path, p.ref);
      SplitsAtRef(p.path, p.ref, p.comment);
      hide SplitRef, Trim, Quote;
      NotedValueReads(v, p.path + "@" + p.ref, p.comment);
    }
  }

  lemma Regroup4(a: string, b: string, c: string)
    ensures a + (b + c) == a + b + c
  {
  }

  lemma HeadTrims(path: string, ref: string)
    requires Writable(path) && RefText(ref)
    ensures Trim(path + "@" + ref + " ") == path + "@" + ref
  {
    var head := path + "@" + ref;
    assert head[0] == path[0] && head[|head| - 1] == ref[|ref| - 1] && ref[|ref| - 1] in ref;
    assert (head + " ")[0] == head[0];
    assert (head + " ")[..|head|] == head;
    assert TrimStart(head + " ") == head + " ";
    assert TrimEnd(head) == head;
  }

  lemma CommentReads(head: string, comment: string)
    requires '#' !in head && comment != "" && Tidy(comment)
    ensures var v := head + " # " + comment;
            && Find(v, '#') == |head| + 1
            && v[..|head| + 1] == head + " " && Trim(v[|head| + 1 + 1..]) == comment
  {
    var v := head + " # " + comment;
    assert v[|head| + 1] == '#' && v[|head|] == ' ';
    FindIs(v, '#', |head| + 1);
    assert v[..|head| + 1] == head + " ";
    assert v[|head| + 1 + 1..] == " " + comment;
    TrimStartSkips(" ", comment);
    TrimEndKeeps(comment);
  }

  lemma SplitRefPrefix(value: string, comment: string)
    ensures var q := SplitRef(value, comment);
            q.Some? ==> q.value.path != "" && q.value.path <= value && q.value.comment == comment
  {
  }

  lemma QuotedPath(rest: string)
    requires rest != "" && Quote(rest[0]) && ParseValue(rest).Some?
    ensures var path := ParseValue(rest).value.path; path != "" && rest[0] !in path
  {
    var close := Find(rest[1..], rest[0]);
    var value := rest[1..close + 1];
    BeforeFirst(rest[1..], rest[0], value);
    SplitRefPrefix(value, ParseValue(rest).value.comment);
    hide Find, SplitRef, Trim, ParseValue;
    PrefixHasNot(ParseValue(rest).value.path, value, rest[0]);
  }

  lemma BeforeFirst(s: string, c: char, value: string)
    requires value == s[..Find(s, c)]
    ensures c !in value
  {
  }

  lemma PrefixHasNot(a: string, b: string, c: char)
    requires a <= b && c !in b
    ensures c !in a
  {
  }

  lemma TrimPrefix(s: string)
    requires s == "" || !White(s[0])
    ensures Trim(s) <= s
  {
    assert TrimStart(s) == s;
  }

  lemma UnquotedPath(rest: string)
    requires rest != "" && !Quote(rest[0]) && !White(rest[0]) && ParseValue(rest).Some?
    ensures var path := ParseValue(rest).value.path; path != "" && path[0] == rest[0] && '#' !in path
  {
    var h := Find(rest, '#');
    if h == |rest| {
      SplitRefPrefix(rest, "");
      hide SplitRef, Trim;
    } else {
      UnquotedParse(rest);
      TrimPrefix(rest[..h]);
      SplitRefPrefix(Trim(rest[..h]), Trim(rest[h + 1..]));
      hide SplitRef, Trim, Find, ParseValue, Quote, White;
      NoHashBefore(rest, ParseValue(rest).value.path);
    }
  }

  lemma NoHashBefore(rest: string, path: string)
    requires path != "" && path <= rest[..Find(rest, '#')]
    ensures path[0] == rest[0] && '#' !in path
  {
    assert forall j :: 0 <= j < |path| ==> path[j] == rest[j];
  }

  /** What any parse's path is like: it starts with no blank, and holds no '#', unless quoted, when
      it holds no such quote. */
  lemma ParsedPath(rest: string)
    requires rest != "" && !White(rest[0]) && ParseValue(rest).Some?
    ensures var path := ParseValue(rest).value.path;
            path != ""
            && (if Quote(rest[0]) then rest[0] !in path else path[0] == rest[0] && '#' !in path)
  {
    if Quote(rest[0]) { QuotedPath(rest); } else { UnquotedPath(rest); }
  }

  lemma WhiteAt(v: string, k: nat, m: nat)
    requires m < k <= |v|
    ensures AllWhite(v[..k]) ==> White(v[m])
  {
    assert v[..k][m] == v[m];
  }

  /** A path that cannot be written as it is does not come back. */
  lemma ValueMisreads(p: Pin)
    requires p.path != "" && !Writable(p.path) && RefText(p.ref)
    ensures var rest := TrimStart(Value(p));
            rest != "" && (ParseValue(rest).Some? ==> ParseValue(rest).value.path != p.path)
  {
    var v := Value(p);
    var rest := TrimStart(v);
    var k := |v| - |rest|;
    assert v[|p.path|] == '@' && v[0] == p.path[0];
    if |p.path| < k { WhiteAt(v, k, |p.path|); }
    assert rest[0] == v[k];
    hide ParseValue;
    if ParseValue(rest).Some? {
      ParsedPath(rest);
      if Quote(rest[0]) {
        assert rest[0] == p.path[k] && rest[0] in p.path;
      }
    }
  }

  /** A pin read from an unquoted value is always writable: only a quoted path can fail. */
  lemma UnquotedIsWritable(line: string, p: Pin)
    requires Parse(line) == Some(p) && !Quote(AfterUses(line)[0])
    ensures Writable(p.path)
  {
    AfterUsesIsTidy(line);
    ParsedPath(AfterUses(line));
  }

  lemma AfterUsesIsTidy(line: string)
    ensures Tidy(AfterUses(line))
  {
    hide Trim, Tidy;
    EmptyIsTidy();
    var s := Trim(line);
    var t := if "-" <= s then Trim(s[1..]) else s;
    if "uses:" <= t { TrimIsTidy(t[5..]); }
  }

  lemma ExtraIsTidy(comment: string)
    ensures Tidy(Extra(comment))
  {
    hide Trim, Tidy, Semver;
    var c := Trim(comment);
    TrimIsTidy(comment);
    TrimIsTidy(c[|FirstToken(c)|..]);
  }

  lemma JoinIsTidy(tag: string, extra: string)
    requires tag != "" && (forall c :: c in tag ==> !White(c)) && Tidy(extra)
    ensures Tidy(if extra == "" then tag else tag + " " + extra)
  {
    assert tag[0] in tag && tag[|tag| - 1] in tag;
    if extra != "" {
      var c := tag + " " + extra;
      assert c[0] == tag[0] && c[|c| - 1] == extra[|extra| - 1];
    }
  }

  lemma NewCommentIsTidy(p: Pin, reusable: bool, latest: Latest)
    requires Stable(latest.tag) && IsSha(latest.sha)
    ensures Tidy(NewComment(p, reusable, latest))
  {
    NewRefText(reusable, latest);
    ExtraIsTidy(p.comment);
    hide Extra, Tagged, Tidy, Stable, Semver, White;
    JoinIsTidy(Tagged(latest.tag), Extra(p.comment));
  }

  /** Rebuilding a parsed line and reading it again gives the same path, the new ref and the new
      comment, exactly when the path is writable. */
  lemma FixRoundTrips(line: string, p: Pin, reusable: bool, latest: Latest)
    requires Parse(line) == Some(p) && Stable(latest.tag) && IsSha(latest.sha)
    ensures var q := Parse(Rebuild(line, p, reusable, latest));
            && (q.Some? && q.value.path == p.path <==> Writable(p.path))
            && (Writable(p.path) ==> q == Some(Pin(p.path, NewRef(reusable, latest), NewComment(p, reusable, latest))))
  {
    var written := Pin(p.path, NewRef(reusable, latest), NewComment(p, reusable, latest));
    NewRefText(reusable, latest);
    NewCommentIsTidy(p, reusable, latest);
    CommentIsTidy(AfterUses(line), p);
    RebuiltAfterUses(line, p, reusable, latest);
    hide NewRef, NewComment, AfterUses, ParseValue, Writable, RefText, Tidy;
    if Writable(p.path) {
      ValueReads(written);
      ValueIsText(written);
    } else {
      ValueMisreads(written);
    }
  }

  lemma ValueIsText(p: Pin)
    ensures Value(p) != ""
  {
    assert '@' in Value(p) by { assert Value(p)[|p.path|] == '@'; }
  }

  lemma FirstTokenOf(tag: string, rest: string)
    requires (forall c :: c in tag ==> !White(c)) && (rest == "" || White(rest[0]))
    ensures FirstToken(tag + rest) == tag
    decreases tag
  {
    if tag == "" {
      assert tag + rest == rest;
    } else {
      assert (tag + rest)[1..] == tag[1..] + rest && tag[0] in tag;
      FirstTokenOf(tag[1..], rest);
    }
  }

  /** A comment of a version alone, or a version and more, is read as that. */
  lemma ExtraReads(tag: string, extra: string)
    requires (forall c :: c in tag ==> !White(c)) && tag != "" && Semver(tag).Some? && Tidy(extra)
    ensures var comment := if extra == "" then tag else tag + " " + extra;
            Tidy(comment) ==> FirstToken(comment) == tag && Extra(comment) == extra
  {
    var rest := if extra == "" then "" else " " + extra;
    var comment := if extra == "" then tag else tag + " " + extra;
    assert comment == tag + rest;
    FirstTokenOf(tag, rest);
    assert comment[|tag|..] == rest;
    TrimIsTidy(comment);
    TrimIsTidy(rest);
    if extra != "" {
      TrimStartSkips(" ", extra);
      TrimEndKeeps(extra);
    }
    hide FirstToken, Tidy, Semver, TrimStart, TrimEnd;
  }

  /** The rebuilt comment starts with the tag and says the rest of the old one. */
  lemma FixKeepsDirectives(p: Pin, latest: Latest)
    requires Stable(latest.tag) && IsSha(latest.sha)
    ensures var comment := NewComment(p, false, latest);
            && FirstToken(comment) == Tagged(latest.tag) && comment != ""
            && Extra(comment) == Extra(p.comment)
  {
    NewRefText(false, latest);
    NewCommentIsTidy(p, false, latest);
    ExtraIsTidy(p.comment);
    StableHasVersion(latest.tag);
    hide Extra, Tagged, Semver, Stable, Tidy, FirstToken;
    ExtraReads(Tagged(latest.tag), Extra(p.comment));
  }

  lemma {:induction false} StableHasDot(s: string, some: bool)
    requires StableFrom(s, 0, some)
    ensures '.' in s
  {
    if s != "" && Digit(s[0]) { StableHasDot(s[1..], true); }
  }

  lemma StableIsNotSha(tag: string)
    requires Stable(tag)
    ensures !IsSha(tag)
  {
    StableHasDot(Bare(tag), false);
    assert '.' in tag;
  }

  /** What a pin needs for the check to find nothing. */
  lemma NothingWrong(q: Pin, reusable: bool, latest: Latest)
    requires Stable(latest.tag) && IsSha(latest.sha) && q.ref == NewRef(reusable, latest)
    requires !reusable ==> q.comment != "" && Semver(FirstToken(q.comment)) == Semver(latest.tag)
    ensures Check(q, reusable, latest) == None
  {
    StableIsNotSha(latest.tag);
    StableHasVersion(latest.tag);
    hide Stable, Semver, IsSha, FirstToken;
  }

  /** And the fixed pin has nothing wrong with it, whatever was wrong before. */
  lemma FixedPinIsCurrent(line: string, p: Pin, reusable: bool, latest: Latest)
    requires Parse(line) == Some(p) && Stable(latest.tag) && IsSha(latest.sha) && Writable(p.path)
    ensures var q := Parse(Rebuild(line, p, reusable, latest));
            q.Some? && q.value.path == p.path && Check(q.value, reusable, latest) == None
  {
    FixRoundTrips(line, p, reusable, latest);
    NewRefText(reusable, latest);
    hide Rebuild, Parse, Extra, Trim, FirstToken, Writable, Check, NewComment, NewRef, Semver, Stable, IsSha;
    if !reusable { FixKeepsDirectives(p, latest); }
    NothingWrong(Pin(p.path, NewRef(reusable, latest), NewComment(p, reusable, latest)), reusable, latest);
  }

  /** A quoted value, as a workflow line has it. */
  function Quoted(q: char, path: string, ref: string): string { [q] + ((path + "@" + ref) + [q]) }

  /** Its first quote closes behind everything between. */
  lemma QuotedCloses(q: char, inner: string)
    requires Quote(q) && q !in inner
    ensures var rest := [q] + (inner + [q]);
            && rest[0] == q && Find(rest[1..], q) == |inner| && rest[1..|inner| + 1] == inner
            && rest[|inner| + 2..] == ""
  {
    var rest := [q] + (inner + [q]);
    assert rest[1..] == inner + [q];
    forall j | 0 <= j < |inner| ensures rest[1..][j] != q { assert inner[j] in inner; }
    FindIs(rest[1..], q, |inner|);
  }

  /** A line with a quoted value reads as what stands between the quotes. */
  lemma QuotedLineReads(indent: string, dash: bool, q: char, path: string, ref: string)
    requires AllWhite(indent) && Quote(q) && path != "" && ref != "" && q !in path && q !in ref && '@' !in ref
    ensures Parse(indent + ((if dash then "- " else "") + ("uses: " + Quoted(q, path, ref))))
            == Some(Pin(path, ref, ""))
  {
    hide AllWhite, AfterUses, TrimStart, ParseValue;
    var value := Quoted(q, path, ref);
    assert value[0] == q && value[|value| - 1] == q && !White(q);
    UsesLineReads(indent, dash, value);
    NothingToTrim(value);
    QuotedValueReads(q, path, ref);
  }

  lemma NothingToTrim(s: string)
    requires s != "" && !White(s[0])
    ensures TrimStart(s) == s
  {
  }

  lemma QuotedValueReads(q: char, path: string, ref: string)
    requires Quote(q) && path != "" && ref != "" && q !in path && q !in ref && '@' !in ref
    ensures Quoted(q, path, ref) != "" && ParseValue(Quoted(q, path, ref)) == Some(Pin(path, ref, ""))
  {
    hide Trim, SplitRef;
    QuotedCloses(q, path + "@" + ref);
    SplitsAtRef(path, ref, "");
  }

  /** A quoted path that is not writable is read as it is, and lost by the fix. */
  lemma QuotedPathIsLost(indent: string, dash: bool, q: char, path: string, ref: string, reusable: bool, latest: Latest)
    requires AllWhite(indent) && Quote(q) && path != "" && ref != "" && q !in path && q !in ref && '@' !in ref
    requires Stable(latest.tag) && IsSha(latest.sha)
    ensures var line := indent + ((if dash then "- " else "") + ("uses: " + Quoted(q, path, ref)));
            var p := Pin(path, ref, "");
            && Parse(line) == Some(p)
            && (var again := Parse(Rebuild(line, p, reusable, latest));
                again.Some? && again.value.path == path <==> Writable(path))
  {
    hide Parse, Rebuild, Writable, AllWhite, Stable, IsSha;
    QuotedLineReads(indent, dash, q, path, ref);
    FixRoundTrips(indent + ((if dash then "- " else "") + ("uses: " + Quoted(q, path, ref))), Pin(path, ref, ""),
        reusable, latest);
  }

  /** Concretely: an action in a directory whose name has a '#' reads back as another action. */
  lemma HashedPathIsLost(latest: Latest)
    requires Stable(latest.tag) && IsSha(latest.sha)
    ensures var line, p := "uses: " + Quoted('"', "o/a@x#b", "v1"), Pin("o/a@x#b", "v1", "");
            && Parse(line) == Some(p)
            && (var again := Parse(Rebuild(line, p, false, latest)); again.Some? && again.value.path == "o/a")
  {
    hide Rebuild, AfterUses, Stable, IsSha, NewComment, ParseValue;
    var line, p := "uses: " + Quoted('"', "o/a@x#b", "v1"), Pin("o/a@x#b", "v1", "");
    QuotedLineReads("", false, '"', "o/a@x#b", "v1");
    assert "" + ("" + line) == line;
    NewCommentIsTidy(p, false, latest);
    RebuiltAfterUses(line, p, false, latest);
    HashCutsPath(Pin(p.path, latest.sha, NewComment(p, false, latest)));
  }

  lemma HashCutsPath(p: Pin)
    requires p.path == "o/a@x#b"
    ensures var rest := TrimStart(Value(p));
            && rest != "" && ParseValue(rest).Some?
            && ParseValue(rest).value.path == "o/a"
  {
    var v := Value(p);
    Cat("o/a@x", v[5..]);
    assert v[..5] == "o/a@x" && v[5] == '#';
    NothingToTrim(v);
    assert forall j :: 0 <= j < 5 ==> v[j] == "o/a@x"[j];
    FindIs(v, '#', 5);
    TrimIsTidy("o/a@x");
    FindLastIs("o/a@x", '@', 3);
    hide Trim, TrimStart, Find, FindLast;
  }

  // --- The fix as it runs ---

  /** A pin with a problem: its line, by index, and the release to move to. */
  datatype Finding = Finding(index: int, pin: Pin, reusable: bool, latest: Latest)

  /** `applyFix` over one file's lines. */
  method ApplyFix(lines: array<string>, findings: seq<Finding>) returns (rewritten: nat)
    requires forall i, j :: 0 <= i < j < |findings| ==> findings[i].index != findings[j].index
    modifies lines
    ensures forall k :: 0 <= k < |findings| && 0 <= findings[k].index < lines.Length ==>
              lines[findings[k].index]
              == Rebuild(old(lines[findings[k].index]), findings[k].pin, findings[k].reusable, findings[k].latest)
    ensures forall i :: 0 <= i < lines.Length && (forall k :: 0 <= k < |findings| ==> findings[k].index != i) ==>
              lines[i] == old(lines[i])
  {
    hide Rebuild;
    rewritten := 0;
    for n := 0 to |findings|
      invariant forall k :: 0 <= k < n && 0 <= findings[k].index < lines.Length ==>
                  lines[findings[k].index]
                  == Rebuild(old(lines[findings[k].index]), findings[k].pin, findings[k].reusable, findings[k].latest)
      invariant forall i :: 0 <= i < lines.Length && (forall k :: 0 <= k < n ==> findings[k].index != i) ==>
                  lines[i] == old(lines[i])
    {
      var f := findings[n];
      if f.index < 0 || f.index >= lines.Length { continue; }
      lines[f.index] := Rebuild(lines[f.index], f.pin, f.reusable, f.latest);
      rewritten := rewritten + 1;
    }
  }
}
