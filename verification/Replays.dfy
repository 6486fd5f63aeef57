/**
 Replays. An up-to-date folder that is sent a suffix of the log again, without faults: what it ends
 up showing, name by name, and exactly when that is what it showed before.
 */
module Replays {
  import opened Types
  import opened Replica
  import opened Convergence
  import opened Effects

  // --- What a replay shows, from the log alone ---

  /** The rows' listing, the bytes on disk under each of its names, and what was copied aside. */
  datatype Shown = Shown(files: Listing, bytes: map<Path, Content>, aside: seq<Copy>)

  function Contents(files: Listing): map<Path, Content> { map p | p in files :: files[p].bytes }

  /** Nothing but the listing. */
  function Exactly(files: Listing): Shown { Shown(files, Contents(files), []) }

  /** A file of content `c` comes in: it is taken for present if its row says so. */
  function Meets(x: Shown, p: Path, id: FileId, c: Content, n: nat, known: Option<Content>, f: Faults): Shown {
    if p in x.files && x.files[p].bytes == c then x.(files := x.files[p := Entry(id, c, n)])
    else
      var knows := if known.Some? then known else if p in x.files then Some(x.files[p].bytes) else None;
      var strange := p in x.bytes && x.bytes[p] != c && knows != Some(x.bytes[p]);
      Shown(x.files[p := Entry(id, c, n)], x.bytes[p := c],
            if strange && f.stashable then x.aside + [Copy(p, x.bytes[p])] else x.aside)
  }

  /** A removal leaves a file alone that it can neither recognize nor copy aside. */
  function Loses(x: Shown, p: Path, f: Faults): Shown {
    if p in x.files && p in x.bytes && x.bytes[p] != x.files[p].bytes then
      if f.stashable then Shown(x.files - {p}, x.bytes - {p}, x.aside + [Copy(p, x.bytes[p])]) else x
    else Shown(x.files - {p}, x.bytes - {p}, x.aside)
  }

  /** A file moves with whatever bytes it has; only its row is compared with the announced content. */
  function Shifts(x: Shown, from: Path, p: Path, id: FileId, c: Content, n: nat, f: Faults): Shown {
    if from !in x.files || from !in x.bytes then Meets(x, p, id, c, n, None, f)
    else if !f.movable then Meets(Shown(x.files - {from}, x.bytes - {from}, x.aside), p, id, c, n, None, f)
    else
      var moved := (x.bytes - {from})[p := x.bytes[from]];
      if x.files[from].bytes == c then Shown((x.files - {from})[p := Entry(id, c, n)], moved, x.aside)
      else Meets(Shown(x.files - {from}, moved, x.aside), p, id, c, n, Some(x.files[from].bytes), f)
  }

  function Played(x: Shown, e: Change, n: nat, f: Faults): Shown {
    match e
    case Added(p, id, c) => Meets(x, p, id, c, n, None, f)
    case Replaced(p, id, c) => Meets(x, p, id, c, n, None, f)
    case Removed(p) => Loses(x, p, f)
    case Renamed(from, p, id, c) => Shifts(x, from, p, id, c, n, f)
  }

  /** Events `from + 1` to `to`, as `Between` enters them. */
  function PlayedAll(x: Shown, log: seq<Change>, from: nat, to: nat, fs: seq<Faults>): Shown
    requires from <= to <= |log| && |fs| == to - from
  {
    if from == to then x
    else Played(PlayedAll(x, log, from, to - 1, fs[..to - 1 - from]), log[to - 1], to, fs[to - 1 - from])
  }

  function ApplyAll(r: Replica, log: seq<Change>, from: nat, to: nat, fs: seq<Faults>): Replica
    requires from <= to <= |log| && |fs| == to - from
  {
    if from == to then r
    else Apply(ApplyAll(r, log, from, to - 1, fs[..to - 1 - from]), log[to - 1], to, fs[to - 1 - from]).rep
  }

  // --- Folders that show it ---

  function CleanRow(x: Entry): Row { Row(Some(x.id), Some(x.bytes), Some(x.bytes), x.at, Synced) }

  ghost predicate Named(r: Replica, files: Listing, k: Path) { exists p :: p in files && r.Key(p) == k }

  /** Rows carry the listing, down to the sequence numbers, and the disk its bytes. */
  ghost predicate Shows(r: Replica, x: Shown) {
    && r.rows.Keys == x.files.Keys == x.bytes.Keys
    && (forall p {:trigger x.files[p]} :: p in x.files ==> r.rows[p] == CleanRow(x.files[p]))
    && (forall p {:trigger x.bytes[p]} :: p in x.bytes ==> r.OnDisk(p) && r.disk[r.Key(p)] == x.bytes[p])
  }

  ghost predicate Mirrors(r: Replica, files: Listing) { Shows(r, Exactly(files)) }

  /** No file is on disk but the listed ones. */
  ghost predicate NoStray(r: Replica, files: Listing) { forall k :: k in r.disk ==> Named(r, files, k) }

  /** Every hash, download and unlink works; conflict copies and moves may or may not. */
  predicate Faultless(f: Faults) { f.hashable && f.fetched && f.deletable }

  lemma MirrorLookup(r: Replica, files: Listing, names: set<Path>, p: Path, pick: Path)
    requires r.rows.Keys == files.Keys && Distinct(r, names) && files.Keys <= names && p in names
    ensures r.Lookup(p, pick) == if p in files then Some(p) else None
  {
  }

  lemma ListedIffOnDisk(r: Replica, files: Listing, names: set<Path>, p: Path)
    requires NoStray(r, files) && Distinct(r, names) && files.Keys <= names && p in names
    requires p in files ==> r.OnDisk(p)
    ensures r.OnDisk(p) <==> p in files
  {
    if r.OnDisk(p) {
      assert Named(r, files, r.Key(p));
      var q :| q in files && r.Key(q) == r.Key(p);
    }
  }

  lemma DistinctCarries(r: Replica, t: Replica, names: set<Path>)
    requires Distinct(r, names) && r.folds == t.folds
    ensures Distinct(t, names)
  {
    forall a, b | a in names && b in names && t.Key(a) == t.Key(b) ensures a == b {
      assert r.Key(a) == r.Key(b);
    }
  }

  /** One name of a listing that changed at `a` and `b` only. */
  predicate StandsAt(t: Replica, y: Shown, q: Path) {
    && (q in y.files <==> q in t.rows) && (q in y.files <==> q in y.bytes) && (q in y.files <==> t.OnDisk(q))
    && (q in y.files && q in y.bytes ==>
          q in t.rows && t.rows[q] == CleanRow(y.files[q]) && t.OnDisk(q) && t.disk[t.Key(q)] == y.bytes[q])
  }

  predicate Alike(x: Shown, y: Shown, q: Path) {
    && (q in x.files <==> q in y.files) && (q in x.files && q in y.files ==> x.files[q] == y.files[q])
    && (q in x.bytes <==> q in y.bytes) && (q in x.bytes && q in y.bytes ==> x.bytes[q] == y.bytes[q])
  }

  lemma ThirdStands(r: Replica, t: Replica, x: Shown, y: Shown, names: set<Path>, a: Path, b: Path, q: Path)
    requires Shows(r, x) && NoStray(r, x.files) && Distinct(r, names)
    requires x.files.Keys <= names && a in names && b in names
    requires SameButTwo(r, t, a, b) && Alike(x, y, q) && q in names && q != a && q != b
    ensures StandsAt(t, y, q)
  {
    assert r.Key(q) != r.Key(a) && r.Key(q) != r.Key(b);
    ListedIffOnDisk(r, x.files, names, q);
  }

  lemma StandsEverywhere(t: Replica, y: Shown, names: set<Path>)
    requires forall q :: q in names ==> StandsAt(t, y, q)
    requires y.files.Keys <= names && y.bytes.Keys <= names && t.rows.Keys <= names
    ensures Shows(t, y)
  {
    assert forall q :: q in y.files ==> StandsAt(t, y, q);
    assert forall q :: q in y.bytes ==> StandsAt(t, y, q);
    assert forall q :: q in t.rows ==> StandsAt(t, y, q);
  }

  lemma NoneStray(r: Replica, t: Replica, x: Shown, y: Shown, names: set<Path>, a: Path, b: Path, k: Path)
    requires NoStray(r, x.files) && SameButTwo(r, t, a, b) && k in t.disk
    requires StandsAt(t, y, a) && StandsAt(t, y, b)
    requires forall q :: q != a && q != b ==> Alike(x, y, q)
    ensures Named(t, y.files, k)
  {
    if k == r.Key(a) {
      assert t.Key(a) == k && a in y.files;
    } else if k == r.Key(b) {
      assert t.Key(b) == k && b in y.files;
    } else {
      assert Named(r, x.files, k);
      var q :| q in x.files && r.Key(q) == k;
      assert Alike(x, y, q) && t.Key(q) == k;
    }
  }

  /** A folder changed at two names shows what changed there. */
  lemma Reshown(r: Replica, t: Replica, x: Shown, y: Shown, names: set<Path>, a: Path, b: Path)
    requires Shows(r, x) && NoStray(r, x.files) && Distinct(r, names)
    requires x.files.Keys <= names && a in names && b in names
    requires SameButTwo(r, t, a, b) && StandsAt(t, y, a) && StandsAt(t, y, b)
    requires forall q :: q != a && q != b ==> Alike(x, y, q)
    ensures Shows(t, y) && NoStray(t, y.files)
  {
    forall q | q in names ensures StandsAt(t, y, q) {
      if q != a && q != b { ThirdStands(r, t, x, y, names, a, b, q); }
    }
    NamesStay(r, t, x, y, names, a, b);
    hide Distinct, Named, StandsAt, SameButTwo, Shows, Alike;
    StandsEverywhere(t, y, names);
    forall k | k in t.disk ensures Named(t, y.files, k) { NoneStray(r, t, x, y, names, a, b, k); }
  }

  lemma NamesStay(r: Replica, t: Replica, x: Shown, y: Shown, names: set<Path>, a: Path, b: Path)
    requires Shows(r, x) && x.files.Keys <= names && a in names && b in names && SameButTwo(r, t, a, b)
    requires forall q :: q != a && q != b ==> Alike(x, y, q)
    ensures y.files.Keys <= names && y.bytes.Keys <= names && t.rows.Keys <= names
  {
    forall q | q in y.files || q in y.bytes || q in t.rows ensures q in names {
      if q != a && q != b { assert Alike(x, y, q); }
    }
  }

  /** An incoming file, at one name whose row is clean or missing. */
  lemma IncomingShown(r: Replica, p: Path, id: FileId, c: Content, n: nat, known: Option<Content>, keepLocal: bool,
          f: Faults)
    requires f.hashable && f.fetched
    requires r.Lookup(p, f.pick) == if p in r.rows then Some(p) else None
    requires p in r.rows ==> r.rows[p].status == Synced && r.rows[p].local == r.rows[p].server && r.rows[p].local.Some?
    ensures var h := Incoming(r, p, id, c, n, known, keepLocal, f);
            var k, short := r.Key(p), p in r.rows && r.rows[p].local == Some(c);
            var knows := if known.Some? then known else if p in r.rows then r.rows[p].server else None;
            var strange := !short && k in r.disk && r.disk[k] != c && knows != Some(r.disk[k]);
            && h.outcome.Applied? && h.rep.folds == r.folds
            && h.rep.rows == r.rows[p := CleanRow(Entry(id, c, n))]
            && h.rep.disk == (if short then r.disk else r.disk[k := c])
            && h.rep.copies == (if strange && f.stashable then r.copies + [Copy(p, r.disk[k])] else r.copies)
  {
    var h := Incoming(r, p, id, c, n, known, keepLocal, f);
    var row := CleanRow(Entry(id, c, n));
    assert h.rep.rows == r.rows[p := row];
    if !(p in r.rows && r.rows[p].local == Some(c)) { assert h.rep.disk == r.disk[r.Key(p) := c]; }
  }

  /** The folder shows `x`, no other file, and has copied aside what `x` says since it had `base`. */
  ghost predicate Tells(r: Replica, x: Shown, base: seq<Copy>) {
    Shows(r, x) && NoStray(r, x.files) && r.copies == base + x.aside
  }

  /** The row of a name that the folder shows, and what lies there. */
  lemma ShownAt(r: Replica, x: Shown, names: set<Path>, p: Path, pick: Path)
    requires Shows(r, x) && NoStray(r, x.files) && Distinct(r, names) && x.files.Keys <= names && p in names
    ensures r.Lookup(p, pick) == (if p in r.rows then Some(p) else None)
    ensures StandsAt(r, x, p)
  {
    MirrorLookup(r, x.files, names, p, pick);
    ListedIffOnDisk(r, x.files, names, p);
  }

  lemma PutShows(r: Replica, t: Replica, x: Shown, y: Shown, names: set<Path>, p: Path, e: Entry, b: Content)
    requires Shows(r, x) && NoStray(r, x.files) && Distinct(r, names) && x.files.Keys <= names && p in names
    requires t.folds == r.folds && t.rows == r.rows[p := CleanRow(e)] && t.disk == r.disk[r.Key(p) := b]
    requires y.files == x.files[p := e] && y.bytes == x.bytes[p := b]
    ensures Shows(t, y) && NoStray(t, y.files)
  {
    hide Shows, NoStray, Distinct;
    assert t.Key(p) == r.Key(p);
    assert SameButTwo(r, t, p, p) && StandsAt(t, y, p);
    Reshown(r, t, x, y, names, p, p);
  }

  lemma DropShows(r: Replica, t: Replica, x: Shown, y: Shown, names: set<Path>, p: Path)
    requires Shows(r, x) && NoStray(r, x.files) && Distinct(r, names) && x.files.Keys <= names && p in names
    requires t.folds == r.folds && t.rows == r.rows - {p} && t.disk == r.disk - {r.Key(p)}
    requires y.files == x.files - {p} && y.bytes == x.bytes - {p}
    ensures Shows(t, y) && NoStray(t, y.files)
  {
    hide Shows, NoStray, Distinct;
    assert t.Key(p) == r.Key(p);
    assert SameButTwo(r, t, p, p) && StandsAt(t, y, p);
    Reshown(r, t, x, y, names, p, p);
  }

  lemma MoveAlike(x: Shown, y: Shown, from: Path, p: Path, e: Entry, b: Content)
    requires y.files == (x.files - {from})[p := e] && y.bytes == (x.bytes - {from})[p := b]
    ensures forall q :: q != from && q != p ==> Alike(x, y, q)
  {
  }

  lemma MovedButTwo(r: Replica, t: Replica, from: Path, p: Path, row: Row, b: Content)
    requires t.folds == r.folds
    requires t.rows == (r.rows - {from})[p := row] && t.disk == (r.disk - {r.Key(from)})[r.Key(p) := b]
    ensures SameButTwo(r, t, from, p)
  {
  }

  lemma MoveShows(r: Replica, t: Replica, x: Shown, y: Shown, names: set<Path>, from: Path, p: Path, e: Entry,
          b: Content)
    requires Shows(r, x) && NoStray(r, x.files) && Distinct(r, names) && x.files.Keys <= names
    requires from in names && p in names && from != p && r.Key(from) != r.Key(p) && t.folds == r.folds
    requires t.rows == (r.rows - {from})[p := CleanRow(e)] && t.disk == (r.disk - {r.Key(from)})[r.Key(p) := b]
    requires y.files == (x.files - {from})[p := e] && y.bytes == (x.bytes - {from})[p := b]
    ensures Shows(t, y) && NoStray(t, y.files)
  {
    hide Shows, NoStray, Distinct, Alike, SameButTwo;
    assert t.Key(p) == r.Key(p) && t.Key(from) == r.Key(from);
    MoveAlike(x, y, from, p, e, b);
    MovedButTwo(r, t, from, p, CleanRow(e), b);
    assert StandsAt(t, y, p) && StandsAt(t, y, from);
    Reshown(r, t, x, y, names, from, p);
  }

  lemma IncomingPlays(r: Replica, x: Shown, names: set<Path>, base: seq<Copy>,
                      p: Path, id: FileId, c: Content, n: nat, keepLocal: bool, f: Faults)
    requires Tells(r, x, base) && Distinct(r, names) && x.files.Keys <= names && p in names && Faultless(f)
    ensures var h := Incoming(r, p, id, c, n, None, keepLocal, f);
            h.outcome.Applied? && h.rep.folds == r.folds && Tells(h.rep, Meets(x, p, id, c, n, None, f), base)
  {
    hide Incoming, Distinct, NoStray, Shows;
    ShownAt(r, x, names, p, f.pick);
    IncomingShown(r, p, id, c, n, None, keepLocal, f);
    var t, y := Incoming(r, p, id, c, n, None, keepLocal, f).rep, Meets(x, p, id, c, n, None, f);
    var b := if p in x.files && x.files[p].bytes == c then x.bytes[p] else c;
    assert y.bytes == x.bytes[p := b] && t.disk == r.disk[r.Key(p) := b];
    PutShows(r, t, x, y, names, p, Entry(id, c, n), b);
  }

  lemma DeletePlays(r: Replica, x: Shown, names: set<Path>, base: seq<Copy>, p: Path, f: Faults)
    requires Tells(r, x, base) && Distinct(r, names) && x.files.Keys <= names && p in names && Faultless(f)
    ensures var h := Delete(r, p, f); h.rep.folds == r.folds && Tells(h.rep, Loses(x, p, f), base)
  {
    hide Distinct, NoStray, Shows;
    ShownAt(r, x, names, p, f.pick);
    var t, y := Delete(r, p, f).rep, Loses(x, p, f);
    if y != x || p !in x.files {
      assert t.rows == r.rows - {p} && t.disk == r.disk - {r.Key(p)};
      DropShows(r, t, x, y, names, p);
    }
  }

  /** The folder a rename's fallback starts from, or the one it relocates in. */
  lemma VacatedShown(r: Replica, x: Shown, names: set<Path>, from: Path, p: Path, f: Faults)
    requires Shows(r, x) && NoStray(r, x.files) && Distinct(r, names) && x.files.Keys <= names
    requires from in x.files && p in names && from != p && Faultless(f)
    ensures var q, k := Vacated(r, from, p, f), r.Key(from);
            && q.rows == r.rows - {from} && q.copies == r.copies && q.folds == r.folds && k != r.Key(p)
            && q.disk == (if f.movable then (r.disk - {k})[r.Key(p) := x.bytes[from]] else r.disk - {k})
            && q.Lookup(p, f.pick) == (if p in q.rows then Some(p) else None)
  {
    ShownAt(r, x, names, from, f.source);
    ShownAt(r, x, names, p, f.pick);
    assert from in names && r.Key(from) != r.Key(p);
    hide NoStray, Distinct;
    var q := Vacated(r, from, p, f);
    assert q.rows == r.rows - {from};
    if f.movable { assert q.disk == (r.disk - {r.Key(from)})[r.Key(p) := x.bytes[from]]; }
  }

  lemma RelocationPlays(r: Replica, x: Shown, names: set<Path>, base: seq<Copy>,
                        from: Path, p: Path, id: FileId, c: Content, n: nat, f: Faults)
    requires Tells(r, x, base) && Distinct(r, names) && x.files.Keys <= names && Faultless(f)
    requires from in x.files && p in names && from != p && f.movable && x.files[from].bytes == c
    ensures var h := Rename(r, from, p, id, c, n, f);
            h.outcome.Applied? && h.rep.folds == r.folds && Tells(h.rep, Shifts(x, from, p, id, c, n, f), base)
  {
    ShownAt(r, x, names, from, f.source);
    assert from in names && r.Key(from) != r.Key(p);
    hide Distinct, NoStray, Shows;
    var t, y := Rename(r, from, p, id, c, n, f).rep, Shifts(x, from, p, id, c, n, f);
    assert t.rows == (r.rows - {from})[p := CleanRow(Entry(id, c, n))];
    assert t.disk == (r.disk - {r.Key(from)})[r.Key(p) := x.bytes[from]];
    MoveShows(r, t, x, y, names, from, p, Entry(id, c, n), x.bytes[from]);
  }

  /** What lies at the new name once a rename that falls back is over. */
  function ShiftedBytes(x: Shown, from: Path, p: Path, c: Content, f: Faults): Content
    requires from in x.bytes && (p in x.files ==> p in x.bytes)
  {
    if p in x.files && x.files[p].bytes == c then (if f.movable then x.bytes[from] else x.bytes[p]) else c
  }

  lemma FallbackPlays(r: Replica, x: Shown, names: set<Path>, base: seq<Copy>,
                      from: Path, p: Path, id: FileId, c: Content, n: nat, f: Faults)
    requires Tells(r, x, base) && Distinct(r, names) && x.files.Keys <= names && Faultless(f)
    requires from in x.files && p in names && from != p && (f.movable ==> x.files[from].bytes != c)
    ensures var h := Rename(r, from, p, id, c, n, f);
            h.outcome.Applied? && h.rep.folds == r.folds && Tells(h.rep, Shifts(x, from, p, id, c, n, f), base)
  {
    hide Distinct, NoStray, Shows, Rename;
    FallbackFolder(r, x, names, from, p, id, c, n, f);
    VacatedShown(r, x, names, from, p, f);
    hide Vacated;
    var b := ShiftedBytes(x, from, p, c, f);
    var t, y := Rename(r, from, p, id, c, n, f).rep, Shifts(x, from, p, id, c, n, f);
    assert y.files == (x.files - {from})[p := Entry(id, c, n)];
    assert y.bytes == (x.bytes - {from})[p := b];
    MoveShows(r, t, x, y, names, from, p, Entry(id, c, n), b);
  }

  lemma FallbackFolder(r: Replica, x: Shown, names: set<Path>, from: Path, p: Path, id: FileId, c: Content, n: nat,
          f: Faults)
    requires Shows(r, x) && NoStray(r, x.files) && Distinct(r, names) && x.files.Keys <= names && Faultless(f)
    requires from in x.files && p in names && from != p && (f.movable ==> x.files[from].bytes != c)
    ensures from in x.bytes && (p in x.files ==> p in x.bytes)
    ensures var h, y := Rename(r, from, p, id, c, n, f), Shifts(x, from, p, id, c, n, f);
            && h.outcome.Applied? && h.rep.folds == r.folds
            && h.rep.rows == (r.rows - {from})[p := CleanRow(Entry(id, c, n))]
            && h.rep.disk == (r.disk - {r.Key(from)})[r.Key(p) := ShiftedBytes(x, from, p, c, f)]
            && exists more :: h.rep.copies == r.copies + more && y.aside == x.aside + more
  {
    hide Distinct, NoStray, Shows, Incoming, Vacated, Rename;
    ShownAt(r, x, names, from, f.source);
    ShownAt(r, x, names, p, f.pick);
    VacatedShown(r, x, names, from, p, f);
    FallbackIsIncoming(r, from, p, id, c, n, f);
    var q, known := Vacated(r, from, p, f), if f.movable then Some(x.files[from].bytes) else None;
    IncomingShown(q, p, id, c, n, known, false, f);
    var t, y := Rename(r, from, p, id, c, n, f).rep, Shifts(x, from, p, id, c, n, f);
    var lies := if f.movable then x.bytes[from] else if p in x.bytes then x.bytes[p] else c;
    var more := if y.aside == x.aside then [] else [Copy(p, lies)];
    assert t.copies == r.copies + more && y.aside == x.aside + more;
    assert t.disk == (r.disk - {r.Key(from)})[r.Key(p) := ShiftedBytes(x, from, p, c, f)];
  }

  /** Its old name is gone already: the rename only brings a file in. */
  lemma LateRenamePlays(r: Replica, x: Shown, names: set<Path>, base: seq<Copy>,
                        from: Path, p: Path, id: FileId, c: Content, n: nat, f: Faults)
    requires Tells(r, x, base) && Distinct(r, names) && x.files.Keys <= names && Faultless(f)
    requires from in names && from !in x.files && p in names
    ensures var h := Rename(r, from, p, id, c, n, f);
            h.outcome.Applied? && h.rep.folds == r.folds && Tells(h.rep, Shifts(x, from, p, id, c, n, f), base)
  {
    hide Distinct, Incoming;
    ShownAt(r, x, names, from, f.source);
    FallbackIsIncoming(r, from, p, id, c, n, f);
    assert Vacated(r, from, p, f) == r by {
      assert r.rows - {from} == r.rows && r.disk - {r.Key(from)} == r.disk;
    }
    IncomingPlays(r, x, names, base, p, id, c, n, false, f);
  }

  lemma RenamePlays(r: Replica, x: Shown, names: set<Path>, base: seq<Copy>,
                    from: Path, p: Path, id: FileId, c: Content, n: nat, f: Faults)
    requires Tells(r, x, base) && Distinct(r, names) && x.files.Keys <= names && Faultless(f)
    requires from in names && p in names && from != p
    ensures var h := Rename(r, from, p, id, c, n, f);
            h.outcome.Applied? && h.rep.folds == r.folds && Tells(h.rep, Shifts(x, from, p, id, c, n, f), base)
  {
    hide Rename, Shifts, Tells, Distinct;
    if from !in x.files { LateRenamePlays(r, x, names, base, from, p, id, c, n, f); }
    else if f.movable && x.files[from].bytes == c { RelocationPlays(r, x, names, base, from, p, id, c, n, f); }
    else { FallbackPlays(r, x, names, base, from, p, id, c, n, f); }
  }

  lemma PlayedNames(x: Shown, names: set<Path>, e: Change, n: nat, f: Faults)
    requires x.files.Keys <= names && Within(e, names)
    ensures Played(x, e, n, f).files.Keys <= names
  {
  }

  /** One event that meets no fault leaves the folder showing just what playing it says. */
  lemma ApplyPlays(r: Replica, x: Shown, names: set<Path>, base: seq<Copy>, e: Change, n: nat, f: Faults)
    requires Tells(r, x, base) && Distinct(r, names) && x.files.Keys <= names && Within(e, names) && Faultless(f)
    ensures var t := Apply(r, e, n, f).rep;
            Tells(t, Played(x, e, n, f), base) && t.folds == r.folds && Played(x, e, n, f).files.Keys <= names
    ensures !e.Removed? ==> Apply(r, e, n, f).outcome.Applied?
  {
    hide Incoming, Rename, Delete, Tells, Distinct, Meets, Loses, Shifts;
    var a := Announce(r, e);
    AnnounceTells(r, x, names, base, e);
    PlayedNames(x, names, e, n, f);
    match e
    case Added(p, id, c) => IncomingPlays(a, x, names, base, p, id, c, n, false, f);
    case Replaced(p, id, c) => IncomingPlays(a, x, names, base, p, id, c, n, true, f);
    case Removed(p) => DeletePlays(a, x, names, base, p, f);
    case Renamed(from, p, id, c) => RenamePlays(a, x, names, base, from, p, id, c, n, f);
  }

  lemma AnnounceTells(r: Replica, x: Shown, names: set<Path>, base: seq<Copy>, e: Change)
    requires Tells(r, x, base) && Distinct(r, names)
    ensures Tells(Announce(r, e), x, base) && Distinct(Announce(r, e), names) && Announce(r, e).folds == r.folds
  {
    var a := Announce(r, e);
    assert forall p :: a.Key(p) == r.Key(p);
    forall k | k in a.disk ensures Named(a, x.files, k) {
      assert Named(r, x.files, k);
      var q :| q in x.files && r.Key(q) == k;
      assert a.Key(q) == k;
    }
  }

  /** And so over any stretch of the log, whatever it holds. */
  lemma {:induction false} ReplayPlays(r: Replica, x: Shown, names: set<Path>, base: seq<Copy>,
                                       log: seq<Change>, from: nat, to: nat, fs: seq<Faults>)
    requires from <= to <= |log| && |fs| == to - from && forall i :: from <= i < to ==> Within(log[i], names)
    requires Tells(r, x, base) && Distinct(r, names) && x.files.Keys <= names
    requires forall i :: 0 <= i < |fs| ==> Faultless(fs[i])
    ensures var t, y := ApplyAll(r, log, from, to, fs), PlayedAll(x, log, from, to, fs);
            Tells(t, y, base) && t.folds == r.folds && y.files.Keys <= names
  {
    hide Tells, Distinct, Apply, Played;
    if from < to {
      var n := to - 1;
      ReplayPlays(r, x, names, base, log, from, n, fs[..n - from]);
      var before := ApplyAll(r, log, from, n, fs[..n - from]);
      DistinctCarries(r, before, names);
      ApplyPlays(before, PlayedAll(x, log, from, n, fs[..n - from]), names, base, log[n], to, fs[n - from]);
    }
  }

  // --- Entering a suffix again ---

  /** The last event that concerns a name decides its entry, so entering a range twice changes nothing. */
  lemma {:induction false} LastEventDecides(a: Listing, b: Listing, log: seq<Change>, from: nat, to: nat, p: Path)
    requires from <= to <= |log|
    requires (exists i :: from <= i < to && Touches(log[i], p)) || ((p in a <==> p in b) && (p in a ==> a[p] == b[p]))
    ensures var x, y := Between(a, log, from, to), Between(b, log, from, to);
            (p in x <==> p in y) && (p in x ==> x[p] == y[p])
  {
    if from < to && !Touches(log[to - 1], p) { LastEventDecides(a, b, log, from, to - 1, p); }
  }

  lemma {:induction false} UntouchedEntry(files: Listing, log: seq<Change>, from: nat, to: nat, p: Path)
    requires from <= to <= |log|
    requires forall i :: from <= i < to ==> !Touches(log[i], p)
    ensures var x := Between(files, log, from, to); (p in x <==> p in files) && (p in x ==> x[p] == files[p])
  {
    if from < to { UntouchedEntry(files, log, from, to - 1, p); }
  }

  lemma {:induction false} BetweenSplits(files: Listing, log: seq<Change>, from: nat, mid: nat, to: nat)
    requires from <= mid <= to <= |log|
    ensures Between(files, log, from, to) == Between(Between(files, log, from, mid), log, mid, to)
  {
    if mid < to { BetweenSplits(files, log, from, mid, to - 1); }
  }

  /** Entering a suffix of the log again leaves its listing as it was. */
  lemma ReplayIsIdempotent(log: seq<Change>, k: nat)
    requires k <= |log|
    ensures Between(Upto(log, |log|), log, k, |log|) == Upto(log, |log|)
  {
    var full := Upto(log, |log|);
    var again := Between(full, log, k, |log|);
    BetweenSplits(map[], log, 0, k, |log|);
    forall p ensures (p in again <==> p in full) && (p in full ==> again[p] == full[p]) {
      if exists i :: k <= i < |log| && Touches(log[i], p) {
        LastEventDecides(full, Upto(log, k), log, k, |log|, p);
      } else {
        UntouchedEntry(full, log, k, |log|, p);
      }
    }
  }

  // --- When a replay is harmless ---

  /** Two folders that show something are the same exactly when they show the same. */
  lemma ShownApart(r: Replica, t: Replica, x: Shown, y: Shown, base: seq<Copy>)
    requires Tells(r, x, base) && Tells(t, y, base) && r.folds == t.folds
    ensures (t.disk == r.disk && t.rows == r.rows && t.copies == r.copies) <==> y == x
  {
    if y == x { ShownAlike(r, t, x); }
    if t.disk == r.disk && t.rows == r.rows && t.copies == r.copies {
      ReadBack(r, t, x, y);
      assert t.copies[|base|..] == y.aside && r.copies[|base|..] == x.aside;
    }
  }

  lemma ShownAlike(r: Replica, t: Replica, x: Shown)
    requires Shows(r, x) && Shows(t, x) && NoStray(r, x.files) && NoStray(t, x.files) && r.folds == t.folds
    ensures r.disk == t.disk && r.rows == t.rows
  {
    hide Shows, NoStray;
    RowsAlike(r, t, x);
    forall k ensures (k in r.disk <==> k in t.disk) && (k in r.disk ==> r.disk[k] == t.disk[k]) {
      if k in r.disk { ShownCover(r, t, x, k); } else if k in t.disk { ShownCover(t, r, x, k); }
    }
  }

  lemma RowsAlike(r: Replica, t: Replica, x: Shown)
    requires Shows(r, x) && Shows(t, x)
    ensures r.rows == t.rows
  {
    forall p | p in x.files ensures r.rows[p] == t.rows[p] { assert r.rows[p] == CleanRow(x.files[p]); }
  }

  lemma ReadBack(r: Replica, t: Replica, x: Shown, y: Shown)
    requires Shows(r, x) && Shows(t, y) && r.folds == t.folds && r.disk == t.disk && r.rows == t.rows
    ensures x.files == y.files && x.bytes == y.bytes
  {
    forall p | p in x.files ensures y.files[p] == x.files[p] && y.bytes[p] == x.bytes[p] {
      assert r.rows[p] == CleanRow(x.files[p]) && t.rows[p] == CleanRow(y.files[p]);
      assert t.Key(p) == r.Key(p) && r.disk[r.Key(p)] == x.bytes[p] && t.disk[t.Key(p)] == y.bytes[p];
    }
  }

  lemma ShownCover(r: Replica, t: Replica, x: Shown, k: Path)
    requires Shows(r, x) && Shows(t, x) && r.folds == t.folds && NoStray(r, x.files) && k in r.disk
    ensures k in t.disk && r.disk[k] == t.disk[k]
  {
    assert Named(r, x.files, k);
    var p :| p in x.files && r.Key(p) == k;
    assert t.Key(p) == k && p in x.bytes && t.disk[k] == x.bytes[p];
  }

  lemma {:induction false} BetweenNames(files: Listing, log: seq<Change>, from: nat, to: nat, names: set<Path>)
    requires from <= to <= |log| && files.Keys <= names && forall i :: from <= i < to ==> Within(log[i], names)
    ensures Between(files, log, from, to).Keys <= names
  {
    if from < to { BetweenNames(files, log, from, to - 1, names); }
  }

  /** The rename changes the content too, to what an occupied destination already holds. */
  predicate Twin(files: Listing, from: Path, p: Path, c: Content)
    requires from in files
  { p in files && files[p].bytes == c && files[from].bytes != c }

  predicate MeetsTwin(files: Listing, e: Change, f: Faults) {
    e.Renamed? && f.movable && e.from in files && Twin(files, e.from, e.path, e.bytes)
  }

  /** One event on a folder that shows exactly a listing leaves one that shows exactly the next,
      unless it is a rename that moves a file onto its twin: there the row says SYNCED over the moved
      file's old bytes. */
  lemma OnlyTwinsDiffer(files: Listing, e: Change, n: nat, f: Faults)
    requires e.Renamed? ==> e.from != e.path
    ensures Played(Exactly(files), e, n, f) == Exactly(Enter(files, e, n)) <==> !MeetsTwin(files, e, f)
    ensures Played(Exactly(files), e, n, f).files == Enter(files, e, n) && Played(Exactly(files), e, n, f).aside == []
  {
    var y, after := Played(Exactly(files), e, n, f), Enter(files, e, n);
    assert y.files == after;
    if MeetsTwin(files, e, f) {
      assert y.bytes[e.path] == files[e.from].bytes && Contents(after)[e.path] == e.bytes;
    } else {
      forall p ensures (p in y.bytes <==> p in after) && (p in after ==> y.bytes[p] == after[p].bytes) {}
      assert y.bytes == Contents(after);
    }
  }

  /** A server rename that meets no fault keeps the mirror exactly when it does not. */
  lemma RenameMirrors(r: Replica, files: Listing, names: set<Path>,
                      from: Path, p: Path, id: FileId, c: Content, n: nat, f: Faults)
    requires Mirrors(r, files) && NoStray(r, files) && Distinct(r, names) && files.Keys <= names
    requires from in files && p in names && from != p && Faultless(f) && f.movable
    ensures var e := Renamed(from, p, id, c); var t, after := Apply(r, e, n, f).rep, Enter(files, e, n);
            && Apply(r, e, n, f).outcome.Applied? && t.copies == r.copies
            && (Mirrors(t, after) && NoStray(t, after) <==> !Twin(files, from, p, c))
  {
    var e := Renamed(from, p, id, c);
    ApplyPlays(r, Exactly(files), names, r.copies, e, n, f);
    OnlyTwinsDiffer(files, e, n, f);
    var t, y, after := Apply(r, e, n, f).rep, Played(Exactly(files), e, n, f), Enter(files, e, n);
    hide Apply, Played, NoStray, Distinct, Enter;
    if Mirrors(t, after) { assert y.bytes == Contents(after); }
  }

  /** Every rename in the suffix moves a file onto no twin, as the replay finds it. */
  ghost predicate TwinFree(full: Listing, log: seq<Change>, k: nat, fs: seq<Faults>)
    requires k <= |log| && |fs| == |log| - k
  { forall i :: k <= i < |log| ==> !MeetsTwin(Between(full, log, k, i), log[i], fs[i - k]) }

  /** Playing `m` events of the suffix shows the listing with them entered. */
  ghost predicate InStep(full: Listing, log: seq<Change>, k: nat, fs: seq<Faults>, m: nat)
    requires k <= m <= |log| && |fs| == |log| - k
  { PlayedAll(Exactly(full), log, k, m, fs[..m - k]) == Exactly(Between(full, log, k, m)) }

  lemma StaysInStep(full: Listing, log: seq<Change>, k: nat, fs: seq<Faults>, m: nat)
    requires k <= m < |log| && |fs| == |log| - k && InStep(full, log, k, fs, m)
    requires log[m].Renamed? ==> log[m].from != log[m].path
    ensures InStep(full, log, k, fs, m + 1) <==> !MeetsTwin(Between(full, log, k, m), log[m], fs[m - k])
  {
    assert fs[..m + 1 - k][..m - k] == fs[..m - k] && fs[..m + 1 - k][m - k] == fs[m - k];
    hide Played, MeetsTwin;
    OnlyTwinsDiffer(Between(full, log, k, m), log[m], m + 1, fs[m - k]);
  }

  lemma {:induction false} InStepUpto(full: Listing, log: seq<Change>, k: nat, fs: seq<Faults>, m: nat)
    requires k <= m <= |log| && |fs| == |log| - k
    requires forall i :: 0 <= i < |log| && log[i].Renamed? ==> log[i].from != log[i].path
    requires forall i :: k <= i < m ==> !MeetsTwin(Between(full, log, k, i), log[i], fs[i - k])
    ensures InStep(full, log, k, fs, m)
  {
    hide MeetsTwin, InStep;
    if m == k {
      assert InStep(full, log, k, fs, k) by { InStepAtOnce(full, log, k, fs); }
    } else {
      InStepUpto(full, log, k, fs, m - 1);
      StaysInStep(full, log, k, fs, m - 1);
    }
  }

  lemma InStepAtOnce(full: Listing, log: seq<Change>, k: nat, fs: seq<Faults>)
    requires k <= |log| && |fs| == |log| - k
    ensures InStep(full, log, k, fs, k)
  {
  }

  /** The replay shows, after each of its events, the listing with that event entered, exactly when no
      rename in it meets a twin; and then it is harmless. */
  lemma TwinFreeReplays(log: seq<Change>, k: nat, fs: seq<Faults>)
    requires k <= |log| && |fs| == |log| - k
    requires forall i :: 0 <= i < |log| && log[i].Renamed? ==> log[i].from != log[i].path
    ensures var full := Upto(log, |log|);
            && (TwinFree(full, log, k, fs) <==> forall m :: k <= m <= |log| ==> InStep(full, log, k, fs, m))
            && (TwinFree(full, log, k, fs) ==> PlayedAll(Exactly(full), log, k, |log|, fs) == Exactly(full))
  {
    var full := Upto(log, |log|);
    ReplayIsIdempotent(log, k);
    assert fs[..|log| - k] == fs;
    if TwinFree(full, log, k, fs) {
      forall m | k <= m <= |log| ensures InStep(full, log, k, fs, m) { InStepUpto(full, log, k, fs, m); }
      assert InStep(full, log, k, fs, |log|);
    } else {
      var i :| k <= i < |log| && MeetsTwin(Between(full, log, k, i), log[i], fs[i - k]);
      hide InStep, MeetsTwin;
      if InStep(full, log, k, fs, i) { StaysInStep(full, log, k, fs, i); }
    }
  }

  /** Re-delivering any suffix of the log, renames included, to an up-to-date folder, with no faults,
      ends in the same disk and rows with no conflict copy exactly when playing it from the log's own
      listing ends there; which it does when no rename in it meets a twin. */
  lemma ReplayIsHarmless(r: Replica, log: seq<Change>, k: nat, names: set<Path>, fs: seq<Faults>)
    requires k <= |log| && |fs| == |log| - k && forall i :: 0 <= i < |log| ==> Within(log[i], names)
    requires forall i :: 0 <= i < |fs| ==> Faultless(fs[i])
    requires var full := Upto(log, |log|); Mirrors(r, full) && NoStray(r, full) && Distinct(r, names)
    ensures var t, start := ApplyAll(r, log, k, |log|, fs), Exactly(Upto(log, |log|));
            (t.disk == r.disk && t.rows == r.rows && t.copies == r.copies)
            <==> PlayedAll(start, log, k, |log|, fs) == start
    ensures TwinFree(Upto(log, |log|), log, k, fs) ==>
              var t := ApplyAll(r, log, k, |log|, fs); t.disk == r.disk && t.rows == r.rows && t.copies == r.copies
  {
    TwinFreeReplays(log, k, fs);
    hide TwinFree, InStep;
    var start := Exactly(Upto(log, |log|));
    BetweenNames(map[], log, 0, |log|, names);
    ReplayPlays(r, start, names, r.copies, log, k, |log|, fs);
    hide Shows, NoStray, Distinct, ApplyAll, PlayedAll;
    ShownApart(r, ApplyAll(r, log, k, |log|, fs), start, PlayedAll(start, log, k, |log|, fs), r.copies);
  }

  // --- A twin, concretely ---

  const CALM := Faults(true, true, Recased, true, true, true, "", "")

  /** A file is renamed and its name taken again. */
  const RETAKEN := [Added("a", 1, 4), Renamed("a", "b", 1, 4), Added("a", 2, 5)]
  const AFTER_RETAKEN: Listing := map["a" := Entry(2, 5, 3), "b" := Entry(1, 4, 2)]

  lemma RetakenListing()
    ensures Upto(RETAKEN, 3) == AFTER_RETAKEN
  {
    assert Between(map[], RETAKEN, 0, 1) == map["a" := Entry(1, 4, 1)];
    assert Between(map[], RETAKEN, 0, 2) == map["b" := Entry(1, 4, 2)];
  }

  lemma OneMore(x: Shown, log: seq<Change>, from: nat, to: nat, fs: seq<Faults>, f: Faults)
    requires from < to <= |log| && |fs| == to - 1 - from
    ensures PlayedAll(x, log, from, to, fs + [f]) == Played(PlayedAll(x, log, from, to - 1, fs), log[to - 1], to, f)
  {
    assert (fs + [f])[..to - 1 - from] == fs;
  }

  lemma RetakenPlayed()
    ensures MeetsTwin(AFTER_RETAKEN, RETAKEN[1], CALM)
    ensures PlayedAll(Exactly(AFTER_RETAKEN), RETAKEN, 1, 3, [CALM, CALM])
            == Shown(AFTER_RETAKEN, map["a" := 5, "b" := 5], [])
  {
    var start := Exactly(AFTER_RETAKEN);
    OneMore(start, RETAKEN, 1, 2, [], CALM);
    OneMore(start, RETAKEN, 1, 3, [CALM], CALM);
    assert [] + [CALM] == [CALM] && [CALM] + [CALM] == [CALM, CALM];
    assert Played(start, RETAKEN[1], 2, CALM) == Shown(map["b" := Entry(1, 4, 2)], map["b" := 5], []);
  }

  /** Replayed from the rename on, it leaves the second file's bytes under both names, with a row
      SYNCED at the first one's. */
  lemma ReplayCorrupts(r: Replica)
    requires Mirrors(r, Upto(RETAKEN, 3)) && NoStray(r, Upto(RETAKEN, 3)) && Distinct(r, {"a", "b"})
    ensures var t := ApplyAll(r, RETAKEN, 1, 3, [CALM, CALM]);
            && t.rows == r.rows && t.copies == r.copies && t.OnDisk("b") && t.disk[t.Key("b")] == 5
            && "b" in t.rows && t.rows["b"] == Row(Some(1), Some(4), Some(4), 2, Synced)
  {
    hide ApplyAll, PlayedAll, NoStray, Distinct, Upto, Shows;
    RetakenListing();
    RetakenPlayed();
    ReplayPlays(r, Exactly(AFTER_RETAKEN), {"a", "b"}, r.copies, RETAKEN, 1, 3, [CALM, CALM]);
    RetakenRows(r, ApplyAll(r, RETAKEN, 1, 3, [CALM, CALM]));
  }

  lemma RetakenRows(r: Replica, t: Replica)
    requires Shows(r, Exactly(AFTER_RETAKEN)) && Shows(t, Shown(AFTER_RETAKEN, map["a" := 5, "b" := 5], []))
    ensures t.rows == r.rows && t.OnDisk("b") && t.disk[t.Key("b")] == 5
    ensures "b" in t.rows && t.rows["b"] == Row(Some(1), Some(4), Some(4), 2, Synced)
  {
    assert map["a" := 5, "b" := 5]["b"] == 5;
    forall p | p in AFTER_RETAKEN ensures t.rows[p] == r.rows[p] { assert r.rows[p] == CleanRow(AFTER_RETAKEN[p]); }
  }

  /** Two replacements after it put that right, so a twin on the way is not yet harm in the end. */
  const MENDED := RETAKEN + [Replaced("b", 1, 5), Replaced("b", 1, 4)]
  const AFTER_MENDED: Listing := map["a" := Entry(2, 5, 3), "b" := Entry(1, 4, 5)]

  lemma TwinCanMend()
    ensures Upto(MENDED, 5) == AFTER_MENDED && MeetsTwin(AFTER_MENDED, MENDED[1], CALM)
    ensures PlayedAll(Exactly(AFTER_MENDED), MENDED, 1, 5, [CALM, CALM, CALM, CALM]) == Exactly(AFTER_MENDED)
  {
    MendedListing();
    MendedPlayed();
    hide Upto, Exactly, Played;
    var start := Exactly(AFTER_MENDED);
    OneMore(start, MENDED, 1, 2, [], CALM);
    OneMore(start, MENDED, 1, 3, [CALM], CALM);
    OneMore(start, MENDED, 1, 4, [CALM, CALM], CALM);
    OneMore(start, MENDED, 1, 5, [CALM, CALM, CALM], CALM);
    assert [] + [CALM] == [CALM] && [CALM] + [CALM] == [CALM, CALM];
    assert [CALM, CALM] + [CALM] == [CALM, CALM, CALM] && [CALM, CALM, CALM] + [CALM] == [CALM, CALM, CALM, CALM];
  }

  lemma MendedListing()
    ensures Upto(MENDED, 5) == AFTER_MENDED && MeetsTwin(AFTER_MENDED, MENDED[1], CALM)
  {
    assert MENDED[..3] == RETAKEN;
    assert Between(map[], MENDED, 0, 1) == map["a" := Entry(1, 4, 1)];
    assert Between(map[], MENDED, 0, 2) == map["b" := Entry(1, 4, 2)];
    assert Between(map[], MENDED, 0, 3) == map["b" := Entry(1, 4, 2), "a" := Entry(2, 5, 3)];
    assert Between(map[], MENDED, 0, 4) == map["b" := Entry(1, 5, 4), "a" := Entry(2, 5, 3)];
  }

  lemma MendedPlayed()
    ensures var one := Played(Exactly(AFTER_MENDED), MENDED[1], 2, CALM);
            var two := Played(one, MENDED[2], 3, CALM); var three := Played(two, MENDED[3], 4, CALM);
            Played(three, MENDED[4], 5, CALM) == Exactly(AFTER_MENDED)
  {
    var one := Played(Exactly(AFTER_MENDED), MENDED[1], 2, CALM);
    assert one == Shown(map["b" := Entry(1, 4, 2)], map["b" := 5], []);
    var two := Played(one, MENDED[2], 3, CALM);
    assert two == Shown(map["b" := Entry(1, 4, 2), "a" := Entry(2, 5, 3)], map["b" := 5, "a" := 5], []);
    var three := Played(two, MENDED[3], 4, CALM);
    assert three == Shown(map["b" := Entry(1, 5, 4), "a" := Entry(2, 5, 3)], map["b" := 5, "a" := 5], []);
  }
}
