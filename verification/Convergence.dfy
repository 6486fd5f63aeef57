/**
 With no local edits, the folder converges to the server's log, whatever transfers fail on
 the way.
 */
module Convergence {
  import opened Types
  import opened Replica
  import opened Effects

  // --- The log's meaning ---

  /** The file the server holds at a path, and the event that put it there. */
  datatype Entry = Entry(id: FileId, bytes: Content, at: nat)

  type Listing = map<Path, Entry>

  function Enter(files: Listing, e: Change, n: nat): Listing {
    match e
    case Added(p, id, c) => files[p := Entry(id, c, n)]
    case Replaced(p, id, c) => files[p := Entry(id, c, n)]
    case Removed(p) => files - {p}
    case Renamed(from, p, id, c) => (files - {from})[p := Entry(id, c, n)]
  }

  /** Events `from + 1` to `to` of the log, entered in order. Event `n` is `log[n - 1]`. */
  function Between(files: Listing, log: seq<Change>, from: nat, to: nat): Listing
    requires from <= to <= |log|
  {
    if from == to then files else Enter(Between(files, log, from, to - 1), log[to - 1], to)
  }

  function Upto(log: seq<Change>, n: nat): Listing
    requires n <= |log|
  { Between(map[], log, 0, n) }

  /** The event concerns the name. */
  predicate Touches(e: Change, p: Path) { e.path == p || (e.Renamed? && e.from == p) }

  /** The volume tells the names apart. */
  ghost predicate Distinct(r: Replica, names: set<Path>) {
    forall p, q :: p in names && q in names && r.Key(p) == r.Key(q) ==> p == q
  }

  // --- Eventual convergence ---

  /** A row either has its file, or still owes exactly it. */
  ghost predicate Settled(r: Replica, p: Path, x: Entry)
    requires p in r.rows
  {
    var row := r.rows[p];
    && row.fileId == Some(x.id) && row.server == Some(x.bytes)
    && (Stranded(row) || (row.status == Synced && row.local == Some(x.bytes)
                          && r.OnDisk(p) && r.disk[r.Key(p)] == x.bytes))
  }

  /** Every name is at the listing or visibly owes it, and no other name has row or file. */
  ghost predicate Tracks(r: Replica, files: Listing, names: set<Path>) {
    && Distinct(r, names) && files.Keys <= names
    && r.rows.Keys == files.Keys
    && (forall p :: p in files ==> Settled(r, p, files[p]))
    && (forall p :: p in names && p !in files ==> !r.OnDisk(p))
  }

  lemma LookupIsExact(r: Replica, files: Listing, names: set<Path>, p: Path, pick: Path)
    requires Tracks(r, files, names) && p in names
    ensures r.Lookup(p, pick) == if p in files then Some(p) else None
  {
  }

  lemma SaveCopyDisk(r: Replica, p: Path, c: Content, known: Option<Content>, f: Faults)
    ensures var t := SaveCopy(r, p, c, known, f);
            && t.rows == r.rows && t.folds == r.folds
            && (t.disk == r.disk || t.disk == r.disk - {r.Key(p)})
  {
  }

  ghost predicate SameMapBut<K(!new), V>(m: map<K, V>, w: map<K, V>, k: K) {
    && (forall j :: j != k ==> (j in m <==> j in w))
    && (forall j :: j != k && j in m && j in w ==> m[j] == w[j])
  }

  /** The two folders agree away from one name. */
  ghost predicate SameBut(r: Replica, t: Replica, p: Path) {
    && t.folds == r.folds
    && SameMapBut(r.rows, t.rows, p)
    && SameMapBut(r.disk, t.disk, r.Key(p))
  }

  /** Another name is as it was. */
  lemma OtherNameKept(r: Replica, t: Replica, names: set<Path>, p: Path, q: Path, x: Entry)
    requires Distinct(r, names) && p in names && q in names && p != q && SameBut(r, t, p)
    ensures t.Key(q) == r.Key(q) && (t.OnDisk(q) <==> r.OnDisk(q)) && (q in t.rows <==> q in r.rows)
    ensures q in r.rows && Settled(r, q, x) ==> Settled(t, q, x)
  {
    assert r.Key(q) != r.Key(p);
  }

  /** What happens at one name stays there. */
  lemma TracksLocally(r: Replica, t: Replica, files: Listing, after: Listing, names: set<Path>, p: Path)
    requires Tracks(r, files, names) && p in names && SameBut(r, t, p)
    requires SameMapBut(files, after, p)
    requires p in after <==> p in t.rows
    requires if p in after then Settled(t, p, after[p]) else !t.OnDisk(p)
    ensures Tracks(t, after, names)
  {
    forall a, b | a in names && b in names && t.Key(a) == t.Key(b) ensures a == b {
      assert r.Key(a) == r.Key(b);
    }
    forall q | q in after && q != p ensures q in names && q in t.rows && Settled(t, q, after[q]) {
      assert q in files && Settled(r, q, files[q]);
      OtherNameKept(r, t, names, p, q, files[q]);
    }
    forall q | q in names && q !in after && q != p ensures !t.OnDisk(q) {
      assert q !in files;
      OtherNameKept(r, t, names, p, q, Entry(0, 0, 0));
    }
    assert t.rows.Keys == after.Keys;
  }

  lemma DownloadLocally(r: Replica, p: Path, c: Content, fetched: bool)
    requires p in r.rows && r.rows[p].server == Some(c)
    ensures var t := Download(r, p, c, fetched);
            && SameBut(r, t, p) && p in t.rows
            && t.rows[p].fileId == r.rows[p].fileId && t.rows[p].server == Some(c)
            && (if fetched then t.rows[p].status == Synced && t.rows[p].local == Some(c)
                                && t.OnDisk(p) && t.disk[t.Key(p)] == c
                else t.rows[p].status == Error)
  {
  }

  /** Where an incoming file may leave its own name. */
  ghost predicate Arrives(r: Replica, t: Replica, p: Path, id: FileId, c: Content, n: nat)
    requires p in t.rows
  {
    || Stranded(t.rows[p])
    || (t.rows[p].status == Synced && t.rows[p].local == Some(c) && t.OnDisk(p) && t.disk[t.Key(p)] == c)
    || (p in r.rows && r.rows[p].local == Some(c) && t.disk == r.disk
        && t.rows[p] == r.rows[p].(at := n, server := Some(c), fileId := Some(id)))
  }

  lemma IncomingLocally(r: Replica, p: Path, id: FileId, c: Content, n: nat, known: Option<Content>, keepLocal: bool,
          f: Faults)
    requires r.Lookup(p, f.pick) == if p in r.rows then Some(p) else None
    ensures var h := Incoming(r, p, id, c, n, known, keepLocal, f); var t := h.rep;
            && h.outcome != Refused && SameBut(r, t, p) && p in t.rows
            && t.rows[p].fileId == Some(id) && t.rows[p].server == Some(c) && Arrives(r, t, p, id, c, n)
  {
    var existing := r.Lookup(p, f.pick);
    if r.LocalOf(existing) != Some(c) {
      var knows := if known.Some? then known else r.ServerOf(existing);
      var saved := SaveCopy(r, p, c, knows, f);
      var local := if keepLocal then r.LocalOf(existing) else None;
      SaveCopyDisk(r, p, c, knows, f);
      FetchLocally(r, saved, p, Row(Some(id), local, Some(c), n, PendingDownload), c, f.fetched);
    }
  }

  lemma FetchLocally(r: Replica, saved: Replica, p: Path, row: Row, c: Content, fetched: bool)
    requires saved.rows == r.rows && saved.folds == r.folds && row.server == Some(c)
    requires saved.disk == r.disk || saved.disk == r.disk - {r.Key(p)}
    ensures var t := Download(saved.Upsert(p, row), p, c, fetched);
            && SameBut(r, t, p) && p in t.rows && t.rows[p].fileId == row.fileId && t.rows[p].server == Some(c)
            && (if fetched then t.rows[p].status == Synced && t.rows[p].local == Some(c)
                                && t.OnDisk(p) && t.disk[t.Key(p)] == c
                else t.rows[p].status == Error)
  {
    assert SameBut(r, saved.Upsert(p, row), p);
    DownloadLocally(saved.Upsert(p, row), p, c, fetched);
  }

  lemma IncomingTracks(r: Replica, files: Listing, names: set<Path>,
                       p: Path, id: FileId, c: Content, n: nat, keepLocal: bool, f: Faults)
    requires Tracks(r, files, names) && p in names
    ensures var h := Incoming(r, p, id, c, n, None, keepLocal, f);
            h.outcome != Refused && Tracks(h.rep, files[p := Entry(id, c, n)], names)
  {
    LookupIsExact(r, files, names, p, f.pick);
    IncomingLocally(r, p, id, c, n, None, keepLocal, f);
    if p in files { assert Settled(r, p, files[p]); }
    TracksLocally(r, Incoming(r, p, id, c, n, None, keepLocal, f).rep, files, files[p := Entry(id, c, n)], names, p);
  }

  lemma DeleteTracks(r: Replica, files: Listing, names: set<Path>, p: Path, f: Faults)
    requires Tracks(r, files, names) && p in names
    ensures var h := Delete(r, p, f);
            Tracks(h.rep, if h.outcome == Refused then files else files - {p}, names)
  {
    LookupIsExact(r, files, names, p, f.pick);
    var h := Delete(r, p, f);
    if h.outcome != Refused {
      assert SameBut(r, h.rep, p);
      TracksLocally(r, h.rep, files, files - {p}, names, p);
    }
  }

  // --- Server renames ---

  /** A rename keeps track of both its names. If it relocates the file, its row owed nothing, or
      just the bytes that it moves and the row says so; if it falls back, it forgets nothing, and a
      file that could not be moved can be unlinked. Other events always do. */
  predicate FollowsThrough(r: Replica, e: Change, f: Faults) {
    e.Renamed? ==>
      if Relocates(r, e.from, e.bytes, f) then
        var row := r.rows[r.Lookup(e.from, f.source).value];
        Stranded(row) ==> At(r, e.from) == Some(e.bytes) && (row.local.Some? ==> row.local == Some(e.bytes))
      else !Forgets(r, e, f) && (r.OnDisk(e.from) && !f.movable ==> f.deletable)
  }

  /** The two folders agree away from two names. */
  ghost predicate SameButTwo(r: Replica, t: Replica, p: Path, q: Path) {
    && t.folds == r.folds
    && (forall j :: j != p && j != q ==> (j in t.rows <==> j in r.rows) && (j in r.rows ==> t.rows[j] == r.rows[j]))
    && (forall k :: k != r.Key(p) && k != r.Key(q) ==>
        (k in t.disk <==> k in r.disk) && (k in r.disk ==> t.disk[k] == r.disk[k]))
  }

  lemma ThirdNameKept(r: Replica, t: Replica, names: set<Path>, from: Path, p: Path, q: Path, x: Entry)
    requires Distinct(r, names) && from in names && p in names && q in names && q != from && q != p
    requires SameButTwo(r, t, from, p)
    ensures t.Key(q) == r.Key(q) && (t.OnDisk(q) <==> r.OnDisk(q)) && (q in t.rows <==> q in r.rows)
    ensures q in r.rows ==> (Settled(r, q, x) <==> Settled(t, q, x))
  {
    assert r.Key(q) != r.Key(p) && r.Key(q) != r.Key(from);
  }

  /** What happens at a rename's two names decides whether the folder still tracks the log. */
  lemma TracksTwoNames(r: Replica, t: Replica, files: Listing, names: set<Path>, from: Path, p: Path, x: Entry)
    requires Tracks(r, files, names) && from in names && p in names && from != p && SameButTwo(r, t, from, p)
    requires p in t.rows && from !in t.rows
    ensures Tracks(t, (files - {from})[p := x], names) <==> Settled(t, p, x) && !t.OnDisk(from)
  {
    var after := (files - {from})[p := x];
    forall a, b | a in names && b in names && t.Key(a) == t.Key(b) ensures a == b {
      assert r.Key(a) == r.Key(b);
    }
    forall q | q in names && q != from && q != p
      ensures (q in after <==> q in files) && (q in after ==> q in t.rows && Settled(t, q, after[q]))
      ensures q !in after ==> !t.OnDisk(q)
    {
      if q in files { assert Settled(r, q, files[q]); }
      ThirdNameKept(r, t, names, from, p, q, if q in files then files[q] else x);
    }
    assert t.rows.Keys == after.Keys by {
      forall q ensures q in t.rows <==> q in after {
        if q != from && q != p { assert q in t.rows <==> q in r.rows; }
      }
    }
  }

  lemma RelocationTracks(r: Replica, files: Listing, names: set<Path>,
                         from: Path, p: Path, id: FileId, c: Content, n: nat, f: Faults)
    requires Tracks(r, files, names) && from in names && p in names && from != p && Relocates(r, from, c, f)
    ensures var h := Rename(r, from, p, id, c, n, f);
            && h.outcome.Applied?
            && (Tracks(h.rep, (files - {from})[p := Entry(id, c, n)], names)
                <==> FollowsThrough(r, Renamed(from, p, id, c), f))
  {
    LookupIsExact(r, files, names, from, f.source);
    NamesApart(r, files, names, from, p);
    assert Settled(r, from, files[from]);
    var t := Rename(r, from, p, id, c, n, f).rep;
    assert SameButTwo(r, t, from, p);
    TracksTwoNames(r, t, files, names, from, p, Entry(id, c, n));
  }

  lemma VacatedLocally(r: Replica, files: Listing, names: set<Path>, from: Path, p: Path, f: Faults)
    requires Tracks(r, files, names) && from in names && p in names && from != p
    ensures var quiet := Vacated(r, from, p, f);
            && SameButTwo(r, quiet, from, p) && from !in quiet.rows && SameMapBut(r.rows, quiet.rows, from)
            && quiet.Lookup(p, f.pick) == (if p in quiet.rows then Some(p) else None)
            && (quiet.OnDisk(from) <==> r.OnDisk(from) && !f.movable && !f.deletable)
            && At(quiet, p) == (if Moves(r, from, f) then At(r, from) else At(r, p))
  {
    hide Vacated, Tracks;
    LookupIsExact(r, files, names, from, f.source);
    NamesApart(r, files, names, from, p);
    VacatedRows(r, from, p, f);
    VacatedDisk(r, from, p, f);
    var quiet := Vacated(r, from, p, f);
    assert quiet.rows == r.rows - {from};
    VacatedLookup(r, quiet, files, names, from, p, f);
  }

  lemma NamesApart(r: Replica, files: Listing, names: set<Path>, p: Path, q: Path)
    requires Tracks(r, files, names) && p in names && q in names && p != q
    ensures r.Key(p) != r.Key(q) && (p !in files ==> p !in r.rows)
  {
  }

  lemma VacatedLookup(r: Replica, quiet: Replica, files: Listing, names: set<Path>, from: Path, p: Path, f: Faults)
    requires Tracks(r, files, names) && p in names && quiet.rows == r.rows - {from} && quiet.folds == r.folds
    ensures quiet.Lookup(p, f.pick) == (if p in quiet.rows then Some(p) else None)
  {
  }

  lemma FallbackTracks(r: Replica, files: Listing, names: set<Path>,
                       from: Path, p: Path, id: FileId, c: Content, n: nat, f: Faults)
    requires Tracks(r, files, names) && from in names && p in names && from != p && !Relocates(r, from, c, f)
    ensures var h := Rename(r, from, p, id, c, n, f);
            && h.outcome != Refused
            && (Tracks(h.rep, (files - {from})[p := Entry(id, c, n)], names)
                <==> FollowsThrough(r, Renamed(from, p, id, c), f))
  {
    hide Incoming, Rename, Vacated, Relocates;
    var quiet := Vacated(r, from, p, f);
    var synced := if r.OnDisk(from) && !f.movable then None else r.ServerOf(r.Lookup(from, f.source));
    FallbackIsIncoming(r, from, p, id, c, n, f);
    VacatedLocally(r, files, names, from, p, f);
    IncomingLocally(quiet, p, id, c, n, synced, false, f);
    var t := Rename(r, from, p, id, c, n, f).rep;
    assert r.Key(from) != r.Key(p);
    assert SameButTwo(r, t, from, p) by { ButTwo(r, quiet, t, from, p); }
    TracksTwoNames(r, t, files, names, from, p, Entry(id, c, n));
    if p in files { assert Settled(r, p, files[p]); }
    if Rename(r, from, p, id, c, n, f).outcome == Deferred { IncomingOwes(quiet, p, id, c, n, synced, false, f); }
    else { IncomingTakesEffect(quiet, p, id, c, n, synced, false, f); }
    ArrivesSettled(r, quiet, t, from, p, id, c, n, f);
  }

  lemma ButTwo(r: Replica, quiet: Replica, t: Replica, from: Path, p: Path)
    requires SameButTwo(r, quiet, from, p) && SameBut(quiet, t, p)
    ensures SameButTwo(r, t, from, p)
  {
  }

  /** The new name after a fallback: settled unless the rename forgets. */
  lemma ArrivesSettled(r: Replica, quiet: Replica, t: Replica, from: Path, p: Path, id: FileId, c: Content, n: nat,
          f: Faults)
    requires !Relocates(r, from, c, f) && quiet == Vacated(r, from, p, f) && t.folds == quiet.folds
    requires quiet.Lookup(p, f.pick) == (if p in quiet.rows then Some(p) else None)
    requires || (Owes(t.rows, p, id, c) && !ShortCircuits(quiet, p, c, f))
             || (Carries(t.rows, p, id, c)
                 && At(t, p) == (if ShortCircuits(quiet, p, c, f) then At(quiet, p) else Some(c))
                 && t.rows[p].status == (if ShortCircuits(quiet, p, c, f) && p in quiet.rows
                                         then quiet.rows[p].status else Synced))
    requires p in quiet.rows && !Stranded(quiet.rows[p]) ==>
               quiet.rows[p].status == Synced && (quiet.rows[p].local == Some(c) ==> At(r, p) == Some(c))
    ensures Settled(t, p, Entry(id, c, n)) <==> !Forgets(r, Renamed(from, p, id, c), f)
  {
  }

  /** A rename, with any faults, keeps track of the log exactly when it follows through. */
  lemma RenameTracks(r: Replica, files: Listing, names: set<Path>,
                     from: Path, p: Path, id: FileId, c: Content, n: nat, f: Faults)
    requires Tracks(r, files, names) && from in names && p in names && from != p
    ensures var h := Rename(r, from, p, id, c, n, f);
            && h.outcome != Refused
            && (Tracks(h.rep, (files - {from})[p := Entry(id, c, n)], names)
                <==> FollowsThrough(r, Renamed(from, p, id, c), f))
  {
    hide Rename, FollowsThrough, Tracks;
    if Relocates(r, from, c, f) { RelocationTracks(r, files, names, from, p, id, c, n, f); }
    else { FallbackTracks(r, files, names, from, p, id, c, n, f); }
  }

  /** Both of the event's names are followed, and they differ. */
  predicate Within(e: Change, names: set<Path>) {
    e.path in names && (e.Renamed? ==> e.from in names && e.from != e.path)
  }

  /** One event, with any faults: a refused one changes nothing, and any other is taken into
      account, a rename exactly when it follows through. */
  lemma ApplyTracks(r: Replica, files: Listing, names: set<Path>, e: Change, n: nat, f: Faults)
    requires Tracks(r, files, names) && Within(e, names)
    ensures var h := Apply(r, e, n, f);
            Tracks(h.rep, if h.outcome == Refused then files else Enter(files, e, n), names)
            <==> FollowsThrough(Announce(r, e), e, f)
  {
    hide Incoming, Delete, Rename, FollowsThrough;
    var a := Announce(r, e);
    AnnounceTracks(r, files, names, e);
    OthersFollowThrough(a, e, f);
    match e
    case Added(p, id, c) => IncomingTracks(a, files, names, p, id, c, n, false, f);
    case Replaced(p, id, c) => IncomingTracks(a, files, names, p, id, c, n, true, f);
    case Removed(p) => DeleteTracks(a, files, names, p, f);
    case Renamed(from, p, id, c) => RenameTracks(a, files, names, from, p, id, c, n, f);
  }

  lemma OthersFollowThrough(r: Replica, e: Change, f: Faults)
    ensures !e.Renamed? ==> FollowsThrough(r, e, f)
  {
  }

  lemma AnnounceTracks(r: Replica, files: Listing, names: set<Path>, e: Change)
    requires Tracks(r, files, names)
    ensures Tracks(Announce(r, e), files, names)
  {
    var a := Announce(r, e);
    assert forall p :: a.Key(p) == r.Key(p);
    forall q | q in files ensures Settled(a, q, files[q]) { assert Settled(r, q, files[q]); }
  }

  /** A sweep's turn keeps track, and a turn that lands settles its row for good. */
  lemma SweepRowTracks(r: Replica, files: Listing, names: set<Path>, p: Path, t: Turn)
    requires Tracks(r, files, names) && p in r.rows
    ensures var u := SweepRow(r, p, r.rows[p], t);
            && Tracks(u, files, names) && SameBut(r, u, p)
            && (Lands(r, p, r.rows[p], t) ==> u.rows[p].status == Synced)
  {
    var u := SweepRow(r, p, r.rows[p], t);
    assert Settled(r, p, files[p]);
    var c := files[p].bytes;
    SaveCopyDisk(r, p, c, None, t.faults);
    DownloadLocally(SaveCopy(r, p, c, None, t.faults), p, c, t.faults.fetched);
    if !t.passed {
      TracksLocally(r, u, files, files, names, p);
    }
  }

  /** With nothing stranded, rows and disk are exactly the listing. */
  ghost predicate AtRest(r: Replica, files: Listing) {
    && r.rows.Keys == files.Keys
    && (forall p :: p in files ==>
          && r.rows[p].status == Synced && r.rows[p].local == r.rows[p].server == Some(files[p].bytes)
          && r.rows[p].fileId == Some(files[p].id)
          && r.OnDisk(p) && r.disk[r.Key(p)] == files[p].bytes)
  }

  lemma NothingStrandedIsAtRest(r: Replica, files: Listing, names: set<Path>)
    requires Tracks(r, files, names)
    requires forall p :: p in r.rows ==> !Stranded(r.rows[p])
    ensures AtRest(r, files)
    ensures forall p :: p in names && p !in files ==> !r.OnDisk(p)
  {
    forall p | p in files ensures r.rows[p].status == Synced { assert Settled(r, p, files[p]); }
    forall p | p in files ensures r.OnDisk(p) && r.disk[r.Key(p)] == files[p].bytes { assert Settled(r, p, files[p]); }
  }
}
