/**
 How each server event is answered: exactly when it is refused, when it comes to a download and when
 that is still owed, and what row, file and conflict copy it leaves, told from the folder, the table
 and the outcomes alone.
 */
module Answers {
  import opened Types
  import opened Replica
  import opened Effects

  /** The tracked row of a path: its own, or else on a folding volume the case variant found. */
  lemma LookupAnswer(r: Replica, p: Path, pick: Path)
    ensures p in r.rows ==> r.Lookup(p, pick) == Some(p)
    ensures p !in r.rows ==>
              r.Lookup(p, pick) == if r.folds && pick in r.rows && Fold(pick) == Fold(p) then Some(pick) else None
  {
  }

  predicate Variant(r: Replica, p: Path, f: Faults) { r.Lookup(p, f.pick).Some? && r.Lookup(p, f.pick) != Some(p) }

  /** The bytes on disk may be unlinked: they are what the server is known to hold. */
  predicate Uncontested(r: Replica, p: Path, f: Faults)
    requires r.OnDisk(p)
  {
    var tracked := r.Lookup(p, f.pick);
    tracked.Some? && r.rows[tracked.value].server == Some(r.disk[r.Key(p)])
  }

  // --- Refusals ---

  /** A removal that has to be refused: the file cannot be hashed, or not be got out of the way. */
  predicate RemovalBarred(r: Replica, p: Path, f: Faults) {
    r.OnDisk(p) && (!f.hashable || (if Uncontested(r, p, f) then !f.deletable else !f.stashable))
  }

  /** An incoming file that has to be: it is tracked under another casing and cannot be renamed. */
  predicate ArrivalBarred(r: Replica, p: Path, f: Faults) { Variant(r, p, f) && r.OnDisk(p) && !f.recase.Recased? }

  /** What a rename moves with its row, for it is what the event announces. */
  predicate RelocationFits(r: Replica, from: Path, c: Content, f: Faults) {
    var tracked := r.Lookup(from, f.source);
    r.OnDisk(from) && f.movable && tracked.Some? && r.rows[tracked.value].server == Some(c)
  }

  /** Else the folder once the old name is cleared: the file moved if it can be, or unlinked if it can. */
  function Cleared(r: Replica, from: Path, p: Path, f: Faults): Replica {
    var tracked, s, d := r.Lookup(from, f.source), r.Key(from), r.Key(p);
    r.(rows := r.rows - {if tracked.Some? then tracked.value else from},
       disk := if s in r.disk && f.movable then
                 if s != d then (r.disk - {s})[d := r.disk[s]] else if f.deletable then r.disk - {s} else r.disk
               else if f.deletable then r.disk - {s} else r.disk)
  }

  predicate Barred(r: Replica, e: Change, f: Faults) {
    match e
    case Added(p, _, _) => ArrivalBarred(r, p, f)
    case Replaced(p, _, _) => ArrivalBarred(r, p, f)
    case Removed(p) => RemovalBarred(r, p, f)
    case Renamed(from, p, _, c) => !RelocationFits(r, from, c, f) && ArrivalBarred(Cleared(r, from, p, f), p, f)
  }

  /** The row says that the content is there already; one of another casing, only if a file is. */
  predicate Present(r: Replica, p: Path, c: Content, f: Faults) {
    var tracked := r.Lookup(p, f.pick);
    tracked.Some? && r.rows[tracked.value].local == Some(c) && (tracked == Some(p) || r.OnDisk(p))
  }

  predicate NeedsDownload(r: Replica, e: Change, f: Faults) {
    && !Barred(r, e, f)
    && (match e
        case Added(p, _, c) => !Present(r, p, c, f)
        case Replaced(p, _, c) => !Present(r, p, c, f)
        case Removed(_) => false
        case Renamed(from, p, _, c) => !RelocationFits(r, from, c, f) && !Present(Cleared(r, from, p, f), p, c, f))
  }

  // --- Removals ---

  /** A removal is refused, with nothing changed, exactly when it is barred. Otherwise the tracked row
      and the file are gone, and a file that was not the server's is the newest conflict copy. */
  lemma RemovalAnswer(r: Replica, p: Path, f: Faults)
    ensures var h := Delete(r, p, f);
            && h.outcome == (if RemovalBarred(r, p, f) then Refused else Applied(false))
            && (RemovalBarred(r, p, f) ==> h.rep == r)
            && (!RemovalBarred(r, p, f) ==>
                  var tracked := r.Lookup(p, f.pick);
                  h.rep == r.(rows := r.rows - {if tracked.Some? then tracked.value else p},
                              disk := r.disk - {r.Key(p)},
                              copies := if r.OnDisk(p) && !Uncontested(r, p, f)
                                        then r.copies + [Copy(p, r.disk[r.Key(p)])] else r.copies))
  {
  }

  // --- Incoming files ---

  /** The file in the way is moved aside: it is neither what comes nor what the client knows to be synced. */
  predicate MovesAside(r: Replica, p: Path, c: Content, known: Option<Content>, f: Faults) {
    && r.OnDisk(p) && f.stashable
    && !(f.hashable && (r.disk[r.Key(p)] == c || known == Some(r.disk[r.Key(p)])))
  }

  lemma CopyAnswer(r: Replica, p: Path, c: Content, known: Option<Content>, f: Faults)
    ensures SaveCopy(r, p, c, known, f)
            == if MovesAside(r, p, c, known, f)
               then r.(disk := r.disk - {r.Key(p)}, copies := r.copies + [Copy(p, r.disk[r.Key(p)])]) else r
  {
  }

  /** The row an incoming file leaves: its own id, content and number; the old local checksum only as
      long as nothing has come, and only where the handler keeps it. */
  function ArrivedRow(r: Replica, p: Path, id: FileId, c: Content, n: nat, keepLocal: bool, f: Faults): Row {
    var tracked := r.Lookup(p, f.pick);
    var prior := if tracked.Some? then r.rows[tracked.value] else BLANK;
    if Present(r, p, c, f) then
      Row(Some(id), Some(c), Some(c), n, if tracked == Some(p) then prior.status else Synced)
    else if f.fetched then Row(Some(id), Some(c), Some(c), n, Synced)
    else Row(Some(id), if keepLocal || Variant(r, p, f) then prior.local else None, Some(c), n, Error)
  }

  predicate ArrivalLeaves(r: Replica, t: Replica, p: Path, id: FileId, c: Content, n: nat,
                          known: Option<Content>, keepLocal: bool, f: Faults)
  {
    var tracked := r.Lookup(p, f.pick);
    var knows := if known.Some? && !Variant(r, p, f) then known
                 else if tracked.Some? then r.rows[tracked.value].server else None;
    var fetches := !Present(r, p, c, f);
    var aside := fetches && MovesAside(r, p, c, knows, f);
    && t.folds == r.folds && t.ever == r.ever
    && t.rows == (r.rows - (if Variant(r, p, f) then {tracked.value} else {}))
                   [p := ArrivedRow(r, p, id, c, n, keepLocal, f)]
    && t.copies == (if aside then r.copies + [Copy(p, r.disk[r.Key(p)])] else r.copies)
    && t.disk == (if fetches && f.fetched then r.disk[r.Key(p) := c]
                  else if aside then r.disk - {r.Key(p)} else r.disk)
  }

  /** An incoming file is refused exactly when it is barred, deferred exactly when it needs a download
      that fails, and otherwise leaves just that row, file and copy. */
  lemma ArrivalAnswer(r: Replica, p: Path, id: FileId, c: Content, n: nat,
                      known: Option<Content>, keepLocal: bool, f: Faults)
    ensures var h := Incoming(r, p, id, c, n, known, keepLocal, f);
            if ArrivalBarred(r, p, f) then
              h.outcome == Refused && h.rep == (if f.recase.Adrift? then r.(disk := r.disk - {r.Key(p)}) else r)
            else
              && h.outcome == (if Present(r, p, c, f) then Applied(false)
                               else if f.fetched then Applied(true) else Deferred)
              && ArrivalLeaves(r, h.rep, p, id, c, n, known, keepLocal, f)
  {
    hide CaseReconcile;
    if Variant(r, p, f) {
      VariantAnswer(r, r.Lookup(p, f.pick).value, p, id, c, n, f);
    } else {
      if Present(r, p, c, f) { PresentAnswer(r, p, id, c, n, known, keepLocal, f); }
      else { FetchAnswer(r, p, id, c, n, known, keepLocal, f); }
    }
  }

  lemma VariantAnswer(r: Replica, q: Path, p: Path, id: FileId, c: Content, n: nat, f: Faults)
    requires r.Lookup(p, f.pick) == Some(q) && q != p
    ensures var h := CaseReconcile(r, q, p, id, c, n, f);
            if ArrivalBarred(r, p, f) then
              h.outcome == Refused && h.rep == (if f.recase.Adrift? then r.(disk := r.disk - {r.Key(p)}) else r)
            else
              && h.outcome == (if Present(r, p, c, f) then Applied(false)
                               else if f.fetched then Applied(true) else Deferred)
              && ArrivalLeaves(r, h.rep, p, id, c, n, None, false, f)
  {
    assert r.Key(q) == r.Key(p);
    var t := CaseReconcile(r, q, p, id, c, n, f).rep;
    if !ArrivalBarred(r, p, f) {
      assert t.rows == (r.rows - {q})[p := ArrivedRow(r, p, id, c, n, false, f)];
      if !Present(r, p, c, f) && f.fetched { assert t.disk == r.disk[r.Key(p) := c]; }
    }
  }

  /** A row that is written and then downloaded for. */
  lemma PutThenFetch(r: Replica, p: Path, row: Row, c: Content, fetched: bool)
    ensures Transfer(r.Upsert(p, row), p, c, fetched)
            == Handled(if fetched then r.(rows := r.rows[p := row.(local := Some(c), status := Synced)],
                                          disk := r.disk[r.Key(p) := c])
                       else r.(rows := r.rows[p := row.(status := Error)]),
                       if fetched then Applied(true) else Deferred)
  {
    assert r.rows[p := row][p := row.(local := Some(c), status := Synced)]
           == r.rows[p := row.(local := Some(c), status := Synced)];
    assert r.rows[p := row][p := row.(status := Error)] == r.rows[p := row.(status := Error)];
  }

  lemma PresentAnswer(r: Replica, p: Path, id: FileId, c: Content, n: nat,
                      known: Option<Content>, keepLocal: bool, f: Faults)
    requires !Variant(r, p, f) && Present(r, p, c, f)
    ensures var h := Incoming(r, p, id, c, n, known, keepLocal, f);
            h.outcome == Applied(false) && ArrivalLeaves(r, h.rep, p, id, c, n, known, keepLocal, f)
  {
    hide SaveCopy, CaseReconcile, Transfer, MovesAside;
    assert r.rows - {} == r.rows;
    var t := Incoming(r, p, id, c, n, known, keepLocal, f).rep;
    assert t.rows == r.rows[p := ArrivedRow(r, p, id, c, n, keepLocal, f)];
  }

  lemma FetchAnswer(r: Replica, p: Path, id: FileId, c: Content, n: nat,
                    known: Option<Content>, keepLocal: bool, f: Faults)
    requires !Variant(r, p, f) && !Present(r, p, c, f)
    ensures var h := Incoming(r, p, id, c, n, known, keepLocal, f);
            && h.outcome == (if f.fetched then Applied(true) else Deferred)
            && ArrivalLeaves(r, h.rep, p, id, c, n, known, keepLocal, f)
  {
    hide SaveCopy, CaseReconcile, Transfer, MovesAside;
    var tracked := r.Lookup(p, f.pick);
    var knows := if known.Some? then known else if tracked.Some? then r.rows[tracked.value].server else None;
    var prior := if tracked.Some? then r.rows[tracked.value] else BLANK;
    var row := Row(Some(id), if keepLocal then prior.local else None, Some(c), n, PendingDownload);
    assert Incoming(r, p, id, c, n, known, keepLocal, f)
           == Transfer(SaveCopy(r, p, c, knows, f).Upsert(p, row), p, c, f.fetched);
    hide Incoming;
    CopyAnswer(r, p, c, knows, f);
    PutThenFetch(SaveCopy(r, p, c, knows, f), p, row, c, f.fetched);
    assert r.rows - {} == r.rows;
    assert (r.disk - {r.Key(p)})[r.Key(p) := c] == r.disk[r.Key(p) := c];
  }

  // --- Renames ---

  /** A rename relocates file and row exactly when that fits, keeping an edit that waits for its upload;
      otherwise it clears the old name and brings the file in. */
  lemma RenameAnswer(r: Replica, from: Path, p: Path, id: FileId, c: Content, n: nat, f: Faults)
    ensures var h, tracked := Rename(r, from, p, id, c, n, f), r.Lookup(from, f.source);
            if RelocationFits(r, from, c, f) then
              var prior := r.rows[tracked.value];
              var edited := prior.local.Some? && prior.local != prior.server;
              && h.outcome == Applied(false)
              && h.rep == r.(disk := (r.disk - {r.Key(from)})[r.Key(p) := r.disk[r.Key(from)]],
                             rows := (r.rows - {tracked.value})
                                       [p := Row(Some(id), if edited then prior.local else Some(c), Some(c), n,
                                                 if edited then PendingUpload else Synced)])
            else
              var known := if (r.OnDisk(from) && !f.movable) || tracked.None? then None
                           else r.rows[tracked.value].server;
              h == Incoming(Cleared(r, from, p, f), p, id, c, n, known, false, f)
  {
    hide Incoming;
    if !RelocationFits(r, from, c, f) {
      FallbackIsIncoming(r, from, p, id, c, n, f);
      VacatedDisk(r, from, p, f);
      VacatedRows(r, from, p, f);
      assert Vacated(r, from, p, f) == Cleared(r, from, p, f);
    }
  }

  // --- Events ---

  /** For every folder, table, event and outcome of what can fail: the event is refused exactly when it is
      barred, deferred exactly when it needs a download that fails, and applied otherwise. */
  lemma EventAnswer(r: Replica, e: Change, n: nat, f: Faults)
    ensures var o := Apply(r, e, n, f).outcome;
            && (o == Refused <==> Barred(Announce(r, e), e, f))
            && (o == Deferred <==> NeedsDownload(Announce(r, e), e, f) && !f.fetched)
            && (o == Applied(true) <==> NeedsDownload(Announce(r, e), e, f) && f.fetched)
  {
    hide Incoming, Delete, Rename, Cleared;
    var a := Announce(r, e);
    match e
    case Added(p, id, c) => ArrivalAnswer(a, p, id, c, n, None, false, f);
    case Replaced(p, id, c) => ArrivalAnswer(a, p, id, c, n, None, true, f);
    case Removed(p) => RemovalAnswer(a, p, f);
    case Renamed(from, p, id, c) =>
      RenameAnswer(a, from, p, id, c, n, f);
      if !RelocationFits(a, from, c, f) {
        var tracked := a.Lookup(from, f.source);
        var known := if (a.OnDisk(from) && !f.movable) || tracked.None? then None else a.rows[tracked.value].server;
        ArrivalAnswer(Cleared(a, from, p, f), p, id, c, n, known, false, f);
      }
  }

  /** In particular another device's delete never overrides an edit, nor is it put off by one: where the
      file can be hashed and moved, the edit becomes a conflict copy and the row goes. */
  lemma RemovalKeepsEdit(r: Replica, p: Path, n: nat, f: Faults)
    requires r.OnDisk(p) && f.hashable && f.stashable && !Uncontested(r, p, f)
    ensures var h := Apply(r, Removed(p), n, f);
            && h.outcome == Applied(false) && p !in h.rep.rows && !h.rep.OnDisk(p)
            && h.rep.copies == r.copies + [Copy(p, r.disk[r.Key(p)])]
  {
    RemovalAnswer(r, p, f);
    EventAnswer(r, Removed(p), n, f);
  }

  // --- Sweeps and listings ---

  /** A sweep's turn, from its snapshot: passed over, or settled by the file that is there, or fetched. */
  lemma TurnAnswer(r: Replica, p: Path, snap: Row, t: Turn)
    ensures var u := SweepRow(r, p, snap, t);
            if t.passed || snap.fileId.None? || snap.server.None? then u == r
            else
              var c, prior := snap.server.value, if p in r.rows then r.rows[p] else BLANK;
              if r.OnDisk(p) && t.probed && r.disk[r.Key(p)] == c then
                u == r.(rows := r.rows[p := Row(snap.fileId, Some(c), Some(c), prior.at, Synced)])
              else
                var aside := MovesAside(r, p, c, None, t.faults);
                && u.folds == r.folds && u.ever == r.ever
                && u.copies == (if aside then r.copies + [Copy(p, r.disk[r.Key(p)])] else r.copies)
                && u.disk == (if t.faults.fetched then r.disk[r.Key(p) := c]
                              else if aside then r.disk - {r.Key(p)} else r.disk)
                && (p in u.rows <==> t.faults.fetched || p in r.rows)
                && (forall q :: q in u.rows && q != p ==> q in r.rows && u.rows[q] == r.rows[q])
                && (forall q :: q in r.rows ==> q in u.rows)
                && (p in u.rows ==>
                      u.rows[p] == if t.faults.fetched then prior.(local := Some(c), status := Synced)
                                   else prior.(status := Error))
    ensures Lands(r, p, snap, t) <==>
              && !t.passed && snap.fileId.Some? && snap.server.Some?
              && (t.faults.fetched || (r.OnDisk(p) && t.probed && Some(r.disk[r.Key(p)]) == snap.server))
  {
    if !(t.passed || snap.fileId.None? || snap.server.None?) {
      var u := SweepRow(r, p, snap, t);
      if t.faults.fetched && !(r.OnDisk(p) && t.probed && Some(r.disk[r.Key(p)]) == snap.server) {
        assert u.disk == r.disk[r.Key(p) := snap.server.value];
      }
    }
  }

  /** A listed file: taken as it is if its earlier hash is the listed one, else copied aside if it had one,
      and fetched. */
  lemma ListingAnswer(r: Replica, p: Path, id: FileId, c: Content, n: nat, pre: Option<Content>, f: Faults)
    ensures var u := InitialFile(r, p, id, c, n, pre, f);
            && u.folds == r.folds && u.ever == r.ever + {c}
            && (if pre == Some(c) then
                  u.disk == r.disk && u.copies == r.copies
                  && u.rows == r.rows[p := Row(Some(id), Some(c), Some(c), n, Synced)]
                else
                  var aside := pre.Some? && MovesAside(r, p, c, None, f);
                  && u.copies == (if aside then r.copies + [Copy(p, r.disk[r.Key(p)])] else r.copies)
                  && u.disk == (if f.fetched then r.disk[r.Key(p) := c]
                                else if aside then r.disk - {r.Key(p)} else r.disk)
                  && u.rows == r.rows[p := Row(Some(id), if f.fetched then Some(c) else None, Some(c), n,
                                               if f.fetched then Synced else Error)])
  {
    var u := InitialFile(r, p, id, c, n, pre, f);
    if pre != Some(c) {
      assert u.rows == r.rows[p := Row(Some(id), if f.fetched then Some(c) else None, Some(c), n,
                                       if f.fetched then Synced else Error)];
      if f.fetched { assert u.disk == r.disk[r.Key(p) := c]; }
    }
  }
}
