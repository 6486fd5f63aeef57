/**
 What every handler keeps: rows never claim to be synced when they are not, a row's server
 checksum is content the server really held, and no local bytes are lost. Where the code
 does lose bytes, the exact condition is stated instead.
 */
module Safety {
  import opened Types
  import opened Replica
  import opened Effects

  // --- Rows ---

  /** A synced row's two checksums agree, so different disk bytes show at the next rescan. */
  ghost predicate Honest(rows: map<Path, Row>) {
    forall p :: p in rows && rows[p].status == Synced ==> rows[p].local == rows[p].server
  }

  ghost predicate ServerHeld(rows: map<Path, Row>, ever: set<Content>) {
    forall p :: p in rows && rows[p].server.Some? ==> rows[p].server.value in ever
  }

  /** Conflict copies and server history only accumulate. */
  ghost predicate Grows(r: Replica, t: Replica) {
    r.folds == t.folds && r.copies <= t.copies && r.ever <= t.ever
  }

  /** Honesty and server-held checksums each survive from `r` to `t`. */
  ghost predicate KeepsRows(r: Replica, t: Replica) {
    && Grows(r, t)
    && (Honest(r.rows) ==> Honest(t.rows))
    && (ServerHeld(r.rows, r.ever) ==> ServerHeld(t.rows, t.ever))
  }

  lemma SaveCopyKeepsRows(r: Replica, p: Path, c: Content, known: Option<Content>, f: Faults)
    ensures var t := SaveCopy(r, p, c, known, f); t.rows == r.rows && t.ever == r.ever && Grows(r, t)
  {
  }

  /** Writing one good row over rows kept so far. */
  lemma UpsertKeepsRows(r: Replica, t: Replica, p: Path, row: Row)
    requires KeepsRows(r, t) && (row.status == Synced ==> row.local == row.server)
    requires row.server.Some? ==> row.server.value in t.ever
    ensures KeepsRows(r, t.Upsert(p, row))
  {
  }

  lemma KeepsRowsChain(r: Replica, t: Replica, u: Replica)
    requires KeepsRows(r, t) && KeepsRows(t, u)
    ensures KeepsRows(r, u)
  {
    hide Honest, ServerHeld;
  }

  /** A transfer ends honestly because the row already names what it fetches. */
  lemma TransferKeepsRows(r: Replica, p: Path, c: Content, fetched: bool)
    requires p in r.rows && r.rows[p].server == Some(c)
    ensures KeepsRows(r, Transfer(r, p, c, fetched).rep)
  {
  }

  lemma CaseReconcileKeepsRows(r: Replica, q: Path, p: Path, id: FileId, c: Content, n: nat, f: Faults)
    requires c in r.ever && q in r.rows
    ensures KeepsRows(r, CaseReconcile(r, q, p, id, c, n, f).rep)
  {
    var row := r.rows[q];
    var same := row.local == Some(c) && r.OnDisk(p);
    var moved := r.MoveRow(q, p, row.(fileId := Some(id), server := Some(c), at := n,
                                      status := if same then Synced else PendingDownload));
    if !(r.OnDisk(q) && !f.recase.Recased?) {
      assert KeepsRows(r, r.Remove(q));
      UpsertKeepsRows(r, r.Remove(q), p, moved.rows[p]);
      SaveCopyKeepsRows(moved, p, c, row.server, f);
      var saved := SaveCopy(moved, p, c, row.server, f);
      hide SaveCopy, Transfer, Honest, ServerHeld;
      if !same {
        TransferKeepsRows(saved, p, c, f.fetched);
        KeepsRowsChain(r, saved, Transfer(saved, p, c, f.fetched).rep);
      }
    }
  }

  lemma IncomingKeepsRows(r: Replica, p: Path, id: FileId, c: Content, n: nat,
                          known: Option<Content>, keepLocal: bool, f: Faults)
    requires c in r.ever
    ensures KeepsRows(r, Incoming(r, p, id, c, n, known, keepLocal, f).rep)
  {
    hide CaseReconcile, SaveCopy, Transfer;
    var existing := r.Lookup(p, f.pick);
    if existing.Some? && existing.value != p {
      CaseReconcileKeepsRows(r, existing.value, p, id, c, n, f);
    } else if r.LocalOf(existing) != Some(c) {
      var knows := if known.Some? then known else r.ServerOf(existing);
      SaveCopyKeepsRows(r, p, c, knows, f);
      var local := if keepLocal then r.LocalOf(existing) else None;
      var saved, row := SaveCopy(r, p, c, knows, f), Row(Some(id), local, Some(c), n, PendingDownload);
      QueuedKeepsRows(r, saved, p, row, c, f.fetched);
    } else {
      UpsertKeepsRows(r, r, p, r.rows[p].(at := n, server := Some(c), fileId := Some(id)));
    }
  }

  /** A download queued after the conflict check. */
  lemma QueuedKeepsRows(r: Replica, saved: Replica, p: Path, row: Row, c: Content, fetched: bool)
    requires saved.rows == r.rows && saved.ever == r.ever && Grows(r, saved)
    requires c in r.ever && row.server == Some(c) && row.status == PendingDownload
    ensures KeepsRows(r, Transfer(saved.Upsert(p, row), p, c, fetched).rep)
  {
    assert KeepsRows(r, saved);
    UpsertKeepsRows(r, saved, p, row);
    TransferKeepsRows(saved.Upsert(p, row), p, c, fetched);
    hide Transfer, Honest, ServerHeld;
    KeepsRowsChain(r, saved.Upsert(p, row), Transfer(saved.Upsert(p, row), p, c, fetched).rep);
  }

  lemma RenameKeepsRows(r: Replica, from: Path, p: Path, id: FileId, c: Content, n: nat, f: Faults)
    requires c in r.ever
    ensures KeepsRows(r, Rename(r, from, p, id, c, n, f).rep)
  {
    if !Relocates(r, from, c, f) {
      var synced := if r.OnDisk(from) && !f.movable then None else r.ServerOf(r.Lookup(from, f.source));
      var quiet := Vacated(r, from, p, f);
      assert KeepsRows(r, quiet);
      IncomingKeepsRows(quiet, p, id, c, n, synced, false, f);
    }
  }

  /** Every server event, with any faults, leaves honest rows naming server-held content. */
  lemma ApplyKeepsRows(r: Replica, e: Change, n: nat, f: Faults)
    ensures KeepsRows(r, Apply(r, e, n, f).rep)
  {
    hide Incoming, Rename;
    var a := Announce(r, e);
    assert KeepsRows(r, a);
    match e
    case Added(p, id, c) => IncomingKeepsRows(a, p, id, c, n, None, false, f);
    case Replaced(p, id, c) => IncomingKeepsRows(a, p, id, c, n, None, true, f);
    case Removed(p) =>
    case Renamed(from, p, id, c) => RenameKeepsRows(a, from, p, id, c, n, f);
  }

  lemma InitialFileKeepsRows(r: Replica, p: Path, id: FileId, c: Content, n: nat, pre: Option<Content>, f: Faults)
    ensures KeepsRows(r, InitialFile(r, p, id, c, n, pre, f))
  {
    hide SaveCopy, Transfer;
    var a := r.(ever := r.ever + {c});
    assert KeepsRows(r, a);
    if pre == Some(c) {
      UpsertKeepsRows(r, a, p, Row(Some(id), pre, Some(c), n, Synced));
    } else {
      SaveCopyKeepsRows(a, p, c, None, f);
      var saved := if pre.Some? then SaveCopy(a, p, c, None, f) else a;
      var row := Row(Some(id), None, Some(c), n, PendingDownload);
      QueuedKeepsRows(a, saved, p, row, c, f.fetched);
      DownloadIsTransfer(saved.Upsert(p, row), p, c, f.fetched);
      hide Honest, ServerHeld, Download;
      KeepsRowsChain(r, a, InitialFile(r, p, id, c, n, pre, f));
    }
  }

  lemma DownloadIsTransfer(r: Replica, p: Path, c: Content, fetched: bool)
    ensures Transfer(r, p, c, fetched).rep == Download(r, p, c, fetched)
  {
  }

  /** The turn meets a row that still names what its snapshot named, lands nothing, or finds the
      snapshot's content on disk. */
  predicate UpToDate(r: Replica, p: Path, snap: Row, t: Turn) {
    || !Lands(r, p, snap, t)
    || (p in r.rows && r.rows[p].server == snap.server)
    || (r.OnDisk(p) && t.probed && Some(r.disk[r.Key(p)]) == snap.server)
  }

  /** A sweep's turn, from however old a snapshot, leaves honest rows exactly when it is up to date. */
  lemma SweepRowHonesty(r: Replica, p: Path, snap: Row, t: Turn)
    requires Honest(r.rows)
    ensures Honest(SweepRow(r, p, snap, t).rows) <==> UpToDate(r, p, snap, t)
  {
    var u := SweepRow(r, p, snap, t);
    forall q | q in u.rows && q != p ensures q in r.rows && u.rows[q] == r.rows[q] {}
    if Lands(r, p, snap, t) {
      assert u.rows[p].status == Synced && u.rows[p].local == snap.server;
    }
  }

  /** However old its snapshot, the turn leaves server checksums that the server has held. */
  lemma SweepRowHeld(r: Replica, p: Path, snap: Row, t: Turn)
    requires ServerHeld(r.rows, r.ever) && (snap.server.Some? ==> snap.server.value in r.ever)
    ensures var u := SweepRow(r, p, snap, t); ServerHeld(u.rows, u.ever) && Grows(r, u) && u.ever == r.ever
  {
    var u := SweepRow(r, p, snap, t);
    SaveCopyKeepsRows(r, p, if snap.server.Some? then snap.server.value else 0, None, t.faults);
    hide SaveCopy, ServerHeld;
    assert forall q :: q in u.rows && q != p ==> q in r.rows && u.rows[q] == r.rows[q];
    assert p in u.rows && u.rows[p].server.Some? ==> u.rows[p].server.value in r.ever by {
      SweptRowServer(r, p, snap, t);
    }
    ServerHeldPointwise(r, u, p);
  }

  lemma SweptRowServer(r: Replica, p: Path, snap: Row, t: Turn)
    requires ServerHeld(r.rows, r.ever) && (snap.server.Some? ==> snap.server.value in r.ever)
    ensures var u := SweepRow(r, p, snap, t); p in u.rows && u.rows[p].server.Some? ==> u.rows[p].server.value in r.ever
  {
  }

  lemma ServerHeldPointwise(r: Replica, u: Replica, p: Path)
    requires ServerHeld(r.rows, r.ever) && u.ever == r.ever
    requires forall q :: q in u.rows && q != p ==> q in r.rows && u.rows[q] == r.rows[q]
    requires p in u.rows && u.rows[p].server.Some? ==> u.rows[p].server.value in r.ever
    ensures ServerHeld(u.rows, u.ever)
  {
  }

  // --- Bytes ---

  ghost predicate Copied(r: Replica, c: Content) {
    exists i :: 0 <= i < |r.copies| && r.copies[i].bytes == c
  }

  /** The bytes are at their name, in a conflict copy, or the server has held them. */
  ghost predicate Safe(r: Replica, k: Path, c: Content) {
    (k in r.disk && r.disk[k] == c) || Copied(r, c) || c in r.ever
  }

  /** The bytes are somewhere other than at the name itself. */
  ghost predicate Backed(r: Replica, c: Content) { Copied(r, c) || c in r.ever }

  lemma BackedSurvives(r: Replica, t: Replica, c: Content)
    requires Grows(r, t) && Backed(r, c)
    ensures Backed(t, c)
  {
    if Copied(r, c) {
      var i :| 0 <= i < |r.copies| && r.copies[i].bytes == c;
      assert t.copies[i] == r.copies[i];
    }
  }

  lemma SaveCopyKeepsBytes(r: Replica, p: Path, c: Content, known: Option<Content>, f: Faults)
    requires r.OnDisk(p)
    ensures var t := SaveCopy(r, p, c, known, f);
            && (t.disk == r.disk || (t.disk == r.disk - {r.Key(p)} && Copied(t, r.disk[r.Key(p)])))
            && (t.disk == r.disk ==> t == r)
  {
    var t := SaveCopy(r, p, c, known, f);
    if t.disk != r.disk {
      assert t.copies[|r.copies|].bytes == r.disk[r.Key(p)];
    }
  }

  /** The ways an incoming file can lose the bytes at its name: the conflict rename fails and the
      download then lands on top (the code logs and lets it), or a case rename goes adrift. */
  ghost predicate Endangers(r: Replica, p: Path, c: Content, f: Faults) {
    var existing := r.Lookup(p, f.pick);
    var variant := existing.Some? && existing.value != p;
    && r.OnDisk(p)
    && (if variant && !f.recase.Recased? then f.recase.Adrift?
        else r.LocalOf(existing) != Some(c) && !f.stashable && f.fetched)
  }

  /** `t` is `r` with at most one more conflict copy, of what lay at `p`; there it has the new content,
      what was there, or nothing, and elsewhere the same files. */
  ghost predicate LeavesAt(r: Replica, t: Replica, p: Path, c: Content) {
    && t.ever == r.ever && t.folds == r.folds
    && (t.copies == r.copies || (r.OnDisk(p) && t.copies == r.copies + [Copy(p, r.disk[r.Key(p)])]))
    && (t.OnDisk(p) ==> t.disk[t.Key(p)] == c || (r.OnDisk(p) && t.disk[t.Key(p)] == r.disk[r.Key(p)]))
    && (forall k :: k != r.Key(p) ==> (k in t.disk <==> k in r.disk))
    && (forall k :: k != r.Key(p) && k in r.disk ==> t.disk[k] == r.disk[k])
  }

  lemma SaveCopyLeaves(r: Replica, p: Path, c: Content, known: Option<Content>, f: Faults)
    ensures LeavesAt(r, SaveCopy(r, p, c, known, f), p, c)
  {
  }

  lemma TransferLeaves(r: Replica, t: Replica, p: Path, c: Content, fetched: bool)
    requires LeavesAt(r, t, p, c)
    ensures LeavesAt(r, Transfer(t, p, c, fetched).rep, p, c)
  {
  }

  lemma CaseReconcileLeaves(r: Replica, q: Path, p: Path, id: FileId, c: Content, n: nat, f: Faults)
    requires q in r.rows && r.Key(q) == r.Key(p)
    ensures LeavesAt(r, CaseReconcile(r, q, p, id, c, n, f).rep, p, c)
  {
    var row := r.rows[q];
    var same := row.local == Some(c) && r.OnDisk(p);
    if (!r.OnDisk(q) || f.recase.Recased?) && !same {
      var moved := r.MoveRow(q, p, row.(fileId := Some(id), server := Some(c), at := n, status := PendingDownload));
      SaveCopyLeaves(moved, p, c, row.server, f);
      var saved := SaveCopy(moved, p, c, row.server, f);
      assert LeavesAt(r, saved, p, c);
      hide SaveCopy;
      TransferLeaves(r, saved, p, c, f.fetched);
    }
  }

  lemma IncomingLeaves(r: Replica, p: Path, id: FileId, c: Content, n: nat,
                       known: Option<Content>, keepLocal: bool, f: Faults)
    ensures LeavesAt(r, Incoming(r, p, id, c, n, known, keepLocal, f).rep, p, c)
  {
    hide CaseReconcile, SaveCopy, Transfer;
    var existing := r.Lookup(p, f.pick);
    if existing.Some? && existing.value != p {
      CaseReconcileLeaves(r, existing.value, p, id, c, n, f);
    } else if r.LocalOf(existing) != Some(c) {
      var knows := if known.Some? then known else r.ServerOf(existing);
      SaveCopyLeaves(r, p, c, knows, f);
      var row := Row(Some(id), if keepLocal then r.LocalOf(existing) else None, Some(c), n, PendingDownload);
      TransferLeaves(r, SaveCopy(r, p, c, knows, f).Upsert(p, row), p, c, f.fetched);
    }
  }

  /** A conflict check and the download after it keep the bytes exactly when they are backed, the
      check makes or needs no copy, or nothing is fetched. */
  lemma CheckedDownloadBytes(r: Replica, p: Path, c: Content, known: Option<Content>, f: Faults, t: Replica)
    requires r.OnDisk(p) && c in r.ever && (known.Some? ==> known.value in r.ever)
    requires var saved := SaveCopy(r, p, c, known, f);
             && t.folds == r.folds && t.ever == saved.ever && t.copies == saved.copies
             && t.disk == (if f.fetched then saved.disk[r.Key(p) := c] else saved.disk)
    ensures Safe(t, r.Key(p), r.disk[r.Key(p)])
            <==> (Backed(r, r.disk[r.Key(p)]) || f.stashable || !f.fetched)
  {
    var b := r.disk[r.Key(p)];
    var saved := SaveCopy(r, p, c, known, f);
    SaveCopyKeepsBytes(r, p, c, known, f);
    if Backed(r, b) { BackedSurvives(r, t, b); }
    if Copied(saved, b) { BackedSurvives(saved, t, b); }
    if saved == r {
      assert Copied(t, b) ==> Copied(r, b);
    }
  }

  lemma CaseReconcileKeepsBytes(r: Replica, q: Path, p: Path, id: FileId, c: Content, n: nat, f: Faults)
    requires q in r.rows && r.Key(q) == r.Key(p) && r.OnDisk(p) && c in r.ever
    requires ServerHeld(r.rows, r.ever)
    ensures Safe(CaseReconcile(r, q, p, id, c, n, f).rep, r.Key(p), r.disk[r.Key(p)])
            <==> (Backed(r, r.disk[r.Key(p)])
                  || (if !f.recase.Recased? then f.recase.Kept?
                      else r.rows[q].local == Some(c) || f.stashable || !f.fetched))
  {
    var b := r.disk[r.Key(p)];
    var t := CaseReconcile(r, q, p, id, c, n, f).rep;
    var row := r.rows[q];
    if !f.recase.Recased? || row.local == Some(c) {
      assert t.copies == r.copies && t.ever == r.ever;
      assert Backed(t, b) <==> Backed(r, b);
    } else {
      var moved := r.MoveRow(q, p, row.(fileId := Some(id), server := Some(c), at := n, status := PendingDownload));
      assert Backed(moved, b) <==> Backed(r, b);
      CheckedDownloadBytes(moved, p, c, row.server, f, t);
    }
  }

  /** An incoming file keeps the bytes at its name exactly when they are backed elsewhere or it
      does not endanger them. */
  lemma IncomingKeepsBytes(r: Replica, p: Path, id: FileId, c: Content, n: nat,
                           known: Option<Content>, keepLocal: bool, f: Faults)
    requires ServerHeld(r.rows, r.ever) && c in r.ever && (known.Some? ==> known.value in r.ever)
    requires r.OnDisk(p)
    ensures Safe(Incoming(r, p, id, c, n, known, keepLocal, f).rep, r.Key(p), r.disk[r.Key(p)])
            <==> (!Endangers(r, p, c, f) || Backed(r, r.disk[r.Key(p)]))
  {
    var existing := r.Lookup(p, f.pick);
    var t := Incoming(r, p, id, c, n, known, keepLocal, f).rep;
    if existing.Some? && existing.value != p {
      CaseReconcileKeepsBytes(r, existing.value, p, id, c, n, f);
    } else if r.LocalOf(existing) != Some(c) {
      CheckedDownloadBytes(r, p, c, if known.Some? then known else r.ServerOf(existing), f, t);
    }
  }

  /** Concretely: the file is locally edited and tracked under another casing. The case rename
      works, the longer conflict name does not, and the download lands on the edit; or the case
      rename goes adrift. */
  lemma CaseVariantDestroysBytes()
    ensures var r := Replica(true, map["a" := 8], map["a" := Row(Some(1), Some(3), Some(3), 1, Synced)], [], {3});
            var t := Apply(r, Added("A", 1, 4), 2, Faults(true, true, Recased, false, true, true, "a", "")).rep;
            t.disk == map["a" := 4] && !Safe(t, "a", 8)
    ensures var r := Replica(true, map["a" := 8], map["a" := Row(Some(1), Some(3), Some(3), 1, Synced)], [], {3});
            var h := Apply(r, Replaced("A", 1, 4), 2, Faults(true, true, Adrift, true, true, true, "a", ""));
            h.outcome == Refused && h.rep.disk == map[] && !Safe(h.rep, "a", 8)
  {
    assert Fold("a") == "a" && Fold("A") == "a";
  }

  /** A server delete loses nothing, whatever fails: it unlinks only bytes the server had. */
  lemma DeleteKeepsBytes(r: Replica, p: Path, f: Faults, k: Path)
    requires ServerHeld(r.rows, r.ever) && k in r.disk
    ensures Safe(Delete(r, p, f).rep, k, r.disk[k])
  {
    var t := Delete(r, p, f).rep;
    if k == r.Key(p) && |t.copies| > |r.copies| {
      assert t.copies[|r.copies|].bytes == r.disk[k];
    }
  }

  /** A sweep's turn, by the same exact condition. */
  lemma SweepRowKeepsBytes(r: Replica, p: Path, snap: Row, t: Turn)
    requires r.OnDisk(p) && (snap.server.Some? ==> snap.server.value in r.ever)
    ensures Safe(SweepRow(r, p, snap, t), r.Key(p), r.disk[r.Key(p)])
            <==> (Backed(r, r.disk[r.Key(p)]) || !Lands(r, p, snap, t) || t.faults.stashable)
  {
    var b, u := r.disk[r.Key(p)], SweepRow(r, p, snap, t);
    if !t.passed && snap.fileId.Some? && snap.server.Some? && !(t.probed && b == snap.server.value) {
      CheckedDownloadBytes(r, p, snap.server.value, None, t.faults, u);
    }
  }

  /** Initial sync, by contrast, also overwrites a local file it has no hash of: one it could not
      hash, or that appeared after the hashing. */
  lemma InitialFileKeepsBytes(r: Replica, p: Path, id: FileId, c: Content, n: nat, pre: Option<Content>, f: Faults)
    requires r.OnDisk(p)
    ensures Safe(InitialFile(r, p, id, c, n, pre, f), r.Key(p), r.disk[r.Key(p)])
            <==> (Backed(r.(ever := r.ever + {c}), r.disk[r.Key(p)]) || !f.fetched || pre == Some(c)
                  || (pre.Some? && f.stashable))
  {
    var b := r.disk[r.Key(p)];
    var a := r.(ever := r.ever + {c});
    var u := InitialFile(r, p, id, c, n, pre, f);
    if pre.Some? && pre != Some(c) {
      CheckedDownloadBytes(a, p, c, None, f, u);
    } else {
      assert u.copies == a.copies && u.ever == a.ever;
      assert Backed(u, b) <==> Backed(a, b);
    }
  }

  /** Concretely: a local file that had no hash when the listing was read. */
  lemma InitialSyncDestroysUnhashable()
    ensures var r := Replica(false, map["a" := 7], map[], [], {});
            var t := InitialFile(r, "a", 1, 9, 1, None, Faults(true, true, Recased, true, true, true, "", ""));
            !Safe(t, "a", 7) && t.disk["a"] == 9 && t.copies == []
  {
  }

  // --- Server renames ---

  /** Where the file at `k` goes when the event relocates it. */
  function Follow(r: Replica, e: Change, f: Faults, k: Path): Path {
    if e.Renamed? && Moves(r, e.from, f) && k == r.Key(e.from) then r.Key(e.path) else k
  }

  /** Every byte on disk is still where the event leads it, copied aside, or server-held. */
  ghost predicate AllSafe(r: Replica, e: Change, f: Faults, t: Replica) {
    forall k :: k in r.disk ==> Safe(t, Follow(r, e, f, k), r.disk[k])
  }

  /** An incoming file moves what lies at its name to a conflict copy, unless that is backed. */
  ghost predicate Stashes(r: Replica, p: Path, c: Content, f: Faults) {
    var existing := r.Lookup(p, f.pick);
    var variant := existing.Some? && existing.value != p;
    && r.OnDisk(p) && (variant ==> f.recase.Recased?)
    && r.LocalOf(existing) != Some(c) && f.stashable
  }

  /** What a rename needs in order to lose nothing. The name a moved file lands on is free or holds
      backed bytes. If a fallback follows, its unchecked unlink finds bytes that are backed, or that
      also lie at the new name and are copied aside there; and its download endangers none. */
  ghost predicate Gentle(r: Replica, from: Path, p: Path, c: Content, f: Faults) {
    var s, d, quiet := r.Key(from), r.Key(p), Vacated(r, from, p, f);
    && (Moves(r, from, f) && d != s && d in r.disk ==> r.disk[d] == r.disk[s] || Backed(r, r.disk[d]))
    && (!Relocates(r, from, c, f) ==>
          && (s in r.disk && (if Moves(r, from, f) then d else s) !in quiet.disk ==>
                Backed(r, r.disk[s]) || (d in quiet.disk && quiet.disk[d] == r.disk[s] && Stashes(quiet, p, c, f)))
          && (d in quiet.disk && Endangers(quiet, p, c, f) ==> Backed(r, quiet.disk[d])))
  }

  /** Bytes that do not lie at the incoming name, or anywhere else under `k`, are safe only if they
      were backed before. */
  lemma IncomingSavesNothingElse(r: Replica, p: Path, id: FileId, c: Content, n: nat,
                                 known: Option<Content>, keepLocal: bool, f: Faults, k: Path, b: Content)
    requires c in r.ever && (r.OnDisk(p) ==> r.disk[r.Key(p)] != b) && (k == r.Key(p) || k !in r.disk)
    ensures Safe(Incoming(r, p, id, c, n, known, keepLocal, f).rep, k, b) <==> Backed(r, b)
  {
    var t := Incoming(r, p, id, c, n, known, keepLocal, f).rep;
    IncomingLeaves(r, p, id, c, n, known, keepLocal, f);
    hide Incoming;
    if Backed(r, b) { BackedSurvives(r, t, b); }
    if Copied(t, b) {
      var i :| 0 <= i < |t.copies| && t.copies[i].bytes == b;
      assert i < |r.copies|;
      assert r.copies[i].bytes == b;
    }
  }

  /** Bytes at the incoming name that the server never held end up in a copy exactly when it stashes. */
  lemma IncomingStash(r: Replica, p: Path, id: FileId, c: Content, n: nat,
                      known: Option<Content>, keepLocal: bool, f: Faults)
    requires ServerHeld(r.rows, r.ever) && c in r.ever && (known.Some? ==> known.value in r.ever)
    requires r.OnDisk(p) && !Backed(r, r.disk[r.Key(p)])
    ensures var t, b := Incoming(r, p, id, c, n, known, keepLocal, f).rep, r.disk[r.Key(p)];
            Backed(t, b) <==> Stashes(r, p, c, f)
  {
    var t, b := Incoming(r, p, id, c, n, known, keepLocal, f).rep, r.disk[r.Key(p)];
    var existing := r.Lookup(p, f.pick);
    if existing.Some? { assert r.ServerOf(existing) != Some(b); }
    if Stashes(r, p, c, f) {
      assert t.copies == r.copies + [Copy(p, b)];
      assert t.copies[|r.copies|].bytes == b;
    } else {
      assert t.copies == r.copies && t.ever == r.ever;
    }
  }

  lemma VacatedKeepsRows(r: Replica, from: Path, p: Path, f: Faults)
    requires ServerHeld(r.rows, r.ever)
    ensures var t := Vacated(r, from, p, f);
            ServerHeld(t.rows, t.ever) && t.folds == r.folds && t.copies == r.copies && t.ever == r.ever
    ensures forall b :: Backed(Vacated(r, from, p, f), b) <==> Backed(r, b)
  {
    var t := Vacated(r, from, p, f);
    assert t.copies == r.copies && t.ever == r.ever;
  }

  /** What happens to the bytes at the new name, and to those at names the rename does not concern. */
  lemma FallbackElsewhere(r: Replica, from: Path, p: Path, id: FileId, c: Content, n: nat, f: Faults,
                          synced: Option<Content>, quiet: Replica)
    requires ServerHeld(r.rows, r.ever) && c in r.ever && (synced.Some? ==> synced.value in r.ever)
    requires quiet == Vacated(r, from, p, f)
    ensures var t, s, d := Incoming(quiet, p, id, c, n, synced, false, f).rep, r.Key(from), r.Key(p);
            && (d in quiet.disk ==>
                  (Safe(t, d, quiet.disk[d]) <==> (!Endangers(quiet, p, c, f) || Backed(r, quiet.disk[d]))))
            && (forall k :: k in r.disk && k != s && k != d ==> Safe(t, k, r.disk[k]))
            && (s in quiet.disk && s != d ==> Safe(t, s, quiet.disk[s]))
  {
    VacatedKeepsRows(r, from, p, f);
    VacatedDisk(r, from, p, f);
    IncomingLeaves(quiet, p, id, c, n, synced, false, f);
    hide Vacated, Incoming, Endangers;
    if r.Key(p) in quiet.disk { IncomingKeepsBytes(quiet, p, id, c, n, synced, false, f); }
  }

  /** A rename that moves its file and then falls back: its bytes, and those it was moved onto. */
  lemma MovedFallbackBytes(r: Replica, from: Path, p: Path, id: FileId, c: Content, n: nat, f: Faults)
    requires ServerHeld(r.rows, r.ever) && c in r.ever && !Relocates(r, from, c, f) && Moves(r, from, f)
    ensures AllSafe(r, Renamed(from, p, id, c), f, Rename(r, from, p, id, c, n, f).rep)
            <==> Gentle(r, from, p, c, f)
  {
    var s, d, quiet := r.Key(from), r.Key(p), Vacated(r, from, p, f);
    var synced := r.ServerOf(r.Lookup(from, f.source));
    var t := Rename(r, from, p, id, c, n, f).rep;
    FallbackIsIncoming(r, from, p, id, c, n, f);
    VacatedKeepsRows(r, from, p, f);
    VacatedDisk(r, from, p, f);
    hide Vacated, Rename, Incoming, Endangers, Stashes, Safe, Backed;
    FallbackElsewhere(r, from, p, id, c, n, f, synced, quiet);
    if d !in quiet.disk { IncomingSavesNothingElse(quiet, p, id, c, n, synced, false, f, d, r.disk[s]); }
    if d != s && d in r.disk && r.disk[d] != r.disk[s] {
      IncomingSavesNothingElse(quiet, p, id, c, n, synced, false, f, d, r.disk[d]);
    }
  }

  /** A rename whose file stays put, missing or locked, and what the unlink then does to its bytes. */
  lemma UnmovedFallbackBytes(r: Replica, from: Path, p: Path, id: FileId, c: Content, n: nat, f: Faults)
    requires ServerHeld(r.rows, r.ever) && c in r.ever && !Moves(r, from, f)
    ensures AllSafe(r, Renamed(from, p, id, c), f, Rename(r, from, p, id, c, n, f).rep)
            <==> Gentle(r, from, p, c, f)
  {
    var s, d, quiet := r.Key(from), r.Key(p), Vacated(r, from, p, f);
    var synced := if r.OnDisk(from) && !f.movable then None else r.ServerOf(r.Lookup(from, f.source));
    var t := Rename(r, from, p, id, c, n, f).rep;
    FallbackIsIncoming(r, from, p, id, c, n, f);
    VacatedKeepsRows(r, from, p, f);
    VacatedDisk(r, from, p, f);
    hide Vacated, Rename, Incoming, Endangers, Stashes, Safe, Backed;
    FallbackElsewhere(r, from, p, id, c, n, f, synced, quiet);
    if s in r.disk && s !in quiet.disk { UnlinkedBytes(r, from, p, id, c, n, f, synced, quiet); }
  }

  lemma UnlinkedBytes(r: Replica, from: Path, p: Path, id: FileId, c: Content, n: nat, f: Faults,
                      synced: Option<Content>, quiet: Replica)
    requires ServerHeld(r.rows, r.ever) && c in r.ever && (synced.Some? ==> synced.value in r.ever)
    requires quiet == Vacated(r, from, p, f) && r.OnDisk(from) && r.Key(from) !in quiet.disk
    ensures var t := Incoming(quiet, p, id, c, n, synced, false, f).rep;
            var s, d, b := r.Key(from), r.Key(p), r.disk[r.Key(from)];
            Safe(t, s, b)
            <==> Backed(r, b) || (d in quiet.disk && quiet.disk[d] == b && Stashes(quiet, p, c, f))
  {
    var s, d, b := r.Key(from), r.Key(p), r.disk[r.Key(from)];
    var t := Incoming(quiet, p, id, c, n, synced, false, f).rep;
    VacatedKeepsRows(r, from, p, f);
    IncomingLeaves(quiet, p, id, c, n, synced, false, f);
    hide Vacated, Incoming, Stashes;
    if !(d in quiet.disk && quiet.disk[d] == b) {
      IncomingSavesNothingElse(quiet, p, id, c, n, synced, false, f, s, b);
    } else if Backed(quiet, b) {
      BackedSurvives(quiet, t, b);
    } else {
      IncomingStash(quiet, p, id, c, n, synced, false, f);
    }
  }

  /** A rename that also changes the content of a locally edited file loses the edit when the file
      moves but cannot then be copied aside. */
  lemma RenameOverwritesEdit()
    ensures var row := Row(Some(1), Some(8), Some(3), 1, PendingUpload);
            var r := Replica(false, map["a" := 8], map["a" := row], [], {3, 4});
            var t := Rename(r, "a", "b", 1, 4, 2, Faults(true, true, Recased, false, true, true, "", "")).rep;
            t.disk == map["b" := 4] && t.copies == [] && !Safe(t, "b", 8)
  {
  }

  /** Three more ways: onto an occupied name; an unchecked unlink after a move that failed; and a
      case-only rename that also changed content. */
  lemma RenameDestroysBytes()
    ensures var row := Row(Some(1), Some(3), Some(3), 1, Synced);
            var r := Replica(false, map["a" := 3, "b" := 8], map["a" := row], [], {3});
            var t := Rename(r, "a", "b", 1, 3, 2, Faults(true, true, Recased, true, true, true, "", "")).rep;
            t.disk == map["b" := 3] && !Safe(t, "b", 8)
    ensures var row := Row(Some(1), Some(3), Some(3), 1, Synced);
            var r := Replica(false, map["a" := 8], map["a" := row], [], {3});
            var t := Rename(r, "a", "b", 1, 3, 2, Faults(true, false, Recased, true, true, true, "", "")).rep;
            t.disk == map["b" := 3] && !Safe(t, "a", 8)
    ensures var row := Row(Some(1), Some(3), Some(3), 1, Synced);
            var r := Replica(true, map["a" := 8], map["a" := row], [], {3, 4});
            var t := Rename(r, "a", "A", 1, 4, 2, Faults(true, true, Recased, true, true, true, "", "")).rep;
            t.disk == map["a" := 4] && !Safe(t, "a", 8)
  {
    assert Fold("a") == "a" && Fold("A") == "a";
  }

  /** A server rename loses nothing exactly when it is gentle. */
  lemma RenameKeepsBytes(r: Replica, from: Path, p: Path, id: FileId, c: Content, n: nat, f: Faults)
    requires ServerHeld(r.rows, r.ever) && c in r.ever
    ensures AllSafe(r, Renamed(from, p, id, c), f, Rename(r, from, p, id, c, n, f).rep)
            <==> Gentle(r, from, p, c, f)
  {
    if !Moves(r, from, f) {
      UnmovedFallbackBytes(r, from, p, id, c, n, f);
    } else if !Relocates(r, from, c, f) {
      MovedFallbackBytes(r, from, p, id, c, n, f);
    } else {
      var t := Rename(r, from, p, id, c, n, f).rep;
      assert t.copies == r.copies && t.ever == r.ever;
      assert forall b :: Backed(t, b) <==> Backed(r, b);
      assert t.disk == (r.disk - {r.Key(from)})[r.Key(p) := r.disk[r.Key(from)]];
    }
  }

  /** When a server event loses no local bytes. */
  ghost predicate Careful(r: Replica, e: Change, f: Faults) {
    match e
    case Added(p, _, c) => Endangers(r, p, c, f) ==> Backed(r, r.disk[r.Key(p)])
    case Replaced(p, _, c) => Endangers(r, p, c, f) ==> Backed(r, r.disk[r.Key(p)])
    case Removed(_) => true
    case Renamed(from, p, _, c) => Gentle(r, from, p, c, f)
  }

  /** The event handlers lose no local bytes exactly when they are careful: for every table,
      disk, event and fault. */
  lemma ApplyKeepsBytes(r: Replica, e: Change, n: nat, f: Faults)
    requires ServerHeld(r.rows, r.ever)
    ensures AllSafe(r, e, f, Apply(r, e, n, f).rep) <==> Careful(Announce(r, e), e, f)
  {
    hide Incoming, Rename, Delete;
    var a := Announce(r, e);
    assert ServerHeld(a.rows, a.ever);
    var t := Apply(r, e, n, f).rep;
    match e
    case Added(p, id, c) => IncomingSafe(a, e, p, id, c, n, false, f);
    case Replaced(p, id, c) => IncomingSafe(a, e, p, id, c, n, true, f);
    case Removed(p) =>
      forall k | k in r.disk ensures Safe(t, k, r.disk[k]) { DeleteKeepsBytes(a, p, f, k); }
    case Renamed(from, p, id, c) =>
      RenameKeepsBytes(a, from, p, id, c, n, f);
      assert AllSafe(a, e, f, t) <==> AllSafe(r, e, f, t);
  }

  lemma IncomingSafe(r: Replica, e: Change, p: Path, id: FileId, c: Content, n: nat, keepLocal: bool, f: Faults)
    requires ServerHeld(r.rows, r.ever) && c in r.ever && !e.Renamed?
    ensures AllSafe(r, e, f, Incoming(r, p, id, c, n, None, keepLocal, f).rep)
            <==> (Endangers(r, p, c, f) ==> Backed(r, r.disk[r.Key(p)]))
  {
    var t := Incoming(r, p, id, c, n, None, keepLocal, f).rep;
    IncomingLeaves(r, p, id, c, n, None, keepLocal, f);
    hide Incoming;
    if r.OnDisk(p) {
      IncomingKeepsBytes(r, p, id, c, n, None, keepLocal, f);
      assert Follow(r, e, f, r.Key(p)) == r.Key(p);
    }
  }

  /** The server is known to have held what it announced. */
  lemma ApplyRemembers(r: Replica, e: Change, n: nat, f: Faults)
    ensures !e.Removed? ==> e.bytes in Apply(r, e, n, f).rep.ever
  {
    hide Incoming;
    var a := Announce(r, e);
    match e
    case Added(p, id, c) => IncomingLeaves(a, p, id, c, n, None, false, f);
    case Replaced(p, id, c) => IncomingLeaves(a, p, id, c, n, None, true, f);
    case Removed(p) =>
    case Renamed(from, p, id, c) =>
      if !Relocates(a, from, c, f) {
        FallbackIsIncoming(a, from, p, id, c, n, f);
        var synced := if a.OnDisk(from) && !f.movable then None else a.ServerOf(a.Lookup(from, f.source));
        IncomingLeaves(Vacated(a, from, p, f), p, id, c, n, synced, false, f);
      }
  }
}
