/**
 What local changes and uploads keep: they never touch the disk, and they record as the
 server's only content the server has received.
 */
module LocalSafety {
  import opened Types
  import opened Replica
  import opened Safety
  import opened World
  import S = Session

  /** Buffered deletes carry rows that named server-held content when they were buffered. */
  ghost predicate HeldBuffers(buffered: map<Path, Buffered>, ever: set<Content>) {
    forall q :: q in buffered && buffered[q].row.server.Some? ==> buffered[q].row.server.value in ever
  }

  /** Every server checksum the client holds is content the server has held. */
  ghost predicate Held(w: World) { ServerHeld(w.rep.rows, w.rep.ever) && HeldBuffers(w.buffered, w.rep.ever) }

  /** Rows and history change; files and conflict copies do not. */
  ghost predicate SameFiles(r: Replica, t: Replica) {
    t.folds == r.folds && t.disk == r.disk && t.copies == r.copies && r.ever <= t.ever
  }

  ghost predicate Keeps(w: World, t: World) {
    && (Held(w) ==> Held(t))
    && (Honest(w.rep.rows) ==> Honest(t.rep.rows))
    && SameFiles(w.rep, t.rep)
  }

  lemma StartUploadKeeps(w: World, p: Path, c: Content, existing: Option<Path>)
    requires existing.Some? ==> existing.value in w.rep.rows
    ensures Keeps(w, StartUpload(w, p, c, existing))
  {
  }

  lemma ExecuteDeleteKeeps(w: World, p: Path, snap: Buffered, fallback: bool, f: LocalFaults)
    ensures Keeps(w, ExecuteDelete(w, p, snap, fallback, f).world)
    ensures var d := ExecuteDelete(w, p, snap, fallback, f);
            d.world.buffered == w.buffered && d.world.uploads == w.uploads && d.world.ses == w.ses
  {
  }

  lemma LocalRenameKeeps(w: World, from: Path, p: Path, held: Buffered, c: Content, f: LocalFaults)
    requires held.row.server.Some? ==> held.row.server.value in w.rep.ever
    ensures Keeps(w, LocalRename(w, from, p, held, c, f))
  {
    if !f.renamed && !f.torn {
      var begun := w.(ses := S.BeginRename(w.ses));
      var g := f.(pick := f.source);
      ExecuteDeleteKeeps(begun, from, held, true, g);
      var d := ExecuteDelete(begun, from, held, true, g);
      if d.verdict != Undeleted && f.again { StartUploadKeeps(d.world, p, c, d.world.rep.Lookup(p, f.repick)); }
    }
  }

  lemma LocalModifyKeeps(w0: World, p: Path, f: LocalFaults)
    requires Held(w0)
    ensures Keeps(w0, LocalModify(w0, p, f))
  {
    if w0.ses.phase != S.Disconnected && w0.rep.OnDisk(p) && f.hashable {
      var c := w0.rep.disk[w0.rep.Key(p)];
      var w := w0.(buffered := w0.buffered - {p});
      assert Held(w);
      var existing := w.rep.Lookup(p, f.pick);
      var found := Candidates(w, p, c);
      if w.rep.LocalOf(existing) != Some(c) {
        if c != EMPTY && |found| == 1 {
          var from :| from in found && LocalModify(w0, p, f)
            == LocalRename(w.(buffered := w.buffered - {from}), from, p, w.buffered[from], c, f);
          LocalRenameKeeps(w.(buffered := w.buffered - {from}), from, p, w.buffered[from], c, f);
        } else {
          StartUploadKeeps(w, p, c, existing);
        }
      }
    }
  }

  lemma ScanFileKeeps(w: World, p: Path, listed: bool, f: LocalFaults)
    ensures Keeps(w, ScanFile(w, p, listed, f))
  {
  }

  lemma LocalDeleteKeeps(w: World, p: Path, f: LocalFaults)
    ensures Keeps(w, LocalDelete(w, p, f))
  {
  }

  lemma DeleteFiresKeeps(w: World, p: Path, f: LocalFaults)
    requires p in w.buffered && Held(w)
    ensures Keeps(w, DeleteFires(w, p, f))
  {
    ExecuteDeleteKeeps(w.(buffered := w.buffered - {p}), p, w.buffered[p], false, f);
  }

  /** An upload that ends, however the file changed under it, leaves an honest row. */
  lemma UploadEndsKeeps(w: World, p: Path, sent: Sent)
    ensures Keeps(w, UploadEnds(w, p, sent))
  {
  }

  lemma RecoverUploadKeeps(w: World, p: Path, row: Row, f: LocalFaults)
    requires row.server.Some? ==> row.server.value in w.rep.ever
    ensures Keeps(w, RecoverUpload(w, p, row, f))
  {
  }

  lemma RecoverDeleteKeeps(w: World, p: Path, f: LocalFaults)
    ensures Keeps(w, RecoverDelete(w, p, f))
  {
    if p in w.rep.rows { ExecuteDeleteKeeps(w, p, Buffered(p, w.rep.rows[p]), false, f); }
  }

  // --- No lost local update ---

  /** An upload ends SYNCED exactly when the file on disk is what the server received: a file
      that changed while it was being sent never does. */
  lemma SyncedUploadMatchesDisk(r: Replica, p: Path, id: FileId, b: Content, n: nat, hashable: bool, deleted: bool)
    ensures var t := UploadRow(r, p, Landed(id, b, n, hashable, deleted));
            && (p in t.rows && t.rows[p].status == Synced
                <==> r.OnDisk(p) && hashable && r.disk[r.Key(p)] == b)
            && (p in t.rows ==> t.rows[p].local == t.rows[p].server == Some(b) && b in t.ever)
  {
  }

  /** Bytes a synced row does not name are seen: the next rescan of that file takes the row out
      of SYNCED and either starts uploading exactly those bytes, or asks the server to rename a
      deleted file it takes them for; unless the engine stops, or the file can no longer be
      hashed, while that rename fails. */
  lemma RescanSeesDivergence(w: World, p: Path, f: LocalFaults)
    requires Honest(w.rep.rows) && p in w.rep.rows && w.rep.rows[p].status == Synced
    requires w.rep.OnDisk(p) && Some(w.rep.disk[w.rep.Key(p)]) != w.rep.rows[p].server
    requires f.hashable && w.ses.phase != S.Disconnected && (f.renamed || (!f.torn && f.again))
    ensures var t := RescanFile(w, p, f); var c := w.rep.disk[w.rep.Key(p)];
            || (p in t.uploads && t.uploads[p] == c && p in t.rep.rows
                && t.rep.rows[p] == w.rep.rows[p].(local := Some(c), status := PendingUpload))
            || (t.rep.LocalOf(t.rep.Lookup(p, f.repick)) == Some(c)
                && exists from :: from in Candidates(w.(buffered := w.buffered - {p}), p, c) && from !in t.buffered)
  {
    var c := w.rep.disk[w.rep.Key(p)];
    assert w.rep.Lookup(p, f.pick) == Some(p);
    assert w.rep.rows[p].local == w.rep.rows[p].server;
    var v := w.(buffered := w.buffered - {p});
    var found := Candidates(v, p, c);
    var t := RescanFile(w, p, f);
    assert t == LocalModify(w, p, f);
    if c != EMPTY && |found| == 1 {
      var from :| from in found
        && t == LocalRename(v.(buffered := v.buffered - {from}), from, p, v.buffered[from], c, f);
      RenameRecords(v.(buffered := v.buffered - {from}), from, p, v.buffered[from], c, f);
    }
  }

  /** However a local rename ends, the new name's row records the bytes on disk; unless the engine
      stops, or the file can no longer be hashed, while the server's rename fails. */
  lemma RenameRecords(w: World, from: Path, p: Path, held: Buffered, c: Content, f: LocalFaults)
    requires f.renamed || (!f.torn && f.again)
    ensures var t := LocalRename(w, from, p, held, c, f);
            && t.buffered == w.buffered
            && t.rep.LocalOf(t.rep.Lookup(p, f.repick)) == Some(c)
  {
  }

  // --- An upload that ends inside a download ---

  /** A download commits an honest row exactly when the row still names what it fetched. */
  lemma DownloadHonesty(r: Replica, p: Path, c: Content)
    requires Honest(r.rows)
    ensures Honest(Download(r, p, c, true).rows) <==> (p in r.rows && r.rows[p].server == Some(c))
  {
    var t := Download(r, p, c, true);
    assert t.rows[p].status == Synced && t.rows[p].local == Some(c);
    forall q | q in t.rows && q != p ensures t.rows[q] == r.rows[q] {}
  }

  /** The path lock covers a download but not the conflict check before it, so an upload of the
      same file can end in between. It finds its file moved aside, takes that for a delete, and
      drops the row; the download then commits a SYNCED row whose checksums disagree. */
  lemma UploadInsideDownload()
    ensures
      var edited := Row(Some(1), Some(5), Some(4), 1, PendingUpload);
      var r := Replica(false, map["a" := 5], map["a" := edited], [], {4, 6});
      var f := Faults(true, true, Recased, true, true, true, "", "");
      var queued := SaveCopy(r, "a", 6, edited.server, f).Upsert("a",
          Row(Some(1), Some(5), Some(6), 2, PendingDownload));
      var meanwhile := UploadRow(queued, "a", Landed(2, 5, 3, true, true));
      var t := Download(meanwhile, "a", 6, true);
      Honest(queued.rows) && "a" in t.rows && t.rows["a"] == Row(None, Some(6), None, 0, Synced) && !Honest(t.rows)
  {
  }
}
