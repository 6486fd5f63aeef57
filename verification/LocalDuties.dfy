/**
 What the engine owes to local activity: exactly when it calls the server, uploads, buffers or records,
 and what row each answer leaves.
 */
module LocalDuties {
  import opened Types
  import opened Replica
  import opened World
  import S = Session

  // --- Local deletes ---

  /** The row a confirmed delete is about: the tracked one, or else the one it was buffered under. */
  function Target(w: World, p: Path, snap: Buffered, f: LocalFaults): Buffered {
    var tracked := w.rep.Lookup(p, f.pick);
    if tracked.Some? then Buffered(tracked.value, w.rep.rows[tracked.value]) else snap
  }

  /** The server is asked to delete: of a running engine that can see the file is still gone, for a file
      the server has and whose content this client really held. */
  predicate Calls(w: World, p: Path, snap: Buffered, fallback: bool, f: LocalFaults) {
    var row := Target(w, p, snap, f).row;
    && w.ses.phase != S.Disconnected && f.readable && (fallback || !w.rep.OnDisk(p))
    && row.fileId.Some? && row.local.Some?
  }

  /** The row leaves the table exactly when the call was made and acknowledged; one whose call failed stays,
      to be deleted later, with every other column as it was; and nothing else changes. */
  lemma DeleteAnswer(w: World, p: Path, snap: Buffered, fallback: bool, f: LocalFaults)
    ensures var d, key := ExecuteDelete(w, p, snap, fallback, f), Target(w, p, snap, f).key;
            && (d.verdict == Spared <==> !Calls(w, p, snap, fallback, f))
            && (d.verdict == Gone <==> Calls(w, p, snap, fallback, f) && f.deleted)
            && d.world == w.(rep := w.rep.(rows := d.world.rep.rows))
            && d.world.rep.rows == (if d.verdict == Spared then w.rep.rows
                                    else if f.deleted then w.rep.rows - {key}
                                    else if key in w.rep.rows
                                    then w.rep.rows[key := w.rep.rows[key].(status := PendingDelete)]
                                    else w.rep.rows)
  {
  }

  /** A buffered delete whose timer fires leaves the buffer, and is dropped if the file is back. */
  lemma FiringAnswer(w: World, p: Path, f: LocalFaults)
    requires p in w.buffered
    ensures var t, calm := DeleteFires(w, p, f), w.(buffered := w.buffered - {p});
            && t == calm.(rep := calm.rep.(rows := t.rep.rows))
            && (w.rep.OnDisk(p) ==> t == calm)
            && (t.rep.rows != w.rep.rows ==> Calls(calm, p, w.buffered[p], false, f))
            && (Calls(calm, p, w.buffered[p], false, f) && f.deleted ==>
                  t.rep.rows == w.rep.rows - {Target(calm, p, w.buffered[p], f).key})
  {
    DeleteAnswer(w.(buffered := w.buffered - {p}), p, w.buffered[p], false, f);
  }

  /** A delete whose call failed is made again by the next pass over such rows, and the row goes when
      that is acknowledged. */
  lemma DeleteIsRetried(w: World, p: Path, f: LocalFaults, g: LocalFaults)
    requires p in w.buffered && p in w.rep.rows && !w.rep.OnDisk(p)
    requires Calls(w, p, w.buffered[p], false, f) && !f.deleted && g.readable && g.deleted
    ensures var t := DeleteFires(w, p, f);
            && p in t.rep.rows && t.rep.rows[p] == w.rep.rows[p].(status := PendingDelete) && p !in t.buffered
            && RecoverDelete(t, p, g) == t.(rep := t.rep.(rows := t.rep.rows - {p}))
  {
    var calm := w.(buffered := w.buffered - {p});
    DeleteAnswer(calm, p, w.buffered[p], false, f);
    var t := DeleteFires(w, p, f);
    DeleteAnswer(t, p, Buffered(p, t.rep.rows[p]), false, g);
  }

  /** That pass leaves every other row alone, and one whose file is back. */
  lemma RecoverDeleteAnswer(w: World, p: Path, f: LocalFaults)
    ensures var due := p in w.rep.rows && w.rep.rows[p].status == PendingDelete && !w.rep.OnDisk(p)
                       && w.ses.phase != S.Disconnected && f.readable
                       && w.rep.rows[p].fileId.Some? && w.rep.rows[p].local.Some?;
            RecoverDelete(w, p, f)
            == if due && f.deleted then w.(rep := w.rep.(rows := w.rep.rows - {p})) else w
  {
    if p in w.rep.rows {
      DeleteAnswer(w, p, Buffered(p, w.rep.rows[p]), false, f);
      if w.rep.rows[p].status == PendingDelete {
        assert w.rep.rows[p := w.rep.rows[p].(status := PendingDelete)] == w.rep.rows;
      }
    }
  }

  /** A file the watcher finds gone: its delete is buffered under its row if the server has the file;
      otherwise the row goes at once. */
  lemma LocalDeleteAnswer(w: World, p: Path, f: LocalFaults)
    ensures var t, tracked := LocalDelete(w, p, f), w.rep.Lookup(p, f.pick);
            if !f.readable then t == w
            else if tracked.Some? && w.rep.rows[tracked.value].fileId.Some? then
              t == w.(buffered := w.buffered[p := Buffered(tracked.value, w.rep.rows[tracked.value])])
            else t == w.(rep := w.rep.(rows := w.rep.rows - {if tracked.Some? then tracked.value else p}))
    ensures RescanMissing(w, p, f) == if w.rep.OnDisk(p) then w else LocalDelete(w, p, f)
  {
  }

  // --- Uploads ---

  /** An upload begins with the file's new checksum in a row that keeps what is known of the server's. */
  predicate UploadBegins(w: World, t: World, p: Path, c: Content, prior: Row) {
    && t.rep == w.rep.(rows := w.rep.rows[p := prior.(local := Some(c), status := PendingUpload)])
    && t.uploads == w.uploads[p := c] && t.buffered == w.buffered
    && t.ses == w.ses.(uploads := w.ses.uploads + 1, phase := t.ses.phase)
    && t.ses.phase == (if w.ses.phase == S.CatchingUp then S.CatchingUp else S.Uploading)
  }

  /** How the upload's row comes out. Without an answer it is an error; with one it names what the server
      received, and is SYNCED exactly when the file is still that, to be sent again if it is another, and
      if it is gone the server is asked to delete it. */
  lemma UploadAnswer(w: World, p: Path, sent: Sent)
    ensures var t := UploadEnds(w, p, sent);
            && t.uploads == w.uploads - {p} && t.buffered == w.buffered
            && t.rep.disk == w.rep.disk && t.rep.copies == w.rep.copies && t.rep.folds == w.rep.folds
            && (forall q :: q != p ==> (q in t.rep.rows <==> q in w.rep.rows)
                                       && (q in w.rep.rows ==> t.rep.rows[q] == w.rep.rows[q]))
            && t.ses.uploads == (if w.ses.uploads > 0 then w.ses.uploads - 1 else 0)
            && match sent
               case Failed =>
                 && t.rep.ever == w.rep.ever && (p in t.rep.rows <==> p in w.rep.rows)
                 && (p in w.rep.rows ==> t.rep.rows[p] == w.rep.rows[p].(status := Error))
               case Skipped => t.rep == w.rep
               case Landed(id, b, n, hashable, deleted) =>
                 var same := w.rep.OnDisk(p) && hashable && w.rep.disk[w.rep.Key(p)] == b;
                 && t.rep.ever == w.rep.ever + {b}
                 && (p in t.rep.rows <==> w.rep.OnDisk(p) || !deleted)
                 && (p in t.rep.rows ==>
                       && t.rep.rows[p] == Row(Some(id), Some(b), Some(b), n, t.rep.rows[p].status)
                       && t.rep.rows[p].status == (if same then Synced
                                                   else if w.rep.OnDisk(p) then PendingUpload else PendingDelete))
  {
  }

  /** A pending upload found by the pass over such rows: settled exactly when the server has the file as it
      is, else sent with its present checksum; and a failed first upload is sent too. */
  lemma RecoverUploadAnswer(w: World, p: Path, row: Row, f: LocalFaults)
    ensures var t := RecoverUpload(w, p, row, f);
            var first := row.status == Error && row.fileId.None? && row.server.None? && row.local.Some?;
            if p in w.uploads || !w.rep.OnDisk(p) || !f.hashable || (row.status != PendingUpload && !first) then t == w
            else
              var c := w.rep.disk[w.rep.Key(p)];
              if row.status == PendingUpload && row.server == Some(c) then
                t == w.(rep := w.rep.(rows := w.rep.rows[p := row.(local := Some(c), status := Synced)]))
              else UploadBegins(w, t, p, c, row)
  {
  }

  /** So once a pass is over with an idle pool, no pending upload whose file can be read is left lying: it
      is under way with the file's bytes, or was found done. */
  lemma NoUploadLeftLying(w: World, p: Path, f: LocalFaults)
    requires p in w.rep.rows && w.rep.rows[p].status == PendingUpload
    requires p !in w.uploads && w.rep.OnDisk(p) && f.hashable
    ensures var t, c := RecoverUpload(w, p, w.rep.rows[p], f), w.rep.disk[w.rep.Key(p)];
            && p in t.rep.rows && t.rep.rows[p].local == Some(c)
            && (if w.rep.rows[p].server == Some(c) then t.rep.rows[p].status == Synced && t.uploads == w.uploads
                else t.rep.rows[p].status == PendingUpload && p in t.uploads && t.uploads[p] == c)
  {
    RecoverUploadAnswer(w, p, w.rep.rows[p], f);
  }

  // --- Changes ---

  /** What the change handler knows about the path: its tracked row, or a blank one. */
  function Prior(w: World, p: Path, pick: Path): Row {
    var tracked := w.rep.Lookup(p, pick);
    if tracked.Some? then w.rep.rows[tracked.value] else BLANK
  }

  /** A changed file cancels its own buffered delete. Unless its row has its bytes already, it is the new
      name of the one deleted file with just its bytes nearby, or, with none or several, or no bytes, it
      is uploaded. */
  lemma ModifyAnswer(w: World, p: Path, f: LocalFaults)
    ensures var t := LocalModify(w, p, f);
            if w.ses.phase == S.Disconnected || !w.rep.OnDisk(p) || !f.hashable then t == w
            else
              var c, calm := w.rep.disk[w.rep.Key(p)], w.(buffered := w.buffered - {p});
              if Prior(w, p, f.pick).local == Some(c) then t == calm
              else if c != EMPTY && exists from :: Candidates(calm, p, c) == {from} then
                exists from :: Candidates(calm, p, c) == {from}
                  && t == LocalRename(calm.(buffered := calm.buffered - {from}), from, p, calm.buffered[from], c, f)
              else UploadBegins(calm, t, p, c, Prior(w, p, f.pick))
  {
    hide LocalRename, Candidates, StartUpload, UploadBegins;
    if w.ses.phase != S.Disconnected && w.rep.OnDisk(p) && f.hashable {
      var c, calm := w.rep.disk[w.rep.Key(p)], w.(buffered := w.buffered - {p});
      OneAlone(Candidates(calm, p, c));
      StartUploadAnswer(calm, p, c, calm.rep.Lookup(p, f.pick));
    }
  }

  lemma OneAlone(found: set<Path>)
    ensures |found| == 1 <==> exists from :: found == {from}
    ensures |found| == 1 ==> forall from :: from in found ==> found == {from}
  {
    forall from | |found| == 1 && from in found ensures found == {from} {
      assert |found - {from}| == 0;
      assert found - {from} == {};
    }
    if |found| == 1 {
      var from :| from in found;
      assert found == {from};
    }
  }

  lemma StartUploadAnswer(w: World, p: Path, c: Content, existing: Option<Path>)
    requires existing.Some? ==> existing.value in w.rep.rows
    ensures UploadBegins(w, StartUpload(w, p, c, existing), p, c,
                         if existing.Some? then w.rep.rows[existing.value] else BLANK)
  {
  }

  /** The candidates are the buffered deletes that stand for those very bytes, by base name or directory. */
  lemma CandidatesAre(w: World, p: Path, c: Content, q: Path)
    ensures q in Candidates(w, p, c)
            <==> (&& q in w.buffered
                  && (w.buffered[q].row.local == Some(c)
                      || (w.buffered[q].row.local.None? && w.buffered[q].row.server == Some(c)))
                  && (BaseName(q) == BaseName(p) || DirName(q) == DirName(p)))
  {
  }

  /** The server's answer to a detected rename: done, the row moves, and waits for an upload if the server
      holds other bytes; failed while stopping, the old row is in error; failed otherwise, the old name is
      deleted and, if that did not fail too, the file uploaded under the new one. */
  lemma LocalRenameAnswer(w: World, from: Path, p: Path, held: Buffered, c: Content, f: LocalFaults)
    ensures var t := LocalRename(w, from, p, held, c, f);
            var call := Calls(w.(ses := S.BeginRename(w.ses)), from, held, true, f.(pick := f.source));
            && t.buffered == w.buffered && t.rep.disk == w.rep.disk && t.rep.copies == w.rep.copies
            && t.ses == w.ses.(uploads := t.ses.uploads, phase := t.ses.phase)
            && t.ses.phase == (if w.ses.phase == S.CatchingUp then S.CatchingUp
                               else if t.ses.uploads == 0 && w.ses.downloads == 0 then S.InSync else S.Uploading)
            && (if f.renamed then
                  && t.uploads == w.uploads && t.ses.uploads == w.ses.uploads
                  && t.rep.rows == (w.rep.rows - {held.key})
                                     [p := Row(held.row.fileId, Some(c), held.row.server, f.renamedAt,
                                               if held.row.server == Some(c) then Synced else PendingUpload)]
                else if f.torn then
                  && t.uploads == w.uploads && t.ses.uploads == w.ses.uploads
                  && t.rep.rows == (if from in w.rep.rows then w.rep.rows[from := w.rep.rows[from].(status := Error)]
                                    else w.rep.rows)
                else if call && !f.deleted then
                  var key := Target(w, from, held, f.(pick := f.source)).key;
                  && t.uploads == w.uploads && t.ses.uploads == w.ses.uploads
                  && t.rep.rows == (if key in w.rep.rows
                                    then w.rep.rows[key := w.rep.rows[key].(status := PendingDelete)]
                                    else w.rep.rows)[p := Row(None, Some(c), None, 0, PendingUpload)]
                else
                  var rows := if call then w.rep.rows - {Target(w, from, held, f.(pick := f.source)).key}
                              else w.rep.rows;
                  var gone := w.rep.(rows := rows);
                  var tracked := gone.Lookup(p, f.repick);
                  var prior := if tracked.Some? then rows[tracked.value] else BLANK;
                  if !f.again || prior.local == Some(c) then
                    t.uploads == w.uploads && t.ses.uploads == w.ses.uploads && t.rep.rows == rows
                  else
                    && t.uploads == w.uploads[p := c] && t.ses.uploads == w.ses.uploads + 1
                    && t.rep.rows == rows[p := prior.(local := Some(c), status := PendingUpload)])
  {
    hide ExecuteDelete;
    DeleteAnswer(w.(ses := S.BeginRename(w.ses)), from, held, true, f.(pick := f.source));
  }

  /** A file met by the rescan or the scan after an initial sync is taken up exactly when its row, if any,
      has other bytes. */
  lemma ScanAnswer(w: World, p: Path, listed: bool, f: LocalFaults)
    ensures RescanFile(w, p, f)
            == if w.rep.OnDisk(p) && f.hashable && Prior(w, p, f.pick).local != Some(w.rep.disk[w.rep.Key(p)])
               then LocalModify(w, p, f) else w
    ensures var t, prior := ScanFile(w, p, listed, f), if p in w.rep.rows then w.rep.rows[p] else BLANK;
            if !listed && w.rep.OnDisk(p) && f.hashable && prior.local != Some(w.rep.disk[w.rep.Key(p)])
            then UploadBegins(w, t, p, w.rep.disk[w.rep.Key(p)], prior) else t == w
  {
  }

  /** What a reset and a restart leave: no rows and no cursor after the one, both as they were after the
      other, and in neither anything in flight or buffered. */
  lemma FreshStarts(w: World)
    ensures var t := Resync(w);
            && t.rep == w.rep.(rows := map[]) && t.buffered == map[] && t.uploads == w.uploads
            && t.ses.cursor == t.ses.low == t.ses.tip == t.ses.handlers == t.ses.downloads == 0
            && t.ses.phase == S.Connecting && !t.ses.caughtUp && !t.ses.rejected
    ensures var t := Restart(w);
            && t.rep == w.rep && t.buffered == map[] && t.uploads == map[] && t.ses.cursor == w.ses.cursor
            && t.ses.low == t.ses.tip == t.ses.handlers == t.ses.downloads == t.ses.uploads == 0
            && t.ses.phase == S.Connecting && !t.ses.caughtUp && !t.ses.rejected
  {
  }
}
