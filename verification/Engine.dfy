/**
 The engine as it runs: one object whose methods change the folder, the table and the control
 state in place. Each method is proved to do exactly what the function of that step in
 `Replica`, `Session` and `World` does, so the theorems about those functions are about it.
 */
module Engine {
  import opened Types
  import opened Replica
  import opened World
  import W = World
  import S = Session

  /** The state database: the `files` table and the persisted cursor. */
  class StateDb {
    var rows: map<Path, Row>
    var lastSeq: nat

    constructor ()
      ensures rows == map[] && lastSeq == 0
    {
      rows, lastSeq := map[], 0;
    }

    method UpsertFile(p: Path, row: Row)
      modifies `rows
      ensures rows == old(rows)[p := row]
    {
      rows := rows[p := row];
    }

    method UpdateFileStatus(p: Path, st: Status)
      modifies `rows
      ensures rows == if p in old(rows) then old(rows)[p := old(rows)[p].(status := st)] else old(rows)
    {
      if p in rows { rows := rows[p := rows[p].(status := st)]; }
    }

    method RemoveFile(p: Path)
      modifies `rows
      ensures rows == old(rows) - {p}
    {
      rows := rows - {p};
    }

    /** One transaction: delete, insert, commit. When its `failing`-th statement throws, it rolls back. */
    method RenameFile(from: Path, p: Path, row: Row, failing: Option<nat>) returns (ok: bool)
      modifies `rows
      ensures ok <==> !(failing.Some? && failing.value < 3)
      ensures rows == if ok then (old(rows) - {from})[p := row] else old(rows)
    {
      var before := rows;
      ok := failing != Some(0);
      if ok {
        RemoveFile(from);
        ok := failing != Some(1);
        if ok {
          UpsertFile(p, row);
          ok := failing != Some(2);
        }
      }
      if !ok { rows := before; }
    }

    /** Both tables or neither. */
    method ClearAll(failing: Option<nat>) returns (ok: bool)
      modifies this
      ensures ok <==> !(failing.Some? && failing.value < 3)
      ensures if ok then rows == map[] && lastSeq == 0 else rows == old(rows) && lastSeq == old(lastSeq)
    {
      var before, cursor := rows, lastSeq;
      ok := failing != Some(0);
      if ok {
        lastSeq := 0;
        ok := failing != Some(1);
        if ok {
          rows := map[];
          ok := failing != Some(2);
        }
      }
      if !ok { rows, lastSeq := before, cursor; }
    }

    /** The exact row, else on a folding volume the case variant the query returns. */
    method GetFileFolded(p: Path, folded: bool, pick: Path) returns (found: Option<Path>)
      ensures found == if p in rows then Some(p)
                       else if folded && pick in rows && Fold(pick) == Fold(p) then Some(pick) else None
    {
      if p in rows { return Some(p); }
      if !folded { return None; }
      found := if pick in rows && Fold(pick) == Fold(p) then Some(pick) else None;
    }

    method GetFilesByStatus(st: Status) returns (found: seq<Path>)
      ensures forall i :: 0 <= i < |found| ==> found[i] in rows && rows[found[i]].status == st
      ensures forall p :: p in rows && rows[p].status == st ==> p in found
      ensures forall i, j :: 0 <= i < j < |found| ==> found[i] != found[j]
    {
      found := [];
      var todo := rows.Keys;
      while todo != {}
        invariant todo <= rows.Keys
        invariant forall i :: 0 <= i < |found| ==> found[i] in rows && found[i] !in todo && rows[found[i]].status == st
        invariant forall p :: p in rows && p !in todo && rows[p].status == st ==> p in found
        invariant forall i, j :: 0 <= i < j < |found| ==> found[i] != found[j]
        decreases |todo|
      {
        var p :| p in todo;
        todo := todo - {p};
        if rows[p].status == st { found := found + [p]; }
      }
    }
  }

  class SyncEngine {
    const folds: bool
    const skipped: set<Path>
    const db: StateDb
    var disk: map<Path, Content>
    var copies: seq<Copy>
    ghost var ever: set<Content>
    var phase: S.Phase
    var lowestUnappliedSeq: nat
    var catchUpTipSeq: nat
    var caughtUpAtSeq: bool
    var catchUpPending: nat
    var activeDownloads: nat
    var poolSize: nat
    var terminalUpgradeReject: bool
    var uploads: map<Path, Content>
    var pendingDeletes: map<Path, Buffered>

    ghost function Rep(): Replica
      reads this, db
    { Replica(folds, disk, db.rows, copies, ever) }

    ghost function Ses(): S.Session
      reads this, db
    {
      S.Session(phase, db.lastSeq, lowestUnappliedSeq, catchUpTipSeq, caughtUpAtSeq,
                catchUpPending, activeDownloads, poolSize, terminalUpgradeReject)
    }

    ghost function View(): World
      reads this, db
    { World(Rep(), Ses(), uploads, pendingDeletes) }

    /** The object is, field by field, in the state `w`. */
    ghost predicate Is(w: World)
      reads this, db
    { Rep() == w.rep && Ses() == w.ses && uploads == w.uploads && pendingDeletes == w.buffered }

    constructor (folds: bool, skipped: set<Path>, db: StateDb, disk: map<Path, Content>)
      ensures this.folds == folds && this.skipped == skipped && this.db == db
      ensures Rep() == Replica(folds, disk, db.rows, [], {}) && uploads == map[] && pendingDeletes == map[]
      ensures Ses() == S.Session(S.Disconnected, db.lastSeq, 0, 0, false, 0, 0, 0, false)
    {
      this.folds, this.skipped, this.db, this.disk := folds, skipped, db, disk;
      copies, ever := [], {};
      phase, lowestUnappliedSeq, catchUpTipSeq, caughtUpAtSeq := S.Disconnected, 0, 0, false;
      catchUpPending, activeDownloads, poolSize, terminalUpgradeReject := 0, 0, 0, false;
      uploads, pendingDeletes := map[], map[];
    }

    function Key(p: Path): Path { if folds then Fold(p) else p }

    predicate OnDisk(p: Path)
      reads `disk
    { Key(p) in disk }

    // --- Control state ---

    method MaybeFinishCatchUp()
      modifies `phase, `caughtUpAtSeq
      ensures Ses() == S.FinishCatchUp(old(Ses()))
    {
      if phase != S.CatchingUp { return; }
      if !caughtUpAtSeq { return; }
      if catchUpPending > 0 || activeDownloads > 0 { return; }
      caughtUpAtSeq := false;
      phase := S.InSync;
    }

    method MaybeMarkSynced()
      modifies `phase
      ensures Ses() == S.MarkSynced(old(Ses()))
    {
      if phase == S.Disconnected { return; }
      if phase == S.CatchingUp { return; }
      if poolSize == 0 && activeDownloads == 0 { phase := S.InSync; }
    }

    method UpdateSeq(n: nat)
      modifies `lowestUnappliedSeq, db`lastSeq
      ensures Ses() == S.UpdateSeq(old(Ses()), n)
    {
      var target := n;
      if lowestUnappliedSeq > 0 && n == lowestUnappliedSeq { lowestUnappliedSeq := 0; }
      if lowestUnappliedSeq > 0 && target >= lowestUnappliedSeq { target := lowestUnappliedSeq - 1; }
      if target > db.lastSeq { db.lastSeq := target; }
    }

    method NoteUnappliedSeq(n: nat)
      modifies `lowestUnappliedSeq
      ensures Ses() == S.NoteUnapplied(old(Ses()), n)
    {
      if n > 0 && (lowestUnappliedSeq == 0 || n < lowestUnappliedSeq) { lowestUnappliedSeq := n; }
    }

    method HandleHeartbeat(h: nat)
      modifies `phase, `caughtUpAtSeq, `catchUpTipSeq
      ensures Is(old(View()).(ses := S.Heartbeat(old(Ses()), h)))
    {
      if phase == S.CatchingUp {
        if h <= db.lastSeq && (h != 0 || db.lastSeq == 0) {
          caughtUpAtSeq := true;
        } else if h > db.lastSeq {
          catchUpTipSeq := h;
        }
        MaybeFinishCatchUp();
      }
    }

    method OnOpen()
      modifies `phase, `caughtUpAtSeq, `catchUpTipSeq, `lowestUnappliedSeq
      ensures Is(old(View()).(ses := S.Open(old(Ses()))))
    {
      phase := S.CatchingUp;
      caughtUpAtSeq := false;
      catchUpTipSeq := 0;
      lowestUnappliedSeq := 0;
    }

    method OnClose()
      modifies `phase
      ensures Is(old(View()).(ses := S.Close(old(Ses()))))
    {
      if terminalUpgradeReject { return; }
      if phase != S.Disconnected { phase := S.Reconnecting; }
    }

    method OnReconnecting()
      modifies `phase
      ensures Is(old(View()).(ses := S.Retry(old(Ses()))))
    {
      phase := S.Reconnecting;
    }

    method OnError()
      modifies `phase
      ensures Is(old(View()).(ses := S.Fault(old(Ses()))))
    {
      phase := S.Faulted;
    }

    method OnUpgradeRejected()
      modifies `phase, `terminalUpgradeReject
      ensures Is(old(View()).(ses := S.Reject(old(Ses()))))
    {
      terminalUpgradeReject := true;
      phase := S.Faulted;
    }

    // --- Files and rows ---

    method LookupTracked(p: Path, pick: Path) returns (found: Option<Path>)
      ensures found == Rep().Lookup(p, pick)
    {
      found := db.GetFileFolded(p, folds, pick);
    }

    method MaybeSaveConflictCopy(p: Path, incoming: Content, known: Option<Content>, f: Faults)
      modifies `disk, `copies
      ensures Rep() == SaveCopy(old(Rep()), p, incoming, known, f)
    {
      if !OnDisk(p) { return; }
      var actual := if f.hashable then Some(disk[Key(p)]) else None;
      if actual.Some? && (actual.value == incoming || known == actual) { return; }
      if f.stashable {
        copies := copies + [Copy(p, disk[Key(p)])];
        disk := disk - {Key(p)};
      }
    }

    method DownloadFile(p: Path, c: Content, fetched: bool) returns (ok: bool)
      modifies `disk, `phase, `caughtUpAtSeq, `activeDownloads, db`rows
      ensures ok == fetched
      ensures Rep() == Download(old(Rep()), p, c, fetched)
      ensures Ses() == S.EndDownload(S.BeginDownload(old(Ses())))
    {
      hide S.MarkSynced, S.FinishCatchUp;
      activeDownloads := activeDownloads + 1;
      if phase != S.CatchingUp { phase := S.Downloading; }
      ok := fetched;
      if fetched {
        disk := disk[Key(p) := c];
        var row := if p in db.rows then db.rows[p] else BLANK;
        db.UpsertFile(p, row.(local := Some(c), status := Synced));
      } else {
        db.UpdateFileStatus(p, Error);
      }
      activeDownloads := activeDownloads - 1;
      MaybeMarkSynced();
      MaybeFinishCatchUp();
    }

    /** The row is under a case variant; the move goes through a temporary name. */
    method ReconcileCaseRename(q: Path, p: Path, id: FileId, c: Content, n: nat, f: Faults)
      requires q in db.rows && folds && Fold(q) == Fold(p)
      modifies `disk, `copies, `phase, `caughtUpAtSeq, `activeDownloads, `lowestUnappliedSeq, db
      ensures var h := CaseReconcile(old(Rep()), q, p, id, c, n, f);
              && Rep() == h.rep
              && Ses() == Settle(Transferred(old(Ses()), h.outcome), n, h.outcome)
    {
      hide SaveCopy, Download, S.UpdateSeq, S.NoteUnapplied, S.FinishCatchUp, S.BeginDownload, S.EndDownload;
      var row := db.rows[q];
      if OnDisk(q) {
        var moving := disk[Key(q)];
        if !f.recase.Kept? { disk := disk - {Key(q)}; }
        if !f.recase.Recased? {
          NoteUnappliedSeq(n);
          return;
        }
        disk := disk[Key(p) := moving];
        assert disk == old(disk);
      }
      var bytesMatch := row.local == Some(c) && OnDisk(p);
      var moved := db.RenameFile(q, p, row.(fileId := Some(id), server := Some(c), at := n,
                                            status := if bytesMatch then Synced else PendingDownload), None);
      if bytesMatch {
        UpdateSeq(n);
        return;
      }
      MaybeSaveConflictCopy(p, c, row.server, f);
      var ok := DownloadFile(p, c, f.fetched);
      if ok { UpdateSeq(n); }
    }

    /** What `HandleFileAdded` does between its brackets. */
    method ApplyAdded(p: Path, id: FileId, c: Content, n: nat, known: Option<Content>, f: Faults)
      modifies `disk, `copies, `phase, `caughtUpAtSeq, `activeDownloads, `lowestUnappliedSeq, db
      ensures var h := Add(old(Rep()), p, id, c, n, known, f);
              Rep() == h.rep && Ses() == Settle(Transferred(old(Ses()), h.outcome), n, h.outcome)
    {
      hide CaseReconcile, SaveCopy, Download, S.UpdateSeq, S.NoteUnapplied, S.FinishCatchUp, S.BeginDownload;
      hide S.EndDownload;
      var existing := LookupTracked(p, f.pick);
      if existing.Some? && existing.value != p {
        ReconcileCaseRename(existing.value, p, id, c, n, f);
      } else if existing.Some? && db.rows[p].local == Some(c) {
        db.UpsertFile(p, db.rows[p].(at := n, server := Some(c), fileId := Some(id)));
        UpdateSeq(n);
      } else {
        var synced := if existing.Some? then db.rows[p].server else None;
        MaybeSaveConflictCopy(p, c, if known.Some? then known else synced, f);
        db.UpsertFile(p, Row(Some(id), None, Some(c), n, PendingDownload));
        var ok := DownloadFile(p, c, f.fetched);
        if ok { UpdateSeq(n); }
      }
    }

    method HandleFileAdded(p: Path, id: FileId, c: Content, n: nat, known: Option<Content>, f: Faults)
      modifies `disk, `copies, `phase, `caughtUpAtSeq, `activeDownloads, `lowestUnappliedSeq, `catchUpPending, db
      ensures p in skipped ==> Rep() == old(Rep()) && Ses() == S.UpdateSeq(old(Ses()), n)
      ensures var h := Add(old(Rep()), p, id, c, n, known, f);
              p !in skipped ==> Rep() == h.rep && Ses() == Bracket(old(Ses()), n, h.outcome)
    {
      hide Add, Replace, Delete, Settle, Transferred, S.UpdateSeq, S.FinishCatchUp;
      if p in skipped {
        UpdateSeq(n);
        return;
      }
      catchUpPending := catchUpPending + 1;
      ApplyAdded(p, id, c, n, known, f);
      catchUpPending := catchUpPending - 1;
      MaybeFinishCatchUp();
    }

    /** What `HandleFileReplaced` does between its brackets. */
    method ApplyReplaced(p: Path, id: FileId, c: Content, n: nat, f: Faults)
      modifies `disk, `copies, `phase, `caughtUpAtSeq, `activeDownloads, `lowestUnappliedSeq, db
      ensures var h := Replace(old(Rep()), p, id, c, n, f);
              Rep() == h.rep && Ses() == Settle(Transferred(old(Ses()), h.outcome), n, h.outcome)
    {
      hide CaseReconcile, SaveCopy, Download, S.UpdateSeq, S.NoteUnapplied, S.FinishCatchUp, S.BeginDownload;
      hide S.EndDownload;
      var existing := LookupTracked(p, f.pick);
      if existing.Some? && existing.value != p {
        ReconcileCaseRename(existing.value, p, id, c, n, f);
      } else if existing.Some? && db.rows[p].local == Some(c) {
        db.UpsertFile(p, db.rows[p].(at := n, server := Some(c), fileId := Some(id)));
        UpdateSeq(n);
      } else {
        var row := if existing.Some? then db.rows[p] else BLANK;
        MaybeSaveConflictCopy(p, c, row.server, f);
        db.UpsertFile(p, row.(fileId := Some(id), server := Some(c), at := n, status := PendingDownload));
        var ok := DownloadFile(p, c, f.fetched);
        if ok { UpdateSeq(n); }
      }
    }

    method HandleFileReplaced(p: Path, id: FileId, c: Content, n: nat, f: Faults)
      modifies `disk, `copies, `phase, `caughtUpAtSeq, `activeDownloads, `lowestUnappliedSeq, `catchUpPending, db
      ensures p in skipped ==> Rep() == old(Rep()) && Ses() == S.UpdateSeq(old(Ses()), n)
      ensures var h := Replace(old(Rep()), p, id, c, n, f);
              p !in skipped ==> Rep() == h.rep && Ses() == Bracket(old(Ses()), n, h.outcome)
    {
      hide Add, Replace, Delete, Settle, Transferred, S.UpdateSeq, S.FinishCatchUp;
      if p in skipped {
        UpdateSeq(n);
        return;
      }
      catchUpPending := catchUpPending + 1;
      ApplyReplaced(p, id, c, n, f);
      catchUpPending := catchUpPending - 1;
      MaybeFinishCatchUp();
    }

    /** What `HandleFileRemoved` does between its brackets. */
    method ApplyRemoved(p: Path, n: nat, f: Faults)
      modifies `disk, `copies, `lowestUnappliedSeq, db
      ensures var h := Delete(old(Rep()), p, f);
              Rep() == h.rep && Ses() == Settle(Transferred(old(Ses()), h.outcome), n, h.outcome)
    {
      hide CaseReconcile, SaveCopy, Download, S.UpdateSeq, S.NoteUnapplied, S.FinishCatchUp, S.BeginDownload;
      hide S.EndDownload;
      var existing := LookupTracked(p, f.pick);
      var synced := if existing.Some? then db.rows[existing.value].server else None;
      var applied := true;
      if OnDisk(p) {
        var actual := if f.hashable then Some(disk[Key(p)]) else None;
        if actual.Some? && synced == actual {
          applied := f.deletable;
          if applied { disk := disk - {Key(p)}; }
        } else if actual.Some? {
          applied := f.stashable;
          if applied {
            copies := copies + [Copy(p, actual.value)];
            disk := disk - {Key(p)};
          }
        } else {
          applied := false;
        }
      }
      if applied {
        db.RemoveFile(if existing.Some? then existing.value else p);
        UpdateSeq(n);
      } else {
        NoteUnappliedSeq(n);
      }
    }

    method HandleFileRemoved(p: Path, n: nat, f: Faults)
      modifies `disk, `copies, `phase, `caughtUpAtSeq, `lowestUnappliedSeq, `catchUpPending, db
      ensures p in skipped ==> Rep() == old(Rep()) && Ses() == S.UpdateSeq(old(Ses()), n)
      ensures var h := Delete(old(Rep()), p, f);
              p !in skipped ==> Rep() == h.rep && Ses() == Bracket(old(Ses()), n, h.outcome)
    {
      hide Add, Replace, Delete, Settle, Transferred, S.UpdateSeq, S.FinishCatchUp;
      if p in skipped {
        UpdateSeq(n);
        return;
      }
      catchUpPending := catchUpPending + 1;
      ApplyRemoved(p, n, f);
      catchUpPending := catchUpPending - 1;
      MaybeFinishCatchUp();
    }

    method HandleFileRemovedNoSeq(p: Path, f: Faults)
      modifies `disk, db`rows
      ensures Rep() == DeleteQuietly(old(Rep()), p, f)
    {
      if OnDisk(p) && f.deletable { disk := disk - {Key(p)}; }
      var existing := LookupTracked(p, f.source);
      db.RemoveFile(if existing.Some? then existing.value else p);
    }

    /** The move a rename tries first, and the row it moves with the file. */
    method TryRelocate(from: Path, p: Path, id: FileId, c: Content, n: nat, f: Faults)
      returns (applied: bool, movedChecksum: Option<Content>)
      modifies `disk, db`rows
      ensures applied == Relocates(old(Rep()), from, c, f)
      ensures movedChecksum == if old(OnDisk(from)) && !f.movable then None
                               else old(Rep()).ServerOf(old(Rep()).Lookup(from, f.source))
      ensures applied ==> Rep() == Rename(old(Rep()), from, p, id, c, n, f).rep
      ensures !applied ==> Rep() == if Moves(old(Rep()), from, f) then Relocate(old(Rep()), from, p) else old(Rep())
    {
      hide Add, DeleteQuietly;
      applied, movedChecksum := false, None;
      // a failed move throws past everything up to the closing bracket
      if !OnDisk(from) || f.movable {
        var moved := OnDisk(from);
        if moved {
          var moving := disk[Key(from)];
          disk := disk - {Key(from)};
          disk := disk[Key(p) := moving];
        }
        var existing := LookupTracked(from, f.source);
        movedChecksum := if existing.Some? then db.rows[existing.value].server else None;
        if moved && movedChecksum == Some(c) {
          var row := db.rows[existing.value];
          var diverged := row.local.Some? && row.local != row.server;
          applied := db.RenameFile(existing.value, p,
            Row(Some(id), if diverged then row.local else Some(c), row.server, n,
                if diverged then PendingUpload else Synced), None);
        }
      }
    }

    method HandleFileRenamed(from: Path, p: Path, id: FileId, c: Content, n: nat, f: Faults)
      modifies `disk, `copies, `phase, `caughtUpAtSeq, `activeDownloads, `lowestUnappliedSeq, `catchUpPending, db
      ensures from in skipped && p in skipped ==> Rep() == old(Rep()) && Ses() == S.UpdateSeq(old(Ses()), n)
      ensures var h := Delete(old(Rep()), from, f);
              from !in skipped && p in skipped ==> Rep() == h.rep && Ses() == Bracket(old(Ses()), n, h.outcome)
      ensures var h := Add(old(Rep()), p, id, c, n, None, f);
              from in skipped && p !in skipped ==> Rep() == h.rep && Ses() == Bracket(old(Ses()), n, h.outcome)
      ensures var h := Rename(old(Rep()), from, p, id, c, n, f);
              from !in skipped && p !in skipped ==>
                && Rep() == h.rep
                && Ses() == HandledSession(old(Ses()), Renamed(from, p, id, c), n, f, old(Rep()), h.outcome)
    {
      hide Add, Delete, DeleteQuietly, Relocate, S.UpdateSeq, S.FinishCatchUp, Bracket;
      if from in skipped && p in skipped {
        UpdateSeq(n);
        return;
      }
      if from !in skipped && p in skipped {
        HandleFileRemoved(from, n, f);
        return;
      }
      if from in skipped && p !in skipped {
        HandleFileAdded(p, id, c, n, None, f);
        return;
      }
      catchUpPending := catchUpPending + 1;
      var applied, movedChecksum := TryRelocate(from, p, id, c, n, f);
      catchUpPending := catchUpPending - 1;
      MaybeFinishCatchUp();
      if applied {
        UpdateSeq(n);
        return;
      }
      HandleFileRemovedNoSeq(from, f);
      HandleFileAdded(p, id, c, n, movedChecksum, f);
    }

    /** The apply chain's dispatch: one server event, start to end. */
    method OnServerMessage(e: Change, n: nat, f: Faults)
      modifies this, db
      ensures Is(Receive(old(View()), e, n, f, skipped))
    {
      hide Add, Replace, Delete, Rename, Bracket, Relocates, S.UpdateSeq, S.EndHandler, S.BeginHandler;
      ghost var mine := Narrow(e, skipped);
      if mine.Some? { ever := Announce(Rep(), mine.value).ever; }
      match e
      case Added(p, id, c) => HandleFileAdded(p, id, c, n, None, f);
      case Replaced(p, id, c) => HandleFileReplaced(p, id, c, n, f);
      case Removed(p) => HandleFileRemoved(p, n, f);
      case Renamed(from, p, id, c) => HandleFileRenamed(from, p, id, c, n, f);
    }

    /** One listed file of the initial sync, whose local hash was taken beforehand. */
    method SyncListedFile(p: Path, id: FileId, c: Content, n: nat, localHash: Option<Content>, f: Faults)
      modifies this, db
      ensures Is(List(old(View()), p, id, c, n, localHash, f))
    {
      hide SaveCopy, Download, S.BeginDownload, S.EndDownload;
      ever := ever + {c};
      if localHash == Some(c) {
        db.UpsertFile(p, Row(Some(id), localHash, Some(c), n, Synced));
        return;
      }
      if localHash.Some? { MaybeSaveConflictCopy(p, c, None, f); }
      db.UpsertFile(p, Row(Some(id), None, Some(c), n, PendingDownload));
      var _ := DownloadFile(p, c, f.fetched);
    }

    // --- The reconcile sweep ---

    /** One row's turn, from the row as the sweep read it. */
    method RecoverRow(due: Due, t: Turn) returns (landed: bool)
      modifies `disk, `copies, `phase, `caughtUpAtSeq, `activeDownloads, db`rows
      ensures Is(TakeTurn(old(View()), due, t)) && landed == Lands(old(Rep()), due.path, due.row, t)
    {
      hide SaveCopy, Download, S.BeginDownload, S.EndDownload;
      var p, row := due.path, due.row;
      if t.passed || row.fileId.None? || row.server.None? { return false; }
      var c := row.server.value;
      if OnDisk(p) && t.probed && disk[Key(p)] == c {
        var current := if p in db.rows then db.rows[p] else BLANK;
        db.UpsertFile(p, current.(local := Some(c), server := Some(c), fileId := row.fileId, status := Synced));
        return true;
      }
      MaybeSaveConflictCopy(p, c, None, t.faults);
      landed := DownloadFile(p, c, t.faults.fetched);
    }

    /** The sweep's loop. */
    method RecoverRows(todo: seq<Due>, turns: seq<Turn>) returns (landed: nat)
      requires |turns| == |todo|
      modifies `disk, `copies, `phase, `caughtUpAtSeq, `activeDownloads, db`rows
      ensures Swept(View(), landed) == TakeTurns(old(View()), todo, turns, 0)
    {
      landed := 0;
      var i := 0;
      while i < |todo|
        invariant 0 <= i <= |todo|
        invariant TakeTurns(View(), todo[i..], turns[i..], landed) == TakeTurns(old(View()), todo, turns, 0)
      {
        hide TakeTurn, Lands;
        assert todo[i..][1..] == todo[i + 1..] && turns[i..][1..] == turns[i + 1..];
        var lands := RecoverRow(todo[i], turns[i]);
        if lands { landed := landed + 1; }
        i := i + 1;
      }
    }

    /** The download recovery of one sweep: the stranded rows in the table's order, each from the
        snapshot taken at the start, then the wedge check. */
    method RecoverPending(oracle: Path -> Turn) returns (order: seq<Path>)
      modifies `disk, `copies, `phase, `caughtUpAtSeq, `activeDownloads, db`rows
      ensures Enumerates(old(Rep()), order)
      ensures Is(Sweep(old(View()), order, Turns(order, oracle)))
    {
      var pending := db.GetFilesByStatus(PendingDownload);
      var failed := db.GetFilesByStatus(Error);
      order := pending + failed;
      assert Enumerates(Rep(), order);
      var table := db.rows;
      var todo := seq(|order|, i requires 0 <= i < |order| => Due(order[i], table[order[i]]));
      assert todo == Snapshots(Rep(), order);
      var landed := RecoverRows(todo, Turns(order, oracle));
      hide TakeTurns, S.Wedge;
      MaybeRecoverCatchUpWedge(landed);
    }

    method MaybeRecoverCatchUpWedge(landed: nat)
      modifies `phase
      ensures Ses() == S.Wedge(old(Ses()), landed, Outstanding(Rep()))
    {
      if phase != S.CatchingUp { return; }
      if landed == 0 { return; }
      if caughtUpAtSeq { return; }
      if catchUpPending > 0 || activeDownloads > 0 { return; }
      if catchUpTipSeq <= db.lastSeq { return; }
      if lowestUnappliedSeq > 0 && lowestUnappliedSeq > db.lastSeq { return; }
      var pending := db.GetFilesByStatus(PendingDownload);
      var failed := db.GetFilesByStatus(Error);
      CountsOutstanding(Rep(), pending + failed);
      if |pending| + |failed| > 0 { return; }
      phase := S.Connecting;
    }

    // --- Local changes ---

    /** The upload pool takes the file. */
    method Enqueue(p: Path, c: Content)
      modifies `phase, `poolSize, `uploads
      ensures Ses() == S.BeginUpload(S.QueueUpload(old(Ses()))) && uploads == old(uploads)[p := c]
    {
      poolSize := poolSize + 1;
      uploads := uploads[p := c];
      if phase != S.CatchingUp { phase := S.Uploading; }
    }

    method StartUploading(p: Path, c: Content, existing: Option<Path>)
      requires existing.Some? ==> existing.value in db.rows
      modifies `phase, `poolSize, `uploads, db`rows
      ensures Is(StartUpload(old(View()), p, c, existing))
    {
      var prior := if existing.Some? then db.rows[existing.value] else BLANK;
      db.UpsertFile(p, Row(prior.fileId, Some(c), prior.server, prior.at, PendingUpload));
      Enqueue(p, c);
    }

    method ExecuteDeleteLocked(p: Path, snap: Buffered, fallback: bool, f: LocalFaults) returns (verdict: Verdict)
      modifies db`rows
      ensures Deletion(View(), verdict) == ExecuteDelete(old(View()), p, snap, fallback, f)
    {
      if phase == S.Disconnected { return Spared; }
      if !f.readable { return Spared; }
      var found := LookupTracked(p, f.pick);
      var target := if found.Some? then db.rows[found.value] else snap.row;
      if target.fileId.None? { return Spared; }
      if !fallback && OnDisk(p) { return Spared; }
      if target.local.None? { return Spared; }
      var key := if found.Some? then found.value else snap.key;
      if f.deleted {
        db.RemoveFile(key);
        return Gone;
      }
      db.UpdateFileStatus(key, PendingDelete);
      verdict := Undeleted;
    }

    method HandleLocalRename(from: Path, p: Path, held: Buffered, c: Content, f: LocalFaults)
      modifies `phase, `poolSize, `uploads, db`rows
      ensures Is(LocalRename(old(View()), from, p, held, c, f))
    {
      hide ExecuteDelete, StartUpload, S.MarkSynced;
      if phase != S.CatchingUp { phase := S.Uploading; }
      assert Is(old(View()).(ses := S.BeginRename(old(Ses()))));
      hide S.BeginRename;
      if f.renamed {
        var moved := db.RenameFile(held.key, p, Row(held.row.fileId, Some(c), held.row.server, f.renamedAt,
                                                    if held.row.server == Some(c) then Synced else PendingUpload),
                      None);
      } else if f.torn {
        db.UpdateFileStatus(from, Error);
      } else {
        var verdict := ExecuteDeleteLocked(from, held, true, f.(pick := f.source));
        if verdict == Undeleted {
          db.UpsertFile(p, Row(None, Some(c), None, 0, PendingUpload));
        } else if f.again {
          var existing := LookupTracked(p, f.repick);
          if !(existing.Some? && db.rows[existing.value].local == Some(c)) { StartUploading(p, c, existing); }
        }
      }
      MaybeMarkSynced();
    }

    /** A change that is real: one half of a rename, or an upload. */
    method UploadOrRename(p: Path, c: Content, existing: Option<Path>, f: LocalFaults)
      requires existing.Some? ==> existing.value in db.rows
      modifies `phase, `poolSize, `uploads, `pendingDeletes, db`rows
      ensures ChangeTaken(old(View()), p, c, existing, f, View())
    {
      hide Candidates, LocalRename, StartUpload;
      if c != EMPTY {
        var matches := FindRenames(p, c);
        if |matches| == 1 {
          var from :| from in matches;
          InBuffer(View(), p, c, from);
          var held := pendingDeletes[from];
          pendingDeletes := pendingDeletes - {from};
          HandleLocalRename(from, p, held, c, f);
          return;
        }
      }
      StartUploading(p, c, existing);
    }

    method HandleLocalModify(p: Path, f: LocalFaults)
      modifies `phase, `poolSize, `uploads, `pendingDeletes, db`rows
      ensures Is(LocalModify(old(View()), p, f))
    {
      hide LocalModify, ChangeTaken;
      ModifyIgnored(View(), p, f);
      if phase == S.Disconnected { return; }
      if !OnDisk(p) || !f.hashable { return; }
      var c := disk[Key(p)];
      if p in pendingDeletes {
        pendingDeletes := pendingDeletes - {p};
      }
      assert Is(old(View()).(buffered := old(pendingDeletes) - {p}));
      var existing := LookupTracked(p, f.pick);
      if existing.Some? && db.rows[existing.value].local == Some(c) { return; }
      UploadOrRename(p, c, existing, f);
      ModifyTaken(old(View()), p, f, View());
    }

    /** Rename detection's scan of the buffered deletes. */
    method FindRenames(p: Path, c: Content) returns (matches: set<Path>)
      ensures matches == Candidates(View(), p, c)
    {
      matches := {};
      var todo := pendingDeletes.Keys;
      while todo != {}
        invariant todo <= pendingDeletes.Keys
        invariant matches == Candidates(View(), p, c) - todo
        decreases |todo|
      {
        var q :| q in todo;
        todo := todo - {q};
        if pendingDeletes[q].Bytes() == Some(c) && Nearby(q, p) { matches := matches + {q}; }
      }
    }

    method HandleLocalDelete(p: Path, f: LocalFaults)
      modifies `pendingDeletes, db`rows
      ensures Is(LocalDelete(old(View()), p, f))
    {
      if !f.readable { return; }
      var existing := LookupTracked(p, f.pick);
      if existing.None? || db.rows[existing.value].fileId.None? {
        db.RemoveFile(if existing.Some? then existing.value else p);
        return;
      }
      pendingDeletes := pendingDeletes[p := Buffered(existing.value, db.rows[existing.value])];
    }

    /** The buffered delete's timer. */
    method DeleteTimerFires(p: Path, f: LocalFaults)
      requires p in pendingDeletes
      modifies `pendingDeletes, db`rows
      ensures Is(DeleteFires(old(View()), p, f))
    {
      var held := pendingDeletes[p];
      pendingDeletes := pendingDeletes - {p};
      var _ := ExecuteDeleteLocked(p, held, false, f);
    }

    /** `_uploadFile`, once the server has answered. */
    method UploadAnswered(p: Path, sent: Sent)
      modifies `ever, `phase, `uploads, `poolSize, db`rows
      ensures Is(UploadEnds(old(View()), p, sent))
    {
      hide UploadRow;
      RecordUpload(p, sent);
      MaybeMarkSynced();
      uploads := uploads - {p};
      poolSize := if poolSize > 0 then poolSize - 1 else 0;
    }

    method RecordUpload(p: Path, sent: Sent)
      modifies `ever, db`rows
      ensures Rep() == UploadRow(old(Rep()), p, sent)
    {
      match sent
      case Failed => db.UpdateFileStatus(p, Error);
      case Skipped =>
      case Landed(id, b, n, hashable, deleted) =>
        ever := ever + {b};
        var prior := if p in db.rows then db.rows[p] else BLANK;
        if !OnDisk(p) {
          if deleted {
            db.RemoveFile(p);
          } else {
            db.UpsertFile(p, prior.(fileId := Some(id), local := Some(b), server := Some(b), at := n,
                status := PendingDelete));
          }
        } else if !hashable || disk[Key(p)] != b {
          db.UpsertFile(p, prior.(fileId := Some(id), local := Some(b), server := Some(b), at := n,
              status := PendingUpload));
        } else {
          db.UpsertFile(p, Row(Some(id), Some(b), Some(b), n, Synced));
        }
    }

    // --- Rescan and the other recoveries, row by row ---

    method RescanFile(p: Path, f: LocalFaults)
      modifies `phase, `poolSize, `uploads, `pendingDeletes, db`rows
      ensures Is(W.RescanFile(old(View()), p, f))
    {
      hide LocalModify;
      if !OnDisk(p) || !f.hashable { return; }
      var existing := LookupTracked(p, f.pick);
      if existing.Some? && db.rows[existing.value].local == Some(disk[Key(p)]) { return; }
      HandleLocalModify(p, f);
    }

    method ScanFile(p: Path, listed: bool, f: LocalFaults)
      modifies `phase, `poolSize, `uploads, db`rows
      ensures Is(W.ScanFile(old(View()), p, listed, f))
    {
      hide StartUpload;
      if listed || !OnDisk(p) || !f.hashable { return; }
      var c := disk[Key(p)];
      var existing := if p in db.rows then Some(p) else None;
      if existing.Some? && db.rows[p].local == Some(c) { return; }
      StartUploading(p, c, existing);
    }

    method RescanMissing(p: Path, f: LocalFaults)
      modifies `pendingDeletes, db`rows
      ensures Is(W.RescanMissing(old(View()), p, f))
    {
      hide LocalDelete;
      if !OnDisk(p) { HandleLocalDelete(p, f); }
    }

    method RecoverUpload(p: Path, row: Row, f: LocalFaults)
      modifies `phase, `poolSize, `uploads, db`rows
      ensures Is(W.RecoverUpload(old(View()), p, row, f))
    {
      hide S.BeginUpload, S.QueueUpload;
      if p in uploads || !OnDisk(p) || !f.hashable { return; }
      var c := disk[Key(p)];
      if row.status == PendingUpload {
        if row.server == Some(c) {
          db.UpsertFile(p, row.(local := Some(c), status := Synced));
          return;
        }
      } else if !(row.status == Error && row.fileId.None? && row.server.None? && row.local.Some?) {
        return;
      }
      db.UpsertFile(p, row.(local := Some(c), status := PendingUpload));
      Enqueue(p, c);
    }

    method RecoverDelete(p: Path, f: LocalFaults)
      modifies db`rows
      ensures Is(W.RecoverDelete(old(View()), p, f))
    {
      hide ExecuteDelete;
      if p in db.rows && db.rows[p].status == PendingDelete && !OnDisk(p) {
        var _ := ExecuteDeleteLocked(p, Buffered(p, db.rows[p]), false, f);
      }
    }

    /** The reset inside a drained resync. */
    method Reset()
      modifies `phase, `lowestUnappliedSeq, `catchUpTipSeq, `caughtUpAtSeq, `catchUpPending, `activeDownloads,
               `terminalUpgradeReject, `pendingDeletes, db
      ensures Is(Resync(old(View())))
    {
      pendingDeletes := map[];
      var cleared := db.ClearAll(None);
      assert Is(old(View()).(rep := old(Rep()).(rows := map[]), buffered := map[], ses := old(Ses()).(cursor := 0)));
      ForgetSession();
    }

    method ForgetSession()
      modifies `phase, `lowestUnappliedSeq, `catchUpTipSeq, `caughtUpAtSeq, `catchUpPending, `activeDownloads,
               `terminalUpgradeReject
      ensures Ses() == old(Ses()).(phase := S.Connecting, low := 0, tip := 0, caughtUp := false,
                                   handlers := 0, downloads := 0, rejected := false)
    {
      phase, lowestUnappliedSeq, catchUpTipSeq, caughtUpAtSeq := S.Connecting, 0, 0, false;
      catchUpPending, activeDownloads, terminalUpgradeReject := 0, 0, false;
    }
  }

  /** The turns an oracle gives a list of rows. */
  function Turns(order: seq<Path>, oracle: Path -> Turn): (turns: seq<Turn>)
    ensures |turns| == |order|
  {
    seq(|order|, i requires 0 <= i < |order| => oracle(order[i]))
  }

  /** How a real change is taken: as the other half of the one delete it matches, or uploaded. */
  ghost predicate ChangeTaken(w: World, p: Path, c: Content, existing: Option<Path>, f: LocalFaults, t: World)
    requires existing.Some? ==> existing.value in w.rep.rows
  {
    var found := Candidates(w, p, c);
    if c != EMPTY && |found| == 1 then
      exists from :: from in found
        && t == LocalRename(w.(buffered := w.buffered - {from}), from, p, w.buffered[from], c, f)
    else t == StartUpload(w, p, c, existing)
  }

  /** The changes that are none. */
  lemma ModifyIgnored(w0: World, p: Path, f: LocalFaults)
    ensures w0.ses.phase == S.Disconnected || !w0.rep.OnDisk(p) || !f.hashable ==> LocalModify(w0, p, f) == w0
    ensures w0.ses.phase != S.Disconnected && w0.rep.OnDisk(p) && f.hashable
            && w0.rep.LocalOf(w0.rep.Lookup(p, f.pick)) == Some(w0.rep.disk[w0.rep.Key(p)]) ==>
              LocalModify(w0, p, f) == w0.(buffered := w0.buffered - {p})
  {
    hide LocalRename, StartUpload;
  }

  /** The others: rename detection with a single candidate leaves no choice. */
  lemma ModifyTaken(w0: World, p: Path, f: LocalFaults, t: World)
    requires w0.ses.phase != S.Disconnected && w0.rep.OnDisk(p) && f.hashable
    requires var w, c := w0.(buffered := w0.buffered - {p}), w0.rep.disk[w0.rep.Key(p)];
             && w.rep.LocalOf(w.rep.Lookup(p, f.pick)) != Some(c)
             && ChangeTaken(w, p, c, w.rep.Lookup(p, f.pick), f, t)
    ensures t == LocalModify(w0, p, f)
  {
    hide LocalRename, StartUpload;
    var w, c := w0.(buffered := w0.buffered - {p}), w0.rep.disk[w0.rep.Key(p)];
    var found := Candidates(w, p, c);
    if c != EMPTY && |found| == 1 {
      var from :| from in found
        && t == LocalRename(w.(buffered := w.buffered - {from}), from, p, w.buffered[from], c, f);
      OnlyElement(found, from);
    }
  }

  lemma InBuffer(w: World, p: Path, c: Content, from: Path)
    requires from in Candidates(w, p, c)
    ensures from in w.buffered
  {
  }

  lemma OnlyElement<T>(s: set<T>, x: T)
    requires |s| == 1 && x in s
    ensures s == {x}
  {
    assert |s - {x}| == 0;
  }

  /** A listing without repeats is as long as the set it lists. */
  lemma {:induction false} ListingSize<T>(order: seq<T>, s: set<T>)
    requires forall x :: x in s <==> x in order
    requires forall i, j :: 0 <= i < j < |order| ==> order[i] != order[j]
    ensures |order| == |s|
  {
    if order == [] {
      assert s == {};
    } else {
      var rest, x := order[..|order| - 1], order[|order| - 1];
      assert x in s;
      ListingSize(rest, s - {x});
    }
  }

  /** The wedge check's two queries count the outstanding rows. */
  lemma CountsOutstanding(r: Replica, order: seq<Path>)
    requires Enumerates(r, order)
    ensures |order| == Outstanding(r)
  {
    ListingSize(order, set p | p in r.rows && Stranded(r.rows[p]));
  }
}
