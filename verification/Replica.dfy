/**
 The sync folder and the `files` table, and what each server-event handler and recovery
 pass does to them. A fault oracle decides every step that can fail.
 */
module Replica {
  import opened Types

  /** The columns an upsert of a path alone leaves. */
  const BLANK := Row(None, None, None, 0, Synced)

  /** A conflict copy, by the name it was moved aside from. */
  datatype Copy = Copy(origin: Path, bytes: Content)

  datatype Replica = Replica(
    folds: bool,               // _fsCaseFolds
    disk: map<Path, Content>,  // by the name the volume resolves to
    rows: map<Path, Row>,
    copies: seq<Copy>,
    ever: set<Content>)        // history: every content the server has held
  {
    function Key(p: Path): Path { if folds then Fold(p) else p }

    predicate OnDisk(p: Path) { Key(p) in disk }

    function Write(p: Path, c: Content): Replica { this.(disk := disk[Key(p) := c]) }

    function Unlink(p: Path): Replica { this.(disk := disk - {Key(p)}) }

    function Upsert(p: Path, row: Row): Replica { this.(rows := rows[p := row]) }

    function Remove(p: Path): Replica { this.(rows := rows - {p}) }

    function SetStatus(p: Path, st: Status): Replica {
      if p in rows then Upsert(p, rows[p].(status := st)) else this
    }

    /** `renameFile`: one transaction. */
    function MoveRow(from: Path, p: Path, row: Row): Replica { Remove(from).Upsert(p, row) }

    /** `_lookupTracked`: the exact row, else, on a folding volume, a case variant of it.
        `pick` is the variant the query returns; it is ignored when it is not one. */
    function Lookup(p: Path, pick: Path): Option<Path> {
      if p in rows then Some(p)
      else if folds && pick in rows && Fold(pick) == Fold(p) then Some(pick)
      else None
    }

    function LocalOf(p: Option<Path>): Option<Content>
      requires p.Some? ==> p.value in rows
    { if p.Some? then rows[p.value].local else None }

    function ServerOf(p: Option<Path>): Option<Content>
      requires p.Some? ==> p.value in rows
    { if p.Some? then rows[p.value].server else None }
  }

  /** How a two-step case rename ends. `Adrift` is when its second step and the undo of its first
      both fail: the file is left under a scratch name that the next boot deletes. */
  datatype Recase = Recased | Kept | Adrift

  /** How one handler's fallible operations come out, each by itself. */
  datatype Faults = Faults(
    hashable: bool,   // the local file can be hashed
    movable: bool,    // a server rename's own move succeeds
    recase: Recase,   // the case rename
    stashable: bool,  // the rename to a conflict copy succeeds
    fetched: bool,    // the download lands, checksum verified
    deletable: bool,  // an unlink succeeds
    pick: Path,       // the case variant a folded lookup of the event's path returns
    source: Path)     // the one for a rename's old path

  /** What a handler tells the cursor. `transferred` says a download ran. */
  datatype Outcome = Applied(transferred: bool) | Deferred | Refused

  datatype Handled = Handled(rep: Replica, outcome: Outcome)

  // --- Handlers ---

  /** `_maybeSaveConflictCopy` */
  function SaveCopy(r: Replica, p: Path, incoming: Content, known: Option<Content>, f: Faults): Replica {
    if !r.OnDisk(p) then r
    else
      var c := r.disk[r.Key(p)];
      if f.hashable && (c == incoming || known == Some(c)) then r
      else if f.stashable then r.Unlink(p).(copies := r.copies + [Copy(p, c)])
      else r
  }

  /** `_downloadFileLocked`, from the transfer to the row it leaves. */
  function Download(r: Replica, p: Path, c: Content, fetched: bool): Replica {
    if fetched then
      var row := if p in r.rows then r.rows[p] else BLANK;
      r.Write(p, c).Upsert(p, row.(local := Some(c), status := Synced))
    else r.SetStatus(p, Error)
  }

  function Transfer(r: Replica, p: Path, c: Content, fetched: bool): Handled {
    Handled(Download(r, p, c, fetched), if fetched then Applied(true) else Deferred)
  }

  /** `_reconcileCaseRename`: the row moves from `q` to the server's casing `p`. On the folding
      volume both names are one file, so the two-step rename leaves its bytes in place. */
  function CaseReconcile(r: Replica, q: Path, p: Path, id: FileId, c: Content, n: nat, f: Faults): Handled
    requires q in r.rows
  {
    if r.OnDisk(q) && !f.recase.Recased? then
      Handled(if f.recase.Adrift? then r.Unlink(q) else r, Refused)
    else
      var row := r.rows[q];
      var same := row.local == Some(c) && r.OnDisk(p);
      var moved := r.MoveRow(q, p, row.(fileId := Some(id), server := Some(c), at := n,
                                        status := if same then Synced else PendingDownload));
      if same then Handled(moved, Applied(false))
      else Transfer(SaveCopy(moved, p, c, row.server, f), p, c, f.fetched)
  }

  /** The part `_handleFileAdded` and `_handleFileReplaced` share; they differ in the content
      they already know to be synced and in the row they write before the transfer. */
  function Incoming(r: Replica, p: Path, id: FileId, c: Content, n: nat,
                    known: Option<Content>, keepLocal: bool, f: Faults): Handled
  {
    var existing := r.Lookup(p, f.pick);
    if existing.Some? && existing.value != p then CaseReconcile(r, existing.value, p, id, c, n, f)
    else if r.LocalOf(existing) == Some(c) then
      Handled(r.Upsert(p, r.rows[p].(at := n, server := Some(c), fileId := Some(id))), Applied(false))
    else
      var saved := SaveCopy(r, p, c, if known.Some? then known else r.ServerOf(existing), f);
      var local := if keepLocal then r.LocalOf(existing) else None;
      Transfer(saved.Upsert(p, Row(Some(id), local, Some(c), n, PendingDownload)), p, c, f.fetched)
  }

  /** `_handleFileAdded`; `known` is passed only by the rename fallback. */
  function Add(r: Replica, p: Path, id: FileId, c: Content, n: nat, known: Option<Content>, f: Faults): Handled {
    Incoming(r, p, id, c, n, known, false, f)
  }

  /** `_handleFileReplaced` */
  function Replace(r: Replica, p: Path, id: FileId, c: Content, n: nat, f: Faults): Handled {
    Incoming(r, p, id, c, n, None, true, f)
  }

  /** `_handleFileRemoved` */
  function Delete(r: Replica, p: Path, f: Faults): Handled {
    var existing := r.Lookup(p, f.pick);
    var key := if existing.Some? then existing.value else p;
    if !r.OnDisk(p) then Handled(r.Remove(key), Applied(false))
    else
      var c := r.disk[r.Key(p)];
      if !f.hashable then Handled(r, Refused)
      else if r.ServerOf(existing) == Some(c) then
        if f.deletable then Handled(r.Unlink(p).Remove(key), Applied(false)) else Handled(r, Refused)
      else if f.stashable then
        Handled(r.Unlink(p).(copies := r.copies + [Copy(p, c)]).Remove(key), Applied(false))
      else Handled(r, Refused)
  }

  /** Whether `_handleFileRenamed` relocates the file itself. */
  predicate Moves(r: Replica, from: Path, f: Faults) { r.OnDisk(from) && f.movable }

  function Relocate(r: Replica, from: Path, p: Path): Replica
    requires r.OnDisk(from)
  {
    var c := r.disk[r.Key(from)];
    r.Unlink(from).Write(p, c)
  }

  /** Whether a rename ends with the moved file's row rewritten, rather than a fresh download. */
  predicate Relocates(r: Replica, from: Path, c: Content, f: Faults) {
    Moves(r, from, f) && r.ServerOf(r.Lookup(from, f.source)) == Some(c)
  }

  /** `_handleFileRemovedNoSeq` */
  function DeleteQuietly(r: Replica, p: Path, f: Faults): Replica {
    var existing := r.Lookup(p, f.source);
    var key := if existing.Some? then existing.value else p;
    var cleared := if f.deletable then r.Unlink(p) else r;
    cleared.Remove(key)
  }

  /** `_handleFileRenamed`, both names in scope. */
  function Rename(r: Replica, from: Path, p: Path, id: FileId, c: Content, n: nat, f: Faults): Handled {
    var existing := r.Lookup(from, f.source);
    if Relocates(r, from, c, f) then
      var row := r.rows[existing.value];
      var diverged := row.local.Some? && row.local != row.server;
      Handled(Relocate(r, from, p).MoveRow(existing.value, p,
                            Row(Some(id), if diverged then row.local else Some(c), Some(c), n,
                                if diverged then PendingUpload else Synced)),
              Applied(false))
    else
      // a failed move throws before the last-synced content is read
      var synced := if r.OnDisk(from) && !f.movable then None else r.ServerOf(existing);
      Add(Vacated(r, from, p, f), p, id, c, n, synced, f)
  }

  /** What a rename's fallback starts from: the file moved if it could be, and its old name cleared. */
  function Vacated(r: Replica, from: Path, p: Path, f: Faults): Replica {
    DeleteQuietly(if Moves(r, from, f) then Relocate(r, from, p) else r, from, f)
  }

  /** One server event within the selected scope. The server holds what it announces. */
  function Apply(r0: Replica, e: Change, n: nat, f: Faults): Handled {
    var r := Announce(r0, e);
    match e
    case Added(p, id, c) => Add(r, p, id, c, n, None, f)
    case Replaced(p, id, c) => Replace(r, p, id, c, n, f)
    case Removed(p) => Delete(r, p, f)
    case Renamed(from, p, id, c) => Rename(r, from, p, id, c, n, f)
  }

  function Announce(r: Replica, e: Change): Replica {
    if e.Removed? then r else r.(ever := r.ever + {e.bytes})
  }

  /** One file of `_initialSync`'s listing. `pre` is its hash from before the loop began, if it was
      there and could be hashed; without one the file is never compared and never copied aside. */
  function InitialFile(r0: Replica, p: Path, id: FileId, c: Content, n: nat, pre: Option<Content>, f: Faults): Replica {
    var r := r0.(ever := r0.ever + {c});
    if pre == Some(c) then
      r.Upsert(p, Row(Some(id), pre, Some(c), n, Synced))
    else
      var saved := if pre.Some? then SaveCopy(r, p, c, None, f) else r;
      Download(saved.Upsert(p, Row(Some(id), None, Some(c), n, PendingDownload)), p, c, f.fetched)
  }

  // --- The reconcile sweep ---

  /** A row the download recovery re-drives. */
  predicate Stranded(row: Row) { row.status == PendingDownload || row.status == Error }

  /** What one row's turn in `_recoverPending` comes to. */
  datatype Turn = Turn(
    passed: bool,     // suppressed, over the cap, or no space yet
    probed: bool,     // the file can be hashed to see whether it already is what is missing
    faults: Faults)

  /** One row of `_recoverPending`, from the snapshot taken when the sweep began. */
  function SweepRow(r: Replica, p: Path, snap: Row, t: Turn): Replica {
    if t.passed || snap.fileId.None? || snap.server.None? then r
    else
      var c := snap.server.value;
      if r.OnDisk(p) && t.probed && r.disk[r.Key(p)] == c then
        var row := if p in r.rows then r.rows[p] else BLANK;
        r.Upsert(p, row.(local := Some(c), server := Some(c), fileId := snap.fileId, status := Synced))
      else
        Download(SaveCopy(r, p, c, None, t.faults), p, c, t.faults.fetched)
  }

  /** Whether that turn converged the row. */
  predicate Lands(r: Replica, p: Path, snap: Row, t: Turn) {
    && !t.passed && snap.fileId.Some? && snap.server.Some?
    && (t.faults.fetched || (r.OnDisk(p) && t.probed && Some(r.disk[r.Key(p)]) == snap.server))
  }
}
