/**
 The whole client: folder and table, control state, uploads in flight and buffered deletes.
 Server events, sweeps and local changes are functions on it.
 */
module World {
  import opened Types
  import opened Replica
  import S = Session

  /** A local delete held back for rename detection, with the row it was buffered under. */
  datatype Buffered = Buffered(key: Path, row: Row) {
    /** The content it stands for. */
    function Bytes(): Option<Content> { if row.local.Some? then row.local else row.server }
  }

  datatype World = World(
    rep: Replica,
    ses: S.Session,
    uploads: map<Path, Content>,       // in flight, with the checksum each was started for
    buffered: map<Path, Buffered>)     // _pendingDeletes

  // --- Server events ---

  /** `_shouldSync` and the path guards: what is left of an event for this client. */
  function Narrow(e: Change, skipped: set<Path>): Option<Change> {
    if !e.Renamed? then (if e.path in skipped then None else Some(e))
    else if e.from in skipped && e.path in skipped then None
    else if e.path in skipped then Some(Removed(e.from))
    else if e.from in skipped then Some(Added(e.path, e.id, e.bytes))
    else Some(e)
  }

  function Transferred(s: S.Session, o: Outcome): S.Session {
    if o == Deferred || o == Applied(true) then S.EndDownload(S.BeginDownload(s)) else s
  }

  /** What a handler's outcome does to the cursor. */
  function Settle(s: S.Session, n: nat, o: Outcome): S.Session {
    match o
    case Applied(_) => S.UpdateSeq(s, n)
    case Deferred => s
    case Refused => S.NoteUnapplied(s, n)
  }

  function Bracket(s: S.Session, n: nat, o: Outcome): S.Session {
    S.EndHandler(Settle(Transferred(S.BeginHandler(s), o), n, o))
  }

  /** A rename brackets its own move, and its fallback is a whole add. */
  function HandledSession(s: S.Session, e: Change, n: nat, f: Faults, r: Replica, o: Outcome): S.Session {
    if !e.Renamed? then Bracket(s, n, o)
    else
      var moved := S.EndHandler(S.BeginHandler(s));
      if Relocates(r, e.from, e.bytes, f) then S.UpdateSeq(moved, n) else Bracket(moved, n, o)
  }

  function Receive(w: World, e: Change, n: nat, f: Faults, skipped: set<Path>): World {
    var mine := Narrow(e, skipped);
    if mine.None? then w.(ses := S.UpdateSeq(w.ses, n))
    else
      var h := Apply(w.rep, mine.value, n, f);
      w.(rep := h.rep, ses := HandledSession(w.ses, mine.value, n, f, Announce(w.rep, mine.value), h.outcome))
  }

  // --- Sweeps ---

  /** A stranded row as the sweep found it when it began. */
  datatype Due = Due(path: Path, row: Row)

  /** The order in which the table lists its stranded rows. */
  ghost predicate Enumerates(r: Replica, order: seq<Path>) {
    && (forall i :: 0 <= i < |order| ==> order[i] in r.rows && Stranded(r.rows[order[i]]))
    && (forall p {:trigger p in order} :: p in r.rows && Stranded(r.rows[p]) ==> p in order)
    && (forall i, j :: 0 <= i < j < |order| ==> order[i] != order[j])
  }

  function Snapshots(r: Replica, order: seq<Path>): (dues: seq<Due>)
    requires forall i :: 0 <= i < |order| ==> order[i] in r.rows
    ensures |dues| == |order|
  { seq(|order|, i requires 0 <= i < |order| => Due(order[i], r.rows[order[i]])) }

  /** Whether a turn starts a download. */
  predicate SweepTransfers(r: Replica, p: Path, snap: Row, t: Turn) {
    && !t.passed && snap.fileId.Some? && snap.server.Some?
    && !(r.OnDisk(p) && t.probed && Some(r.disk[r.Key(p)]) == snap.server)
  }

  /** One turn of a sweep. */
  function TakeTurn(w: World, due: Due, t: Turn): World {
    w.(rep := SweepRow(w.rep, due.path, due.row, t),
       ses := if SweepTransfers(w.rep, due.path, due.row, t) then S.EndDownload(S.BeginDownload(w.ses)) else w.ses)
  }

  function LandedBy(w: World, due: Due, t: Turn): nat { if Lands(w.rep, due.path, due.row, t) then 1 else 0 }

  /** The turns that are left, one after the other. */
  datatype Swept = Swept(world: World, landed: nat)

  function TakeTurns(w: World, todo: seq<Due>, turns: seq<Turn>, landed: nat): Swept
    requires |turns| == |todo|
    decreases |todo|
  {
    if todo == [] then Swept(w, landed)
    else TakeTurns(TakeTurn(w, todo[0], turns[0]), todo[1..], turns[1..], landed + LandedBy(w, todo[0], turns[0]))
  }

  /** Rows still waiting for a download. */
  function Outstanding(r: Replica): nat { |set p | p in r.rows && Stranded(r.rows[p])| }

  /** The wedge check that ends a sweep. */
  function EndSweep(w: World, landed: nat): World {
    w.(ses := S.Wedge(w.ses, landed, Outstanding(w.rep)))
  }

  /** `_recoverPending`'s download recovery, when nothing else runs between its turns. */
  function Sweep(w: World, order: seq<Path>, turns: seq<Turn>): World
    requires forall i :: 0 <= i < |order| ==> order[i] in w.rep.rows
    requires |turns| == |order|
  {
    var out := TakeTurns(w, Snapshots(w.rep, order), turns, 0);
    EndSweep(out.world, out.landed)
  }

  /** One listed file of the initial sync. */
  function List(w: World, p: Path, id: FileId, c: Content, n: nat, pre: Option<Content>, f: Faults): World {
    w.(rep := InitialFile(w.rep, p, id, c, n, pre, f),
       ses := if pre == Some(c) then w.ses else S.EndDownload(S.BeginDownload(w.ses)))
  }

  // --- Local changes ---

  datatype LocalFaults = LocalFaults(
    hashable: bool,
    renamed: bool,       // the server's rename call succeeds
    torn: bool,          // the engine is being stopped when that call fails
    again: bool,         // the file can be hashed once more after it
    deleted: bool,       // the server's delete call succeeds
    readable: bool,      // the sync folder is readable, and no transfer owns the deleted path
    renamedAt: nat,      // the sequence number the server gives the rename
    pick: Path,          // the case variant a folded lookup of the path returns
    source: Path,        // the one for a rename's old path
    repick: Path)        // the one the path's second lookup returns

  function LastSlash(p: Path): int
    ensures -1 <= LastSlash(p) < |p|
  {
    if p == "" then -1 else if p[|p| - 1] == '/' then |p| - 1 else LastSlash(p[..|p| - 1])
  }

  function BaseName(p: Path): Path { p[LastSlash(p) + 1..] }

  function DirName(p: Path): Path { if LastSlash(p) < 0 then "." else p[..LastSlash(p)] }

  lemma {:induction false} LastSlashIsLast(p: Path)
    ensures (LastSlash(p) >= 0 ==> p[LastSlash(p)] == '/') && forall i :: LastSlash(p) < i < |p| ==> p[i] != '/'
  {
    if p != "" && p[|p| - 1] != '/' { LastSlashIsLast(p[..|p| - 1]); }
  }

  /** A path is its directory and its base name, which has no slash. */
  lemma NameParts(p: Path)
    ensures '/' !in BaseName(p)
    ensures LastSlash(p) >= 0 ==> p == DirName(p) + "/" + BaseName(p)
    ensures LastSlash(p) < 0 ==> p == BaseName(p) && '/' !in p
  {
    LastSlashIsLast(p);
  }

  /** Rename detection's locality signal. */
  predicate Nearby(a: Path, b: Path) { BaseName(a) == BaseName(b) || DirName(a) == DirName(b) }

  /** The buffered deletes a new file could be the other half of. */
  function Candidates(w: World, p: Path, c: Content): set<Path> {
    set q | q in w.buffered && w.buffered[q].Bytes() == Some(c) && Nearby(q, p)
  }

  function StartUpload(w: World, p: Path, c: Content, existing: Option<Path>): World
    requires existing.Some? ==> existing.value in w.rep.rows
  {
    var prior := if existing.Some? then w.rep.rows[existing.value] else BLANK;
    w.(rep := w.rep.Upsert(p, Row(prior.fileId, Some(c), prior.server, prior.at, PendingUpload)),
       uploads := w.uploads[p := c],
       ses := S.BeginUpload(S.QueueUpload(w.ses)))
  }

  datatype Verdict = Gone | Spared | Undeleted

  datatype Deletion = Deletion(world: World, verdict: Verdict)

  /** `_executeDeleteLocked` */
  function ExecuteDelete(w: World, p: Path, snap: Buffered, fallback: bool, f: LocalFaults): Deletion {
    var found := w.rep.Lookup(p, f.pick);
    var target := if found.Some? then w.rep.rows[found.value] else snap.row;
    var key := if found.Some? then found.value else snap.key;
    if w.ses.phase == S.Disconnected || !f.readable || target.fileId.None?
       || (!fallback && w.rep.OnDisk(p)) || target.local.None? then Deletion(w, Spared)
    else if f.deleted then Deletion(w.(rep := w.rep.Remove(key)), Gone)
    else Deletion(w.(rep := w.rep.SetStatus(key, PendingDelete)), Undeleted)
  }

  /** What follows the failed call to the server's rename: the old path's delete, then the modify
      body once more. Rename detection finds nothing on that second pass (`NoSecondRename`). */
  function RenameFallback(w: World, from: Path, p: Path, held: Buffered, c: Content, f: LocalFaults): World {
    var d := ExecuteDelete(w, from, held, true, f.(pick := f.source));
    if d.verdict == Undeleted then
      d.world.(rep := d.world.rep.Upsert(p, Row(None, Some(c), None, 0, PendingUpload)))
    else if !f.again then d.world
    else
      var existing := d.world.rep.Lookup(p, f.repick);
      if d.world.rep.LocalOf(existing) == Some(c) then d.world else StartUpload(d.world, p, c, existing)
  }

  /** `_handleLocalRename`; `from` has already left the buffer. */
  function LocalRename(w: World, from: Path, p: Path, held: Buffered, c: Content, f: LocalFaults): World {
    var begun := w.(ses := S.BeginRename(w.ses));
    var done :=
      if f.renamed then
        begun.(rep := begun.rep.MoveRow(held.key, p,
          Row(held.row.fileId, Some(c), held.row.server, f.renamedAt,
              if held.row.server == Some(c) then Synced else PendingUpload)))
      else if f.torn then begun.(rep := begun.rep.SetStatus(from, Error))
      else RenameFallback(begun, from, p, held, c, f);
    done.(ses := S.EndRename(done.ses))
  }

  /** Once the only candidate has left the buffer there is no other. */
  lemma NoSecondRename(w: World, p: Path, c: Content, from: Path)
    requires from in Candidates(w, p, c) && |Candidates(w, p, c)| == 1
    ensures Candidates(w.(buffered := w.buffered - {from}), p, c) == {}
  {
    var found, left := Candidates(w, p, c), Candidates(w.(buffered := w.buffered - {from}), p, c);
    assert left <= found - {from};
    assert |found - {from}| == 0;
  }

  /** `_handleLocalModifyLocked` */
  ghost function LocalModify(w0: World, p: Path, f: LocalFaults): World {
    if w0.ses.phase == S.Disconnected || !w0.rep.OnDisk(p) || !f.hashable then w0
    else
      var c := w0.rep.disk[w0.rep.Key(p)];
      var w := w0.(buffered := w0.buffered - {p});
      var existing := w.rep.Lookup(p, f.pick);
      if w.rep.LocalOf(existing) == Some(c) then w
      else
        var found := Candidates(w, p, c);
        if c != EMPTY && |found| == 1 then
          var from :| from in found;
          LocalRename(w.(buffered := w.buffered - {from}), from, p, w.buffered[from], c, f)
        else StartUpload(w, p, c, existing)
  }

  /** `_handleLocalDelete` */
  function LocalDelete(w: World, p: Path, f: LocalFaults): World {
    if !f.readable then w
    else
      var existing := w.rep.Lookup(p, f.pick);
      if existing.None? then w.(rep := w.rep.Remove(p))
      else if w.rep.rows[existing.value].fileId.None? then w.(rep := w.rep.Remove(existing.value))
      else w.(buffered := w.buffered[p := Buffered(existing.value, w.rep.rows[existing.value])])
  }

  /** A buffered delete's timer. */
  function DeleteFires(w: World, p: Path, f: LocalFaults): World
    requires p in w.buffered
  { ExecuteDelete(w.(buffered := w.buffered - {p}), p, w.buffered[p], false, f).world }

  /** `_onLocalChange`'s gate. */
  predicate Listening(s: S.Session) { s.phase != S.Disconnected && s.phase != S.Faulted }

  /** How an upload ends. `bytes` is what the server received, whatever was hashed before. */
  datatype Sent =
    | Failed
    | Skipped   // a server transfer owned the path when the upload's turn came
    | Landed(id: FileId, bytes: Content, at: nat, hashable: bool, deleted: bool)

  /** `_uploadFile`, from the server's answer to the row it leaves. */
  function UploadRow(r0: Replica, p: Path, sent: Sent): Replica {
    match sent
    case Failed => r0.SetStatus(p, Error)
    case Skipped => r0
    case Landed(id, b, n, hashable, deleted) =>
      var r := r0.(ever := r0.ever + {b});
      var prior := if p in r.rows then r.rows[p] else BLANK;
      if !r.OnDisk(p) then
        if deleted then r.Remove(p)
        else r.Upsert(p, prior.(fileId := Some(id), local := Some(b), server := Some(b), at := n,
            status := PendingDelete))
      else if !hashable || r.disk[r.Key(p)] != b then
        r.Upsert(p, prior.(fileId := Some(id), local := Some(b), server := Some(b), at := n, status := PendingUpload))
      else r.Upsert(p, Row(Some(id), Some(b), Some(b), n, Synced))
  }

  function UploadEnds(w: World, p: Path, sent: Sent): World {
    w.(rep := UploadRow(w.rep, p, sent), uploads := w.uploads - {p}, ses := S.EndUpload(w.ses))
  }

  // --- Rescan and the other recoveries ---

  /** One file of `_localRescan`'s walk. */
  ghost function RescanFile(w: World, p: Path, f: LocalFaults): World {
    if !w.rep.OnDisk(p) || !f.hashable then w
    else if w.rep.LocalOf(w.rep.Lookup(p, f.pick)) == Some(w.rep.disk[w.rep.Key(p)]) then w
    else LocalModify(w, p, f)
  }

  /** One file of the scan that ends an initial sync; `listed` says the server listed it. */
  function ScanFile(w: World, p: Path, listed: bool, f: LocalFaults): World {
    if listed || !w.rep.OnDisk(p) || !f.hashable then w
    else
      var c := w.rep.disk[w.rep.Key(p)];
      var existing := if p in w.rep.rows then Some(p) else None;
      if w.rep.LocalOf(existing) == Some(c) then w else StartUpload(w, p, c, existing)
  }

  /** One row of its missed-delete pass, which found it SYNCED when it read the table. */
  function RescanMissing(w: World, p: Path, f: LocalFaults): World {
    if w.rep.OnDisk(p) then w else LocalDelete(w, p, f)
  }

  /** One row of `_recoverPendingUploads`, as the pass read it when it began. A pass starts on an
      idle pool, and the file is not being sent. */
  function RecoverUpload(w: World, p: Path, row: Row, f: LocalFaults): World {
    if p in w.uploads || !w.rep.OnDisk(p) || !f.hashable then w
    else
      var c := w.rep.disk[w.rep.Key(p)];
      if row.status == PendingUpload && row.server == Some(c) then
        w.(rep := w.rep.Upsert(p, row.(local := Some(c), status := Synced)))
      else if row.status == PendingUpload
              || (row.status == Error && row.fileId.None? && row.server.None? && row.local.Some?) then
        w.(rep := w.rep.Upsert(p, row.(local := Some(c), status := PendingUpload)),
           uploads := w.uploads[p := c],
           ses := S.BeginUpload(S.QueueUpload(w.ses)))
      else w
  }

  /** One row of `_recoverPendingDeletes`. */
  function RecoverDelete(w: World, p: Path, f: LocalFaults): World {
    if p in w.rep.rows && w.rep.rows[p].status == PendingDelete && !w.rep.OnDisk(p)
    then ExecuteDelete(w, p, Buffered(p, w.rep.rows[p]), false, f).world
    else w
  }

  /** `_resyncOnce`, after everything has drained. */
  function Resync(w: World): World {
    w.(rep := w.rep.(rows := map[]), buffered := map[],
       ses := w.ses.(phase := S.Connecting, cursor := 0, low := 0, tip := 0, caughtUp := false,
                     handlers := 0, downloads := 0, rejected := false))
  }

  /** The process is stopped or dies, and starts again: rows and cursor are in the database. */
  function Restart(w: World): World { w.(ses := S.Start(w.ses), uploads := map[], buffered := map[]) }
}
