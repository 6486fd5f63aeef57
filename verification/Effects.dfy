/**
 What an event whose handler succeeded has done to the folder: its row and its bytes are there, or
 are still owed, or the user's own bytes are; and exactly when a rename does not manage that.
 */
module Effects {
  import opened Types
  import opened Replica

  /** The bytes at a name, if it has a file. */
  function At(r: Replica, p: Path): Option<Content> { if r.OnDisk(p) then Some(r.disk[r.Key(p)]) else None }

  predicate Owes(rows: map<Path, Row>, p: Path, id: FileId, c: Content) {
    p in rows && Stranded(rows[p]) && rows[p].fileId == Some(id) && rows[p].server == Some(c)
  }

  predicate HasLanded(r: Replica, p: Path, id: FileId, c: Content) {
    && p in r.rows && r.rows[p].status == Synced && r.rows[p].fileId == Some(id)
    && r.rows[p].local == r.rows[p].server == Some(c) && At(r, p) == Some(c)
  }

  /** The row names the event's file and content, owes no download, and says SYNCED only of them. */
  predicate Arrived(rows: map<Path, Row>, p: Path, id: FileId, c: Content) {
    && p in rows && rows[p].fileId == Some(id) && rows[p].server == Some(c)
    && !Stranded(rows[p]) && (rows[p].status == Synced ==> rows[p].local == Some(c))
  }

  /** The folder shows the event. An incoming file: its row has arrived, and at its name lie its bytes
      or, untouched, the user's own. A removed one: neither row nor file. A rename: the old name's
      row is gone; a relocated file keeps its bytes, unless they were waiting to be replaced. */
  predicate Effected(was: Replica, now: Replica, e: Change, f: Faults) {
    match e
    case Added(p, id, c) => Arrived(now.rows, p, id, c) && (At(now, p) == Some(c) || At(now, p) == At(was, p))
    case Replaced(p, id, c) => Arrived(now.rows, p, id, c) && (At(now, p) == Some(c) || At(now, p) == At(was, p))
    case Removed(p) => p !in now.rows && At(now, p) == None && Gone(was.Lookup(p, f.pick), now.rows)
    case Renamed(from, p, id, c) =>
      var prior := was.Lookup(from, f.source);
      && Arrived(now.rows, p, id, c) && (prior == Some(p) || Gone(prior, now.rows))
      && (|| At(now, p) == Some(c)
          || (if Relocates(was, from, c, f) then At(now, p) == At(was, from) && !Stranded(was.rows[prior.value])
              else !Moves(was, from, f) && At(now, p) == At(was, p)))
  }

  predicate Gone(p: Option<Path>, rows: map<Path, Row>) { p.Some? ==> p.value !in rows }

  /** An incoming file is already recorded at its name, so nothing is fetched. */
  predicate ShortCircuits(r: Replica, p: Path, c: Content, f: Faults) {
    var existing := r.Lookup(p, f.pick);
    r.LocalOf(existing) == Some(c) && (existing == Some(p) || r.OnDisk(p))
  }

  /** A rename settles over bytes that are not the announced ones: it relocates a file that still
      waits for its download, or its fallback finds the new name already recorded after the move or
      the unlink has put something else there. */
  predicate Forgets(r: Replica, e: Change, f: Faults) {
    && e.Renamed?
    && (if Relocates(r, e.from, e.bytes, f) then
          Stranded(r.rows[r.Lookup(e.from, f.source).value]) && At(r, e.from) != Some(e.bytes)
        else
          var quiet := Vacated(r, e.from, e.path, f);
          && ShortCircuits(quiet, e.path, e.bytes, f) && !(e.path in quiet.rows && Stranded(quiet.rows[e.path]))
          && At(quiet, e.path) != Some(e.bytes) && (Moves(r, e.from, f) || At(quiet, e.path) != At(r, e.path)))
  }

  // --- Incoming files ---

  /** The row records the event's content as both the local and the server's. */
  predicate Carries(rows: map<Path, Row>, p: Path, id: FileId, c: Content) {
    p in rows && rows[p].fileId == Some(id) && rows[p].local == rows[p].server == Some(c)
  }

  /** A download that failed leaves a row that owes the event. */
  lemma IncomingOwes(r: Replica, p: Path, id: FileId, c: Content, n: nat,
                     known: Option<Content>, keepLocal: bool, f: Faults)
    requires Incoming(r, p, id, c, n, known, keepLocal, f).outcome == Deferred
    ensures Owes(Incoming(r, p, id, c, n, known, keepLocal, f).rep.rows, p, id, c) && !ShortCircuits(r, p, c, f)
  {
    hide CaseReconcile;
    var existing := r.Lookup(p, f.pick);
    if existing.Some? && existing.value != p { CaseReconcileOwes(r, existing.value, p, id, c, n, f); }
  }

  lemma CaseReconcileOwes(r: Replica, q: Path, p: Path, id: FileId, c: Content, n: nat, f: Faults)
    requires q in r.rows && CaseReconcile(r, q, p, id, c, n, f).outcome == Deferred
    ensures Owes(CaseReconcile(r, q, p, id, c, n, f).rep.rows, p, id, c) && !(r.rows[q].local == Some(c) && r.OnDisk(p))
  {
  }

  lemma CaseReconcileTakesEffect(r: Replica, q: Path, p: Path, id: FileId, c: Content, n: nat, f: Faults)
    requires q in r.rows && q != p && p !in r.rows && r.Key(q) == r.Key(p)
    requires CaseReconcile(r, q, p, id, c, n, f).outcome.Applied?
    ensures var t := CaseReconcile(r, q, p, id, c, n, f).rep; var short := r.rows[q].local == Some(c) && r.OnDisk(p);
            && Carries(t.rows, p, id, c) && t.rows[p].status == Synced
            && q !in t.rows && t.rows.Keys <= r.rows.Keys + {p}
            && At(t, p) == (if short then At(r, p) else Some(c))
  {
  }

  /** An applied add or replace, told apart by whether it had anything to fetch. */
  lemma IncomingTakesEffect(r: Replica, p: Path, id: FileId, c: Content, n: nat,
                            known: Option<Content>, keepLocal: bool, f: Faults)
    requires Incoming(r, p, id, c, n, known, keepLocal, f).outcome.Applied?
    ensures var t := Incoming(r, p, id, c, n, known, keepLocal, f).rep;
            && Carries(t.rows, p, id, c) && t.rows.Keys <= r.rows.Keys + {p}
            && At(t, p) == (if ShortCircuits(r, p, c, f) then At(r, p) else Some(c))
            && t.rows[p].status == (if ShortCircuits(r, p, c, f) && p in r.rows then r.rows[p].status else Synced)
  {
    hide CaseReconcile;
    var existing := r.Lookup(p, f.pick);
    if existing.Some? && existing.value != p {
      CaseReconcileTakesEffect(r, existing.value, p, id, c, n, f);
    }
  }

  lemma DeleteTakesEffect(r: Replica, p: Path, f: Faults)
    requires Delete(r, p, f).outcome.Applied?
    ensures Effected(r, Delete(r, p, f).rep, Removed(p), f)
  {
  }

  // --- Renames ---

  lemma VacatedRows(r: Replica, from: Path, p: Path, f: Faults)
    ensures var t, prior := Vacated(r, from, p, f), r.Lookup(from, f.source);
            t.rows == r.rows - {if prior.Some? then prior.value else from} && t.folds == r.folds
  {
  }

  /** The disk a fallback starts from. */
  lemma VacatedDisk(r: Replica, from: Path, p: Path, f: Faults)
    ensures var t, s, d := Vacated(r, from, p, f), r.Key(from), r.Key(p);
            t.disk == (if Moves(r, from, f) then
                         (if d == s then (if f.deletable then r.disk - {s} else r.disk)
                          else (r.disk - {s})[d := r.disk[s]])
                       else if f.deletable then r.disk - {s} else r.disk)
  {
    var t, s, d := Vacated(r, from, p, f), r.Key(from), r.Key(p);
    if Moves(r, from, f) && d != s {
      assert t.disk == (r.disk - {s})[d := r.disk[s]];
    }
  }

  lemma RelocationTakesEffect(r: Replica, from: Path, p: Path, id: FileId, c: Content, n: nat, f: Faults)
    requires Relocates(r, from, c, f)
    ensures var e, t := Renamed(from, p, id, c), Rename(r, from, p, id, c, n, f).rep;
            !Owes(t.rows, p, id, c) && (Effected(r, t, e, f) <==> !Forgets(r, e, f))
  {
  }

  lemma FallbackIsIncoming(r: Replica, from: Path, p: Path, id: FileId, c: Content, n: nat, f: Faults)
    requires !Relocates(r, from, c, f)
    ensures var synced := if r.OnDisk(from) && !f.movable then None else r.ServerOf(r.Lookup(from, f.source));
            Rename(r, from, p, id, c, n, f) == Incoming(Vacated(r, from, p, f), p, id, c, n, synced, false, f)
  {
    hide Incoming, Vacated;
  }

  lemma FallbackTakesEffect(r: Replica, from: Path, p: Path, id: FileId, c: Content, n: nat, f: Faults)
    requires !Relocates(r, from, c, f) && Rename(r, from, p, id, c, n, f).outcome.Applied?
    ensures var e, t := Renamed(from, p, id, c), Rename(r, from, p, id, c, n, f).rep;
            Owes(t.rows, p, id, c) || (Effected(r, t, e, f) <==> !Forgets(r, e, f))
  {
    hide Incoming, Rename, Vacated, At, Relocates, ShortCircuits, Moves;
    var quiet := Vacated(r, from, p, f);
    var synced := if r.OnDisk(from) && !f.movable then None else r.ServerOf(r.Lookup(from, f.source));
    FallbackIsIncoming(r, from, p, id, c, n, f);
    VacatedRows(r, from, p, f);
    IncomingTakesEffect(quiet, p, id, c, n, synced, false, f);
  }

  /** An event whose handler succeeded is still owed, has taken effect, or is a rename that forgets;
      and which of the last two is decided by its condition, before the call. */
  lemma ApplyTakesEffect(r: Replica, e: Change, n: nat, f: Faults)
    requires Apply(r, e, n, f).outcome.Applied?
    ensures var a, t := Announce(r, e), Apply(r, e, n, f).rep;
            || (!e.Removed? && Owes(t.rows, e.path, e.id, e.bytes))
            || (Effected(a, t, e, f) <==> !Forgets(a, e, f))
  {
    var a := Announce(r, e);
    hide Incoming, Rename, Delete, Effected, Vacated, Relocates;
    match e
    case Added(p, id, c) => AddTakesEffect(a, e, n, false, f);
    case Replaced(p, id, c) => AddTakesEffect(a, e, n, true, f);
    case Removed(p) => DeleteTakesEffect(a, p, f);
    case Renamed(from, p, id, c) =>
      if Relocates(a, from, c, f) { RelocationTakesEffect(a, from, p, id, c, n, f); }
      else { FallbackTakesEffect(a, from, p, id, c, n, f); }
  }

  lemma AddTakesEffect(r: Replica, e: Change, n: nat, keepLocal: bool, f: Faults)
    requires (e.Added? || e.Replaced?) && Incoming(r, e.path, e.id, e.bytes, n, None, keepLocal, f).outcome.Applied?
    ensures var t := Incoming(r, e.path, e.id, e.bytes, n, None, keepLocal, f).rep;
            Owes(t.rows, e.path, e.id, e.bytes) || Effected(r, t, e, f)
  {
    hide Incoming;
    IncomingTakesEffect(r, e.path, e.id, e.bytes, n, None, keepLocal, f);
  }
}
