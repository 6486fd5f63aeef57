/**
 A download takes its time: what a handler, a sweep's turn or a listing has done when its download
 starts, and what is left for when it ends. Together they are the whole operation.
 */
module Transfers {
  import opened Types
  import opened Replica
  import opened Effects
  import opened World
  import S = Session

  /** What a download is for. */
  datatype Errand = ForEvent(n: nat) | ForTurn | ForListing

  datatype Fetch = Fetch(path: Path, bytes: Content, errand: Errand)

  /** The client when the download starts, or when it is done if there is none. */
  datatype Begun = Begun(world: World, fetch: Option<Fetch>)

  /** Whether the event comes to a download: when one that fails would defer it. */
  predicate Fetches(r: Replica, e: Change, n: nat, f: Faults) {
    !e.Removed? && Apply(r, e, n, f.(fetched := false)).outcome == Deferred
  }

  /** The folder at that point: all that a failed download leaves, but for the row's status. */
  function FolderAtStart(r: Replica, e: Change, n: nat, f: Faults): Replica
    requires Fetches(r, e, n, f)
  { Apply(r, e, n, f.(fetched := false)).rep.SetStatus(e.path, PendingDownload) }

  function SessionAtStart(s: S.Session, e: Change): S.Session {
    S.BeginDownload(S.BeginHandler(if e.Renamed? then S.EndHandler(S.BeginHandler(s)) else s))
  }

  function BeginReceive(w: World, e: Change, n: nat, f: Faults, skipped: set<Path>): Begun {
    var mine := Narrow(e, skipped);
    if mine.None? then Begun(w.(ses := S.UpdateSeq(w.ses, n)), None)
    else if Fetches(w.rep, mine.value, n, f) then
      Begun(w.(rep := FolderAtStart(w.rep, mine.value, n, f), ses := SessionAtStart(w.ses, mine.value)),
            Some(Fetch(mine.value.path, mine.value.bytes, ForEvent(n))))
    else Begun(Receive(w, e, n, f.(fetched := false), skipped), None)
  }

  function BeginTurn(w: World, due: Due, t: Turn): Begun {
    if SweepTransfers(w.rep, due.path, due.row, t) then
      var c := due.row.server.value;
      Begun(w.(rep := SaveCopy(w.rep, due.path, c, None, t.faults), ses := S.BeginDownload(w.ses)),
            Some(Fetch(due.path, c, ForTurn)))
    else Begun(w.(rep := SweepRow(w.rep, due.path, due.row, t)), None)
  }

  function BeginList(w: World, p: Path, id: FileId, c: Content, n: nat, pre: Option<Content>, f: Faults): Begun {
    var r := w.rep.(ever := w.rep.ever + {c});
    if pre == Some(c) then Begun(w.(rep := r.Upsert(p, Row(Some(id), pre, Some(c), n, Synced))), None)
    else
      var saved := if pre.Some? then SaveCopy(r, p, c, None, f) else r;
      Begun(w.(rep := saved.Upsert(p, Row(Some(id), None, Some(c), n, PendingDownload)), ses := S.BeginDownload(w.ses)),
            Some(Fetch(p, c, ForListing)))
  }

  /** The download ends, and with it what it was for. */
  function EndFetch(w: World, x: Fetch, fetched: bool): World {
    var s := S.EndDownload(w.ses);
    w.(rep := Download(w.rep, x.path, x.bytes, fetched),
       ses := if x.errand.ForEvent? then
                S.EndHandler(Settle(s, x.errand.n, if fetched then Applied(true) else Deferred))
              else s)
  }

  // --- The two halves are the whole ---

  function Whole(b: Begun, fetched: bool): World {
    if b.fetch.None? then b.world else EndFetch(b.world, b.fetch.value, fetched)
  }

  /** Whether a download runs does not depend on how it ends, and its end is all that does. */
  predicate Splits(on: Handled, off: Handled, p: Path, c: Content) {
    if off.outcome == Deferred then
      on.outcome == Applied(true) && on.rep == Download(off.rep.SetStatus(p, PendingDownload), p, c, true)
      && off.rep == Download(off.rep.SetStatus(p, PendingDownload), p, c, false)
    else on == off
  }

  lemma TransferSplits(r: Replica, p: Path, c: Content)
    requires p in r.rows
    ensures Splits(Transfer(r, p, c, true), Transfer(r, p, c, false), p, c)
  {
    var row := r.rows[p];
    var off := Transfer(r, p, c, false).rep;
    assert off.SetStatus(p, PendingDownload).rows[p] == row.(status := PendingDownload);
    assert off.rows[p := row.(status := PendingDownload)][p := row.(status := Error)] == off.rows;
    assert off.rows[p := row.(status := PendingDownload)][p := row.(local := Some(c), status := Synced)]
           == r.rows[p := row.(local := Some(c), status := Synced)];
  }

  lemma CaseReconcileSplits(r: Replica, q: Path, p: Path, id: FileId, c: Content, n: nat, f: Faults)
    requires q in r.rows
    ensures Splits(CaseReconcile(r, q, p, id, c, n, f.(fetched := true)),
                   CaseReconcile(r, q, p, id, c, n, f.(fetched := false)), p, c)
  {
    hide SaveCopy, Transfer, Splits;
    var row := r.rows[q];
    var same := row.local == Some(c) && r.OnDisk(p);
    if (r.OnDisk(q) && !f.recase.Recased?) || same {
      SplitsSame(CaseReconcile(r, q, p, id, c, n, f.(fetched := true)), p, c);
    } else {
      var moved := r.MoveRow(q, p, row.(fileId := Some(id), server := Some(c), at := n, status := PendingDownload));
      CopyIgnoresFetch(moved, p, c, row.server, f);
      TransferSplits(SaveCopy(moved, p, c, row.server, f), p, c);
    }
  }

  lemma SplitsSame(h: Handled, p: Path, c: Content)
    requires h.outcome != Deferred
    ensures Splits(h, h, p, c)
  {
  }

  lemma CopyIgnoresFetch(r: Replica, p: Path, c: Content, known: Option<Content>, f: Faults)
    ensures SaveCopy(r, p, c, known, f.(fetched := true)) == SaveCopy(r, p, c, known, f)
    ensures SaveCopy(r, p, c, known, f.(fetched := false)) == SaveCopy(r, p, c, known, f)
    ensures SaveCopy(r, p, c, known, f).rows == r.rows
  {
  }

  lemma IncomingSplits(r: Replica, p: Path, id: FileId, c: Content, n: nat,
                       known: Option<Content>, keepLocal: bool, f: Faults)
    ensures Splits(Incoming(r, p, id, c, n, known, keepLocal, f.(fetched := true)),
                   Incoming(r, p, id, c, n, known, keepLocal, f.(fetched := false)), p, c)
  {
    hide CaseReconcile, SaveCopy, Transfer, Splits;
    var existing := r.Lookup(p, f.pick);
    if existing.Some? && existing.value != p {
      CaseReconcileSplits(r, existing.value, p, id, c, n, f);
    } else if r.LocalOf(existing) == Some(c) {
      SplitsSame(Incoming(r, p, id, c, n, known, keepLocal, f.(fetched := true)), p, c);
    } else {
      var knows := if known.Some? then known else r.ServerOf(existing);
      CopyIgnoresFetch(r, p, c, knows, f);
      var row := Row(Some(id), if keepLocal then r.LocalOf(existing) else None, Some(c), n, PendingDownload);
      TransferSplits(SaveCopy(r, p, c, knows, f).Upsert(p, row), p, c);
    }
  }

  lemma VacatedIgnoresFetch(r: Replica, from: Path, p: Path, f: Faults)
    ensures Vacated(r, from, p, f.(fetched := true)) == Vacated(r, from, p, f)
    ensures Vacated(r, from, p, f.(fetched := false)) == Vacated(r, from, p, f)
  {
  }

  lemma RenameSplits(r: Replica, from: Path, p: Path, id: FileId, c: Content, n: nat, f: Faults)
    ensures Splits(Rename(r, from, p, id, c, n, f.(fetched := true)),
                   Rename(r, from, p, id, c, n, f.(fetched := false)), p, c)
  {
    hide Incoming, Vacated;
    if Relocates(r, from, c, f) {
      RelocatesAlike(r, from, p, id, c, n, f);
    } else {
      VacatedIgnoresFetch(r, from, p, f);
      FallbackIsIncoming(r, from, p, id, c, n, f.(fetched := true));
      FallbackIsIncoming(r, from, p, id, c, n, f.(fetched := false));
      var synced := if r.OnDisk(from) && !f.movable then None else r.ServerOf(r.Lookup(from, f.source));
      IncomingSplits(Vacated(r, from, p, f), p, id, c, n, synced, false, f);
    }
  }

  lemma RelocatesAlike(r: Replica, from: Path, p: Path, id: FileId, c: Content, n: nat, f: Faults)
    requires Relocates(r, from, c, f)
    ensures Splits(Rename(r, from, p, id, c, n, f.(fetched := true)),
                   Rename(r, from, p, id, c, n, f.(fetched := false)), p, c)
  {
  }

  lemma ApplySplits(r: Replica, e: Change, n: nat, f: Faults)
    ensures var on, off := Apply(r, e, n, f.(fetched := true)), Apply(r, e, n, f.(fetched := false));
            if e.Removed? then on == off && off.outcome != Deferred else Splits(on, off, e.path, e.bytes)
  {
    hide Incoming, Rename, Splits;
    var a := Announce(r, e);
    match e
    case Added(p, id, c) => IncomingSplits(a, p, id, c, n, None, false, f);
    case Replaced(p, id, c) => IncomingSplits(a, p, id, c, n, None, true, f);
    case Removed(p) =>
    case Renamed(from, p, id, c) => RenameSplits(a, from, p, id, c, n, f);
  }

  lemma SessionSplits(s: S.Session, e: Change, n: nat, f: Faults, r: Replica)
    requires e.Renamed? ==> !Relocates(r, e.from, e.bytes, f)
    ensures var o := if f.fetched then Applied(true) else Deferred;
            HandledSession(s, e, n, f, r, o) == S.EndHandler(Settle(S.EndDownload(SessionAtStart(s, e)), n, o))
  {
    hide S.EndHandler, S.BeginHandler, S.EndDownload, S.BeginDownload, Settle;
  }

  lemma RelocationFetchesNothing(r: Replica, e: Change, n: nat, f: Faults)
    requires e.Renamed? && Relocates(Announce(r, e), e.from, e.bytes, f)
    ensures Apply(r, e, n, f.(fetched := false)).outcome == Applied(false) && !Fetches(r, e, n, f)
  {
    hide Add, Vacated;
  }

  /** A handler is what it has done when its download starts, and then the download's end. */
  lemma ReceiveIsBoth(w: World, e: Change, n: nat, f: Faults, skipped: set<Path>)
    ensures Receive(w, e, n, f, skipped) == Whole(BeginReceive(w, e, n, f, skipped), f.fetched)
  {
    hide Apply, HandledSession, Fetches, FolderAtStart, SessionAtStart, EndFetch;
    var mine := Narrow(e, skipped);
    if mine.Some? {
      if Fetches(w.rep, mine.value, n, f) {
        FetchingIsBoth(w, mine.value, n, f);
      } else {
        SettlingIsWhole(w, mine.value, n, f);
      }
    }
  }

  lemma FetchingIsBoth(w: World, e: Change, n: nat, f: Faults)
    requires Fetches(w.rep, e, n, f)
    ensures var h := Apply(w.rep, e, n, f);
            w.(rep := h.rep, ses := HandledSession(w.ses, e, n, f, Announce(w.rep, e), h.outcome))
            == EndFetch(w.(rep := FolderAtStart(w.rep, e, n, f), ses := SessionAtStart(w.ses, e)),
                        Fetch(e.path, e.bytes, ForEvent(n)), f.fetched)
  {
    hide Apply, HandledSession, Relocates, Download, SessionAtStart, S.EndHandler, S.EndDownload, Settle;
    ApplySplits(w.rep, e, n, f);
    assert f == f.(fetched := true) || f == f.(fetched := false);
    if e.Renamed? && Relocates(Announce(w.rep, e), e.from, e.bytes, f) { RelocationFetchesNothing(w.rep, e, n, f); }
    SessionSplits(w.ses, e, n, f, Announce(w.rep, e));
  }

  lemma SettlingIsWhole(w: World, e: Change, n: nat, f: Faults)
    requires !Fetches(w.rep, e, n, f)
    ensures var h, off := Apply(w.rep, e, n, f), Apply(w.rep, e, n, f.(fetched := false));
            && h == off
            && HandledSession(w.ses, e, n, f, Announce(w.rep, e), h.outcome)
               == HandledSession(w.ses, e, n, f.(fetched := false), Announce(w.rep, e), h.outcome)
  {
    hide Apply, HandledSession, Download;
    ApplySplits(w.rep, e, n, f);
    assert f == f.(fetched := true) || f == f.(fetched := false);
    SettledAlike(w.ses, e, n, f, Announce(w.rep, e), Apply(w.rep, e, n, f).outcome);
  }

  lemma SettledAlike(s: S.Session, e: Change, n: nat, f: Faults, r: Replica, o: Outcome)
    ensures HandledSession(s, e, n, f, r, o) == HandledSession(s, e, n, f.(fetched := false), r, o)
  {
    hide S.EndHandler, S.BeginHandler, Settle, Transferred;
  }

  lemma TurnIsBoth(w: World, due: Due, t: Turn)
    ensures TakeTurn(w, due, t) == Whole(BeginTurn(w, due, t), t.faults.fetched)
  {
  }

  lemma ListIsBoth(w: World, p: Path, id: FileId, c: Content, n: nat, pre: Option<Content>, f: Faults)
    ensures List(w, p, id, c, n, pre, f) == Whole(BeginList(w, p, id, c, n, pre, f), f.fetched)
  {
  }
}
