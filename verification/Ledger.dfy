/**
 No server event is lost: every event at or below the persisted cursor was applied or
 deliberately skipped, is still owed by a row that names it, or gave way to a later change of
 the same file.
 */
module Ledger {
  import opened Types
  import opened Replica
  import opened Safety
  import opened LocalSafety
  import opened World
  import opened Transfers
  import opened Runs
  import opened Effects
  import S = Session

  // --- The book ---

  /** What became of a delivered event. `Unmet` is the outcome the theorem rules out. */
  datatype Fate =
    | OutOfScope
    | Done(was: Replica, now: Replica, f: Faults)  // applied, from `was` to `now`
    | Owed(path: Path, id: FileId, bytes: Content)
    | Delivered(path: Path, id: FileId, bytes: Content, at: Replica)  // owed, and since landed
    | Overtaken          // another server event or listing of the same file was handled since
    | Displaced          // a local change, delete, rename or upload of that very file took the row over
    | Forgotten(was: Replica, f: Faults)  // a rename that settled over other bytes
    | Unmet

  type Book = map<nat, Fate>

  /** The rows an event's handler may change. */
  function Touched(e: Change, f: Faults): set<Path> {
    {e.path, f.pick} + if e.Renamed? then {e.from, f.source} else {}
  }

  predicate IsLocal(s: Step) {
    s.LocalChanges? || s.LocalDeletes? || s.TimerFires? || s.UploadSettles?
    || s.RescansFile? || s.Scans? || s.RescansMissing? || s.RecoversUpload? || s.RecoversDelete?
  }

  /** The buffered deletes that a file at `p` could be the other half of. */
  function Halves(w: World, p: Path): set<Path> {
    if w.rep.OnDisk(p) then Candidates(w.(buffered := w.buffered - {p}), p, w.rep.disk[w.rep.Key(p)]) else {}
  }

  /** The rows a local step may change: its own file's, a case variant's, and, when a file appears,
      those of a deleted file with its very content that rename detection may pair it with. */
  function LocalNames(w: World, s: Step): set<Path>
    requires IsLocal(s)
  {
    {s.p} + (if s.UploadSettles? then {} else {s.g.pick})
    + (if s.LocalChanges? || s.RescansFile? then
         {s.g.source, s.g.repick} + Halves(w, s.p) + (set q | q in Halves(w, s.p) :: w.buffered[q].key)
       else if s.TimerFires? && s.p in w.buffered then {w.buffered[s.p].key} else {})
  }

  /** How an event just delivered enters the book. */
  function Entered(was: Replica, now: Replica, mine: Option<Change>, f: Faults, o: Outcome): Fate {
    if mine.None? then OutOfScope
    else
      var e, was := mine.value, Announce(was, mine.value);
      if o == Refused then Unmet
      else if !e.Removed? && Owes(now.rows, e.path, e.id, e.bytes) then Owed(e.path, e.id, e.bytes)
      else if o.Applied? && Effected(was, now, e, f) then Done(was, now, f)
      else if o.Applied? && Forgets(was, e, f) then Forgotten(was, f)
      else Unmet
  }

  /** How an older entry fares: an owed event whose row stopped owing it must have a reason. */
  ghost function Carried(cfg: Setup, w: World, s: Step, after: Replica, was: Fate): Fate
    requires s.Receives? ==> 0 < s.n <= |cfg.log|
  {
    if !was.Owed? || Owes(after.rows, was.path, was.id, was.bytes) then was
    else if s.Receives? then
      var mine := Narrow(cfg.log[s.n - 1], cfg.skipped);
      if mine.Some? && was.path in Touched(mine.value, s.f) then Overtaken else Unmet
    else if s.SweepTurns? || s.FetchEnds? then
      if HasLanded(after, was.path, was.id, was.bytes) then Delivered(was.path, was.id, was.bytes, after) else Unmet
    else if s.Lists? then
      if s.p == was.path then Overtaken else Unmet
    else if IsLocal(s) && was.path in LocalNames(w, s) then Displaced
    else Unmet
  }

  /** How a delivered event came out, deferred while its download is under way; one out of scope
      settles like one applied. */
  ghost function OutcomeOf(cfg: Setup, w: World, n: nat, f: Faults): Outcome
    requires 0 < n <= |cfg.log|
  {
    var mine := Narrow(cfg.log[n - 1], cfg.skipped);
    if mine.None? then Applied(false) else Apply(w.rep, mine.value, n, f.(fetched := false)).outcome
  }

  ghost function Record(cfg: Setup, y: System, s: Step, book: Book): Book
    requires Enabled(cfg, y, s)
  {
    var after := Next(cfg, y, s).w.rep;
    if s.Resyncs? then map[]
    else if s.Receives? then
      var mine := Narrow(cfg.log[s.n - 1], cfg.skipped);
      (map m | m in book :: Carried(cfg, y.w, s, after, book[m]))
        [s.n := Entered(y.w.rep, after, mine, s.f.(fetched := false), OutcomeOf(cfg, y.w, s.n, s.f))]
    else map m | m in book :: Carried(cfg, y.w, s, after, book[m])
  }

  /** What an entry claims about its event. */
  ghost predicate Vouches(cfg: Setup, r: Replica, m: nat, fate: Fate) {
    match fate
    case Owed(p, id, c) => Owes(r.rows, p, id, c)
    case Delivered(p, id, c, t) => HasLanded(t, p, id, c)
    case Done(was, now, f) =>
      && 0 < m <= |cfg.log| && Narrow(cfg.log[m - 1], cfg.skipped).Some?
      && Effected(was, now, Narrow(cfg.log[m - 1], cfg.skipped).value, f)
    case Forgotten(was, f) =>
      && 0 < m <= |cfg.log| && Narrow(cfg.log[m - 1], cfg.skipped).Some?
      && Forgets(was, Narrow(cfg.log[m - 1], cfg.skipped).value, f)
    case _ => true
  }

  /** A sweep's snapshots still name what their rows owe. */
  ghost predicate DuesMatch(sweep: Option<Sweeping>, book: Book) {
    sweep.Some? ==>
      forall m, i ::
        m in book && book[m].Owed? && 0 <= i < |sweep.value.todo| && sweep.value.todo[i].path == book[m].path ==>
        sweep.value.todo[i].row.fileId == Some(book[m].id) && sweep.value.todo[i].row.server == Some(book[m].bytes)
  }

  /** The download under way is of what its row owes, and an event it is for was the last delivered. */
  ghost predicate FetchMatches(fetch: Option<Fetch>, upto: nat, book: Book) {
    fetch.Some? ==>
      && (forall m :: m in book && book[m].Owed? && book[m].path == fetch.value.path ==>
          book[m].bytes == fetch.value.bytes)
      && (fetch.value.errand.ForEvent? ==>
            fetch.value.errand.n == upto && upto in book && book[upto] != Unmet)
  }

  /** The invariant over runs. */
  ghost predicate Accounted(cfg: Setup, y: System, book: Book) {
    var s := y.w.ses;
    && (s.low > 0 ==> s.cursor < s.low)
    && s.cursor <= y.upto && s.low <= y.upto
    && (forall m :: 1 <= m <= y.upto ==> m in book)
    && (forall m :: m in book && m <= y.upto && book[m] == Unmet ==> 0 < s.low <= m)
    && (forall m :: m in book ==> Vouches(cfg, y.w.rep, m, book[m]))
    && DuesMatch(y.sweep, book) && FetchMatches(y.fetch, y.upto, book)
  }

  // --- The cursor ---

  lemma BracketCursor(s: S.Session, n: nat, o: Outcome)
    ensures var t, u := Bracket(s, n, o), Settle(s, n, o); t.cursor == u.cursor && t.low == u.low
  {
  }

  lemma RelocationApplies(r: Replica, e: Change, n: nat, f: Faults)
    requires r == Announce(r, e) && e.Renamed? && Relocates(r, e.from, e.bytes, f)
    ensures Apply(r, e, n, f).outcome == Applied(false)
  {
    hide Add, DeleteQuietly;
  }

  lemma HandledCursor(s: S.Session, e: Change, n: nat, f: Faults, r: Replica)
    requires r == Announce(r, e)
    ensures var o := Apply(r, e, n, f).outcome; var t, u := HandledSession(s, e, n, f, r, o), Settle(s, n, o);
            t.cursor == u.cursor && t.low == u.low
  {
    var o := Apply(r, e, n, f).outcome;
    if e.Renamed? && Relocates(r, e.from, e.bytes, f) { RelocationApplies(r, e, n, f); }
    hide Apply, Relocates;
    var moved := S.EndHandler(S.BeginHandler(s));
    BracketCursor(s, n, o);
    BracketCursor(moved, n, o);
    BetweenHandlers(s);
    SettleAlike(s, moved, n, o);
    hide Bracket, Settle, S.EndHandler, S.BeginHandler;
    assert Settle(moved, n, Applied(false)) == S.UpdateSeq(moved, n) by { SettleApplied(moved, n); }
  }

  lemma SettleApplied(s: S.Session, n: nat)
    ensures Settle(s, n, Applied(false)) == S.UpdateSeq(s, n)
  {
  }

  lemma BetweenHandlers(s: S.Session)
    ensures var t := S.EndHandler(S.BeginHandler(s)); t.cursor == s.cursor && t.low == s.low
  {
  }

  lemma SettleAlike(s: S.Session, t: S.Session, n: nat, o: Outcome)
    requires t.cursor == s.cursor && t.low == s.low
    ensures Settle(t, n, o).cursor == Settle(s, n, o).cursor && Settle(t, n, o).low == Settle(s, n, o).low
  {
  }

  // --- Rows ---

  predicate SameRow(r: Replica, t: Replica, q: Path) {
    (q in t.rows <==> q in r.rows) && (q in r.rows ==> t.rows[q] == r.rows[q])
  }

  lemma IncomingFrame(r: Replica, p: Path, id: FileId, c: Content, n: nat,
                      known: Option<Content>, keepLocal: bool, f: Faults, q: Path)
    requires q != p && q != f.pick
    ensures SameRow(r, Incoming(r, p, id, c, n, known, keepLocal, f).rep, q)
  {
    hide CaseReconcile;
    var existing := r.Lookup(p, f.pick);
    if existing.Some? && existing.value != p { ReconcileFrame(r, existing.value, p, id, c, n, f, q); }
  }

  lemma ReconcileFrame(r: Replica, from: Path, p: Path, id: FileId, c: Content, n: nat, f: Faults, q: Path)
    requires from in r.rows && q != p && q != from
    ensures SameRow(r, CaseReconcile(r, from, p, id, c, n, f).rep, q)
  {
  }

  /** A handler leaves other files' rows alone. */
  lemma ApplyFrame(r: Replica, e: Change, n: nat, f: Faults, q: Path)
    requires q !in Touched(e, f)
    ensures SameRow(r, Apply(r, e, n, f).rep, q)
  {
    var a := Announce(r, e);
    match e
    case Added(p, id, c) => IncomingFrame(a, p, id, c, n, None, false, f, q);
    case Replaced(p, id, c) => IncomingFrame(a, p, id, c, n, None, true, f, q);
    case Removed(p) =>
    case Renamed(from, p, id, c) =>
      if !Relocates(a, from, c, f) {
        FallbackIsIncoming(a, from, p, id, c, n, f);
        VacatedRows(a, from, p, f);
        var synced := if a.OnDisk(from) && !f.movable then None else a.ServerOf(a.Lookup(from, f.source));
        IncomingFrame(Vacated(a, from, p, f), p, id, c, n, synced, false, f, q);
      }
  }

  /** A download that fails leaves a row owing exactly the event. */
  lemma DeferredIsOwed(r: Replica, e: Change, n: nat, f: Faults)
    requires Apply(r, e, n, f).outcome == Deferred
    ensures !e.Removed? && Owes(Apply(r, e, n, f).rep.rows, e.path, e.id, e.bytes)
  {
    var a := Announce(r, e);
    match e
    case Added(p, id, c) => IncomingOwes(a, p, id, c, n, None, false, f);
    case Replaced(p, id, c) => IncomingOwes(a, p, id, c, n, None, true, f);
    case Removed(p) =>
    case Renamed(from, p, id, c) =>
      FallbackIsIncoming(a, from, p, id, c, n, f);
      var synced := if a.OnDisk(from) && !f.movable then None else a.ServerOf(a.Lookup(from, f.source));
      IncomingOwes(Vacated(a, from, p, f), p, id, c, n, synced, false, f);
  }

  /** A sweep's turn stops owing an event only by landing it, its row and its bytes. */
  lemma TurnOwesOrLands(r: Replica, due: Due, t: Turn, q: Path, id: FileId, c: Content)
    requires Owes(r.rows, q, id, c)
    requires due.path == q ==> due.row.fileId == Some(id) && due.row.server == Some(c)
    ensures var u := SweepRow(r, due.path, due.row, t);
            Owes(u.rows, q, id, c) || HasLanded(u, q, id, c)
  {
  }

  /** And so does the end of any download that is of what its row owes. */
  lemma FetchOwesOrLands(r: Replica, x: Fetch, fetched: bool, q: Path, id: FileId, c: Content)
    requires Owes(r.rows, q, id, c) && (x.path == q ==> x.bytes == c)
    ensures var u := Download(r, x.path, x.bytes, fetched);
            Owes(u.rows, q, id, c) || HasLanded(u, q, id, c)
  {
  }

  lemma TurnStartOwes(w: World, due: Due, t: Turn, q: Path, id: FileId, c: Content)
    requires Owes(w.rep.rows, q, id, c)
    requires due.path == q ==> due.row.fileId == Some(id) && due.row.server == Some(c)
    ensures var u := BeginTurn(w, due, t).world.rep;
            Owes(u.rows, q, id, c) || HasLanded(u, q, id, c)
  {
    hide SweepRow;
    TurnOwesOrLands(w.rep, due, t, q, id, c);
  }

  lemma ListFrame(w: World, p: Path, id: FileId, c: Content, n: nat, pre: Option<Content>, f: Faults, q: Path)
    requires q != p
    ensures SameRow(w.rep, BeginList(w, p, id, c, n, pre, f).world.rep, q)
  {
  }

  // --- The theorem ---

  lemma ApplyAnnounced(r: Replica, e: Change, n: nat, f: Faults)
    ensures Announce(Announce(r, e), e) == Announce(r, e)
    ensures Apply(Announce(r, e), e, n, f) == Apply(r, e, n, f)
  {
  }

  /** The folder after a delivery is what the handler leaves when its download fails, but for the
      status of the row it is for. */
  lemma FolderAfter(cfg: Setup, y: System, s: Step, e: Change)
    requires s.Receives? && Enabled(cfg, y, s) && Narrow(cfg.log[s.n - 1], cfg.skipped) == Some(e)
    ensures var t, off := Next(cfg, y, s).w.rep, Apply(y.w.rep, e, s.n, s.f.(fetched := false));
            && (forall q :: q != e.path ==> SameRow(off.rep, t, q))
            && (if off.outcome == Deferred then
                  && !e.Removed? && Owes(t.rows, e.path, e.id, e.bytes)
                  && Next(cfg, y, s).fetch == Some(Fetch(e.path, e.bytes, ForEvent(s.n)))
                else t == off.rep && Next(cfg, y, s).fetch.None?)
  {
    hide Apply, HandledSession;
    var off := Apply(y.w.rep, e, s.n, s.f.(fetched := false));
    if off.outcome == Deferred { DeferredIsOwed(y.w.rep, e, s.n, s.f.(fetched := false)); }
  }

  /** An older entry as it is carried over a delivery: its claim stands. */
  lemma ReceiveCarries(cfg: Setup, y: System, s: Step, m: nat, fate: Fate)
    requires s.Receives? && Enabled(cfg, y, s) && Vouches(cfg, y.w.rep, m, fate)
    ensures var z := Next(cfg, y, s).w; var next := Carried(cfg, y.w, s, z.rep, fate);
            Vouches(cfg, z.rep, m, next) && (next == Unmet <==> fate == Unmet) && (next.Owed? ==> next == fate)
  {
    hide Apply, HandledSession, Effected, Forgets, Touched, BeginReceive, HasLanded;
    var mine := Narrow(cfg.log[s.n - 1], cfg.skipped);
    if mine.Some? {
      FolderAfter(cfg, y, s, mine.value);
      if fate.Owed? && fate.path !in Touched(mine.value, s.f) {
        PathTouched(mine.value, s.f);
        ApplyFrame(y.w.rep, mine.value, s.n, s.f.(fetched := false), fate.path);
        assert SameRow(Apply(y.w.rep, mine.value, s.n, s.f.(fetched := false)).rep, Next(cfg, y, s).w.rep, fate.path);
      }
    } else {
      assert Next(cfg, y, s).w.rep == y.w.rep by { OutOfScopeKeeps(cfg, y, s); }
    }
  }

  lemma OutOfScopeKeeps(cfg: Setup, y: System, s: Step)
    requires s.Receives? && Enabled(cfg, y, s) && Narrow(cfg.log[s.n - 1], cfg.skipped).None?
    ensures Next(cfg, y, s).w.rep == y.w.rep && Next(cfg, y, s).fetch.None?
  {
  }

  lemma PathTouched(e: Change, f: Faults)
    ensures e.path in Touched(e, f) && Touched(e, f.(fetched := false)) == Touched(e, f)
  {
  }

  lemma ReceiveCursor(cfg: Setup, y: System, s: Step)
    requires s.Receives? && Enabled(cfg, y, s)
    ensures var z, t := Next(cfg, y, s), Settle(y.w.ses, s.n, OutcomeOf(cfg, y.w, s.n, s.f));
            z.upto == s.n && z.w.ses.cursor == t.cursor && z.w.ses.low == t.low
  {
    hide Apply, HandledSession, Settle;
    var mine := Narrow(cfg.log[s.n - 1], cfg.skipped);
    if mine.Some? {
      var f := s.f.(fetched := false);
      ApplyAnnounced(y.w.rep, mine.value, s.n, f);
      HandledCursor(y.w.ses, mine.value, s.n, f, Announce(y.w.rep, mine.value));
      if Apply(y.w.rep, mine.value, s.n, f).outcome == Deferred {
        DeferredIsOwed(y.w.rep, mine.value, s.n, f);
        StartCursor(y.w.ses, mine.value, s.n);
      }
    } else {
      SettleApplied(y.w.ses, s.n);
    }
  }

  lemma StartCursor(s: S.Session, e: Change, n: nat)
    ensures var t := SessionAtStart(s, e); t.cursor == s.cursor && t.low == s.low
    ensures Settle(s, n, Deferred) == s
  {
  }

  /** The new entry's claim holds, and it is unmet exactly when the event was refused. */
  lemma ReceiveEnters(cfg: Setup, y: System, s: Step)
    requires s.Receives? && Enabled(cfg, y, s)
    ensures var z, o := Next(cfg, y, s).w, OutcomeOf(cfg, y.w, s.n, s.f);
            var fate := Entered(y.w.rep, z.rep, Narrow(cfg.log[s.n - 1], cfg.skipped), s.f.(fetched := false), o);
            && Vouches(cfg, z.rep, s.n, fate) && (fate == Unmet <==> o == Refused)
  {
    hide Apply, HandledSession, Effected, Forgets, Owes, BeginReceive;
    var mine := Narrow(cfg.log[s.n - 1], cfg.skipped);
    if mine.Some? {
      FolderAfter(cfg, y, s, mine.value);
      var h := Apply(y.w.rep, mine.value, s.n, s.f.(fetched := false));
      if h.outcome.Applied? { ApplyTakesEffect(y.w.rep, mine.value, s.n, s.f.(fetched := false)); }
    }
  }

  /** What is being downloaded after a delivery is what its row owes. */
  lemma ReceiveMatches(cfg: Setup, y: System, s: Step, m: nat, fate: Fate)
    requires s.Receives? && Enabled(cfg, y, s) && fate.Owed? && Vouches(cfg, Next(cfg, y, s).w.rep, m, fate)
    ensures var x := Next(cfg, y, s).fetch; x.Some? && fate.path == x.value.path ==> fate.bytes == x.value.bytes
    ensures var x := Next(cfg, y, s).fetch; x.Some? ==>
            x.value.errand == ForEvent(s.n) && OutcomeOf(cfg, y.w, s.n, s.f) == Deferred
  {
    hide Apply, HandledSession, BeginReceive;
    var mine := Narrow(cfg.log[s.n - 1], cfg.skipped);
    if mine.Some? { FolderAfter(cfg, y, s, mine.value); } else { OutOfScopeKeeps(cfg, y, s); }
  }

  lemma ReceiveFetch(cfg: Setup, y: System, s: Step)
    requires s.Receives? && Enabled(cfg, y, s)
    ensures var x := Next(cfg, y, s).fetch;
            x.Some? ==> x.value.errand == ForEvent(s.n) && OutcomeOf(cfg, y.w, s.n, s.f) == Deferred
  {
    hide Apply, HandledSession, BeginReceive;
    var mine := Narrow(cfg.log[s.n - 1], cfg.skipped);
    if mine.Some? { FolderAfter(cfg, y, s, mine.value); } else { OutOfScopeKeeps(cfg, y, s); }
  }

  lemma ReceiveAccounts(cfg: Setup, y: System, s: Step, book: Book)
    requires s.Receives? && Enabled(cfg, y, s) && Accounted(cfg, y, book)
    ensures Accounted(cfg, Next(cfg, y, s), Record(cfg, y, s, book))
  {
    hide OutcomeOf, Vouches, Entered, Carried, Act, NextFetch;
    ReceiveCursor(cfg, y, s);
    ReceiveEnters(cfg, y, s);
    ReceiveFetch(cfg, y, s);
    var z, next := Next(cfg, y, s), Record(cfg, y, s, book);
    forall m | m in book && m != s.n
      ensures m in next && Vouches(cfg, z.w.rep, m, next[m]) && (next[m] == Unmet <==> book[m] == Unmet)
    {
      ReceiveCarries(cfg, y, s, m, book[m]);
    }
    assert next.Keys == book.Keys + {s.n};
    forall m | m in next && next[m].Owed? && z.fetch.Some? && next[m].path == z.fetch.value.path
      ensures next[m].bytes == z.fetch.value.bytes
    {
      ReceiveMatches(cfg, y, s, m, next[m]);
    }
    assert z.sweep.None?;
  }

  /** Debts over one step outside a delivery, and the entries that make no claim on the folder. */
  lemma StepCarries(cfg: Setup, y: System, s: Step, book: Book, m: nat)
    requires Enabled(cfg, y, s) && Accounted(cfg, y, book) && !s.Receives? && !s.Resyncs? && m in book
    ensures var z, next := Next(cfg, y, s), Record(cfg, y, s, book);
            m in next && Vouches(cfg, z.w.rep, m, next[m]) && (next[m] == Unmet <==> book[m] == Unmet)
            && (next[m].Owed? ==> next[m] == book[m])
  {
    hide Act, Accounted;
    assert Vouches(cfg, y.w.rep, m, book[m]) by { AccountedVouches(cfg, y, book, m); }
    if book[m].Owed? {
      if s.SweepTurns? { TurnCarries(cfg, y, s, book, m); }
      else if s.FetchEnds? { FetchCarries(cfg, y, s, book, m); }
      else if s.Lists? { ListCarries(cfg, y, s, book, m); }
      else if IsLocal(s) { LocalCarries(cfg, y, s, book, m); }
      else { QuietCarries(cfg, y, s, book, m); }
    }
    StillVouches(cfg, y, s, Next(cfg, y, s).w.rep, m, book[m]);
  }

  lemma AccountedVouches(cfg: Setup, y: System, book: Book, m: nat)
    requires Accounted(cfg, y, book) && m in book
    ensures Vouches(cfg, y.w.rep, m, book[m])
  {
  }

  lemma StillVouches(cfg: Setup, y: System, s: Step, after: Replica, m: nat, fate: Fate)
    requires Vouches(cfg, y.w.rep, m, fate) && !s.Receives?
    requires fate.Owed? ==> Carried(cfg, y.w, s, after, fate) != Unmet
    ensures var next := Carried(cfg, y.w, s, after, fate);
            Vouches(cfg, after, m, next) && (next == Unmet <==> fate == Unmet) && (next.Owed? ==> next == fate)
  {
    hide Effected, Forgets, Owes, HasLanded;
  }

  lemma TurnCarries(cfg: Setup, y: System, s: Step, book: Book, m: nat)
    requires Enabled(cfg, y, s) && Accounted(cfg, y, book) && s.SweepTurns? && m in book && book[m].Owed?
    ensures Carried(cfg, y.w, s, Next(cfg, y, s).w.rep, book[m]) != Unmet
  {
    AccountedVouches(cfg, y, book, m);
    var due := y.sweep.value.todo[0];
    hide BeginTurn, HasLanded;
    TurnStartOwes(y.w, due, s.t, book[m].path, book[m].id, book[m].bytes);
  }

  lemma FetchCarries(cfg: Setup, y: System, s: Step, book: Book, m: nat)
    requires Enabled(cfg, y, s) && Accounted(cfg, y, book) && s.FetchEnds? && m in book && book[m].Owed?
    ensures Carried(cfg, y.w, s, Next(cfg, y, s).w.rep, book[m]) != Unmet
  {
    AccountedVouches(cfg, y, book, m);
    hide Download, HasLanded;
    FetchOwesOrLands(y.w.rep, y.fetch.value, s.fetched, book[m].path, book[m].id, book[m].bytes);
  }

  lemma ListCarries(cfg: Setup, y: System, s: Step, book: Book, m: nat)
    requires Enabled(cfg, y, s) && Accounted(cfg, y, book) && s.Lists? && m in book && book[m].Owed?
    ensures Carried(cfg, y.w, s, Next(cfg, y, s).w.rep, book[m]) != Unmet
  {
    AccountedVouches(cfg, y, book, m);
    hide BeginList;
    if book[m].path != s.p { ListFrame(y.w, s.p, s.id, s.c, s.n, s.pre, s.f, book[m].path); }
  }

  lemma LocalCarries(cfg: Setup, y: System, s: Step, book: Book, m: nat)
    requires Enabled(cfg, y, s) && Accounted(cfg, y, book) && IsLocal(s) && m in book && book[m].Owed?
    ensures Carried(cfg, y.w, s, Next(cfg, y, s).w.rep, book[m]) != Unmet
  {
    hide Act, Accounted, Effected, Forgets, LocalNames;
    AccountedVouches(cfg, y, book, m);
    if book[m].path !in LocalNames(y.w, s) { LocalFrame(cfg, y, s, book[m].path); }
  }

  lemma QuietCarries(cfg: Setup, y: System, s: Step, book: Book, m: nat)
    requires Enabled(cfg, y, s) && Accounted(cfg, y, book) && m in book && book[m].Owed?
    requires !Starts(s) && !s.FetchEnds? && !s.Resyncs? && !IsLocal(s)
    ensures Carried(cfg, y.w, s, Next(cfg, y, s).w.rep, book[m]) != Unmet
  {
    hide Act;
    assert Vouches(cfg, y.w.rep, m, book[m]);
    QuietRows(cfg, y, s);
  }

  /** User edits, connection events, heartbeats and a sweep's own beginning and end touch no row. */
  lemma QuietRows(cfg: Setup, y: System, s: Step)
    requires Enabled(cfg, y, s)
    requires !Starts(s) && !s.FetchEnds? && !s.Resyncs? && !IsLocal(s)
    ensures Next(cfg, y, s).w.rep.rows == y.w.rep.rows
  {
  }

  lemma DeleteFrame(w: World, p: Path, snap: Buffered, fallback: bool, f: LocalFaults, q: Path)
    requires q != p && q != f.pick && q != snap.key
    ensures SameRow(w.rep, ExecuteDelete(w, p, snap, fallback, f).world.rep, q)
  {
  }

  lemma RenameFrame(w: World, from: Path, p: Path, held: Buffered, c: Content, f: LocalFaults, q: Path)
    requires q != p && q != from && q != held.key && q != f.source && q != f.repick
    ensures SameRow(w.rep, LocalRename(w, from, p, held, c, f).rep, q)
  {
    if !f.renamed { DeleteFrame(w.(ses := S.BeginRename(w.ses)), from, held, true, f.(pick := f.source), q); }
  }

  lemma ModifyFrame(w0: World, p: Path, f: LocalFaults, q: Path)
    requires q != p && q != f.pick && q != f.source && q != f.repick && q !in Halves(w0, p)
    requires forall b :: b in Halves(w0, p) ==> w0.buffered[b].key != q
    ensures SameRow(w0.rep, LocalModify(w0, p, f).rep, q)
  {
    if w0.ses.phase != S.Disconnected && w0.rep.OnDisk(p) && f.hashable {
      var c := w0.rep.disk[w0.rep.Key(p)];
      var w := w0.(buffered := w0.buffered - {p});
      var found := Candidates(w, p, c);
      if w.rep.LocalOf(w.rep.Lookup(p, f.pick)) != Some(c) && c != EMPTY && |found| == 1 {
        var from :| from in found && LocalModify(w0, p, f)
          == LocalRename(w.(buffered := w.buffered - {from}), from, p, w.buffered[from], c, f);
        assert w.buffered[from] == w0.buffered[from];
        RenameFrame(w.(buffered := w.buffered - {from}), from, p, w.buffered[from], c, f, q);
      }
    }
  }

  lemma LocalDeleteFrame(w: World, p: Path, f: LocalFaults, q: Path)
    requires q != p && q != f.pick
    ensures SameRow(w.rep, LocalDelete(w, p, f).rep, q)
  {
  }

  lemma ScanFrame(w: World, p: Path, listed: bool, f: LocalFaults, q: Path)
    requires q != p
    ensures SameRow(w.rep, ScanFile(w, p, listed, f).rep, q)
  {
  }

  lemma UploadFrame(w: World, p: Path, sent: Sent, q: Path)
    requires q != p
    ensures SameRow(w.rep, UploadEnds(w, p, sent).rep, q)
  {
  }

  lemma RecoverUploadFrame(w: World, p: Path, row: Row, f: LocalFaults, q: Path)
    requires q != p
    ensures SameRow(w.rep, RecoverUpload(w, p, row, f).rep, q)
  {
  }

  lemma NotNamed(w: World, s: Step, q: Path)
    requires IsLocal(s) && q !in LocalNames(w, s)
    ensures q != s.p && (!s.UploadSettles? ==> q != s.g.pick)
    ensures s.TimerFires? && s.p in w.buffered ==> q != w.buffered[s.p].key
    ensures s.LocalChanges? || s.RescansFile? ==>
              && q != s.g.source && q != s.g.repick && q !in Halves(w, s.p)
              && (forall b :: b in Halves(w, s.p) ==> w.buffered[b].key != q)
  {
    if s.LocalChanges? || s.RescansFile? {
      forall b | b in Halves(w, s.p) ensures w.buffered[b].key != q {
        assert w.buffered[b].key in LocalNames(w, s);
      }
    }
  }

  lemma LocalFrame(cfg: Setup, y: System, s: Step, q: Path)
    requires IsLocal(s) && Enabled(cfg, y, s) && q !in LocalNames(y.w, s)
    ensures SameRow(y.w.rep, Next(cfg, y, s).w.rep, q)
  {
    hide LocalModify, LocalRename, ExecuteDelete, LocalDelete, UploadEnds, RecoverUpload, ScanFile, Start, EndFetch;
    hide EndSweep, Suppressed, Resync, Restart, NextSweep, NextFetch, Enumerates, LocalNames, Halves;
    var w := y.w;
    NotNamed(w, s, q);
    match s
    case LocalChanges(p, g) => ModifyFrame(w, p, g, q);
    case LocalDeletes(p, g) => LocalDeleteFrame(w, p, g, q);
    case RescansFile(p, g) => ModifyFrame(w, p, g, q);
    case Scans(p, listed, g) => ScanFrame(w, p, listed, g, q);
    case RescansMissing(p, g) => LocalDeleteFrame(w, p, g, q);
    case TimerFires(p, g) => DeleteFrame(w.(buffered := w.buffered - {p}), p, w.buffered[p], false, g, q);
    case UploadSettles(p, sent) => UploadFrame(w, p, sent, q);
    case RecoversUpload(p, row, g) => RecoverUploadFrame(w, p, row, g, q);
    case RecoversDelete(p, g) =>
      if p in w.rep.rows { DeleteFrame(w, p, Buffered(p, w.rep.rows[p]), false, g, q); }
  }

  predicate SameCursor(s: S.Session, t: S.Session) { t.cursor == s.cursor && t.low == s.low }

  lemma DeleteKeepsCursor(w: World, p: Path, snap: Buffered, fallback: bool, f: LocalFaults)
    ensures SameCursor(w.ses, ExecuteDelete(w, p, snap, fallback, f).world.ses)
  {
  }

  lemma RenameKeepsCursor(w: World, from: Path, p: Path, held: Buffered, c: Content, f: LocalFaults)
    ensures SameCursor(w.ses, LocalRename(w, from, p, held, c, f).ses)
  {
  }

  lemma ModifyKeepsCursor(w0: World, p: Path, f: LocalFaults)
    ensures SameCursor(w0.ses, LocalModify(w0, p, f).ses)
  {
    if w0.ses.phase != S.Disconnected && w0.rep.OnDisk(p) && f.hashable {
      var c := w0.rep.disk[w0.rep.Key(p)];
      var w := w0.(buffered := w0.buffered - {p});
      var found := Candidates(w, p, c);
      if w.rep.LocalOf(w.rep.Lookup(p, f.pick)) != Some(c) && c != EMPTY && |found| == 1 {
        var from :| from in found && LocalModify(w0, p, f)
          == LocalRename(w.(buffered := w.buffered - {from}), from, p, w.buffered[from], c, f);
        RenameKeepsCursor(w.(buffered := w.buffered - {from}), from, p, w.buffered[from], c, f);
      }
    }
  }

  lemma LocalKeepsCursor(cfg: Setup, y: System, s: Step)
    requires IsLocal(s) && Enabled(cfg, y, s)
    ensures SameCursor(y.w.ses, Next(cfg, y, s).w.ses)
  {
    var w := y.w;
    match s
    case LocalChanges(p, g) => ModifyKeepsCursor(w, p, g);
    case RescansFile(p, g) => ModifyKeepsCursor(w, p, g);
    case TimerFires(p, g) => DeleteKeepsCursor(w.(buffered := w.buffered - {p}), p, w.buffered[p], false, g);
    case RecoversDelete(p, g) =>
      if p in w.rep.rows { DeleteKeepsCursor(w, p, Buffered(p, w.rep.rows[p]), false, g); }
    case _ =>
  }

  /** Cursor and watermark move only when an event settles or the session restarts. */
  lemma StepCursor(cfg: Setup, y: System, s: Step)
    requires Enabled(cfg, y, s) && !s.Receives? && !s.Resyncs? && !s.FetchEnds?
    ensures var t := Next(cfg, y, s).w.ses;
            t.cursor == y.w.ses.cursor && t.low == (if s.Opens? || s.Restarts? then 0 else y.w.ses.low)
  {
    hide LocalModify, ExecuteDelete, SweepRow, InitialFile, SweepTransfers, SaveCopy;
    if IsLocal(s) { LocalKeepsCursor(cfg, y, s); }
  }

  lemma FetchCursor(cfg: Setup, y: System, s: Step)
    requires Enabled(cfg, y, s) && s.FetchEnds?
    ensures var t, x := Next(cfg, y, s).w.ses, y.fetch.value;
            var u := if x.errand.ForEvent? && s.fetched then S.UpdateSeq(y.w.ses, x.errand.n) else y.w.ses;
            t.cursor == u.cursor && t.low == u.low
  {
    hide Download;
  }

  /** A sweep's snapshots are of the rows that owe; its turns only use them up. */
  lemma StepDues(cfg: Setup, y: System, s: Step, book: Book)
    requires Enabled(cfg, y, s) && Accounted(cfg, y, book) && !s.Receives? && !s.Resyncs?
    ensures DuesMatch(NextSweep(cfg, y, s), Record(cfg, y, s, book))
  {
    hide Act, Effected, Forgets, Start, LandedBy;
    var next, sweep := Record(cfg, y, s, book), NextSweep(cfg, y, s);
    if sweep.Some? {
      forall m, i | m in next && next[m].Owed? && 0 <= i < |sweep.value.todo|
          && sweep.value.todo[i].path == next[m].path
        ensures sweep.value.todo[i].row.fileId == Some(next[m].id)
                && sweep.value.todo[i].row.server == Some(next[m].bytes)
      {
        StepCarries(cfg, y, s, book, m);
        assert next[m] == book[m] && Vouches(cfg, y.w.rep, m, book[m]);
        if s.SweepTurns? { assert sweep.value.todo[i] == y.sweep.value.todo[i + 1]; }
      }
    }
  }

  /** A turn fetches what its snapshot names, a listing what it has just written in the row. */
  lemma StepFetch(cfg: Setup, y: System, s: Step, book: Book)
    requires Enabled(cfg, y, s) && Accounted(cfg, y, book) && !s.Receives? && !s.Resyncs?
    ensures FetchMatches(NextFetch(cfg, y, s), Next(cfg, y, s).upto, Record(cfg, y, s, book))
  {
    hide Act, Effected, Forgets, Start, LandedBy;
    var next, fetch := Record(cfg, y, s, book), NextFetch(cfg, y, s);
    if fetch.Some? {
      forall m | m in next && next[m].Owed? && next[m].path == fetch.value.path
        ensures next[m].bytes == fetch.value.bytes
      {
        StepCarries(cfg, y, s, book, m);
        assert next[m] == book[m];
        if Starts(s) { StartMatches(cfg, y, s, book, m); }
      }
      if Starts(s) { StartErrand(cfg, y, s); }
      if !Starts(s) && fetch.value.errand.ForEvent? { StepCarries(cfg, y, s, book, y.upto); }
    }
  }

  lemma StartErrand(cfg: Setup, y: System, s: Step)
    requires Enabled(cfg, y, s) && (s.SweepTurns? || s.Lists?)
    ensures Start(cfg, y, s).fetch.Some? ==> !Start(cfg, y, s).fetch.value.errand.ForEvent?
  {
  }

  lemma StartMatches(cfg: Setup, y: System, s: Step, book: Book, m: nat)
    requires Enabled(cfg, y, s) && Accounted(cfg, y, book) && (s.SweepTurns? || s.Lists?)
    requires m in book && book[m].Owed? && Vouches(cfg, Next(cfg, y, s).w.rep, m, book[m])
    ensures var x := Start(cfg, y, s).fetch; x.Some? && book[m].path == x.value.path ==> book[m].bytes == x.value.bytes
  {
    hide SaveCopy, SweepRow, Effected, Forgets;
  }

  lemma FetchAccounts(cfg: Setup, y: System, s: Step, book: Book)
    requires s.FetchEnds? && Enabled(cfg, y, s) && Accounted(cfg, y, book)
    ensures var t := Next(cfg, y, s).w.ses;
            && (t.low > 0 ==> t.cursor < t.low) && t.cursor <= y.upto && t.low <= y.upto
            && (forall m :: m in book && m <= y.upto && book[m] == Unmet ==> 0 < t.low <= m)
  {
    hide Act, Vouches, DuesMatch;
    FetchCursor(cfg, y, s);
  }

  lemma OtherCursor(cfg: Setup, y: System, s: Step, book: Book)
    requires !s.Receives? && !s.Resyncs? && Enabled(cfg, y, s) && Accounted(cfg, y, book)
    ensures var z := Next(cfg, y, s); var t := z.w.ses;
            && (t.low > 0 ==> t.cursor < t.low) && t.cursor <= z.upto <= y.upto && t.low <= z.upto
            && (forall m :: m in book && m <= z.upto && book[m] == Unmet ==> 0 < t.low <= m)
  {
    hide Act, Vouches, DuesMatch, FetchMatches, NextSweep, NextFetch;
    if s.FetchEnds? { FetchAccounts(cfg, y, s, book); } else { StepCursor(cfg, y, s); }
  }

  lemma ResyncAccounts(cfg: Setup, y: System, s: Step, book: Book)
    requires s.Resyncs? && Enabled(cfg, y, s)
    ensures Accounted(cfg, Next(cfg, y, s), Record(cfg, y, s, book))
  {
  }

  lemma StepAccounts(cfg: Setup, y: System, s: Step, book: Book)
    requires Enabled(cfg, y, s) && Accounted(cfg, y, book)
    ensures Accounted(cfg, Next(cfg, y, s), Record(cfg, y, s, book))
  {
    hide Act, Vouches, Carried, DuesMatch, FetchMatches, NextSweep, NextFetch, Enabled;
    if s.Receives? {
      ReceiveAccounts(cfg, y, s, book);
    } else if s.Resyncs? {
      ResyncAccounts(cfg, y, s, book);
    } else {
      OtherCursor(cfg, y, s, book);
      StepDues(cfg, y, s, book);
      StepFetch(cfg, y, s, book);
      var next := Record(cfg, y, s, book);
      forall m | m in book
        ensures Vouches(cfg, Next(cfg, y, s).w.rep, m, next[m]) && (next[m] == Unmet <==> book[m] == Unmet)
      {
        StepCarries(cfg, y, s, book, m);
      }
      assert next.Keys == book.Keys;
    }
  }

  ghost function Balance(cfg: Setup, y: System, steps: seq<Step>, book: Book): Book
    requires Possible(cfg, y, steps)
    decreases |steps|
  {
    if steps == [] then book
    else Balance(cfg, Next(cfg, y, steps[0]), steps[1..], Record(cfg, y, steps[0], book))
  }

  lemma {:induction false} RunAccounts(cfg: Setup, y: System, steps: seq<Step>, book: Book)
    requires Possible(cfg, y, steps) && Accounted(cfg, y, book)
    ensures Accounted(cfg, Run(cfg, y, steps), Balance(cfg, y, steps, book))
    decreases |steps|
  {
    if steps != [] {
      StepAccounts(cfg, y, steps[0], book);
      RunAccounts(cfg, Next(cfg, y, steps[0]), steps[1..], Record(cfg, y, steps[0], book));
    }
  }

  /** Over any run from a fresh client, every event the cursor has passed was out of scope, took
      effect, is owed by a row that still names its file id and checksum or was since landed by a
      sweep, gave way to a later event or a local change, or is a rename that meets `Forgets`; and
      every event that was refused lies above the cursor, so the next session replays it. */
  lemma NoLostEvent(cfg: Setup, y: System, steps: seq<Step>)
    requires Possible(cfg, y, steps) && y.sweep.None? && y.fetch.None?
    requires y.upto == y.w.ses.cursor == y.w.ses.low == 0
    ensures var z, book := Run(cfg, y, steps), Balance(cfg, y, steps, map[]);
            && (forall m :: 1 <= m <= z.w.ses.cursor ==> m in book && book[m] != Unmet)
            && (forall m :: m in book ==> Vouches(cfg, z.w.rep, m, book[m]))
            && (forall m :: m in book && 1 <= m <= z.upto && book[m] == Unmet ==> z.w.ses.cursor < z.w.ses.low <= m)
  {
    RunAccounts(cfg, y, steps, map[]);
  }

  // --- Where the code does lose one ---

  /** What the new name must offer for the debt to outlive a fallback: nothing recorded there as the
      owed content already, or a row that still waits for it, or the content itself. */
  predicate DebtSurvives(quiet: Replica, p: Path, c: Content, f: Faults) {
    ShortCircuits(quiet, p, c, f) ==>
      (p in quiet.rows && Stranded(quiet.rows[p]))
      || ((p in quiet.rows ==> quiet.rows[p].status == Synced) && At(quiet, p) == Some(c))
  }

  /** A server rename of a row that owes a download keeps the debt, or lands the file, exactly when
      it does not move the old bytes and the new name offers what it must; or it moves them, they
      already are what was owed, and the row does not say otherwise. */
  lemma RenameOfOwedRow(r: Replica, from: Path, p: Path, id: FileId, c: Content, n: nat, f: Faults)
    requires Owes(r.rows, from, id, c) && from != p && Rename(r, from, p, id, c, n, f).outcome != Refused
    ensures var t := Rename(r, from, p, id, c, n, f).rep;
            Owes(t.rows, p, id, c) || HasLanded(t, p, id, c)
            <==> (if Moves(r, from, f) then
                    r.disk[r.Key(from)] == c && (r.rows[from].local.Some? ==> r.rows[from].local == Some(c))
                  else DebtSurvives(Vacated(r, from, p, f), p, c, f))
  {
    if !Moves(r, from, f) {
      FallbackIsIncoming(r, from, p, id, c, n, f);
      var synced := if r.OnDisk(from) && !f.movable then None else r.ServerOf(r.Lookup(from, f.source));
      IncomingOfOwed(Vacated(r, from, p, f), p, id, c, n, synced, f);
    }
  }

  lemma IncomingOfOwed(quiet: Replica, p: Path, id: FileId, c: Content, n: nat, known: Option<Content>, f: Faults)
    requires Incoming(quiet, p, id, c, n, known, false, f).outcome != Refused
    ensures var t := Incoming(quiet, p, id, c, n, known, false, f).rep;
            Owes(t.rows, p, id, c) || HasLanded(t, p, id, c) <==> DebtSurvives(quiet, p, c, f)
  {
    hide Incoming, ShortCircuits;
    if Incoming(quiet, p, id, c, n, known, false, f).outcome == Deferred {
      IncomingOwes(quiet, p, id, c, n, known, false, f);
    } else {
      IncomingTakesEffect(quiet, p, id, c, n, known, false, f);
    }
  }

  /** Concretely: the replacement's download failed, the file is then renamed, and the client
      queues its stale bytes for upload over the server's newer ones. */
  lemma RenameForgetsDownload()
    ensures
      var owed := Row(Some(1), Some(3), Some(4), 2, PendingDownload);
      var r := Replica(false, map["a" := 3], map["a" := owed], [], {3, 4});
      var h := Apply(r, Renamed("a", "b", 1, 4), 3, Faults(true, true, Recased, true, true, true, "", ""));
      && h.outcome == Applied(false)
      && h.rep.rows == map["b" := Row(Some(1), Some(3), Some(4), 3, PendingUpload)]
      && h.rep.disk == map["b" := 3]
  {
  }

  /** Events of an earlier session that are still queued when a new one opens. */
  datatype Stale = Stale(n: nat, outcome: Outcome)

  function Drain(s: S.Session, queue: seq<Stale>): S.Session {
    if queue == [] then s
    else
      var last := queue[|queue| - 1];
      Settle(Drain(s, queue[..|queue| - 1]), last.n, last.outcome)
  }

  ghost predicate Ascending(queue: seq<Stale>) { forall i, j :: 0 <= i < j < |queue| ==> queue[i].n < queue[j].n }

  ghost predicate SomeApplied(queue: seq<Stale>) { exists i :: 0 <= i < |queue| && queue[i].outcome.Applied? }

  /** Opening clears the watermark. If later events of the old session are still queued, the
      cursor passes the refused one exactly when any of them is applied, so the rule that makes
      `NoLostEvent` hold is that nothing is queued when a session opens. */
  lemma {:induction false} StaleQueuePassesGap(s: S.Session, queue: seq<Stale>)
    requires s.cursor < s.low && Ascending(queue)
    requires forall i :: 0 <= i < |queue| ==> s.low < queue[i].n
    ensures var t := Drain(S.Open(s), queue);
            && (t.cursor >= s.low <==> SomeApplied(queue))
            && (!SomeApplied(queue) ==> t.cursor == s.cursor)
            && (t.low > 0 ==> t.low > s.low && exists i :: 0 <= i < |queue| && queue[i].n == t.low)
  {
    if queue != [] {
      var rest, last := queue[..|queue| - 1], queue[|queue| - 1];
      StaleQueuePassesGap(s, rest);
      assert SomeApplied(queue) <==> SomeApplied(rest) || last.outcome.Applied? by {
        if SomeApplied(rest) {
          var i :| 0 <= i < |rest| && rest[i].outcome.Applied?;
          assert queue[i].outcome.Applied?;
        }
      }
      var before := Drain(S.Open(s), rest);
      if before.low > 0 {
        var i :| 0 <= i < |rest| && rest[i].n == before.low;
        assert queue[i].n == before.low < last.n;
      }
    }
  }
}
