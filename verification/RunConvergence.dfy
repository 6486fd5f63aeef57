/**
 Convergence over runs: without local edits, whatever transfers, hashes and renames fail and
 however often sessions drop and replay, the table tracks the log, and one successful sweep
 makes the folder equal to it.
 */
module RunConvergence {
  import opened Types
  import opened Replica
  import opened Safety
  import opened LocalSafety
  import opened Convergence
  import opened World
  import opened Transfers
  import opened Runs
  import opened Effects
  import opened Ledger
  import opened Sweeps
  import S = Session

  /** The listing agrees with the log at some position, as far as one name goes. */
  ghost predicate AgreesAt(files: Listing, log: seq<Change>, j: nat, p: Path)
    requires j <= |log|
  {
    var x := Upto(log, j);
    (p in files <==> p in x) && (p in x ==> files[p] == x[p])
  }

  /** The log position every name has reached for good: one below the first refused event. */
  function Floor(y: System): nat {
    if y.w.ses.low > 0 && y.w.ses.low - 1 < y.upto then y.w.ses.low - 1 else y.upto
  }

  ghost predicate Reached(files: Listing, log: seq<Change>, floor: nat, p: Path) {
    exists j :: floor <= j <= |log| && AgreesAt(files, log, j, p)
  }

  /** The invariant: what the table tracks is, name by name, some log position at or past the
      floor. Replays move a name back, but never below what the cursor promises. */
  ghost predicate OnCourse(cfg: Setup, y: System, files: Listing, names: set<Path>) {
    var s := y.w.ses;
    && Tracks(y.w.rep, files, names) && Current(y)
    && y.upto <= |cfg.log| && s.cursor <= y.upto && s.low <= y.upto && (s.low > 0 ==> s.cursor < s.low)
    && (y.fetch.Some? && y.fetch.value.errand.ForEvent? ==> y.fetch.value.errand.n == y.upto && s.low < y.upto)
    && (forall p :: p in names ==> Reached(files, cfg.log, Floor(y), p))
  }

  /** Steps without local activity. A server rename follows through. An initial sync lists a position
      of the log, before events, and what it hashed beforehand is still there. */
  ghost predicate Remote(cfg: Setup, y: System, names: set<Path>, s: Step)
    requires Enabled(cfg, y, s)
  {
    match s
    case Receives(n, f) =>
      var mine := Narrow(cfg.log[n - 1], cfg.skipped);
      mine.Some? ==> FollowsThrough(Announce(y.w.rep, mine.value), mine.value, f)
    case Opens => true
    case Drops => true
    case Retries => true
    case Restarts(_) => true
    case Breaks => true
    case Rejects => true
    case Beats(_) => true
    case SweepBegins(_) => true
    case SweepTurns(_) => true
    case SweepEnds => true
    case SweepFails => true
    case FetchEnds(_) => true
    case Lists(p, id, c, n, pre, _) =>
      && p in names && (pre.Some? ==> At(y.w.rep, p) == pre)
      && exists j :: Floor(y) <= j <= |cfg.log| && ListedAt(cfg.log, j, p, Entry(id, c, n))
    case _ => false
  }

  ghost predicate ListedAt(log: seq<Change>, j: nat, p: Path, x: Entry)
    requires j <= |log|
  { p in Upto(log, j) && Upto(log, j)[p] == x }

  predicate Spans(e: Change, all: set<Path>) { e.path in all && (e.Renamed? ==> e.from in all && e.from != e.path) }

  /** The names this client follows, and those it ignores, are all there are; a rename is one. */
  ghost predicate Follows(cfg: Setup, names: set<Path>) {
    && names !! cfg.skipped
    && forall i :: 0 <= i < |cfg.log| ==> Spans(cfg.log[i], names + cfg.skipped)
  }

  ghost function NextFiles(cfg: Setup, y: System, s: Step, files: Listing): Listing
    requires Enabled(cfg, y, s)
  {
    match s
    case Receives(n, f) =>
      var mine := Narrow(cfg.log[n - 1], cfg.skipped);
      if mine.None? || OutcomeOf(cfg, y.w, n, f) == Refused then files else Enter(files, mine.value, n)
    case Lists(p, id, c, n, _, _) => files[p := Entry(id, c, n)]
    case _ => files
  }

  lemma UptoStep(log: seq<Change>, n: nat)
    requires 0 < n <= |log|
    ensures Upto(log, n) == Enter(Upto(log, n - 1), log[n - 1], n)
  {
  }

  /** A name the event does not concern keeps its agreement, and moves past it. */
  lemma OtherNameReached(files: Listing, after: Listing, log: seq<Change>, n: nat, floor: nat, next: nat, p: Path)
    requires 0 < n <= |log| && !Touches(log[n - 1], p)
    requires Reached(files, log, floor, p)
    requires (p in after <==> p in files) && (p in files ==> after[p] == files[p])
    requires (n - 1 <= floor && next <= n) || next <= floor
    ensures Reached(after, log, next, p)
  {
    var j :| floor <= j <= |log| && AgreesAt(files, log, j, p);
    UptoStep(log, n);
    if j == n - 1 && next == n {
      assert AgreesAt(after, log, n, p);
    } else {
      assert AgreesAt(after, log, j, p);
    }
  }

  /** The floor rises to an event that settled, and stays where it is otherwise. */
  lemma SettleFloor(s: S.Session, upto: nat, o: Outcome)
    requires s.low <= upto && s.cursor <= upto && (s.low > 0 ==> s.cursor < s.low)
    ensures var n := upto + 1; var t := Settle(s, n, o);
            && t.cursor <= n && t.low <= n && (t.low > 0 ==> t.cursor < t.low)
            && (if t.low > 0 then t.low - 1 else n)
               == (if s.low > 0 then s.low - 1 else if o == Refused then upto else n)
  {
  }

  /** What is left of an event for this client is within the names it follows. */
  lemma NarrowWithin(cfg: Setup, names: set<Path>, n: nat)
    requires Follows(cfg, names) && 0 < n <= |cfg.log|
    ensures var mine := Narrow(cfg.log[n - 1], cfg.skipped); mine.Some? ==> Within(mine.value, names)
  {
    assert Spans(cfg.log[n - 1], names + cfg.skipped);
  }

  lemma FollowsAlike(r: Replica, e: Change, f: Faults)
    ensures FollowsThrough(r, e, f) <==> FollowsThrough(r, e, f.(fetched := false))
  {
    if e.Renamed? { VacatedIgnoresFetch(r, e.from, e.path, f); }
    hide Vacated;
  }

  /** A row that waits may wait under either status. */
  lemma StatusTracks(r: Replica, files: Listing, names: set<Path>, p: Path)
    requires Tracks(r, files, names) && p in names && p in r.rows && Stranded(r.rows[p])
    ensures Tracks(r.SetStatus(p, PendingDownload), files, names)
  {
    assert Settled(r, p, files[p]);
    TracksLocally(r, r.SetStatus(p, PendingDownload), files, files, names, p);
  }

  lemma ReceiveTracks(cfg: Setup, y: System, s: Step, files: Listing, names: set<Path>)
    requires s.Receives? && Enabled(cfg, y, s) && Remote(cfg, y, names, s)
    requires Tracks(y.w.rep, files, names) && Follows(cfg, names)
    ensures Tracks(Next(cfg, y, s).w.rep, NextFiles(cfg, y, s, files), names)
  {
    hide Tracks, Apply, HandledSession, FollowsThrough;
    NarrowWithin(cfg, names, s.n);
    var mine := Narrow(cfg.log[s.n - 1], cfg.skipped);
    if mine.Some? {
      var e, f := mine.value, s.f.(fetched := false);
      FollowsAlike(Announce(y.w.rep, e), e, s.f);
      ApplyTracks(y.w.rep, files, names, e, s.n, f);
      var off := Apply(y.w.rep, e, s.n, f);
      if off.outcome == Deferred {
        DeferredIsOwed(y.w.rep, e, s.n, f);
        StatusTracks(off.rep, NextFiles(cfg, y, s, files), names, e.path);
      }
    }
  }

  /** An event leaves a name that it concerns as the log does, whatever is left of it here. */
  lemma EnteredAlike(cfg: Setup, names: set<Path>, n: nat, files: Listing, p: Path)
    requires Follows(cfg, names) && 0 < n <= |cfg.log| && p in names && Touches(cfg.log[n - 1], p)
    ensures var mine := Narrow(cfg.log[n - 1], cfg.skipped);
            mine.Some? && AgreesAt(Enter(files, mine.value, n), cfg.log, n, p)
  {
    assert Spans(cfg.log[n - 1], names + cfg.skipped);
    UptoStep(cfg.log, n);
  }

  lemma NotConcerned(cfg: Setup, n: nat, files: Listing, p: Path)
    requires 0 < n <= |cfg.log| && !Touches(cfg.log[n - 1], p)
    ensures var mine := Narrow(cfg.log[n - 1], cfg.skipped);
            mine.Some? ==>
              (var x := Enter(files, mine.value, n); (p in x <==> p in files) && (p in files ==> x[p] == files[p]))
  {
  }

  lemma ReceiveReaches(cfg: Setup, y: System, s: Step, files: Listing, names: set<Path>, floor: nat, next: nat, p: Path)
    requires s.Receives? && Enabled(cfg, y, s) && Follows(cfg, names) && p in names
    requires Reached(files, cfg.log, floor, p)
    requires var o := OutcomeOf(cfg, y.w, s.n, s.f);
             next <= floor || (o != Refused && next == s.n && s.n - 1 <= floor)
    requires next <= s.n
    ensures Reached(NextFiles(cfg, y, s, files), cfg.log, next, p)
  {
    hide OutcomeOf, Enter, AgreesAt;
    var after := NextFiles(cfg, y, s, files);
    if !Touches(cfg.log[s.n - 1], p) {
      NotConcerned(cfg, s.n, files, p);
      OtherNameReached(files, after, cfg.log, s.n, floor, next, p);
    } else if OutcomeOf(cfg, y.w, s.n, s.f) == Refused {
      ReachedLower(files, cfg.log, floor, next, p);
    } else {
      EnteredAlike(cfg, names, s.n, files, p);
      assert AgreesAt(after, cfg.log, s.n, p);
    }
  }

  lemma ReceiveStaysOnCourse(cfg: Setup, y: System, s: Step, files: Listing, names: set<Path>)
    requires s.Receives? && Enabled(cfg, y, s) && Remote(cfg, y, names, s)
    requires OnCourse(cfg, y, files, names) && Follows(cfg, names)
    ensures OnCourse(cfg, Next(cfg, y, s), NextFiles(cfg, y, s, files), names)
  {
    ReceiveTracks(cfg, y, s, files, names);
    ReceiveCursor(cfg, y, s);
    ReceiveFetch(cfg, y, s);
    StartIsCurrent(cfg, y, s);
    SettleFloor(y.w.ses, y.upto, OutcomeOf(cfg, y.w, s.n, s.f));
    hide Tracks, Act, NextFetch, NextSweep, NextFiles, OutcomeOf, Reached;
    var z := Next(cfg, y, s);
    forall p | p in names ensures Reached(NextFiles(cfg, y, s, files), cfg.log, Floor(z), p) {
      ReceiveReaches(cfg, y, s, files, names, Floor(y), Floor(z), p);
    }
  }

  lemma ListTracks(w: World, files: Listing, names: set<Path>,
                   p: Path, id: FileId, c: Content, n: nat, pre: Option<Content>, f: Faults)
    requires Tracks(w.rep, files, names) && p in names && (pre.Some? ==> At(w.rep, p) == pre)
    ensures Tracks(BeginList(w, p, id, c, n, pre, f).world.rep, files[p := Entry(id, c, n)], names)
  {
    var a := w.rep.(ever := w.rep.ever + {c});
    AnnounceTracks(w.rep, files, names, Added(p, id, c));
    assert a == Announce(w.rep, Added(p, id, c));
    var t := BeginList(w, p, id, c, n, pre, f).world.rep;
    SaveCopyDisk(a, p, c, None, f);
    assert SameBut(a, t, p);
    TracksLocally(a, t, files, files[p := Entry(id, c, n)], names, p);
  }

  lemma ListStaysOnCourse(cfg: Setup, y: System, s: Step, files: Listing, names: set<Path>)
    requires s.Lists? && Enabled(cfg, y, s) && Remote(cfg, y, names, s) && OnCourse(cfg, y, files, names)
    ensures OnCourse(cfg, Next(cfg, y, s), NextFiles(cfg, y, s, files), names)
  {
    hide Tracks, BeginList, CurrentFetch, Upto;
    var z, after := Next(cfg, y, s), NextFiles(cfg, y, s, files);
    ListTracks(y.w, files, names, s.p, s.id, s.c, s.n, s.pre, s.f);
    StepCursor(cfg, y, s);
    StartIsCurrent(cfg, y, s);
    StartErrand(cfg, y, s);
    assert Floor(z) == Floor(y);
    forall p | p in names ensures Reached(after, cfg.log, Floor(z), p) {
      if p == s.p {
        var j :| Floor(y) <= j <= |cfg.log| && ListedAt(cfg.log, j, p, Entry(s.id, s.c, s.n));
        assert AgreesAt(after, cfg.log, j, p);
      } else {
        assert Reached(files, cfg.log, Floor(y), p);
        var j :| Floor(y) <= j <= |cfg.log| && AgreesAt(files, cfg.log, j, p);
        assert AgreesAt(after, cfg.log, j, p);
      }
    }
  }

  /** A conflict copy of the file of a row that waits loses track of nothing. */
  lemma CopyTracks(r: Replica, files: Listing, names: set<Path>, p: Path, c: Content, f: Faults)
    requires Tracks(r, files, names) && p in r.rows && Stranded(r.rows[p])
    ensures Tracks(SaveCopy(r, p, c, None, f), files, names)
  {
    assert Settled(r, p, files[p]);
    SaveCopyDisk(r, p, c, None, f);
    TracksLocally(r, SaveCopy(r, p, c, None, f), files, files, names, p);
  }

  /** One turn of a sweep, from a snapshot that is current: it starts a download, or has landed. */
  lemma TurnTracks(cfg: Setup, y: System, s: Step, files: Listing, names: set<Path>)
    requires s.SweepTurns? && Enabled(cfg, y, s) && Current(y) && Tracks(y.w.rep, files, names)
    ensures var z, p := Next(cfg, y, s), y.sweep.value.todo[0].path; var t := z.w.rep;
            && Tracks(t, files, names) && p in t.rows
            && (forall q :: q != p ==> SameRow(y.w.rep, t, q))
            && (if z.fetch.Some? then z.fetch.value.path == p else !s.t.passed ==> !Stranded(t.rows[p]))
  {
    var r, due := y.w.rep, y.sweep.value.todo[0];
    assert due.path in r.rows && r.rows[due.path] == due.row && Stranded(due.row);
    assert Settled(r, due.path, files[due.path]);
    TurnFrame(y.w, due, s.t);
    if SweepTransfers(r, due.path, due.row, s.t) {
      CopyTracks(r, files, names, due.path, due.row.server.value, s.t.faults);
    } else {
      SweepRowTracks(r, files, names, due.path, s.t);
      assert !s.t.passed ==> Lands(r, due.path, due.row, s.t);
    }
    hide SweepRow, SaveCopy, Tracks;
  }

  lemma TurnStaysOnCourse(cfg: Setup, y: System, s: Step, files: Listing, names: set<Path>)
    requires s.SweepTurns? && Enabled(cfg, y, s) && OnCourse(cfg, y, files, names)
    ensures OnCourse(cfg, Next(cfg, y, s), files, names)
  {
    hide Tracks, Reached, Start, Current, LandedBy;
    TurnTracks(cfg, y, s, files, names);
    StepCursor(cfg, y, s);
    StepKeepsCurrent(cfg, y, s);
    StartErrand(cfg, y, s);
    assert Floor(Next(cfg, y, s)) == Floor(y);
  }

  /** The end of a download that its row still names. */
  lemma FetchTracks(r: Replica, files: Listing, names: set<Path>, x: Fetch, fetched: bool)
    requires Tracks(r, files, names) && CurrentFetch(r.rows, x)
    ensures var t := Download(r, x.path, x.bytes, fetched);
            && Tracks(t, files, names) && x.path in t.rows && (fetched ==> !Stranded(t.rows[x.path]))
            && forall q :: q != x.path ==> SameRow(r, t, q)
  {
    assert Settled(r, x.path, files[x.path]);
    DownloadLocally(r, x.path, x.bytes, fetched);
    TracksLocally(r, Download(r, x.path, x.bytes, fetched), files, files, names, x.path);
  }

  /** A download settles its own event at most, and that one is past every refused one. */
  lemma FetchFloor(cfg: Setup, y: System, s: Step)
    requires s.FetchEnds? && Enabled(cfg, y, s)
    requires var e := y.w.ses; e.cursor <= y.upto && e.low <= y.upto && (e.low > 0 ==> e.cursor < e.low)
    requires var e := y.fetch.value.errand; e.ForEvent? ==> e.n == y.upto && y.w.ses.low < y.upto
    ensures var z := Next(cfg, y, s); var e := z.w.ses;
            && z.upto == y.upto && z.fetch.None? && Floor(z) == Floor(y)
            && e.cursor <= y.upto && e.low <= y.upto && (e.low > 0 ==> e.cursor < e.low)
  {
    hide EndFetch;
    FetchCursor(cfg, y, s);
  }

  lemma FetchStaysOnCourse(cfg: Setup, y: System, s: Step, files: Listing, names: set<Path>)
    requires s.FetchEnds? && Enabled(cfg, y, s) && OnCourse(cfg, y, files, names)
    ensures OnCourse(cfg, Next(cfg, y, s), files, names)
  {
    hide Tracks, Reached, Current, Next, Download, CurrentFetch;
    assert CurrentFetch(y.w.rep.rows, y.fetch.value) by { CurrentDownload(y); }
    FetchTracks(y.w.rep, files, names, y.fetch.value, s.fetched);
    FetchFloor(cfg, y, s);
    FetchFolder(cfg, y, s);
    StepKeepsCurrent(cfg, y, s);
  }

  lemma CurrentDownload(y: System)
    requires Current(y) && y.fetch.Some?
    ensures CurrentFetch(y.w.rep.rows, y.fetch.value)
  {
  }

  lemma FetchFolder(cfg: Setup, y: System, s: Step)
    requires s.FetchEnds? && Enabled(cfg, y, s)
    ensures Next(cfg, y, s).w.rep == Download(y.w.rep, y.fetch.value.path, y.fetch.value.bytes, s.fetched)
  {
  }

  /** Opening a session rewinds to the cursor, which is at or below the floor. */
  lemma ReachedLower(files: Listing, log: seq<Change>, floor: nat, lower: nat, p: Path)
    requires Reached(files, log, floor, p) && lower <= floor
    ensures Reached(files, log, lower, p)
  {
    var j :| floor <= j <= |log| && AgreesAt(files, log, j, p);
  }

  lemma StepStaysOnCourse(cfg: Setup, y: System, s: Step, files: Listing, names: set<Path>)
    requires Enabled(cfg, y, s) && Remote(cfg, y, names, s)
    requires OnCourse(cfg, y, files, names) && Follows(cfg, names)
    ensures OnCourse(cfg, Next(cfg, y, s), NextFiles(cfg, y, s, files), names)
  {
    hide OnCourse, Follows, Act;
    if s.Receives? { ReceiveStaysOnCourse(cfg, y, s, files, names); }
    else if s.Lists? { ListStaysOnCourse(cfg, y, s, files, names); }
    else if s.SweepTurns? { TurnStaysOnCourse(cfg, y, s, files, names); }
    else if s.FetchEnds? { FetchStaysOnCourse(cfg, y, s, files, names); }
    else { QuietStaysOnCourse(cfg, y, s, files, names); }
  }

  /** A process that dies over a current download leaves the file or not, and its row as it was. */
  lemma CutTracks(y: System, files: Listing, names: set<Path>, landed: bool)
    requires Tracks(y.w.rep, files, names) && Current(y)
    ensures Tracks(Cut(y, landed).rep, files, names)
  {
    if landed && y.fetch.Some? {
      var p := y.fetch.value.path;
      assert Settled(y.w.rep, p, files[p]);
      TracksLocally(y.w.rep, Cut(y, landed).rep, files, files, names, p);
    }
  }

  /** What the connection does, a sweep's own beginning and end, and a restart touch no row. */
  lemma QuietStaysOnCourse(cfg: Setup, y: System, s: Step, files: Listing, names: set<Path>)
    requires Enabled(cfg, y, s) && Remote(cfg, y, names, s) && !Starts(s) && !s.FetchEnds?
    requires OnCourse(cfg, y, files, names)
    ensures OnCourse(cfg, Next(cfg, y, s), files, names)
  {
    hide Tracks, Reached, Current, Enumerates;
    var z := Next(cfg, y, s);
    StepKeepsCurrent(cfg, y, s);
    if s.Restarts? { CutTracks(y, files, names, s.landed); }
    assert z.w.rep == (if s.Restarts? then Cut(y, s.landed).rep else y.w.rep);
    assert Floor(z) <= Floor(y);
    forall p | p in names ensures Reached(files, cfg.log, Floor(z), p) {
      ReachedLower(files, cfg.log, Floor(y), Floor(z), p);
    }
  }

  ghost predicate AllRemote(cfg: Setup, y: System, names: set<Path>, steps: seq<Step>)
    requires Possible(cfg, y, steps)
    decreases |steps|
  {
    steps != [] ==> Remote(cfg, y, names, steps[0]) && AllRemote(cfg, Next(cfg, y, steps[0]), names, steps[1..])
  }

  ghost function RunFiles(cfg: Setup, y: System, steps: seq<Step>, files: Listing): Listing
    requires Possible(cfg, y, steps)
    decreases |steps|
  {
    if steps == [] then files
    else RunFiles(cfg, Next(cfg, y, steps[0]), steps[1..], NextFiles(cfg, y, steps[0], files))
  }

  lemma {:induction false} RunStaysOnCourse(cfg: Setup, y: System, steps: seq<Step>, files: Listing, names: set<Path>)
    requires Possible(cfg, y, steps) && AllRemote(cfg, y, names, steps)
    requires OnCourse(cfg, y, files, names) && Follows(cfg, names)
    ensures OnCourse(cfg, Run(cfg, y, steps), RunFiles(cfg, y, steps, files), names)
    decreases |steps|
  {
    if steps != [] {
      StepStaysOnCourse(cfg, y, steps[0], files, names);
      RunStaysOnCourse(cfg, Next(cfg, y, steps[0]), steps[1..], NextFiles(cfg, y, steps[0], files), names);
    }
  }

  /** The log's listing, as far as this client follows it. */
  function Mine(log: seq<Change>, names: set<Path>): Listing {
    map p | p in Upto(log, |log|) && p in names :: Upto(log, |log|)[p]
  }

  /** A fresh client: nothing tracked, nothing on disk under the names it follows. */
  ghost predicate Fresh(y: System, names: set<Path>) {
    && y.upto == y.w.ses.cursor == y.w.ses.low == 0 && y.sweep.None? && y.fetch.None?
    && Distinct(y.w.rep, names) && y.w.rep.rows == map[]
    && forall p :: p in names ==> !y.w.rep.OnDisk(p)
  }

  lemma FreshIsOnCourse(cfg: Setup, y: System, names: set<Path>)
    requires Fresh(y, names)
    ensures OnCourse(cfg, y, map[], names)
  {
    forall p | p in names ensures Reached(map[], cfg.log, 0, p) { assert AgreesAt(map[], cfg.log, 0, p); }
  }

  lemma TracksWithin(r: Replica, files: Listing, names: set<Path>)
    requires Tracks(r, files, names)
    ensures files.Keys <= names
  {
  }

  lemma ReachedTheEnd(files: Listing, log: seq<Change>, p: Path)
    requires Reached(files, log, |log|, p)
    ensures AgreesAt(files, log, |log|, p)
  {
  }

  lemma CourseEndsAtLog(cfg: Setup, z: System, files: Listing, names: set<Path>)
    requires OnCourse(cfg, z, files, names) && z.upto == |cfg.log| && z.w.ses.low == 0
    ensures files == Mine(cfg.log, names)
  {
    TracksWithin(z.w.rep, files, names);
    assert Floor(z) == |cfg.log|;
    hide Tracks, Reached, Upto;
    var mine := Mine(cfg.log, names);
    forall p | p in names ensures (p in files <==> p in mine) && (p in mine ==> files[p] == mine[p]) {
      ReachedTheEnd(files, cfg.log, p);
    }
    assert forall p :: p in files ==> p in names;
  }

  /** Once a session has delivered the whole log and refused none of it, every followed name
      has its logged file, or a row owing exactly that file, or neither; whatever failed,
      dropped or was replayed before. */
  lemma ConvergesToLog(cfg: Setup, y: System, steps: seq<Step>, names: set<Path>)
    requires Possible(cfg, y, steps) && AllRemote(cfg, y, names, steps) && Follows(cfg, names) && Fresh(y, names)
    requires Run(cfg, y, steps).upto == |cfg.log| && Run(cfg, y, steps).w.ses.low == 0
    ensures Tracks(Run(cfg, y, steps).w.rep, Mine(cfg.log, names), names)
  {
    FreshIsOnCourse(cfg, y, names);
    RunStaysOnCourse(cfg, y, steps, map[], names);
    CourseEndsAtLog(cfg, Run(cfg, y, steps), RunFiles(cfg, y, steps, map[]), names);
  }

  // --- One good sweep ---

  /** A sweep's turn that is not passed over, a download that succeeds, the sweep's end, and what
      the connection does in between. */
  predicate Heals(s: Step) {
    match s
    case SweepTurns(t) => !t.passed
    case FetchEnds(fetched) => fetched
    case SweepEnds => true
    case Opens => true
    case Drops => true
    case Retries => true
    case Breaks => true
    case Rejects => true
    case _ => false
  }

  /** Only rows the sweep has yet to reach are stranded, and the one being downloaded. */
  ghost predicate Healing(y: System, files: Listing, names: set<Path>) {
    && Tracks(y.w.rep, files, names) && Current(y)
    && (forall p :: p in y.w.rep.rows && Stranded(y.w.rep.rows[p]) ==> InHand(y, p))
  }

  ghost predicate InHand(y: System, p: Path) {
    (y.sweep.Some? && StillToCome(y.sweep.value.todo, p)) || (y.fetch.Some? && y.fetch.value.path == p)
  }

  lemma TurnHeals(cfg: Setup, y: System, s: Step, files: Listing, names: set<Path>)
    requires s.SweepTurns? && Heals(s) && Enabled(cfg, y, s) && Healing(y, files, names)
    ensures Healing(Next(cfg, y, s), files, names)
  {
    hide Tracks, Start, Current, LandedBy;
    TurnTracks(cfg, y, s, files, names);
    StepKeepsCurrent(cfg, y, s);
    var z, todo := Next(cfg, y, s), y.sweep.value.todo;
    forall p | p in z.w.rep.rows && Stranded(z.w.rep.rows[p]) ensures InHand(z, p) {
      if p != todo[0].path {
        assert SameRow(y.w.rep, z.w.rep, p);
        var i :| 0 <= i < |todo| && todo[i].path == p;
        assert todo[1..][i - 1].path == p;
      }
    }
  }

  lemma FetchHeals(cfg: Setup, y: System, s: Step, files: Listing, names: set<Path>)
    requires s.FetchEnds? && Heals(s) && Enabled(cfg, y, s) && Healing(y, files, names)
    ensures Healing(Next(cfg, y, s), files, names)
  {
    hide Tracks, EndFetch, Current, Download, CurrentFetch;
    CurrentDownload(y);
    FetchTracks(y.w.rep, files, names, y.fetch.value, s.fetched);
    FetchFolder(cfg, y, s);
    StepKeepsCurrent(cfg, y, s);
    var z := Next(cfg, y, s);
    forall p | p in z.w.rep.rows && Stranded(z.w.rep.rows[p]) ensures InHand(z, p) {
      assert SameRow(y.w.rep, z.w.rep, p) && InHand(y, p);
    }
  }

  lemma StepHeals(cfg: Setup, y: System, s: Step, files: Listing, names: set<Path>)
    requires Heals(s) && Enabled(cfg, y, s) && Healing(y, files, names)
    ensures Healing(Next(cfg, y, s), files, names)
  {
    hide Tracks, Current, Start, EndFetch, LandedBy;
    if s.SweepTurns? { TurnHeals(cfg, y, s, files, names); }
    else if s.FetchEnds? { FetchHeals(cfg, y, s, files, names); }
    else {
      StepKeepsCurrent(cfg, y, s);
      assert Next(cfg, y, s).w.rep == y.w.rep;
    }
  }

  lemma {:induction false} RunHeals(cfg: Setup, y: System, steps: seq<Step>, files: Listing, names: set<Path>)
    requires Possible(cfg, y, steps) && Healing(y, files, names)
    requires forall i :: 0 <= i < |steps| ==> Heals(steps[i])
    ensures Healing(Run(cfg, y, steps), files, names)
    decreases |steps|
  {
    hide Healing, Next, Heals;
    if steps != [] {
      StepHeals(cfg, y, steps[0], files, names);
      RunHeals(cfg, Next(cfg, y, steps[0]), steps[1..], files, names);
    }
  }

  lemma SweepStartsHealing(cfg: Setup, y: System, order: seq<Path>, files: Listing, names: set<Path>)
    requires Enabled(cfg, y, SweepBegins(order)) && Tracks(y.w.rep, files, names)
    ensures Healing(Next(cfg, y, SweepBegins(order)), files, names)
  {
    var z := Next(cfg, y, SweepBegins(order));
    StepKeepsCurrent(cfg, y, SweepBegins(order));
    forall p | p in z.w.rep.rows && Stranded(z.w.rep.rows[p]) ensures InHand(z, p) {
      assert p in order;
      var i :| 0 <= i < |order| && order[i] == p;
      assert z.sweep.value.todo[i].path == p;
    }
  }

  /** And then one sweep whose downloads all succeed, whatever the connection does meanwhile, leaves
      exactly the log's files, all SYNCED. */
  lemma OneGoodSweepHeals(cfg: Setup, y: System, steps: seq<Step>, names: set<Path>, order: seq<Path>, turns: seq<Step>)
    requires Possible(cfg, y, steps) && AllRemote(cfg, y, names, steps) && Follows(cfg, names) && Fresh(y, names)
    requires Run(cfg, y, steps).upto == |cfg.log| && Run(cfg, y, steps).w.ses.low == 0
    requires Enabled(cfg, Run(cfg, y, steps), SweepBegins(order))
    requires Possible(cfg, Next(cfg, Run(cfg, y, steps), SweepBegins(order)), turns)
    requires forall i :: 0 <= i < |turns| ==> Heals(turns[i])
    requires var z := Run(cfg, Next(cfg, Run(cfg, y, steps), SweepBegins(order)), turns);
             z.fetch.None? && (z.sweep.Some? ==> z.sweep.value.todo == [])
    ensures var t := Run(cfg, Next(cfg, Run(cfg, y, steps), SweepBegins(order)), turns).w.rep;
            && AtRest(t, Mine(cfg.log, names))
            && forall p :: p in names && p !in Mine(cfg.log, names) ==> !t.OnDisk(p)
  {
    hide AllRemote, Follows, Fresh, Tracks, AtRest, Enabled, Next;
    ConvergesToLog(cfg, y, steps, names);
    var files, begun := Mine(cfg.log, names), Next(cfg, Run(cfg, y, steps), SweepBegins(order));
    SweepStartsHealing(cfg, Run(cfg, y, steps), order, files, names);
    RunHeals(cfg, begun, turns, files, names);
    NothingStrandedIsAtRest(Run(cfg, begun, turns).w.rep, files, names);
  }
}
