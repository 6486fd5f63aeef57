/**
 Whole runs of the client: sessions that open, drop and replay from the cursor, downloads that
 take their time, sweeps turn by turn, local changes and uploads, in any order.
 */
module Runs {
  import opened Types
  import opened Replica
  import opened Safety
  import opened LocalSafety
  import opened World
  import opened Transfers
  import opened Effects
  import S = Session

  /** The server's log, event `n` at index `n - 1`, and the paths this client ignores. */
  datatype Setup = Setup(log: seq<Change>, skipped: set<Path>)

  /** A sweep under way: the rows still to come, as it found them, and how many have landed. */
  datatype Sweeping = Sweeping(todo: seq<Due>, landed: nat)

  /** The client, how far the current session has delivered, the sweep under way, and the download
      that its chain of events, sweeps and listings is waiting for. */
  datatype System = System(w: World, upto: nat, sweep: Option<Sweeping>, fetch: Option<Fetch>)

  datatype Step =
    | UserWrites(k: Path, c: Content)
    | UserDeletes(k: Path)
    | Receives(n: nat, f: Faults)
    | Opens | Drops | Retries | Breaks | Rejects
    | Beats(h: nat)
    | SweepBegins(order: seq<Path>)
    | SweepTurns(t: Turn)
    | SweepEnds
    | SweepFails
    | Lists(p: Path, id: FileId, c: Content, n: nat, pre: Option<Content>, f: Faults)
    | FetchEnds(fetched: bool)
    | LocalChanges(p: Path, g: LocalFaults)
    | LocalDeletes(p: Path, g: LocalFaults)
    | TimerFires(p: Path, g: LocalFaults)
    | UploadSettles(p: Path, sent: Sent)
    | RescansFile(p: Path, g: LocalFaults)
    | Scans(p: Path, listed: bool, g: LocalFaults)
    | RescansMissing(p: Path, g: LocalFaults)
    | RecoversUpload(p: Path, row: Row, g: LocalFaults)
    | RecoversDelete(p: Path, g: LocalFaults)
    | Resyncs | Restarts(landed: bool)

  /** The path is being downloaded, so watcher events for it are dropped and its delete refused. */
  predicate Suppressed(y: System, p: Path) {
    y.fetch.Some? && y.w.rep.Key(p) == y.w.rep.Key(y.fetch.value.path)
  }

  /** The apply chain is free, but for a sweep between two turns. */
  predicate Free(y: System) { y.fetch.None? }

  /** The server delivers a session's events in order, from just past the cursor it opened at, and
      none of an earlier session is still under way when one opens. Events, heartbeats, listings,
      rescans and sweeps take their turns on one chain, which waits for their downloads. The user,
      the watcher, timers, uploads and the connection wait for nobody. */
  ghost predicate Enabled(cfg: Setup, y: System, s: Step) {
    match s
    case Receives(n, _) => Free(y) && y.sweep.None? && n == y.upto + 1 && n <= |cfg.log|
    case Opens => y.fetch.Some? ==> !y.fetch.value.errand.ForEvent?
    case Beats(_) => Free(y) && y.sweep.None?
    case Lists(_, _, _, _, _, _) => Free(y) && y.sweep.None?
    case SweepBegins(order) => Free(y) && y.sweep.None? && Enumerates(y.w.rep, order)
    case SweepTurns(_) => Free(y) && y.sweep.Some? && y.sweep.value.todo != []
    case SweepEnds => Free(y) && y.sweep.Some? && y.sweep.value.todo == []
    case SweepFails => Free(y) && y.sweep.Some?
    case FetchEnds(_) => y.fetch.Some?
    case LocalChanges(p, _) => !Suppressed(y, p)
    case LocalDeletes(p, _) => !Suppressed(y, p)
    case TimerFires(p, g) => p in y.w.buffered && (Suppressed(y, p) ==> !g.readable)
    case UploadSettles(p, _) => p in y.w.uploads
    case RescansFile(_, _) => Free(y) && y.sweep.None?
    case Scans(_, _, _) => Free(y) && y.sweep.None?
    case RescansMissing(_, _) => Free(y) && y.sweep.None?
    case RecoversUpload(_, row, _) => Free(y) && (row.server.Some? ==> row.server.value in y.w.rep.ever)
    case RecoversDelete(_, _) => Free(y)
    case Resyncs => Free(y) && y.sweep.None? && y.w.uploads == map[]
    case _ => true
  }

  /** The steps that may start a download. */
  predicate Starts(s: Step) { s.Receives? || s.SweepTurns? || s.Lists? }

  /** What such a step does up to there. */
  function Start(cfg: Setup, y: System, s: Step): Begun
    requires s.Receives? ==> 0 < s.n <= |cfg.log|
    requires s.SweepTurns? ==> y.sweep.Some? && y.sweep.value.todo != []
    requires Starts(s)
  {
    match s
    case Receives(n, f) => BeginReceive(y.w, cfg.log[n - 1], n, f, cfg.skipped)
    case SweepTurns(t) => BeginTurn(y.w, y.sweep.value.todo[0], t)
    case Lists(p, id, c, n, pre, f) => BeginList(y.w, p, id, c, n, pre, f)
  }

  /** The process stops in the middle of a download: before the file is in place, or after that and
      before its row says so. */
  function Cut(y: System, landed: bool): World {
    if landed && y.fetch.Some? then y.w.(rep := y.w.rep.Write(y.fetch.value.path, y.fetch.value.bytes)) else y.w
  }

  ghost function Act(cfg: Setup, y: System, s: Step): World
    requires Enabled(cfg, y, s)
  {
    var w := y.w;
    match s
    case UserWrites(k, c) => w.(rep := w.rep.(disk := w.rep.disk[k := c]))
    case UserDeletes(k) => w.(rep := w.rep.(disk := w.rep.disk - {k}))
    case Receives(_, _) => Start(cfg, y, s).world
    case Opens => w.(ses := S.Open(w.ses))
    case Drops => w.(ses := S.Close(w.ses))
    case Retries => w.(ses := S.Retry(w.ses))
    case Breaks => w.(ses := S.Fault(w.ses))
    case Rejects => w.(ses := S.Reject(w.ses))
    case Beats(h) => w.(ses := S.Heartbeat(w.ses, h))
    case SweepBegins(_) => w
    case SweepTurns(_) => Start(cfg, y, s).world
    case SweepEnds => EndSweep(w, y.sweep.value.landed)
    case SweepFails => w
    case Lists(_, _, _, _, _, _) => Start(cfg, y, s).world
    case FetchEnds(fetched) => EndFetch(w, y.fetch.value, fetched)
    case LocalChanges(p, g) => if Listening(w.ses) then LocalModify(w, p, g) else w
    case LocalDeletes(p, g) => if Listening(w.ses) then LocalDelete(w, p, g) else w
    case TimerFires(p, g) => DeleteFires(w, p, g)
    case UploadSettles(p, sent) => UploadEnds(w, p, sent)
    case RescansFile(p, g) => RescanFile(w, p, g)
    case Scans(p, listed, g) => ScanFile(w, p, listed, g)
    case RescansMissing(p, g) => RescanMissing(w, p, g)
    case RecoversUpload(p, row, g) => RecoverUpload(w, p, row, g)
    case RecoversDelete(p, g) => RecoverDelete(w, p, g)
    case Resyncs => Resync(w)
    case Restarts(landed) => Restart(Cut(y, landed))
  }

  ghost function NextFetch(cfg: Setup, y: System, s: Step): Option<Fetch>
    requires Enabled(cfg, y, s)
  {
    if Starts(s) then Start(cfg, y, s).fetch
    else if s.FetchEnds? || s.Restarts? then None
    else y.fetch
  }

  /** A turn lands at once when the file on disk is what was missing, or else with its download. */
  ghost function NextSweep(cfg: Setup, y: System, s: Step): Option<Sweeping>
    requires Enabled(cfg, y, s)
  {
    match s
    case SweepBegins(order) => Some(Sweeping(Snapshots(y.w.rep, order), 0))
    case SweepTurns(t) =>
      var Sweeping(todo, landed) := y.sweep.value;
      Some(Sweeping(todo[1..], landed + if Start(cfg, y, s).fetch.None? then LandedBy(y.w, todo[0], t) else 0))
    case FetchEnds(fetched) =>
      if y.fetch.value.errand.ForTurn? && fetched && y.sweep.Some?
      then Some(y.sweep.value.(landed := y.sweep.value.landed + 1)) else y.sweep
    case SweepEnds => None
    case SweepFails => None
    case Restarts(_) => None
    case _ => y.sweep
  }

  ghost function Next(cfg: Setup, y: System, s: Step): System
    requires Enabled(cfg, y, s)
  {
    System(Act(cfg, y, s),
           if s.Receives? then s.n
           else if s.Opens? || s.Restarts? then y.w.ses.cursor
           else if s.Resyncs? then 0
           else y.upto,
           NextSweep(cfg, y, s),
           NextFetch(cfg, y, s))
  }

  ghost predicate Possible(cfg: Setup, y: System, steps: seq<Step>)
    decreases |steps|
  { steps != [] ==> Enabled(cfg, y, steps[0]) && Possible(cfg, Next(cfg, y, steps[0]), steps[1..]) }

  ghost function Run(cfg: Setup, y: System, steps: seq<Step>): System
    requires Possible(cfg, y, steps)
    decreases |steps|
  { if steps == [] then y else Run(cfg, Next(cfg, y, steps[0]), steps[1..]) }

  // --- Operations nobody interrupts ---

  lemma RunCons(cfg: Setup, y: System, s: Step, rest: seq<Step>)
    requires Enabled(cfg, y, s) && Possible(cfg, Next(cfg, y, s), rest)
    ensures Possible(cfg, y, [s] + rest) && Run(cfg, y, [s] + rest) == Run(cfg, Next(cfg, y, s), rest)
  {
    hide Enabled, Next;
    assert ([s] + rest)[1..] == rest;
  }

  /** The steps of an operation that runs through: its start, and its download's end if it has one. */
  ghost function Through(cfg: Setup, y: System, s: Step, fetched: bool): seq<Step>
    requires Enabled(cfg, y, s) && Starts(s)
  { [s] + (if Start(cfg, y, s).fetch.Some? then [FetchEnds(fetched)] else []) }

  lemma ThroughRuns(cfg: Setup, y: System, s: Step, fetched: bool)
    requires Enabled(cfg, y, s) && Starts(s)
    ensures Possible(cfg, y, Through(cfg, y, s, fetched))
    ensures var z := Run(cfg, y, Through(cfg, y, s, fetched)); z.w == Whole(Start(cfg, y, s), fetched) && z.fetch.None?
    ensures var z := Run(cfg, y, Through(cfg, y, s, fetched)); var t := Next(cfg, y, s);
            z.upto == t.upto && (!s.SweepTurns? ==> z.sweep == t.sweep)
            && (s.SweepTurns? ==> z.sweep == Some(Sweeping(y.sweep.value.todo[1..], y.sweep.value.landed
                  + if Start(cfg, y, s).fetch.Some? then (if fetched then 1 else 0)
                      else LandedBy(y.w, y.sweep.value.todo[0], s.t))))
  {
    hide EndFetch, BeginReceive, BeginList, TakeTurn, SweepRow, SaveCopy, SweepTransfers, LandedBy;
    var z := Next(cfg, y, s);
    if z.fetch.Some? {
      assert Possible(cfg, Next(cfg, z, FetchEnds(fetched)), []);
      RunCons(cfg, z, FetchEnds(fetched), []);
      assert [FetchEnds(fetched)] + [] == [FetchEnds(fetched)];
      RunCons(cfg, y, s, [FetchEnds(fetched)]);
    } else {
      assert Possible(cfg, z, []);
      RunCons(cfg, y, s, []);
    }
  }

  /** An event that runs through is the whole of its handler. */
  lemma UninterruptedEvent(cfg: Setup, y: System, n: nat, f: Faults)
    requires Enabled(cfg, y, Receives(n, f))
    ensures Possible(cfg, y, Through(cfg, y, Receives(n, f), f.fetched))
    ensures Run(cfg, y, Through(cfg, y, Receives(n, f), f.fetched))
            == System(Receive(y.w, cfg.log[n - 1], n, f, cfg.skipped), n, None, None)
  {
    ThroughRuns(cfg, y, Receives(n, f), f.fetched);
    ReceiveIsBoth(y.w, cfg.log[n - 1], n, f, cfg.skipped);
    hide Receive, Whole, BeginReceive, Through;
  }

  /** And so is a listed file. */
  lemma UninterruptedListing(cfg: Setup, y: System, p: Path, id: FileId, c: Content, n: nat, pre: Option<Content>,
          f: Faults)
    requires Enabled(cfg, y, Lists(p, id, c, n, pre, f))
    ensures Possible(cfg, y, Through(cfg, y, Lists(p, id, c, n, pre, f), f.fetched))
    ensures Run(cfg, y, Through(cfg, y, Lists(p, id, c, n, pre, f), f.fetched))
            == System(List(y.w, p, id, c, n, pre, f), y.upto, None, None)
  {
    ThroughRuns(cfg, y, Lists(p, id, c, n, pre, f), f.fetched);
    ListIsBoth(y.w, p, id, c, n, pre, f);
    hide List, Whole, BeginList, Through;
  }

  /** The turns of a sweep, each run through. */
  ghost function AllTurns(cfg: Setup, y: System, turns: seq<Turn>): seq<Step>
    requires Free(y) && y.sweep.Some? && |turns| == |y.sweep.value.todo|
    decreases |turns|
  {
    if turns == [] then []
    else
      var through := Through(cfg, y, SweepTurns(turns[0]), turns[0].faults.fetched);
      ThroughRuns(cfg, y, SweepTurns(turns[0]), turns[0].faults.fetched);
      through + AllTurns(cfg, Run(cfg, y, through), turns[1..])
  }

  lemma {:induction false} RunAppends(cfg: Setup, y: System, a: seq<Step>, b: seq<Step>)
    requires Possible(cfg, y, a) && Possible(cfg, Run(cfg, y, a), b)
    ensures Possible(cfg, y, a + b) && Run(cfg, y, a + b) == Run(cfg, Run(cfg, y, a), b)
    decreases |a|
  {
    hide Enabled, Next;
    if a == [] {
      assert a + b == b;
    } else {
      assert (a + b)[1..] == a[1..] + b;
      RunAppends(cfg, Next(cfg, y, a[0]), a[1..], b);
    }
  }

  lemma TurnRunsThrough(cfg: Setup, y: System, t: Turn)
    requires Enabled(cfg, y, SweepTurns(t))
    ensures var through, due := Through(cfg, y, SweepTurns(t), t.faults.fetched), y.sweep.value.todo[0];
            && Possible(cfg, y, through)
            && Run(cfg, y, through) == System(TakeTurn(y.w, due, t), y.upto,
                 Some(Sweeping(y.sweep.value.todo[1..], y.sweep.value.landed + LandedBy(y.w, due, t))), None)
  {
    ThroughRuns(cfg, y, SweepTurns(t), t.faults.fetched);
    TurnIsBoth(y.w, y.sweep.value.todo[0], t);
    LandsWithDownload(y.w, y.sweep.value.todo[0], t);
    hide TakeTurn, Whole, Through, SweepTransfers, LandedBy;
  }

  lemma LandsWithDownload(w: World, due: Due, t: Turn)
    ensures BeginTurn(w, due, t).fetch.Some? ==> LandedBy(w, due, t) == if t.faults.fetched then 1 else 0
  {
  }

  lemma {:induction false} UninterruptedTurns(cfg: Setup, y: System, turns: seq<Turn>)
    requires Free(y) && y.sweep.Some? && |turns| == |y.sweep.value.todo|
    ensures Possible(cfg, y, AllTurns(cfg, y, turns))
    ensures var out := TakeTurns(y.w, y.sweep.value.todo, turns, y.sweep.value.landed);
            Run(cfg, y, AllTurns(cfg, y, turns)) == System(out.world, y.upto, Some(Sweeping([], out.landed)), None)
    decreases |turns|
  {
    hide TakeTurn, LandedBy, Through, Next;
    if turns != [] {
      TurnRunsThrough(cfg, y, turns[0]);
      var through := Through(cfg, y, SweepTurns(turns[0]), turns[0].faults.fetched);
      var z := Run(cfg, y, through);
      UninterruptedTurns(cfg, z, turns[1..]);
      RunAppends(cfg, y, through, AllTurns(cfg, z, turns[1..]));
    }
  }

  /** The steps of a sweep, run without a break, are the whole loop of `Sweep`. */
  lemma UninterruptedSweep(cfg: Setup, y: System, order: seq<Path>, turns: seq<Turn>)
    requires Enabled(cfg, y, SweepBegins(order)) && |turns| == |order|
    ensures var begun := Next(cfg, y, SweepBegins(order));
            && Possible(cfg, begun, AllTurns(cfg, begun, turns))
            && (var z := Run(cfg, begun, AllTurns(cfg, begun, turns));
                && Enabled(cfg, z, SweepEnds)
                && Next(cfg, z, SweepEnds) == System(Sweep(y.w, order, turns), y.upto, None, None))
  {
    UninterruptedTurns(cfg, Next(cfg, y, SweepBegins(order)), turns);
  }

  // --- Server checksums stay server-held ---

  ghost predicate HeldDues(sweep: Option<Sweeping>, ever: set<Content>) {
    sweep.Some? ==>
      forall i :: 0 <= i < |sweep.value.todo| && sweep.value.todo[i].row.server.Some? ==>
        sweep.value.todo[i].row.server.value in ever
  }

  ghost predicate HeldFetch(fetch: Option<Fetch>, ever: set<Content>) { fetch.Some? ==> fetch.value.bytes in ever }

  /** What every run keeps, whatever happens in it. */
  ghost predicate Sound(y: System) {
    Held(y.w) && HeldDues(y.sweep, y.w.rep.ever) && HeldFetch(y.fetch, y.w.rep.ever)
  }

  lemma HeldGrows(y: System, after: set<Content>)
    requires HeldDues(y.sweep, y.w.rep.ever) && HeldFetch(y.fetch, y.w.rep.ever) && y.w.rep.ever <= after
    ensures HeldDues(y.sweep, after) && HeldFetch(y.fetch, after)
  {
  }

  /** A row's status, other than SYNCED, plays no part in either. */
  lemma StatusKeepsRows(r: Replica, t: Replica, p: Path)
    requires KeepsRows(r, t)
    ensures KeepsRows(r, t.SetStatus(p, PendingDownload))
  {
  }

  lemma EventStartKeeps(w: World, e: Change, n: nat, f: Faults, skipped: set<Path>)
    ensures var b := BeginReceive(w, e, n, f, skipped);
            && KeepsRows(w.rep, b.world.rep) && b.world.buffered == w.buffered
            && HeldFetch(b.fetch, b.world.rep.ever)
  {
    hide Apply, HandledSession, KeepsRows;
    var mine := Narrow(e, skipped);
    NothingKeeps(w.rep);
    if mine.Some? {
      ApplyKeepsRows(w.rep, mine.value, n, f.(fetched := false));
      var off := Apply(w.rep, mine.value, n, f.(fetched := false)).rep;
      ApplyRemembers(w.rep, mine.value, n, f.(fetched := false));
      if Fetches(w.rep, mine.value, n, f) { StatusKeepsRows(w.rep, off, mine.value.path); }
    }
  }

  lemma NothingKeeps(r: Replica)
    ensures KeepsRows(r, r)
  {
  }

  /** A turn works on the row it took from the table when the sweep began. */
  lemma TurnStartKeeps(w: World, due: Due, t: Turn)
    requires due.row.server.Some? ==> due.row.server.value in w.rep.ever
    ensures var b := BeginTurn(w, due, t);
            && KeepsRows(w.rep, b.world.rep) && b.world.buffered == w.buffered && b.world.rep.ever == w.rep.ever
            && HeldFetch(b.fetch, b.world.rep.ever)
  {
    var b := BeginTurn(w, due, t);
    if SweepTransfers(w.rep, due.path, due.row, t) {
      SaveCopyKeepsRows(w.rep, due.path, due.row.server.value, None, t.faults);
    } else if b.world.rep != w.rep {
      UpsertKeepsRows(w.rep, w.rep, due.path, b.world.rep.rows[due.path]);
    }
  }

  lemma ListStartKeeps(w: World, p: Path, id: FileId, c: Content, n: nat, pre: Option<Content>, f: Faults)
    ensures var b := BeginList(w, p, id, c, n, pre, f);
            KeepsRows(w.rep, b.world.rep) && b.world.buffered == w.buffered && HeldFetch(b.fetch, b.world.rep.ever)
  {
    hide SaveCopy;
    var a := w.rep.(ever := w.rep.ever + {c});
    assert KeepsRows(w.rep, a);
    SaveCopyKeepsRows(a, p, c, None, f);
    var saved := if pre.Some? && pre != Some(c) then SaveCopy(a, p, c, None, f) else a;
    assert KeepsRows(w.rep, saved);
    if pre == Some(c) { UpsertKeepsRows(w.rep, a, p, Row(Some(id), pre, Some(c), n, Synced)); }
    else { UpsertKeepsRows(w.rep, saved, p, Row(Some(id), None, Some(c), n, PendingDownload)); }
  }

  lemma StartKeeps(cfg: Setup, y: System, s: Step)
    requires Enabled(cfg, y, s) && Sound(y) && Starts(s)
    ensures var b := Start(cfg, y, s);
            KeepsRows(y.w.rep, b.world.rep) && b.world.buffered == y.w.buffered && HeldFetch(b.fetch, b.world.rep.ever)
  {
    hide BeginReceive, BeginTurn, BeginList, KeepsRows, Held;
    match s
    case Receives(n, f) => EventStartKeeps(y.w, cfg.log[n - 1], n, f, cfg.skipped);
    case SweepTurns(t) => TurnStartKeeps(y.w, y.sweep.value.todo[0], t);
    case Lists(p, id, c, n, pre, f) => ListStartKeeps(y.w, p, id, c, n, pre, f);
    case _ =>
  }

  /** The other steps, but for the user's own and a download's end, touch no files. */
  lemma LocalStepKeeps(cfg: Setup, y: System, s: Step)
    requires Enabled(cfg, y, s) && Held(y.w)
    requires !s.UserWrites? && !s.UserDeletes? && !Starts(s) && !s.FetchEnds? && !(s.Restarts? && s.landed)
    ensures Keeps(y.w, Next(cfg, y, s).w)
  {
    hide LocalModify, DeleteFires, UploadEnds, LocalDelete, RecoverUpload, RecoverDelete, ScanFile, Held, Keeps;
    hide Suppressed, Start, EndFetch, NextSweep, NextFetch, Enumerates;
    var w := y.w;
    match s
    case LocalChanges(p, g) => LocalModifyKeeps(w, p, g); SessionKeeps(w, w);
    case LocalDeletes(p, g) => LocalDeleteKeeps(w, p, g); SessionKeeps(w, w);
    case TimerFires(p, g) => DeleteFiresKeeps(w, p, g);
    case UploadSettles(p, sent) => UploadEndsKeeps(w, p, sent);
    case RescansFile(p, g) => LocalModifyKeeps(w, p, g); SessionKeeps(w, w);
    case Scans(p, listed, g) => ScanFileKeeps(w, p, listed, g);
    case RescansMissing(p, g) => LocalDeleteKeeps(w, p, g); SessionKeeps(w, w);
    case RecoversUpload(p, row, g) => RecoverUploadKeeps(w, p, row, g);
    case RecoversDelete(p, g) => RecoverDeleteKeeps(w, p, g);
    case Resyncs => ResyncKeeps(w);
    case Restarts(_) => RestartKeeps(w);
    case UserWrites(_, _) =>
    case UserDeletes(_) =>
    case Receives(_, _) =>
    case SweepTurns(_) =>
    case Lists(_, _, _, _, _, _) =>
    case FetchEnds(_) =>
    case _ => SessionKeeps(w, Next(cfg, y, s).w);
  }

  lemma SessionKeeps(w: World, t: World)
    requires t.rep == w.rep && t.buffered == w.buffered
    ensures Keeps(w, t)
  {
  }

  lemma RestartKeeps(w: World)
    ensures Keeps(w, Restart(w))
  {
  }

  lemma ResyncKeeps(w: World)
    ensures Keeps(w, Resync(w))
  {
  }

  lemma DownloadHeld(r: Replica, p: Path, c: Content, fetched: bool)
    ensures var t := Download(r, p, c, fetched);
            (ServerHeld(r.rows, r.ever) ==> ServerHeld(t.rows, t.ever)) && Grows(r, t) && t.ever == r.ever
  {
  }

  lemma StepHeld(cfg: Setup, y: System, s: Step)
    requires Enabled(cfg, y, s) && Sound(y)
    ensures var t := Next(cfg, y, s).w; Held(t) && Grows(y.w.rep, t.rep)
  {
    hide Start, Download;
    match s
    case UserWrites(_, _) =>
    case UserDeletes(_) =>
    case Receives(_, _) => StartKeeps(cfg, y, s);
    case SweepTurns(_) => StartKeeps(cfg, y, s);
    case Lists(_, _, _, _, _, _) => StartKeeps(cfg, y, s);
    case FetchEnds(fetched) => DownloadHeld(y.w.rep, y.fetch.value.path, y.fetch.value.bytes, fetched);
    case Restarts(landed) => RestartKeeps(Cut(y, landed));
    case _ => LocalStepKeeps(cfg, y, s);
  }

  /** The snapshots name held content because the rows they are of did. */
  lemma StepKeepsSound(cfg: Setup, y: System, s: Step)
    requires Enabled(cfg, y, s) && Sound(y)
    ensures Sound(Next(cfg, y, s)) && Grows(y.w.rep, Next(cfg, y, s).w.rep)
  {
    StepHeld(cfg, y, s);
    if Starts(s) { StartKeeps(cfg, y, s); }
    hide Act, Start, LandedBy, Held;
    var z := Next(cfg, y, s);
    HeldGrows(y, z.w.rep.ever);
    if s.SweepBegins? { SnapshotsHeld(y, s.order); }
  }

  lemma SnapshotsHeld(y: System, order: seq<Path>)
    requires Held(y.w) && Enumerates(y.w.rep, order)
    ensures HeldDues(Some(Sweeping(Snapshots(y.w.rep, order), 0)), y.w.rep.ever)
  {
  }

  lemma {:induction false} RunKeepsSound(cfg: Setup, y: System, steps: seq<Step>)
    requires Possible(cfg, y, steps) && Sound(y)
    ensures Sound(Run(cfg, y, steps)) && Grows(y.w.rep, Run(cfg, y, steps).w.rep)
    decreases |steps|
  {
    if steps != [] {
      StepKeepsSound(cfg, y, steps[0]);
      RunKeepsSound(cfg, Next(cfg, y, steps[0]), steps[1..]);
    }
  }

  // --- Rows stay honest ---

  /** The end of a download is the one step that can leave a dishonest row: when the row no longer
      names what was fetched. */
  ghost predicate HonestStep(cfg: Setup, y: System, s: Step)
    requires Enabled(cfg, y, s)
  {
    s.FetchEnds? && s.fetched ==>
      var x := y.fetch.value; x.path in y.w.rep.rows && y.w.rep.rows[x.path].server == Some(x.bytes)
  }

  lemma FetchHonesty(r: Replica, x: Fetch, fetched: bool)
    requires Honest(r.rows)
    ensures Honest(Download(r, x.path, x.bytes, fetched).rows)
            <==> (fetched ==> x.path in r.rows && r.rows[x.path].server == Some(x.bytes))
  {
    if fetched { DownloadHonesty(r, x.path, x.bytes); }
  }

  /** From honest rows a step leads to honest rows exactly when it is honest. */
  lemma StepKeepsGood(cfg: Setup, y: System, s: Step)
    requires Enabled(cfg, y, s) && Sound(y) && Honest(y.w.rep.rows)
    ensures Honest(Next(cfg, y, s).w.rep.rows) <==> HonestStep(cfg, y, s)
  {
    hide Start, Download, Honest;
    match s
    case UserWrites(_, _) =>
    case UserDeletes(_) =>
    case Receives(_, _) => StartKeeps(cfg, y, s);
    case SweepTurns(_) => StartKeeps(cfg, y, s);
    case Lists(_, _, _, _, _, _) => StartKeeps(cfg, y, s);
    case FetchEnds(fetched) => FetchHonesty(y.w.rep, y.fetch.value, fetched);
    case Restarts(_) =>
    case _ => LocalStepKeeps(cfg, y, s);
  }

  ghost predicate HonestRun(cfg: Setup, y: System, steps: seq<Step>)
    requires Possible(cfg, y, steps)
    decreases |steps|
  { steps != [] ==> HonestStep(cfg, y, steps[0]) && HonestRun(cfg, Next(cfg, y, steps[0]), steps[1..]) }

  /** The rows are honest at every point of the run. */
  ghost predicate HonestThroughout(cfg: Setup, y: System, steps: seq<Step>)
    requires Possible(cfg, y, steps)
    decreases |steps|
  {
    && Honest(y.w.rep.rows)
    && (steps != [] ==> HonestThroughout(cfg, Next(cfg, y, steps[0]), steps[1..]))
  }

  /** Over any run rows stay honest throughout exactly when every step is; and server checksums
      are always ones the server has held. */
  lemma {:induction false} RunKeepsGood(cfg: Setup, y: System, steps: seq<Step>)
    requires Possible(cfg, y, steps) && Sound(y) && Honest(y.w.rep.rows)
    ensures HonestThroughout(cfg, y, steps) <==> HonestRun(cfg, y, steps)
    ensures HonestRun(cfg, y, steps) ==> Honest(Run(cfg, y, steps).w.rep.rows)
    ensures Sound(Run(cfg, y, steps)) && Grows(y.w.rep, Run(cfg, y, steps).w.rep)
    decreases |steps|
  {
    RunKeepsSound(cfg, y, steps);
    if steps != [] {
      StepKeepsSound(cfg, y, steps[0]);
      StepKeepsGood(cfg, y, steps[0]);
      hide Honest, HonestStep, Next, Sound;
      if Honest(Next(cfg, y, steps[0]).w.rep.rows) { RunKeepsGood(cfg, Next(cfg, y, steps[0]), steps[1..]); }
    }
  }

  /** So no local update is lost: after any honest run, bytes that differ from what the server holds
      for a SYNCED row are taken up by the next rescan of the file, unless the engine is stopped
      or the file can no longer be hashed. */
  lemma NoLostLocalUpdate(cfg: Setup, y: System, steps: seq<Step>, p: Path, g: LocalFaults)
    requires Possible(cfg, y, steps) && Sound(y) && Honest(y.w.rep.rows) && HonestRun(cfg, y, steps)
    requires var w := Run(cfg, y, steps).w;
             && p in w.rep.rows && w.rep.rows[p].status == Synced && w.rep.OnDisk(p)
             && Some(w.rep.disk[w.rep.Key(p)]) != w.rep.rows[p].server
             && g.hashable && w.ses.phase != S.Disconnected && (g.renamed || (!g.torn && g.again))
    ensures var w, t := Run(cfg, y, steps).w, RescanFile(Run(cfg, y, steps).w, p, g); var c := w.rep.disk[w.rep.Key(p)];
            || (p in t.uploads && t.uploads[p] == c && p in t.rep.rows && t.rep.rows[p].status == PendingUpload)
            || (t.rep.LocalOf(t.rep.Lookup(p, g.repick)) == Some(c)
                && exists from :: from in Candidates(w.(buffered := w.buffered - {p}), p, c) && from !in t.buffered)
  {
    RunKeepsGood(cfg, y, steps);
    RescanSeesDivergence(Run(cfg, y, steps).w, p, g);
  }

  // --- A stale turn, concretely ---

  /** One file, its row and what has been copied aside, while a sweep is under way. */
  function Scene(disk: map<Path, Content>, row: Row, copies: seq<Copy>, ever: set<Content>, uploads: map<Path, Content>,
                 phase: S.Phase, busy: nat, pending: nat, sweep: Option<Sweeping>, fetch: Option<Fetch>): System
  {
    System(World(Replica(false, disk, map["a" := row], copies, ever),
                 S.Session(phase, 1, 0, 0, false, 0, busy, pending, false), uploads, map[]),
           1, sweep, fetch)
  }

  const NOTHING := Setup([], {})
  const FAILED_UPLOAD := Row(Some(1), Some(5), Some(4), 1, Error)
  const QUEUED := Row(Some(1), Some(6), Some(4), 1, PendingUpload)
  const UPLOADED := Row(Some(2), Some(6), Some(6), 2, Synced)
  const DISHONEST := Row(Some(2), Some(4), Some(6), 2, Synced)
  const NO_FAULTS := Faults(true, true, Recased, true, true, true, "", "")
  const NO_LOCAL_FAULTS := LocalFaults(true, true, false, true, true, true, 0, "", "", "")

  function Waiting(): Option<Sweeping> { Some(Sweeping([Due("a", FAILED_UPLOAD)], 0)) }

  /** The story: an upload failed and a sweep reads the row; before its turn the user writes the file
      again and that upload lands; the turn then copies the new bytes aside and fetches the old ones. */
  const STALE_SWEEP := [SweepBegins(["a"]), UserWrites("a", 6), LocalChanges("a", NO_LOCAL_FAULTS),
                        UploadSettles("a", Landed(2, 6, 2, true, true)), SweepTurns(Turn(false, true, NO_FAULTS)),
                        FetchEnds(true)]

  function StaleState(k: nat): System {
    if k == 0 then Scene(map["a" := 5], FAILED_UPLOAD, [], {4}, map[], S.InSync, 0, 0, None, None)
    else if k == 1 then Scene(map["a" := 5], FAILED_UPLOAD, [], {4}, map[], S.InSync, 0, 0, Waiting(), None)
    else if k == 2 then Scene(map["a" := 6], FAILED_UPLOAD, [], {4}, map[], S.InSync, 0, 0, Waiting(), None)
    else if k == 3 then Scene(map["a" := 6], QUEUED, [], {4}, map["a" := 6], S.Uploading, 0, 1, Waiting(), None)
    else if k == 4 then Scene(map["a" := 6], UPLOADED, [], {4, 6}, map[], S.Uploading, 0, 0, Waiting(), None)
    else if k == 5 then Scene(map[], UPLOADED, [Copy("a", 6)], {4, 6}, map[], S.Downloading, 1, 0,
                              Some(Sweeping([], 0)), Some(Fetch("a", 4, ForTurn)))
    else Scene(map["a" := 4], DISHONEST, [Copy("a", 6)], {4, 6}, map[], S.InSync, 0, 0, Some(Sweeping([], 1)), None)
  }

  lemma SweepReads()
    ensures Enabled(NOTHING, StaleState(0), STALE_SWEEP[0])
            && Next(NOTHING, StaleState(0), STALE_SWEEP[0]) == StaleState(1)
    ensures Enabled(NOTHING, StaleState(1), STALE_SWEEP[1])
            && Next(NOTHING, StaleState(1), STALE_SWEEP[1]) == StaleState(2)
  {
    assert Snapshots(StaleState(0).w.rep, ["a"]) == [Due("a", FAILED_UPLOAD)];
  }

  lemma UserWritesAgain()
    ensures Enabled(NOTHING, StaleState(2), STALE_SWEEP[2])
            && Next(NOTHING, StaleState(2), STALE_SWEEP[2]) == StaleState(3)
  {
    var t := StaleState(2);
    assert Candidates(t.w, "a", 6) == {};
    assert t.w.buffered - {"a"} == t.w.buffered;
    assert t.w.rep.rows["a" := QUEUED] == map["a" := QUEUED];
  }

  lemma UploadLands()
    ensures Enabled(NOTHING, StaleState(3), STALE_SWEEP[3])
            && Next(NOTHING, StaleState(3), STALE_SWEEP[3]) == StaleState(4)
  {
    assert map["a" := 6] - {"a"} == map[];
  }

  lemma TurnStarts()
    ensures Enabled(NOTHING, StaleState(4), STALE_SWEEP[4])
            && Next(NOTHING, StaleState(4), STALE_SWEEP[4]) == StaleState(5)
  {
    assert StaleState(4).sweep.value.todo[0] == Due("a", FAILED_UPLOAD);
    assert StaleState(4).sweep.value.todo[1..] == [];
    assert map["a" := 6] - {"a"} == map[];
  }

  lemma OldBytesLand()
    ensures Enabled(NOTHING, StaleState(5), STALE_SWEEP[5])
            && Next(NOTHING, StaleState(5), STALE_SWEEP[5]) == StaleState(6)
  {
    assert map["a" := UPLOADED]["a" := DISHONEST] == map["a" := DISHONEST];
  }

  lemma StaleStep(k: nat)
    requires k < 6
    ensures Enabled(NOTHING, StaleState(k), STALE_SWEEP[k])
            && Next(NOTHING, StaleState(k), STALE_SWEEP[k]) == StaleState(k + 1)
  {
    hide Enabled, Next, StaleState;
    if k <= 1 { SweepReads(); } else if k == 2 { UserWritesAgain(); } else if k == 3 { UploadLands(); }
    else if k == 4 { TurnStarts(); } else { OldBytesLand(); }
  }

  lemma {:induction false} StaleRun(k: nat)
    requires k <= 6
    ensures Possible(NOTHING, StaleState(k), STALE_SWEEP[k..])
            && Run(NOTHING, StaleState(k), STALE_SWEEP[k..]) == StaleState(6)
    decreases 6 - k
  {
    hide Enabled, Next, StaleState;
    if k < 6 {
      StaleStep(k);
      StaleRun(k + 1);
      RunCons(NOTHING, StaleState(k), STALE_SWEEP[k], STALE_SWEEP[k + 1..]);
      assert STALE_SWEEP[k..] == [STALE_SWEEP[k]] + STALE_SWEEP[k + 1..];
    }
  }

  /** The run leads from honest rows to a SYNCED row whose checksums disagree, with the old bytes on
      disk; and the rescan finds nothing wrong with it. */
  lemma StaleTurnIsDishonest()
    ensures Sound(StaleState(0)) && Honest(StaleState(0).w.rep.rows) && Possible(NOTHING, StaleState(0), STALE_SWEEP)
    ensures Run(NOTHING, StaleState(0), STALE_SWEEP) == StaleState(6)
    ensures !Honest(StaleState(6).w.rep.rows) && RescanFile(StaleState(6).w, "a", NO_LOCAL_FAULTS) == StaleState(6).w
  {
    StaleRun(0);
    assert STALE_SWEEP[0..] == STALE_SWEEP;
    hide Possible, Run;
    var rows := StaleState(6).w.rep.rows;
    assert "a" in rows && rows["a"].status == Synced && rows["a"].local != rows["a"].server;
  }

  // --- No user bytes destroyed ---

  /** When a step loses no bytes: a server event that is careful, apart from its download; and a
      download that lands on nothing, or on bytes that are backed. */
  ghost predicate CarefulStep(cfg: Setup, y: System, s: Step)
    requires Enabled(cfg, y, s)
  {
    var r := y.w.rep;
    match s
    case Receives(n, f) =>
      var mine := Narrow(cfg.log[n - 1], cfg.skipped);
      mine.Some? ==> Careful(Announce(r, mine.value), mine.value, f.(fetched := false))
    case FetchEnds(fetched) =>
      fetched && r.OnDisk(y.fetch.value.path) ==> Backed(r, r.disk[r.Key(y.fetch.value.path)])
    case Restarts(landed) =>
      landed && y.fetch.Some? && r.OnDisk(y.fetch.value.path) ==> Backed(r, r.disk[r.Key(y.fetch.value.path)])
    case _ => true
  }

  /** The user's own overwrite or delete of the name. */
  predicate UserTouches(s: Step, k: Path) { (s.UserWrites? || s.UserDeletes?) && s.k == k }

  /** The name a file goes by after the step. */
  function Trail(cfg: Setup, w: World, s: Step, k: Path): Path
    requires s.Receives? ==> 0 < s.n <= |cfg.log|
  {
    if !s.Receives? then k
    else
      var mine := Narrow(cfg.log[s.n - 1], cfg.skipped);
      if mine.None? then k else Follow(w.rep, mine.value, s.f, k)
  }

  /** No file but those the user touches loses its bytes in the step. */
  ghost predicate LosesNothing(cfg: Setup, y: System, s: Step)
    requires Enabled(cfg, y, s)
  {
    forall k :: k in y.w.rep.disk && !UserTouches(s, k) ==>
      Safe(Next(cfg, y, s).w.rep, Trail(cfg, y.w, s, k), y.w.rep.disk[k])
  }

  /** Moving a file aside before a turn or a listing fetches loses nothing. */
  lemma CopyKeepsBytes(r: Replica, p: Path, c: Content, f: Faults, t: Replica, k: Path)
    requires k in r.disk && r.ever <= t.ever && r.folds == t.folds
    requires var saved := SaveCopy(r, p, c, None, f); t.disk == saved.disk && t.copies == saved.copies
    ensures Safe(t, k, r.disk[k])
  {
    var saved := SaveCopy(r, p, c, None, f);
    if saved.disk != r.disk && k == r.Key(p) { assert t.copies[|r.copies|].bytes == r.disk[k]; }
  }

  lemma TurnKeepsBytes(w: World, due: Due, t: Turn, k: Path)
    requires k in w.rep.disk
    ensures Safe(BeginTurn(w, due, t).world.rep, k, w.rep.disk[k])
  {
    if SweepTransfers(w.rep, due.path, due.row, t) {
      CopyKeepsBytes(w.rep, due.path, due.row.server.value, t.faults, BeginTurn(w, due, t).world.rep, k);
    }
  }

  lemma ListKeepsBytes(w: World, p: Path, id: FileId, c: Content, n: nat, pre: Option<Content>, f: Faults, k: Path)
    requires k in w.rep.disk
    ensures Safe(BeginList(w, p, id, c, n, pre, f).world.rep, k, w.rep.disk[k])
  {
    if pre.Some? && pre != Some(c) {
      CopyKeepsBytes(w.rep.(ever := w.rep.ever + {c}), p, c, f, BeginList(w, p, id, c, n, pre, f).world.rep, k);
    }
  }

  /** Up to its download an event loses what it would lose if that failed. */
  lemma EventKeepsBytes(cfg: Setup, y: System, s: Step)
    requires s.Receives? && Enabled(cfg, y, s) && Sound(y)
    ensures LosesNothing(cfg, y, s) <==> CarefulStep(cfg, y, s)
  {
    hide Apply, HandledSession, Follow, Careful;
    var mine := Narrow(cfg.log[s.n - 1], cfg.skipped);
    if mine.Some? {
      var f := s.f.(fetched := false);
      ApplyKeepsBytes(y.w.rep, mine.value, s.n, f);
      var t, off := Next(cfg, y, s).w.rep, Apply(y.w.rep, mine.value, s.n, f).rep;
      assert t.disk == off.disk && t.copies == off.copies && t.ever == off.ever;
      assert forall k, c :: Safe(t, k, c) <==> Safe(off, k, c);
      assert forall k :: k in y.w.rep.disk ==> !UserTouches(s, k);
      assert forall k :: Follow(y.w.rep, mine.value, f, k) == Follow(y.w.rep, mine.value, s.f, k) by {
        FollowAlike(y.w.rep, mine.value, s.f);
      }
    }
  }

  lemma FollowAlike(r: Replica, e: Change, f: Faults)
    ensures forall k :: Follow(r, e, f.(fetched := false), k) == Follow(r, e, f, k)
  {
  }

  lemma FetchKeepsBytes(cfg: Setup, y: System, s: Step)
    requires (s.FetchEnds? || (s.Restarts? && y.fetch.Some?)) && Enabled(cfg, y, s) && Sound(y)
    ensures LosesNothing(cfg, y, s) <==> CarefulStep(cfg, y, s)
  {
    hide Start, NextSweep, NextFetch;
    var r, t, x := y.w.rep, Next(cfg, y, s).w.rep, y.fetch.value;
    assert t.copies == r.copies && t.ever == r.ever && x.bytes in r.ever;
    assert forall c :: Backed(t, c) <==> Backed(r, c);
    if r.OnDisk(x.path) { assert !UserTouches(s, r.Key(x.path)); }
  }

  /** A step loses nothing exactly when it is careful. */
  lemma CarefulIsExact(cfg: Setup, y: System, s: Step)
    requires Enabled(cfg, y, s) && Sound(y)
    ensures LosesNothing(cfg, y, s) <==> CarefulStep(cfg, y, s)
  {
    hide BeginReceive, BeginTurn, BeginList, Careful, Download;
    match s
    case Receives(_, _) => EventKeepsBytes(cfg, y, s);
    case FetchEnds(_) => FetchKeepsBytes(cfg, y, s);
    case SweepTurns(t) =>
      forall k | k in y.w.rep.disk ensures Safe(Next(cfg, y, s).w.rep, k, y.w.rep.disk[k]) {
        TurnKeepsBytes(y.w, y.sweep.value.todo[0], t, k);
      }
    case Lists(p, id, c, n, pre, f) =>
      forall k | k in y.w.rep.disk ensures Safe(Next(cfg, y, s).w.rep, k, y.w.rep.disk[k]) {
        ListKeepsBytes(y.w, p, id, c, n, pre, f, k);
      }
    case UserWrites(_, _) =>
    case UserDeletes(_) =>
    case Restarts(_) => if y.fetch.Some? { FetchKeepsBytes(cfg, y, s); }
    case _ => LocalStepKeeps(cfg, y, s);
  }

  /** The one event of this log. */
  const ONE_FILE := Setup([Added("a", 1, 4)], {})

  function LateState(k: nat): System {
    var row := Row(Some(1), None, Some(4), 1, PendingDownload);
    var wanted := Some(Fetch("a", 4, ForEvent(1)));
    if k == 0 then
      var ses := S.Session(S.CatchingUp, 0, 0, 0, false, 0, 0, 0, false);
      System(World(Replica(false, map[], map[], [], {}), ses, map[], map[]), 0, None, None)
    else
      var ses := S.Session(S.CatchingUp, 0, 0, 0, false, 1, 1, 0, false);
      var disk := if k == 1 then map[] else map["a" := 7];
      System(World(Replica(false, disk, map["a" := row], [], {4}), ses, map[], map[]), 1, None, wanted)
  }

  lemma DownloadStarts()
    ensures Enabled(ONE_FILE, LateState(0), Receives(1, NO_FAULTS))
    ensures Next(ONE_FILE, LateState(0), Receives(1, NO_FAULTS)) == LateState(1)
  {
    var r := LateState(0).w.rep;
    var off := Apply(r, Added("a", 1, 4), 1, NO_FAULTS.(fetched := false));
    assert off.rep.rows == map["a" := Row(Some(1), None, Some(4), 1, Error)];
    assert off.rep.ever == {4};
    assert off.rep.SetStatus("a", PendingDownload).rows == map["a" := Row(Some(1), None, Some(4), 1, PendingDownload)];
  }

  /** Concretely: the user saves a file of that name while its download is on the way. Nothing was
      there when the conflict check looked, and nothing looks again. */
  lemma EditDuringDownloadIsLost()
    ensures Enabled(ONE_FILE, LateState(0), Receives(1, NO_FAULTS))
    ensures Next(ONE_FILE, LateState(0), Receives(1, NO_FAULTS)) == LateState(1)
    ensures Next(ONE_FILE, LateState(1), UserWrites("a", 7)) == LateState(2)
    ensures Foreseen(ONE_FILE, LateState(0), Receives(1, NO_FAULTS))
            && !Foreseen(ONE_FILE, LateState(1), UserWrites("a", 7))
    ensures !CarefulStep(ONE_FILE, LateState(2), FetchEnds(true))
    ensures var t := Next(ONE_FILE, LateState(2), FetchEnds(true)).w.rep; t.disk == map["a" := 4] && !Safe(t, "a", 7)
  {
    DownloadStarts();
    hide BeginReceive;
    assert map[]["a" := 7] == map["a" := 7];
    assert map["a" := 7]["a" := 4] == map["a" := 4];
  }

  // --- What can be foreseen ---

  /** What lies at the name being downloaded is backed. */
  ghost predicate Guarded(y: System) {
    y.fetch.Some? && y.w.rep.OnDisk(y.fetch.value.path) ==>
      Backed(y.w.rep, y.w.rep.disk[y.w.rep.Key(y.fetch.value.path)])
  }

  /** The condition to check before a step, with the download that it starts taken to succeed. An
      event meets that of `ApplyKeepsBytes`. A turn or a listing that fetches over unbacked bytes can
      copy them aside; a listing needs the hash from before it began for that. And the user writes
      nothing new to a name while it is being downloaded. */
  ghost predicate Foreseen(cfg: Setup, y: System, s: Step)
    requires Enabled(cfg, y, s)
  {
    var r := y.w.rep;
    match s
    case Receives(n, f) =>
      var mine := Narrow(cfg.log[n - 1], cfg.skipped);
      mine.Some? ==> Careful(Announce(r, mine.value), mine.value, f.(fetched := true))
    case SweepTurns(t) =>
      var due := y.sweep.value.todo[0];
      SweepTransfers(r, due.path, due.row, t) && r.OnDisk(due.path) ==>
        Backed(r, r.disk[r.Key(due.path)]) || t.faults.stashable
    case Lists(p, _, c, _, pre, f) =>
      pre != Some(c) && r.OnDisk(p) ==>
        Backed(r, r.disk[r.Key(p)]) || r.disk[r.Key(p)] == c || (pre.Some? && f.stashable)
    case UserWrites(k, c) =>
      y.fetch.Some? && k == r.Key(y.fetch.value.path) ==> Backed(r, c)
    case _ => true
  }

  /** What an event leaves at its name is its own bytes, or some file's that it leads there. */
  lemma BytesComeFrom(r: Replica, e: Change, n: nat, f: Faults)
    requires Fetches(r, e, n, f)
    ensures var t := Apply(r, e, n, f.(fetched := false)).rep; var d := r.Key(e.path);
            && t.folds == r.folds
            && (d in t.disk && t.disk[d] != e.bytes ==>
                  exists k :: k in r.disk && Follow(r, e, f, k) == d && r.disk[k] == t.disk[d])
  {
    hide Incoming, Vacated, SaveCopy;
    var a, off := Announce(r, e), f.(fetched := false);
    var d := r.Key(e.path);
    match e
    case Added(p, id, c) =>
      IncomingLeaves(a, p, id, c, n, None, false, off);
      assert Follow(r, e, f, d) == d;
    case Replaced(p, id, c) =>
      IncomingLeaves(a, p, id, c, n, None, true, off);
      assert Follow(r, e, f, d) == d;
    case Removed(_) =>
    case Renamed(from, p, id, c) =>
      if Relocates(a, from, c, f) {
        RelocationFetchesNothing(r, e, n, f);
      } else {
        FallbackIsIncoming(a, from, p, id, c, n, off);
        var synced := if a.OnDisk(from) && !f.movable then None else a.ServerOf(a.Lookup(from, f.source));
        IncomingLeaves(Vacated(a, from, p, off), p, id, c, n, synced, false, off);
        VacatedDisk(a, from, p, off);
        VacatedRows(a, from, p, off);
        var s := r.Key(from);
        assert Follow(r, e, f, if Moves(a, from, f) then s else d) == d;
      }
  }

  /** A download that succeeds adds to what its event can lose just what is left at its name. */
  lemma EventForesight(r: Replica, e: Change, n: nat, f: Faults)
    requires ServerHeld(r.rows, r.ever)
    ensures Careful(Announce(r, e), e, f.(fetched := true))
            <==> Careful(Announce(r, e), e, f.(fetched := false))
                 && (Fetches(r, e, n, f) ==>
                       var t := FolderAtStart(r, e, n, f);
                       t.OnDisk(e.path) ==> Backed(t, t.disk[t.Key(e.path)]))
  {
    hide Apply, Careful, AllSafe, Splits, Backed, SaveCopy, Download;
    var on, off := Apply(r, e, n, f.(fetched := true)), Apply(r, e, n, f.(fetched := false));
    ApplyKeepsBytes(r, e, n, f.(fetched := true));
    ApplyKeepsBytes(r, e, n, f.(fetched := false));
    SafeAlike(r, e, f, true, on.rep);
    SafeAlike(r, e, f, false, off.rep);
    ApplySplits(r, e, n, f);
    if Fetches(r, e, n, f) {
      BytesComeFrom(r, e, n, f);
      ApplyRemembers(r, e, n, f.(fetched := false));
      LandingSafe(r, e, n, f);
    } else {
      NothingSplits(r, e, n, f);
    }
  }

  lemma NothingSplits(r: Replica, e: Change, n: nat, f: Faults)
    requires !Fetches(r, e, n, f)
    ensures Apply(r, e, n, f.(fetched := true)) == Apply(r, e, n, f.(fetched := false))
  {
    hide Apply;
    ApplySplits(r, e, n, f);
  }

  lemma SafeAlike(r: Replica, e: Change, f: Faults, fetched: bool, t: Replica)
    ensures AllSafe(r, e, f.(fetched := fetched), t) <==> AllSafe(r, e, f, t)
  {
    assert forall k :: Follow(r, e, f.(fetched := fetched), k) == Follow(r, e, f, k);
  }

  lemma LandingSafe(r: Replica, e: Change, n: nat, f: Faults)
    requires Fetches(r, e, n, f)
    requires var t := Apply(r, e, n, f.(fetched := false)).rep; var d := r.Key(e.path);
             && t.folds == r.folds && e.bytes in t.ever
             && (d in t.disk && t.disk[d] != e.bytes ==>
                   exists k :: k in r.disk && Follow(r, e, f, k) == d && r.disk[k] == t.disk[d])
    requires Splits(Apply(r, e, n, f.(fetched := true)), Apply(r, e, n, f.(fetched := false)), e.path, e.bytes)
    ensures var t, u := FolderAtStart(r, e, n, f), Apply(r, e, n, f.(fetched := true)).rep;
            AllSafe(r, e, f, u)
            <==> AllSafe(r, e, f, Apply(r, e, n, f.(fetched := false)).rep)
                 && (t.OnDisk(e.path) ==> Backed(t, t.disk[t.Key(e.path)]))
  {
    hide Apply, Follow;
    var off, u := Apply(r, e, n, f.(fetched := false)).rep, Apply(r, e, n, f.(fetched := true)).rep;
    var t := FolderAtStart(r, e, n, f);
    var d := r.Key(e.path);
    assert t.disk == off.disk && t.copies == off.copies && t.ever == off.ever && t.Key(e.path) == d;
    assert u.disk == off.disk[d := e.bytes] && u.copies == off.copies && u.ever == off.ever;
    assert forall c :: Backed(t, c) <==> Backed(off, c);
    hide Safe, Backed, Splits, AllSafe;
    if AllSafe(r, e, f, u) { LandedSafely(r, e, f, off, u); }
    if AllSafe(r, e, f, off) && (d in off.disk ==> Backed(off, off.disk[d])) { LandsSafely(r, e, f, off, u); }
  }

  lemma LandedSafely(r: Replica, e: Change, f: Faults, off: Replica, u: Replica)
    requires !e.Removed? && e.bytes in off.ever && u.copies == off.copies && u.ever == off.ever && AllSafe(r, e, f, u)
    requires u.disk == off.disk[r.Key(e.path) := e.bytes]
    requires var d := r.Key(e.path);
             d in off.disk && off.disk[d] != e.bytes ==>
               exists k :: k in r.disk && Follow(r, e, f, k) == d && r.disk[k] == off.disk[d]
    ensures AllSafe(r, e, f, off)
    ensures var d := r.Key(e.path); d in off.disk ==> Backed(off, off.disk[d])
  {
    hide Follow;
    var d := r.Key(e.path);
    forall k | k in r.disk ensures Safe(off, Follow(r, e, f, k), r.disk[k]) {
      assert Safe(u, Follow(r, e, f, k), r.disk[k]);
    }
    if d in off.disk && off.disk[d] != e.bytes {
      var k :| k in r.disk && Follow(r, e, f, k) == d && r.disk[k] == off.disk[d];
      assert Safe(u, d, r.disk[k]);
    }
  }

  lemma LandsSafely(r: Replica, e: Change, f: Faults, off: Replica, u: Replica)
    requires !e.Removed? && u.copies == off.copies && u.ever == off.ever
    requires u.disk == off.disk[r.Key(e.path) := e.bytes]
    requires AllSafe(r, e, f, off) && (r.Key(e.path) in off.disk ==> Backed(off, off.disk[r.Key(e.path)]))
    ensures AllSafe(r, e, f, u)
  {
    hide Follow;
    forall k | k in r.disk ensures Safe(u, Follow(r, e, f, k), r.disk[k]) {
      assert Safe(off, Follow(r, e, f, k), r.disk[k]);
    }
  }

  lemma ReceiveForesight(cfg: Setup, y: System, s: Step)
    requires s.Receives? && Enabled(cfg, y, s) && Sound(y)
    ensures CarefulStep(cfg, y, s) && Guarded(Next(cfg, y, s)) <==> Foreseen(cfg, y, s)
  {
    hide Careful, Apply, HandledSession, Fetches, FolderAtStart, Backed;
    var mine := Narrow(cfg.log[s.n - 1], cfg.skipped);
    if mine.Some? { EventForesight(y.w.rep, mine.value, s.n, s.f); }
  }

  lemma StartForesight(cfg: Setup, y: System, s: Step)
    requires Starts(s) && Enabled(cfg, y, s) && Sound(y)
    ensures CarefulStep(cfg, y, s) && Guarded(Next(cfg, y, s)) <==> Foreseen(cfg, y, s)
  {
    hide BeginReceive, BeginTurn, BeginList, Backed, Careful;
    match s
    case Receives(_, _) => ReceiveForesight(cfg, y, s);
    case SweepTurns(t) => TurnForesight(y.w, y.sweep.value.todo[0], t);
    case Lists(p, id, c, m, pre, f) => ListForesight(y.w, p, id, c, m, pre, f);
  }

  lemma CopyForesight(r: Replica, p: Path, c: Content, f: Faults)
    requires c in r.ever
    ensures var t := SaveCopy(r, p, c, None, f);
            (t.OnDisk(p) ==> Backed(t, t.disk[t.Key(p)]))
            <==> (r.OnDisk(p) ==> Backed(r, r.disk[r.Key(p)]) || f.stashable)
  {
  }

  lemma TurnForesight(w: World, due: Due, t: Turn)
    requires due.row.server.Some? ==> due.row.server.value in w.rep.ever
    ensures var b, r := BeginTurn(w, due, t), w.rep;
            (b.fetch.Some? && b.world.rep.OnDisk(b.fetch.value.path) ==>
               Backed(b.world.rep, b.world.rep.disk[b.world.rep.Key(b.fetch.value.path)]))
            <==> (SweepTransfers(r, due.path, due.row, t) && r.OnDisk(due.path) ==>
                    Backed(r, r.disk[r.Key(due.path)]) || t.faults.stashable)
  {
    hide SaveCopy, SweepRow;
    if SweepTransfers(w.rep, due.path, due.row, t) { CopyForesight(w.rep, due.path, due.row.server.value, t.faults); }
  }

  lemma ListForesight(w: World, p: Path, id: FileId, c: Content, n: nat, pre: Option<Content>, f: Faults)
    ensures var b, r := BeginList(w, p, id, c, n, pre, f), w.rep;
            (b.fetch.Some? && b.world.rep.OnDisk(b.fetch.value.path) ==>
               Backed(b.world.rep, b.world.rep.disk[b.world.rep.Key(b.fetch.value.path)]))
            <==> (pre != Some(c) && r.OnDisk(p) ==>
                    Backed(r, r.disk[r.Key(p)]) || r.disk[r.Key(p)] == c || (pre.Some? && f.stashable))
  {
    hide SaveCopy;
    var a := w.rep.(ever := w.rep.ever + {c});
    assert forall b :: Backed(a, b) <==> Backed(w.rep, b) || b == c;
    CopyForesight(a, p, c, f);
    var saved := if pre.Some? then SaveCopy(a, p, c, None, f) else a;
    assert forall b ::
        Backed(BeginList(w, p, id, c, n, pre, f).world.rep, b) <==> Backed(if pre == Some(c) then a else saved, b);
  }

  /** From a guarded state a step loses nothing and leaves a guarded one exactly when it is foreseen. */
  lemma ForesightIsExact(cfg: Setup, y: System, s: Step)
    requires Enabled(cfg, y, s) && Sound(y) && Guarded(y)
    ensures LosesNothing(cfg, y, s) && Guarded(Next(cfg, y, s)) <==> Foreseen(cfg, y, s)
  {
    hide LosesNothing, Guarded, Foreseen, CarefulStep;
    CarefulIsExact(cfg, y, s);
    if Starts(s) { StartForesight(cfg, y, s); }
    else if s.UserWrites? || s.UserDeletes? || s.FetchEnds? || s.Restarts? { OtherForesight(cfg, y, s); }
    else { LocalForesight(cfg, y, s); }
  }

  lemma OtherForesight(cfg: Setup, y: System, s: Step)
    requires Enabled(cfg, y, s) && Guarded(y) && (s.UserWrites? || s.UserDeletes? || s.FetchEnds? || s.Restarts?)
    ensures CarefulStep(cfg, y, s) && Guarded(Next(cfg, y, s)) <==> Foreseen(cfg, y, s)
  {
  }

  lemma LocalForesight(cfg: Setup, y: System, s: Step)
    requires Enabled(cfg, y, s) && Sound(y) && Guarded(y) && !Starts(s)
    requires !s.UserWrites? && !s.UserDeletes? && !s.FetchEnds? && !s.Restarts?
    ensures CarefulStep(cfg, y, s) && Guarded(Next(cfg, y, s)) && Foreseen(cfg, y, s)
  {
    hide Act, Enabled;
    LocalStepKeeps(cfg, y, s);
  }

  /** And a step that is not foreseen loses bytes at once, or would with its download's success. */
  lemma ForesightIsNeeded(cfg: Setup, y: System, s: Step)
    requires Enabled(cfg, y, s) && Sound(y) && Guarded(y) && !Foreseen(cfg, y, s)
    ensures var z := Next(cfg, y, s);
            !LosesNothing(cfg, y, s)
            || (Enabled(cfg, z, FetchEnds(true)) && !LosesNothing(cfg, z, FetchEnds(true)))
  {
    hide LosesNothing, Foreseen, Next, Guarded, Enabled;
    ForesightIsExact(cfg, y, s);
    StepKeepsSound(cfg, y, s);
    if !Guarded(Next(cfg, y, s)) { UnguardedLoses(cfg, Next(cfg, y, s)); }
  }

  lemma UnguardedLoses(cfg: Setup, y: System)
    requires Sound(y) && !Guarded(y)
    ensures Enabled(cfg, y, FetchEnds(true)) && !LosesNothing(cfg, y, FetchEnds(true))
  {
    hide LosesNothing;
    CarefulIsExact(cfg, y, FetchEnds(true));
  }

  ghost predicate ForeseenRun(cfg: Setup, y: System, steps: seq<Step>)
    requires Possible(cfg, y, steps)
    decreases |steps|
  { steps != [] ==> Foreseen(cfg, y, steps[0]) && ForeseenRun(cfg, Next(cfg, y, steps[0]), steps[1..]) }

  lemma StepKeepsBytes(cfg: Setup, y: System, s: Step, k: Path, c: Content)
    requires Enabled(cfg, y, s) && Sound(y) && Guarded(y) && Foreseen(cfg, y, s)
    requires Safe(y.w.rep, k, c) && !UserTouches(s, k)
    ensures Safe(Next(cfg, y, s).w.rep, Trail(cfg, y.w, s, k), c)
    ensures Guarded(Next(cfg, y, s))
  {
    StepKeepsSound(cfg, y, s);
    ForesightIsExact(cfg, y, s);
    hide Next, Foreseen, Guarded;
    if Backed(y.w.rep, c) { BackedSurvives(y.w.rep, Next(cfg, y, s).w.rep, c); }
  }

  /** The user leaves the file alone, under whatever name server renames give it. */
  ghost predicate LeftAlone(cfg: Setup, y: System, steps: seq<Step>, k: Path)
    requires Possible(cfg, y, steps)
    decreases |steps|
  {
    steps != [] ==>
      && !UserTouches(steps[0], k)
      && LeftAlone(cfg, Next(cfg, y, steps[0]), steps[1..], Trail(cfg, y.w, steps[0], k))
  }

  ghost function TrailEnd(cfg: Setup, y: System, steps: seq<Step>, k: Path): Path
    requires Possible(cfg, y, steps)
    decreases |steps|
  {
    if steps == [] then k
    else TrailEnd(cfg, Next(cfg, y, steps[0]), steps[1..], Trail(cfg, y.w, steps[0], k))
  }

  /** Over any run of foreseen steps, bytes the user does not touch are still at their name (as
      the server renamed it), in a conflict copy, or were once held by the server. */
  lemma {:induction false} NoUserBytesDestroyed(cfg: Setup, y: System, steps: seq<Step>, k: Path, c: Content)
    requires Possible(cfg, y, steps) && Sound(y) && Guarded(y) && ForeseenRun(cfg, y, steps)
    requires Safe(y.w.rep, k, c) && LeftAlone(cfg, y, steps, k)
    ensures Safe(Run(cfg, y, steps).w.rep, TrailEnd(cfg, y, steps, k), c)
    ensures Guarded(Run(cfg, y, steps))
    decreases |steps|
  {
    if steps != [] {
      StepKeepsSound(cfg, y, steps[0]);
      StepKeepsBytes(cfg, y, steps[0], k, c);
      hide Foreseen, Guarded, Next, Trail, Safe;
      NoUserBytesDestroyed(cfg, Next(cfg, y, steps[0]), steps[1..], Trail(cfg, y.w, steps[0], k), c);
    }
  }
}
