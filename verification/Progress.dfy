/**
 Two facts about the control state over whole runs: SYNCED after a catch-up covers every event
 the heartbeat named, and wedge redials cannot outnumber the transfer failures behind them.
 */
module Progress {
  import opened Types
  import opened Replica
  import opened Safety
  import opened LocalSafety
  import opened World
  import opened Transfers
  import opened Runs
  import opened Ledger
  import S = Session

  // --- SYNCED covers the tip ---

  /** The latch is clear, and the counters count the download under way and its handler. */
  predicate Idle(s: S.Session, fetch: Option<Fetch>) {
    && !s.caughtUp
    && s.downloads == (if fetch.Some? then 1 else 0)
    && s.handlers == (if fetch.Some? && fetch.value.errand.ForEvent? then 1 else 0)
  }

  lemma HandledIdle(s: S.Session, e: Change, n: nat, f: Faults, r: Replica, o: Outcome)
    requires Idle(s, None)
    ensures Idle(HandledSession(s, e, n, f, r, o), None)
    ensures s.phase == S.CatchingUp ==> HandledSession(s, e, n, f, r, o).phase == S.CatchingUp
  {
  }

  lemma StartIdle(s: S.Session, e: Change, p: Path, c: Content, n: nat)
    requires Idle(s, None)
    ensures Idle(SessionAtStart(s, e), Some(Fetch(p, c, ForEvent(n))))
    ensures s.phase == S.CatchingUp ==> SessionAtStart(s, e).phase == S.CatchingUp
  {
  }

  lemma FetchIdle(w: World, x: Fetch, fetched: bool)
    requires Idle(w.ses, Some(x))
    ensures Idle(EndFetch(w, x, fetched).ses, None)
    ensures w.ses.phase == S.CatchingUp ==> EndFetch(w, x, fetched).ses.phase == S.CatchingUp
  {
    hide Download;
  }

  lemma EventIdle(w: World, e: Change, n: nat, f: Faults, skipped: set<Path>)
    requires Idle(w.ses, None)
    ensures var b := BeginReceive(w, e, n, f, skipped);
            Idle(b.world.ses, b.fetch) && (w.ses.phase == S.CatchingUp ==> b.world.ses.phase == S.CatchingUp)
  {
    hide Apply, HandledSession, SessionAtStart;
    var mine := Narrow(e, skipped);
    if mine.Some? {
      if !mine.value.Removed? { StartIdle(w.ses, mine.value, mine.value.path, mine.value.bytes, n); }
      var g := f.(fetched := false);
      HandledIdle(w.ses, mine.value, n, g, Announce(w.rep, mine.value), Apply(w.rep, mine.value, n, g).outcome);
    }
  }

  /** What a local step may do to the control state. */
  predicate LocalMove(s: S.Session, t: S.Session) {
    && t.caughtUp == s.caughtUp && t.handlers == s.handlers && t.downloads == s.downloads
    && (s.phase == S.CatchingUp ==> t.phase == S.CatchingUp)
  }

  lemma DeleteMoves(w: World, p: Path, snap: Buffered, fallback: bool, f: LocalFaults)
    ensures LocalMove(w.ses, ExecuteDelete(w, p, snap, fallback, f).world.ses)
  {
  }

  lemma RenameMoves(w: World, from: Path, p: Path, held: Buffered, c: Content, f: LocalFaults)
    ensures LocalMove(w.ses, LocalRename(w, from, p, held, c, f).ses)
  {
  }

  lemma ModifyMoves(w0: World, p: Path, f: LocalFaults)
    ensures LocalMove(w0.ses, LocalModify(w0, p, f).ses)
  {
    if w0.ses.phase != S.Disconnected && w0.rep.OnDisk(p) && f.hashable {
      var c := w0.rep.disk[w0.rep.Key(p)];
      var w := w0.(buffered := w0.buffered - {p});
      var found := Candidates(w, p, c);
      if w.rep.LocalOf(w.rep.Lookup(p, f.pick)) != Some(c) && c != EMPTY && |found| == 1 {
        var from :| from in found && LocalModify(w0, p, f)
          == LocalRename(w.(buffered := w.buffered - {from}), from, p, w.buffered[from], c, f);
        RenameMoves(w.(buffered := w.buffered - {from}), from, p, w.buffered[from], c, f);
      }
    }
  }

  lemma LocalMoves(cfg: Setup, y: System, s: Step)
    requires IsLocal(s) && Enabled(cfg, y, s)
    ensures LocalMove(y.w.ses, Next(cfg, y, s).w.ses)
  {
    hide LocalModify, ExecuteDelete, NextSweep, NextFetch, Start, EndFetch, Enumerates;
    var w := y.w;
    match s
    case LocalChanges(p, g) => ModifyMoves(w, p, g);
    case RescansFile(p, g) => ModifyMoves(w, p, g);
    case TimerFires(p, g) => DeleteMoves(w.(buffered := w.buffered - {p}), p, w.buffered[p], false, g);
    case RecoversDelete(p, g) =>
      if p in w.rep.rows { DeleteMoves(w, p, Buffered(p, w.rep.rows[p]), false, g); }
    case _ =>
  }

  /** Idleness persists, and only a heartbeat at or below the cursor ends a catch-up. */
  lemma StepKeepsIdle(cfg: Setup, y: System, s: Step)
    requires Enabled(cfg, y, s) && Idle(y.w.ses, y.fetch)
    ensures Idle(Next(cfg, y, s).w.ses, Next(cfg, y, s).fetch)
    ensures y.w.ses.phase == S.CatchingUp && Next(cfg, y, s).w.ses.phase == S.InSync ==>
              s.Beats? && s.h <= y.w.ses.cursor && (s.h == 0 ==> y.w.ses.cursor == 0)
  {
    hide BeginReceive, SaveCopy, SweepRow, SweepTransfers, EndFetch, NextSweep;
    if IsLocal(s) {
      LocalMoves(cfg, y, s);
    } else if s.Receives? {
      EventIdle(y.w, cfg.log[s.n - 1], s.n, s.f, cfg.skipped);
    } else if s.FetchEnds? {
      FetchIdle(y.w, y.fetch.value, s.fetched);
    }
  }

  lemma {:induction false} RunKeepsIdle(cfg: Setup, y: System, steps: seq<Step>)
    requires Possible(cfg, y, steps) && Idle(y.w.ses, y.fetch)
    ensures Idle(Run(cfg, y, steps).w.ses, Run(cfg, y, steps).fetch)
    decreases |steps|
  {
    if steps != [] {
      StepKeepsIdle(cfg, y, steps[0]);
      RunKeepsIdle(cfg, Next(cfg, y, steps[0]), steps[1..]);
    }
  }

  /** When a run's next step takes the engine from CATCHING_UP to SYNCED, that step is a
      heartbeat, and every event up to the number it carries was handled: it took effect, is visibly
      owed, gave way to a later change of the same file, or is a rename that forgot a download. */
  lemma SyncedCoversTip(cfg: Setup, y: System, steps: seq<Step>, s: Step)
    requires Possible(cfg, y, steps) && y.sweep.None? && y.fetch.None? && Idle(y.w.ses, None)
    requires y.upto == y.w.ses.cursor == y.w.ses.low == 0
    requires Enabled(cfg, Run(cfg, y, steps), s)
    requires Run(cfg, y, steps).w.ses.phase == S.CatchingUp
    requires Next(cfg, Run(cfg, y, steps), s).w.ses.phase == S.InSync
    ensures s.Beats?
    ensures var z, book := Run(cfg, y, steps), Balance(cfg, y, steps, map[]);
            && (forall m :: 1 <= m <= s.h ==> m in book && book[m] != Unmet)
            && (forall m :: m in book ==> Vouches(cfg, z.w.rep, m, book[m]))
  {
    RunKeepsIdle(cfg, y, steps);
    StepKeepsIdle(cfg, Run(cfg, y, steps), s);
    NoLostEvent(cfg, y, steps);
  }

  // --- Wedge redials ---

  /** The row waits for a download that is not under way. */
  predicate Waiting(y: System, p: Path) {
    p in y.w.rep.rows && Stranded(y.w.rep.rows[p]) && !(y.fetch.Some? && y.fetch.value.path == p)
  }

  /** A sweep's end that redials. */
  ghost predicate RedialStep(cfg: Setup, y: System, s: Step)
    requires Enabled(cfg, y, s)
  { s.SweepEnds? && S.Redials(y.w.ses, y.sweep.value.landed, Outstanding(y.w.rep)) }

  /** A sweep has something to do, or has landed something. */
  predicate AtWork(y: System) {
    && y.sweep.Some?
    && (y.sweep.value.todo != [] || y.sweep.value.landed > 0
        || (y.fetch.Some? && y.fetch.value.errand.ForTurn?))
  }

  /** Some row waits for a download, or did when the sweep under way began. */
  ghost predicate Waits(y: System) { (exists p :: Waiting(y, p)) || AtWork(y) }

  /** Some row newly waits for a download: one has failed, or the process died during it. */
  ghost predicate StrandsSomething(cfg: Setup, y: System, s: Step)
    requires Enabled(cfg, y, s)
  { exists p :: Waiting(Next(cfg, y, s), p) && !Waiting(y, p) }

  lemma NoneOutstanding(r: Replica)
    requires Outstanding(r) == 0
    ensures forall p :: p in r.rows ==> !Stranded(r.rows[p])
  {
    var left := set p | p in r.rows && Stranded(r.rows[p]);
    assert left == {};
    assert forall p :: p in r.rows && Stranded(r.rows[p]) ==> p in left;
  }

  /** A redial changes no cursor, ends a sweep that had landed something, and leaves no row waiting. */
  lemma RedialDrains(cfg: Setup, y: System, s: Step)
    requires Enabled(cfg, y, s) && RedialStep(cfg, y, s)
    ensures Waits(y) && !Waits(Next(cfg, y, s))
    ensures Next(cfg, y, s).w.ses.cursor == y.w.ses.cursor
    ensures Next(cfg, y, s).w.ses.phase == S.Connecting
  {
    NoneOutstanding(y.w.rep);
  }

  ghost function Count(b: bool): nat { if b then 1 else 0 }

  ghost function CountRedials(cfg: Setup, y: System, steps: seq<Step>): nat
    requires Possible(cfg, y, steps)
    decreases |steps|
  {
    if steps == [] then 0
    else Count(RedialStep(cfg, y, steps[0])) + CountRedials(cfg, Next(cfg, y, steps[0]), steps[1..])
  }

  ghost function CountStrandings(cfg: Setup, y: System, steps: seq<Step>): nat
    requires Possible(cfg, y, steps)
    decreases |steps|
  {
    if steps == [] then 0
    else Count(StrandsSomething(cfg, y, steps[0])) + CountStrandings(cfg, Next(cfg, y, steps[0]), steps[1..])
  }

  lemma WorkBegins(cfg: Setup, y: System, s: Step)
    requires Enabled(cfg, y, s) && AtWork(Next(cfg, y, s))
    ensures AtWork(y) || (s.SweepBegins? && exists p :: Waiting(y, p))
  {
    hide Act, LandedBy;
    if s.SweepBegins? {
      assert Snapshots(y.w.rep, s.order) != [];
      assert s.order[0] in y.w.rep.rows && Stranded(y.w.rep.rows[s.order[0]]);
      assert Waiting(y, s.order[0]);
    } else if s.Receives? || s.Lists? {
      NoTurnHere(cfg, y, s);
    }
  }

  lemma NoTurnHere(cfg: Setup, y: System, s: Step)
    requires Enabled(cfg, y, s) && (s.Receives? || s.Lists?)
    ensures Next(cfg, y, s).sweep.None?
  {
  }

  lemma StepPaysForRedial(cfg: Setup, y: System, s: Step)
    requires Enabled(cfg, y, s)
    ensures Count(RedialStep(cfg, y, s)) + Count(Waits(Next(cfg, y, s)))
            <= Count(StrandsSomething(cfg, y, s)) + Count(Waits(y))
  {
    hide Next, AtWork, Waiting;
    if RedialStep(cfg, y, s) {
      RedialDrains(cfg, y, s);
    } else if Waits(Next(cfg, y, s)) && !Waits(y) {
      if AtWork(Next(cfg, y, s)) { WorkBegins(cfg, y, s); }
      var p :| Waiting(Next(cfg, y, s), p);
      assert StrandsSomething(cfg, y, s);
    }
  }

  /** Every wedge redial is paid for by a step that newly stranded a row, so between two of them
      there is one, and finitely many transfer failures mean finitely many redials. */
  lemma {:induction false} RedialsArePaidFor(cfg: Setup, y: System, steps: seq<Step>)
    requires Possible(cfg, y, steps)
    ensures CountRedials(cfg, y, steps) + Count(Waits(Run(cfg, y, steps)))
            <= CountStrandings(cfg, y, steps) + Count(Waits(y))
    decreases |steps|
  {
    if steps != [] {
      StepPaysForRedial(cfg, y, steps[0]);
      RedialsArePaidFor(cfg, Next(cfg, y, steps[0]), steps[1..]);
    }
  }
}
