/**
 The same duties over whole runs: which events the cursor may stop at, how far it gets, when a session is
 told it is synced, when a sweep redials, and which rows may leave the table.
 */
module Duties {
  import opened Types
  import opened Replica
  import opened World
  import opened Transfers
  import opened Runs
  import opened Ledger
  import opened Answers
  import opened LocalDuties
  import opened CatchUp
  import opened Progress
  import opened Convergence
  import S = Session

  // --- Deliveries ---

  /** What is left of the event for this client. */
  function Mine(cfg: Setup, n: nat): Option<Change>
    requires 0 < n <= |cfg.log|
  { Narrow(cfg.log[n - 1], cfg.skipped) }

  predicate BarredHere(cfg: Setup, y: System, s: Step)
    requires s.Receives? && 0 < s.n <= |cfg.log|
  {
    var mine := Mine(cfg, s.n);
    mine.Some? && Barred(Announce(y.w.rep, mine.value), mine.value, s.f)
  }

  predicate FetchesHere(cfg: Setup, y: System, s: Step)
    requires s.Receives? && 0 < s.n <= |cfg.log|
  {
    var mine := Mine(cfg, s.n);
    mine.Some? && NeedsDownload(Announce(y.w.rep, mine.value), mine.value, s.f)
  }

  lemma BarredAlike(r: Replica, e: Change, f: Faults, fetched: bool)
    ensures Barred(r, e, f.(fetched := fetched)) <==> Barred(r, e, f)
    ensures NeedsDownload(r, e, f.(fetched := fetched)) <==> NeedsDownload(r, e, f)
  {
    if e.Renamed? { assert Cleared(r, e.from, e.path, f.(fetched := fetched)) == Cleared(r, e.from, e.path, f); }
  }

  lemma DeliveryOutcome(cfg: Setup, y: System, s: Step)
    requires s.Receives? && Enabled(cfg, y, s)
    ensures OutcomeOf(cfg, y.w, s.n, s.f) == Refused <==> BarredHere(cfg, y, s)
    ensures OutcomeOf(cfg, y.w, s.n, s.f) == Deferred <==> FetchesHere(cfg, y, s)
    ensures Next(cfg, y, s).fetch.Some? <==> FetchesHere(cfg, y, s)
  {
    hide Apply, Barred, NeedsDownload, HandledSession;
    var mine := Mine(cfg, s.n);
    if mine.Some? {
      EventAnswer(y.w.rep, mine.value, s.n, s.f.(fetched := false));
      BarredAlike(Announce(y.w.rep, mine.value), mine.value, s.f, false);
      if mine.value.Removed? { RemovalsFetchNothing(y.w.rep, mine.value, s.n, s.f); }
    }
  }

  lemma RemovalsFetchNothing(r: Replica, e: Change, n: nat, f: Faults)
    requires e.Removed?
    ensures Apply(r, e, n, f.(fetched := false)).outcome != Deferred
  {
  }

  /** In every state that a run reaches: a delivered event goes unmet exactly when it is barred. The cursor
      then stays, below it; a download leaves it where it is; and any other event takes it along, to the
      event itself unless a refused one lies before. */
  lemma DeliveryAnswer(cfg: Setup, y: System, s: Step, book: Book)
    requires s.Receives? && Enabled(cfg, y, s) && Accounted(cfg, y, book)
    ensures var z, next := Next(cfg, y, s), Record(cfg, y, s, book);
            && s.n in next && (next[s.n] == Unmet <==> BarredHere(cfg, y, s))
            && (z.fetch.Some? <==> FetchesHere(cfg, y, s))
            && (if BarredHere(cfg, y, s) then
                  z.w.ses.cursor == y.w.ses.cursor < s.n
                  && z.w.ses.low == (if y.w.ses.low > 0 then y.w.ses.low else s.n)
                else if FetchesHere(cfg, y, s) then
                  z.w.ses.cursor == y.w.ses.cursor && z.w.ses.low == y.w.ses.low
                else
                  z.w.ses.cursor == (if y.w.ses.low > 0 then y.w.ses.low - 1 else s.n) && z.w.ses.low == y.w.ses.low)
  {
    hide OutcomeOf, Barred, NeedsDownload, Vouches, DuesMatch, FetchMatches, Entered, Carried;
    StepAccounts(cfg, y, s, book);
    ReceiveCursor(cfg, y, s);
    ReceiveEnters(cfg, y, s);
    DeliveryOutcome(cfg, y, s);
    LowWasDelivered(cfg, y, book);
    hide Act, NextFetch, NextSweep;
  }

  lemma LowWasDelivered(cfg: Setup, y: System, book: Book)
    requires Accounted(cfg, y, book)
    ensures y.w.ses.cursor <= y.upto && y.w.ses.low <= y.upto && (y.w.ses.low > 0 ==> y.w.ses.cursor < y.w.ses.low)
  {
  }

  /** And the end of an event's download takes the cursor along if it succeeded, and only then. */
  lemma FetchAnswer(cfg: Setup, y: System, s: Step, book: Book)
    requires s.FetchEnds? && Enabled(cfg, y, s) && Accounted(cfg, y, book)
    ensures var z, x, low := Next(cfg, y, s), y.fetch.value, Next(cfg, y, s).w.ses.low;
            && z.fetch.None?
            && (if x.errand.ForEvent? && s.fetched then
                  && low == (if x.errand.n == y.w.ses.low then 0 else y.w.ses.low)
                  && (low == 0 || x.errand.n < low ==>
                        z.w.ses.cursor == if x.errand.n > y.w.ses.cursor then x.errand.n else y.w.ses.cursor)
                  && (0 < low <= x.errand.n ==> z.w.ses.cursor == low - 1)
                else z.w.ses.cursor == y.w.ses.cursor && low == y.w.ses.low)
  {
    LowWasDelivered(cfg, y, book);
    hide Accounted, EndFetch, NextSweep;
    FetchCursor(cfg, y, s);
    if y.fetch.value.errand.ForEvent? { CursorAdvances(y.w.ses, y.fetch.value.errand.n); }
  }

  /** While an event or a listed file is being downloaded its row says so, and names what is fetched: a
      process that dies meanwhile leaves a debt that the next one sees. */
  lemma DownloadIsOwed(cfg: Setup, y: System, s: Step)
    requires (s.Receives? || s.Lists?) && Enabled(cfg, y, s) && Next(cfg, y, s).fetch.Some?
    ensures var z, x := Next(cfg, y, s), Next(cfg, y, s).fetch.value;
            && x.path in z.w.rep.rows && z.w.rep.rows[x.path].status == PendingDownload
            && z.w.rep.rows[x.path].server == Some(x.bytes)
            && (forall landed :: Next(cfg, z, Restarts(landed)).w.rep.rows == z.w.rep.rows)
  {
    hide Apply, HandledSession, SaveCopy;
    if s.Receives? {
      var e, f := Mine(cfg, s.n).value, s.f.(fetched := false);
      DeferredIsOwed(y.w.rep, e, s.n, f);
    }
  }

  /** The watcher's events are taken up unless the engine is stopped or has failed. */
  lemma WatcherAnswer(cfg: Setup, y: System, s: Step)
    requires (s.LocalChanges? || s.LocalDeletes?) && Enabled(cfg, y, s)
    ensures Next(cfg, y, s).w
            == if y.w.ses.phase == S.Disconnected || y.w.ses.phase == S.Faulted then y.w
               else if s.LocalChanges? then LocalModify(y.w, s.p, s.g) else LocalDelete(y.w, s.p, s.g)
  {
    hide LocalModify, LocalDelete;
  }

  // --- Heartbeats and sweeps ---

  /** A session is told. Over every run from an idle start, a heartbeat while catching up makes the engine
      SYNCED exactly when its number is at or below the cursor, a zero only of an empty bundle; a higher
      one is kept as the tip. */
  lemma HeartbeatSyncs(cfg: Setup, y: System, steps: seq<Step>, h: nat)
    requires Possible(cfg, y, steps) && y.fetch.None? && Idle(y.w.ses, None)
    requires Enabled(cfg, Run(cfg, y, steps), Beats(h)) && Run(cfg, y, steps).w.ses.phase == S.CatchingUp
    ensures var z := Run(cfg, y, steps); var t := Next(cfg, z, Beats(h));
            && (t.w.ses.phase == S.InSync <==> Tells(z.w.ses, h))
            && (t.w.ses.phase == S.InSync || t.w.ses.phase == S.CatchingUp)
            && t.w.ses.tip == (if h > z.w.ses.cursor then h else z.w.ses.tip)
            && t == z.(w := z.w.(ses := t.w.ses))
  {
    RunKeepsIdle(cfg, y, steps);
    HeartbeatAnswer(Run(cfg, y, steps).w.ses, h);
    hide Run, Possible;
  }

  lemma AllLanded(r: Replica)
    ensures Outstanding(r) == 0 <==> forall p :: p in r.rows ==> !Stranded(r.rows[p])
  {
    if forall p :: p in r.rows ==> !Stranded(r.rows[p]) {
      assert (set p | p in r.rows && Stranded(r.rows[p])) == {};
    } else if Outstanding(r) == 0 {
      NoneOutstanding(r);
    }
  }

  /** No client stays wedged. Over every run from a fresh cursor, the end of a sweep redials exactly when it
      finds the engine catching up towards a tip above its cursor with no refused event to wait for, the
      sweep has landed something and no row is left stranded. */
  lemma SweepUnwedges(cfg: Setup, y: System, steps: seq<Step>)
    requires Possible(cfg, y, steps) && y.sweep.None? && y.fetch.None? && Idle(y.w.ses, None)
    requires y.upto == y.w.ses.cursor == y.w.ses.low == 0
    requires Enabled(cfg, Run(cfg, y, steps), SweepEnds)
    ensures var z := Run(cfg, y, steps); var t := Next(cfg, z, SweepEnds);
            && t.sweep.None? && t.w == z.w.(ses := z.w.ses.(phase := t.w.ses.phase))
            && (t.w.ses.phase != z.w.ses.phase
                <==> (z.w.ses.phase == S.CatchingUp && z.w.ses.tip > z.w.ses.cursor && z.w.ses.low == 0
                      && z.sweep.value.landed > 0 && forall p :: p in z.w.rep.rows ==> !Stranded(z.w.rep.rows[p])))
            && (t.w.ses.phase != z.w.ses.phase ==> t.w.ses.phase == S.Connecting)
  {
    RunKeepsIdle(cfg, y, steps);
    AccountedAtFirst(cfg, y);
    RunAccounts(cfg, y, steps, map[]);
    hide Run, Possible, Balance;
    var z := Run(cfg, y, steps);
    LowWasDelivered(cfg, z, Balance(cfg, y, steps, map[]));
    hide Accounted;
    AllLanded(z.w.rep);
    RedialAnswer(z.w.ses, z.sweep.value.landed, Outstanding(z.w.rep));
  }

  lemma AccountedAtFirst(cfg: Setup, y: System)
    requires y.sweep.None? && y.fetch.None? && y.upto == y.w.ses.cursor == y.w.ses.low == 0
    ensures Accounted(cfg, y, map[])
  {
  }

  /** What a sweep counts as landed: its turns that land at once, and its downloads that succeed. */
  lemma LandedCounts(cfg: Setup, y: System, s: Step)
    requires Enabled(cfg, y, s) && y.sweep.Some? && Next(cfg, y, s).sweep.Some? && !s.SweepBegins?
    ensures Next(cfg, y, s).sweep.value.landed
            == y.sweep.value.landed
               + (if (s.SweepTurns? && Next(cfg, y, s).fetch.None?
                      && Lands(y.w.rep, y.sweep.value.todo[0].path, y.sweep.value.todo[0].row, s.t))
                     || (s.FetchEnds? && s.fetched && y.fetch.value.errand.ForTurn?)
                  then 1 else 0)
  {
    hide Act;
  }

  // --- Rows that leave the table ---

  /** The step carries out a local delete for which the server gave no acknowledgement. */
  predicate Unacknowledged(s: Step) { (s.TimerFires? || s.RecoversDelete?) && !s.g.deleted }

  /** No row leaves the table through a fired or retried local delete, in any state, unless the server
      acknowledged it. */
  lemma DeletesAreAcknowledged(cfg: Setup, y: System, s: Step, q: Path)
    requires Enabled(cfg, y, s) && (s.TimerFires? || s.RecoversDelete?)
    requires q in y.w.rep.rows && q !in Next(cfg, y, s).w.rep.rows
    ensures s.g.deleted && s.g.readable && !y.w.rep.OnDisk(s.p) && y.w.ses.phase != S.Disconnected
  {
    hide NextSweep, NextFetch;
    if s.TimerFires? {
      DeleteAnswer(y.w.(buffered := y.w.buffered - {s.p}), s.p, y.w.buffered[s.p], false, s.g);
      hide ExecuteDelete;
    } else {
      RecoverDeleteAnswer(y.w, s.p, s.g);
    }
  }

  // --- Scope ---

  function InScope(files: Listing, skipped: set<Path>): Listing { map p | p in files && p !in skipped :: files[p] }

  /** What is left of an event for this client enters its part of the listing as the event enters the
      whole: a rename out of scope is a removal there, one into it an add. */
  lemma ScopeAnswer(files: Listing, e: Change, n: nat, skipped: set<Path>)
    requires e.Renamed? ==> e.from != e.path
    ensures var mine := Narrow(e, skipped);
            InScope(Enter(files, e, n), skipped)
            == if mine.None? then InScope(files, skipped) else Enter(InScope(files, skipped), mine.value, n)
    ensures var mine := Narrow(e, skipped);
            mine.Some? ==> mine.value.path !in skipped && (mine.value.Renamed? ==> mine.value.from !in skipped)
  {
  }
}
