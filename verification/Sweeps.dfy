/**
 When what a sweep has read and what is being downloaded are still good: as long as no local
 change, upload or recovery concerns a row that the sweep has yet to reach, or the download's own.
 */
module Sweeps {
  import opened Types
  import opened Replica
  import opened Safety
  import opened LocalSafety
  import opened World
  import opened Transfers
  import opened Runs
  import opened Ledger

  /** The rows still to come are as the sweep found them, each once. */
  ghost predicate CurrentDues(rows: map<Path, Row>, todo: seq<Due>) {
    && (forall i :: 0 <= i < |todo| ==>
        todo[i].path in rows && rows[todo[i].path] == todo[i].row && Stranded(todo[i].row))
    && (forall i, j :: 0 <= i < j < |todo| ==> todo[i].path != todo[j].path)
  }

  /** The download's row still names what is being fetched. */
  predicate CurrentFetch(rows: map<Path, Row>, x: Fetch) { x.path in rows && rows[x.path].server == Some(x.bytes) }

  ghost predicate StillToCome(todo: seq<Due>, p: Path) { exists i :: 0 <= i < |todo| && todo[i].path == p }

  ghost predicate Current(y: System) {
    && (y.sweep.Some? ==> CurrentDues(y.w.rep.rows, y.sweep.value.todo))
    && (y.fetch.Some? ==> CurrentFetch(y.w.rep.rows, y.fetch.value))
    && (y.sweep.Some? && y.fetch.Some? ==> !StillToCome(y.sweep.value.todo, y.fetch.value.path))
  }

  /** The step concerns no row that a sweep has yet to reach, nor the one being downloaded. */
  ghost predicate Undisturbed(y: System, s: Step) {
    IsLocal(s) ==>
      && (y.sweep.Some? ==>
            forall i :: 0 <= i < |y.sweep.value.todo| ==> y.sweep.value.todo[i].path !in LocalNames(y.w, s))
      && (y.fetch.Some? ==> y.fetch.value.path !in LocalNames(y.w, s))
  }

  /** A turn's start changes no row but its own, and that only if it lands at once. */
  lemma TurnFrame(w: World, due: Due, t: Turn)
    ensures var b := BeginTurn(w, due, t);
            && (forall q :: q != due.path ==> SameRow(w.rep, b.world.rep, q))
            && (b.fetch.Some? ==>
                  && b.world.rep.rows == w.rep.rows
                  && b.fetch.value.path == due.path && due.row.server == Some(b.fetch.value.bytes))
  {
  }

  lemma TurnKeepsCurrent(cfg: Setup, y: System, s: Step)
    requires Enabled(cfg, y, s) && s.SweepTurns? && Current(y)
    ensures Current(Next(cfg, y, s))
  {
    hide BeginTurn, LandedBy;
    var todo := y.sweep.value.todo;
    var z := Next(cfg, y, s);
    TurnFrame(y.w, todo[0], s.t);
    forall i | 0 <= i < |todo[1..]|
      ensures todo[1..][i].path in z.w.rep.rows && z.w.rep.rows[todo[1..][i].path] == todo[1..][i].row
    {
      assert todo[1..][i] == todo[i + 1] && SameRow(y.w.rep, z.w.rep, todo[i + 1].path);
    }
  }

  lemma FetchKeepsCurrent(cfg: Setup, y: System, s: Step)
    requires Enabled(cfg, y, s) && s.FetchEnds? && Current(y)
    ensures Current(Next(cfg, y, s))
  {
    var z := Next(cfg, y, s);
    if y.sweep.Some? {
      var todo := y.sweep.value.todo;
      forall i | 0 <= i < |todo| ensures todo[i].path in z.w.rep.rows && z.w.rep.rows[todo[i].path] == todo[i].row {
        assert todo[i].path != y.fetch.value.path;
      }
    }
  }

  /** An event or a listing fetches what it has just written in the row. */
  lemma StartIsCurrent(cfg: Setup, y: System, s: Step)
    requires Enabled(cfg, y, s) && (s.Receives? || s.Lists?)
    ensures Next(cfg, y, s).sweep.None?
    ensures var z := Next(cfg, y, s); z.fetch.Some? ==> CurrentFetch(z.w.rep.rows, z.fetch.value)
  {
    if s.Receives? {
      hide Apply, HandledSession, BeginReceive;
      var mine := Narrow(cfg.log[s.n - 1], cfg.skipped);
      if mine.Some? { FolderAfter(cfg, y, s, mine.value); } else { OutOfScopeKeeps(cfg, y, s); }
    } else {
      hide SaveCopy;
    }
  }

  lemma LocalKeepsCurrent(cfg: Setup, y: System, s: Step)
    requires Enabled(cfg, y, s) && IsLocal(s) && Current(y) && Undisturbed(y, s)
    ensures Current(Next(cfg, y, s))
  {
    hide Act, LocalNames;
    var z := Next(cfg, y, s);
    if y.sweep.Some? {
      var todo := y.sweep.value.todo;
      forall i | 0 <= i < |todo| ensures SameRow(y.w.rep, z.w.rep, todo[i].path) {
        LocalFrame(cfg, y, s, todo[i].path);
      }
    }
    if y.fetch.Some? { LocalFrame(cfg, y, s, y.fetch.value.path); }
  }

  lemma StepKeepsCurrent(cfg: Setup, y: System, s: Step)
    requires Enabled(cfg, y, s) && Current(y) && Undisturbed(y, s)
    ensures Current(Next(cfg, y, s))
  {
    hide Act, Undisturbed;
    if s.SweepTurns? { TurnKeepsCurrent(cfg, y, s); }
    else if s.FetchEnds? { FetchKeepsCurrent(cfg, y, s); }
    else if s.Receives? || s.Lists? { StartIsCurrent(cfg, y, s); }
    else if IsLocal(s) { LocalKeepsCurrent(cfg, y, s); }
    else if !s.Resyncs? { QuietRows(cfg, y, s); }
  }

  /** The end of a current download is honest. */
  lemma CurrentIsHonest(cfg: Setup, y: System, s: Step)
    requires Enabled(cfg, y, s) && Current(y)
    ensures HonestStep(cfg, y, s)
  {
  }

  ghost predicate UndisturbedRun(cfg: Setup, y: System, steps: seq<Step>)
    requires Possible(cfg, y, steps)
    decreases |steps|
  { steps != [] ==> Undisturbed(y, steps[0]) && UndisturbedRun(cfg, Next(cfg, y, steps[0]), steps[1..]) }

  /** So rows stay honest over every run, whatever fails in it, in which nothing local concerns a
      stranded row between the moment a sweep reads it and its turn, or a row while it downloads. */
  lemma {:induction false} UndisturbedRunIsHonest(cfg: Setup, y: System, steps: seq<Step>)
    requires Possible(cfg, y, steps) && UndisturbedRun(cfg, y, steps)
    requires Current(y) && Sound(y) && Honest(y.w.rep.rows)
    ensures HonestRun(cfg, y, steps) && HonestThroughout(cfg, y, steps)
    decreases |steps|
  {
    hide Honest, HonestStep, Next, Sound, Current, Undisturbed;
    if steps != [] {
      CurrentIsHonest(cfg, y, steps[0]);
      StepKeepsCurrent(cfg, y, steps[0]);
      StepKeepsSound(cfg, y, steps[0]);
      StepKeepsGood(cfg, y, steps[0]);
      UndisturbedRunIsHonest(cfg, Next(cfg, y, steps[0]), steps[1..]);
    }
  }
}
