/**
 Self-update probation and rollback: one binary, one backup, one marker file and a clock, across
 installs, boots, clean stops and crashes at any file operation.
 */
module Updater {
  import opened Types

  type Version = nat
  type Digest = nat

  datatype Binary = Binary(version: Version, digest: Digest)

  datatype Marker = Marker(version: Version, installedAt: int, graceful: bool, expected: Option<Digest>)

  /** The one running process: its version, whether its probation timer is armed, and how far an
      install it started has come. */
  datatype Process = Process(version: Version, timer: bool, install: Install)

  datatype Install = Idle | Marked(to: Binary) | Cleared(to: Binary) | Swapped

  datatype State = State(
    exec: Binary,
    backup: Option<Binary>,
    marker: Option<Marker>,
    now: int,
    running: Option<Process>,
    outgoing: Option<Binary>)   // history: what the latest swap moved aside

  datatype Verdict = NoMarker | StaleCleared | Probation | ProbationComplete | RolledBack | RollbackFailed

  /** Whether the marker on disk is about the binary in place. */
  predicate Pending(s: State) { s.marker.Some? && s.marker.value.version == s.exec.version }

  /** What a boot decides, before it touches a file. `readable` says the binary can be hashed and
      `restorable` that the backup can be written over it. */
  function Judge(s: State, window: int, readable: bool, restorable: bool): Verdict {
    if s.marker.None? then NoMarker
    else
      var m := s.marker.value;
      if m.version != s.exec.version then StaleCleared
      else if m.installedAt <= 0 then StaleCleared
      else if s.now - m.installedAt < window then Probation
      else if m.graceful then ProbationComplete
      else if m.expected.Some? && readable && s.exec.digest != m.expected.value then ProbationComplete
      else if s.backup.None? || !restorable then RollbackFailed
      else RolledBack
  }

  /** The files after `cut` operations of what the verdict calls for: restore, unlink the backup,
      delete the marker, in that order, as far as they apply. */
  function Act(s: State, v: Verdict, cut: nat): State {
    match v
    case NoMarker => s
    case Probation => s
    case StaleCleared => if cut >= 1 then s.(marker := None) else s
    case RollbackFailed => if cut >= 1 then s.(marker := None) else s
    case ProbationComplete =>
      s.(backup := if cut >= 1 then None else s.backup, marker := if cut >= 2 then None else s.marker)
    case RolledBack =>
      s.(exec := if cut >= 1 && s.backup.Some? then s.backup.value else s.exec,
         backup := if cut >= 2 then None else s.backup,
         marker := if cut >= 3 then None else s.marker)
  }

  /** More operations than any verdict needs: the boot was not cut short. */
  const WHOLE: nat := 3

  /** `checkRollback` at boot. A process cut short, or one that rolled back, does not stay. */
  function Boot(s: State, window: int, readable: bool, restorable: bool, cut: nat): State {
    var v := Judge(s, window, readable, restorable);
    var t := Act(s, v, cut);
    t.(running := if v == RolledBack || cut < WHOLE then None
                  else Some(Process(s.exec.version, v == Probation, Idle)))
  }

  /** The probation timer of the running process, re-reading the marker when it fires. */
  function TimerFires(s: State, cut: nat): State
    requires s.running.Some?
  {
    var mine := s.marker.Some? && s.marker.value.version == s.running.value.version;
    s.(backup := if mine && cut >= 1 then None else s.backup,
       marker := if cut >= 2 then None else s.marker,
       running := if cut < 2 then None else Some(s.running.value.(timer := false)))
  }

  /** `markGracefulShutdown`, then the exit. */
  function CleanStop(s: State, written: bool): State
    requires s.running.Some?
  {
    var stamps := written && s.marker.Some? && s.marker.value.version == s.running.value.version;
    s.(marker := if stamps then Some(s.marker.value.(graceful := true)) else s.marker, running := None)
  }

  // `performInstall`, one file operation at a time

  function Mark(s: State, to: Binary): State
    requires s.running.Some?
  {
    s.(marker := Some(Marker(to.version, s.now, false, Some(to.digest))),
       running := Some(s.running.value.(install := Marked(to))))
  }

  function ClearBackup(s: State): State
    requires s.running.Some? && s.running.value.install.Marked?
  {
    s.(backup := None, running := Some(s.running.value.(install := Cleared(s.running.value.install.to))))
  }

  /** The swap moves the outgoing binary aside and installs the new one, or does neither. */
  function Swap(s: State, works: bool): State
    requires s.running.Some? && s.running.value.install.Cleared?
  {
    if works then
      s.(exec := s.running.value.install.to, backup := Some(s.exec), outgoing := Some(s.exec),
         running := Some(s.running.value.(install := Swapped)))
    else s.(running := Some(s.running.value.(install := Idle)))
  }

  /** The successor could not be spawned. */
  function SpawnFails(s: State): State
    requires s.running.Some?
  { s.(marker := None) }

  datatype Step =
    | Boots(readable: bool, restorable: bool, cut: nat)
    | Fires(cut: nat)
    | Stops(written: bool)
    | Crashes
    | Marks(to: Binary) | Clears | Swaps(works: bool) | FailsToSpawn
    | Replaces(b: Binary)   // something else replaces the binary while the daemon is down
    | ClockReads(t: int)

  predicate Enabled(s: State, e: Step) {
    match e
    case Boots(_, _, _) => s.running.None?
    case Replaces(_) => s.running.None?
    case Fires(_) => s.running.Some? && s.running.value.timer
    case Marks(to) => s.running.Some? && s.running.value.install.Idle? && to.version != s.running.value.version
                      && s.exec.version == s.running.value.version
    case Clears => s.running.Some? && s.running.value.install.Marked?
    case Swaps(_) => s.running.Some? && s.running.value.install.Cleared?
    case FailsToSpawn => s.running.Some? && s.running.value.install.Swapped?
    case ClockReads(_) => true
    case _ => s.running.Some?
  }

  function Next(s: State, window: int, e: Step): State
    requires Enabled(s, e)
  {
    match e
    case Boots(r, w, cut) => Boot(s, window, r, w, cut)
    case Fires(cut) => TimerFires(s, cut)
    case Stops(written) => CleanStop(s, written)
    case Crashes => s.(running := None)
    case Marks(to) => Mark(s, to)
    case Clears => ClearBackup(s)
    case Swaps(works) => Swap(s, works)
    case FailsToSpawn => SpawnFails(s)
    case Replaces(b) => s.(exec := b)
    case ClockReads(t) => s.(now := t)
  }

  /** The replacement is of the very version that a marker left over from another install names. */
  predicate Adopts(s: State, e: Step) {
    e.Replaces? && s.marker.Some? && s.marker.value.version == e.b.version && s.exec.version != e.b.version
  }

  ghost predicate Possible(s: State, window: int, es: seq<Step>)
    decreases |es|
  { es != [] ==> Enabled(s, es[0]) && Possible(Next(s, window, es[0]), window, es[1..]) }

  ghost function Run(s: State, window: int, es: seq<Step>): State
    requires Possible(s, window, es)
    decreases |es|
  { if es == [] then s else Run(Next(s, window, es[0]), window, es[1..]) }

  // --- What holds over runs ---

  /** The step puts the backup in place of the binary. */
  predicate RollsBack(s: State, window: int, e: Step) {
    e.Boots? && e.cut >= 1 && Judge(s, window, e.readable, e.restorable) == RolledBack
  }

  /** The running process is of the binary in place until it swaps that; an install goes to
      another version; and a marker for the binary in place has the outgoing binary, which was of
      another version, as its backup, if it has any. */
  ghost predicate Inv(s: State) {
    && (s.running.Some? && !s.running.value.install.Swapped? ==> s.exec.version == s.running.value.version)
    && (s.running.Some? && (s.running.value.install.Marked? || s.running.value.install.Cleared?) ==>
          s.running.value.install.to.version != s.exec.version
          && (s.marker.Some? ==> s.marker.value.version == s.running.value.install.to.version))
    && (Pending(s) && s.backup.Some? ==> s.outgoing == s.backup && s.backup.value.version != s.exec.version)
  }

  lemma StepKeepsInv(s: State, window: int, e: Step)
    requires Inv(s) && Enabled(s, e)
    ensures !Adopts(s, e) ==> Inv(Next(s, window, e))
  {
  }

  /** No replacement in the run takes over a marker that is not about it. */
  ghost predicate NoneAdopts(s: State, window: int, es: seq<Step>)
    requires Possible(s, window, es)
    decreases |es|
  { es != [] ==> !Adopts(s, es[0]) && NoneAdopts(Next(s, window, es[0]), window, es[1..]) }

  /** A rollback is warranted: the marker is for the binary in place, its window is over, no clean
      stop was stamped, the digest is the installed one unless it cannot be read, and what comes
      back is the binary that very install moved aside. */
  lemma RollbackIsWarranted(s: State, window: int, e: Step)
    requires Inv(s) && Enabled(s, e)
    ensures RollsBack(s, window, e) ==>
              var m := s.marker.value;
              && Pending(s) && s.now - m.installedAt >= window && !m.graceful
              && (m.expected.Some? && e.readable ==> s.exec.digest == m.expected.value)
              && s.backup.Some? && s.outgoing == s.backup
              && Next(s, window, e).exec == s.backup.value && !Pending(Next(s, window, e))
    ensures !RollsBack(s, window, e) && !(e.Swaps? && e.works) && !e.Replaces? ==> Next(s, window, e).exec == s.exec
  {
  }

  /** Concretely, what an adopted marker can do: an install died between writing its marker and
      clearing the backup of the one before; the new version is then installed by other means, and
      the next boot past the window goes back two versions. */
  lemma AdoptedMarkerRollsBackTooFar()
    ensures
      var v3, v4, v5 := Binary(3, 33), Binary(4, 44), Binary(5, 55);
      var s := State(v4, Some(v3), Some(Marker(5, 100, false, Some(55))), 999, None, Some(v3));
      && Inv(s) && Adopts(s, Replaces(v5))
      && (var t := Next(s, 60, Replaces(v5));
          && RollsBack(t, 60, Boots(true, true, 3))
          && Next(t, 60, Boots(true, true, 3)).exec == v3)
  {
  }

  /** A marker that could still lead to a rollback. */
  predicate Exposed(s: State) { Pending(s) && !s.marker.value.graceful }

  ghost function Count(b: bool): nat { if b then 1 else 0 }

  ghost function CountRollbacks(s: State, window: int, es: seq<Step>): nat
    requires Possible(s, window, es)
    decreases |es|
  {
    if es == [] then 0
    else Count(RollsBack(s, window, es[0])) + CountRollbacks(Next(s, window, es[0]), window, es[1..])
  }

  ghost function CountSwaps(s: State, window: int, es: seq<Step>): nat
    requires Possible(s, window, es)
    decreases |es|
  { if es == [] then 0 else Count(es[0].Swaps? && es[0].works) + CountSwaps(Next(s, window, es[0]), window, es[1..]) }

  lemma StepPaysForRollback(s: State, window: int, e: Step)
    requires Inv(s) && Enabled(s, e) && !Adopts(s, e)
    ensures Count(RollsBack(s, window, e)) + Count(Exposed(Next(s, window, e)))
            <= Count(e.Swaps? && e.works) + Count(Exposed(s))
  {
  }

  /** Every rollback is of a swap of its own: two never happen with no install in between, whatever
      crashes, and a clean stop spends the install's one chance. */
  lemma {:induction false} RollbacksArePaidFor(s: State, window: int, es: seq<Step>)
    requires Possible(s, window, es) && Inv(s) && NoneAdopts(s, window, es)
    ensures CountRollbacks(s, window, es) + Count(Exposed(Run(s, window, es)))
            <= CountSwaps(s, window, es) + Count(Exposed(s))
    ensures Inv(Run(s, window, es))
    decreases |es|
  {
    if es != [] {
      StepKeepsInv(s, window, es[0]);
      StepPaysForRollback(s, window, es[0]);
      RollbacksArePaidFor(Next(s, window, es[0]), window, es[1..]);
    }
  }

  /** Once the new binary has stopped cleanly and stamped its marker, no boot downgrades it until
      something else is installed. */
  lemma CleanStopSettles(s: State, window: int, es: seq<Step>)
    requires Inv(s) && s.running.Some? && s.running.value.version == s.exec.version
    requires Possible(CleanStop(s, true), window, es) && NoneAdopts(CleanStop(s, true), window, es)
    requires CountSwaps(CleanStop(s, true), window, es) == 0
    ensures CountRollbacks(CleanStop(s, true), window, es) == 0
  {
    assert Inv(Next(s, window, Stops(true)));
    RollbacksArePaidFor(CleanStop(s, true), window, es);
  }

  // --- The probation timer ---

  /** Exactly the boots that complete inside the window leave a process whose timer can fire. */
  lemma BootArmsTimer(s: State, window: int, e: Step)
    requires Enabled(s, e) && e.Boots?
    ensures (exists cut :: Enabled(Next(s, window, e), Fires(cut)))
            <==> (e.cut >= WHOLE && s.marker.Some? && s.marker.value.version == s.exec.version
                  && 0 < s.marker.value.installedAt && s.now - s.marker.value.installedAt < window)
  {
    var t := Next(s, window, e);
    if t.running.Some? && t.running.value.timer { assert Enabled(t, Fires(0)); }
  }

  /** A boot that completes and does not roll back is a process of the binary in place, and all that
      ends one: a process that is not told to stop goes on. */
  lemma BootStays(s: State, window: int, e: Step)
    requires Enabled(s, e) && e.Boots?
    ensures var t := Next(s, window, e);
            && (t.running.Some? <==> e.cut >= WHOLE && !RollsBack(s, window, e))
            && (t.running.Some? ==> t.running.value.version == s.exec.version && t.running.value.install == Idle)
  {
  }

  /** A firing unlinks the backup if the marker is the process's own version's, then deletes the marker,
      whichever it is by then; a process that dies in between does one and not the other. */
  lemma FiringClears(s: State, window: int, cut: nat)
    requires Enabled(s, Fires(cut))
    ensures var t := Next(s, window, Fires(cut));
            && t.exec == s.exec && t.now == s.now && t.outgoing == s.outgoing
            && t.marker == (if cut >= 2 then None else s.marker)
            && t.backup == (if cut >= 1 && s.marker.Some? && s.marker.value.version == s.running.value.version
                            then None else s.backup)
            && t.running == (if cut >= 2 then Some(s.running.value.(timer := false)) else None)
  {
  }

  /** So once the timer has fired, no boot rolls the binary back until another one is installed, however
      long the process lives and however it ends. */
  lemma FiringSettles(s: State, window: int, cut: nat, es: seq<Step>)
    requires Inv(s) && Enabled(s, Fires(cut)) && cut >= WHOLE
    requires var t := Next(s, window, Fires(cut));
             Possible(t, window, es) && NoneAdopts(t, window, es) && CountSwaps(t, window, es) == 0
    ensures CountRollbacks(Next(s, window, Fires(cut)), window, es) == 0
  {
    StepKeepsInv(s, window, Fires(cut));
    RollbacksArePaidFor(Next(s, window, Fires(cut)), window, es);
  }

  /** An update that lives through its window is kept: installed, booted, its timer fired, then killed and
      booted at any later time, it is still in place. */
  lemma ProbationEndsWell(s: State, window: int, e: Step, cut: nat, later: int, again: Step)
    requires Enabled(s, e) && e.Boots? && e.cut >= WHOLE && Pending(s) && cut >= WHOLE && again.Boots?
    requires 0 < s.marker.value.installedAt && s.now - s.marker.value.installedAt < window
    ensures var es := [e, Fires(cut), ClockReads(later), Crashes, again];
            Possible(s, window, es) && Run(s, window, es).exec == s.exec
  {
    var a := Next(s, window, e);
    var b := Next(a, window, Fires(cut));
    var c := Next(b, window, ClockReads(later));
    var d := Next(c, window, Crashes);
    var f := Next(d, window, again);
    FiringClears(a, window, cut);
    var es := [e, Fires(cut), ClockReads(later), Crashes, again];
    assert es[1..] == [Fires(cut), ClockReads(later), Crashes, again];
    assert es[1..][1..] == [ClockReads(later), Crashes, again];
    assert es[1..][1..][1..] == [Crashes, again] && [Crashes, again][1..] == [again] && [again][1..] == [];
    assert Possible(f, window, []) && Run(f, window, []) == f;
    assert Possible(d, window, [again]) && Run(d, window, [again]) == f;
    assert Possible(c, window, [Crashes, again]) && Run(c, window, [Crashes, again]) == f;
    assert Possible(b, window, es[1..][1..]) && Run(b, window, es[1..][1..]) == f;
    assert Possible(a, window, es[1..]) && Run(a, window, es[1..]) == f;
  }

  /** When a boot rolls back, exactly: past the window of an update that neither stopped cleanly nor is
      known to be of other bytes, with a backup that can be restored. */
  lemma RollsBackExactly(s: State, window: int, e: Step)
    requires Inv(s) && Enabled(s, e) && e.Boots? && e.cut >= 1
    ensures (Next(s, window, e).exec != s.exec)
            <==> (&& s.marker.Some? && s.marker.value.version == s.exec.version && !s.marker.value.graceful
                  && 0 < s.marker.value.installedAt <= s.now - window
                  && (s.marker.value.expected == Some(s.exec.digest) || s.marker.value.expected.None? || !e.readable)
                  && s.backup.Some? && e.restorable)
  {
  }

  /** The marker for the binary in place is still in its window. */
  predicate OnProbation(s: State, window: int) {
    Pending(s) && 0 < s.marker.value.installedAt && s.now - s.marker.value.installedAt < window
  }

  /** The window is over and the update is to be kept: it stopped cleanly, or is known to be other bytes. */
  predicate Kept(s: State, window: int, readable: bool) {
    && Pending(s) && 0 < s.marker.value.installedAt <= s.now - window
    && (s.marker.value.graceful
        || (s.marker.value.expected.Some? && readable && s.marker.value.expected != Some(s.exec.digest)))
  }

  /** What a boot does to the files, one operation after the other: a rollback restores the backup, then
      unlinks it, then deletes the marker; an update that is kept loses its backup, then its marker; any
      other marker goes at once, unless it is still on probation. */
  lemma BootWorks(s: State, window: int, e: Step)
    requires Inv(s) && Enabled(s, e) && e.Boots?
    ensures var t, rolls := Next(s, window, e), e.cut >= 1 && Next(s, window, e).exec != s.exec;
            && t.now == s.now && t.outgoing == s.outgoing
            && (rolls ==> Some(t.exec) == s.backup)
            && t.backup == (if (rolls && e.cut >= 2) || (Kept(s, window, e.readable) && e.cut >= 1) then None
                            else s.backup)
            && t.marker == (if OnProbation(s, window) then s.marker
                            else if e.cut >= (if rolls then 3
                                              else if Kept(s, window, e.readable) then 2 else 1) then None
                            else s.marker)
    ensures e.cut == 0 ==> Next(s, window, e).exec == s.exec
  {
  }

  /** An install leaves the new binary, the old one as its backup and a marker for both; and a clean stop
      stamps that marker. */
  lemma InstallLeaves(s: State, window: int, to: Binary)
    requires Enabled(s, Marks(to))
    ensures var es := [Marks(to), Clears, Swaps(true)];
            && Possible(s, window, es)
            && (var t := Run(s, window, es);
                && t.exec == to && t.backup == Some(s.exec)
                && t.marker == Some(Marker(to.version, s.now, false, Some(to.digest)))
                && t.running.Some? && t.running.value.version == s.running.value.version
                && t.running.value.timer == s.running.value.timer)
  {
    var es := [Marks(to), Clears, Swaps(true)];
    var a := Next(s, window, es[0]);
    var b := Next(a, window, es[1]);
    var c := Next(b, window, es[2]);
    assert es[1..] == [Clears, Swaps(true)] && es[1..][1..] == [Swaps(true)] && [Swaps(true)][1..] == [];
    assert Possible(c, window, []) && Run(c, window, []) == c;
    assert Possible(b, window, [Swaps(true)]) && Run(b, window, [Swaps(true)]) == c;
    assert Possible(a, window, es[1..]) && Run(a, window, es[1..]) == c;
  }

  /** One that does not come about leaves the old binary, no backup and a marker of the version it was for,
      which the next boot deletes; and if the new binary cannot be started there is no marker. */
  lemma InstallFails(s: State, window: int, to: Binary)
    requires Enabled(s, Marks(to))
    ensures var a := Next(s, window, Marks(to));
            && a.exec == s.exec && a.backup == s.backup
            && a.marker == Some(Marker(to.version, s.now, false, Some(to.digest)))
            && Enabled(a, Clears)
            && (var b := Next(a, window, Clears);
                && b.exec == s.exec && b.backup == None && b.marker == a.marker && Enabled(b, Swaps(false))
                && (var c := Next(b, window, Swaps(false)); c == b.(running := Some(s.running.value.(install := Idle))))
                && (var d := Next(b, window, Swaps(true));
                    Enabled(d, FailsToSpawn) && Next(d, window, FailsToSpawn) == d.(marker := None)))
  {
  }

  lemma StopStamps(s: State, window: int, written: bool)
    requires Enabled(s, Stops(written))
    ensures var t := Next(s, window, Stops(written));
            && t.running.None? && t.exec == s.exec && t.backup == s.backup
            && (t.marker.Some? <==> s.marker.Some?)
            && (s.marker.Some? ==>
                  t.marker.value.(graceful := s.marker.value.graceful) == s.marker.value
                  && (t.marker.value.graceful <==>
                        s.marker.value.graceful || (written && s.marker.value.version == s.running.value.version)))
  {
  }

  // --- The backup ---

  /** The step is not cut short between unlinking the backup and deleting the marker that names it,
      and adopts no marker without a backup. */
  predicate Uncut(s: State, window: int, e: Step) {
    match e
    case Boots(r, w, cut) => Judge(s, window, r, w) == ProbationComplete ==> cut != 1
    case Fires(cut) => Pending(s) && s.running.Some? && s.running.value.version == s.exec.version ==> cut != 1
    case Replaces(_) => Adopts(s, e) ==> s.backup.Some?
    case _ => true
  }

  ghost predicate BackedUp(s: State) { Pending(s) ==> s.backup.Some? }

  /** While a marker stands for the binary in place, the backup it would restore exists: each step
      keeps that exactly when it is uncut. */
  lemma StepKeepsBackup(s: State, window: int, e: Step)
    requires Inv(s) && BackedUp(s) && Enabled(s, e)
    ensures BackedUp(Next(s, window, e)) <==> Uncut(s, window, e)
  {
  }

  ghost predicate AllUncut(s: State, window: int, es: seq<Step>)
    requires Possible(s, window, es)
    decreases |es|
  { es != [] ==> Uncut(s, window, es[0]) && AllUncut(Next(s, window, es[0]), window, es[1..]) }

  lemma {:induction false} RunKeepsBackup(s: State, window: int, es: seq<Step>)
    requires Possible(s, window, es) && Inv(s) && BackedUp(s) && AllUncut(s, window, es) && NoneAdopts(s, window, es)
    ensures BackedUp(Run(s, window, es)) && Inv(Run(s, window, es))
    decreases |es|
  {
    if es != [] {
      StepKeepsInv(s, window, es[0]);
      StepKeepsBackup(s, window, es[0]);
      RunKeepsBackup(Next(s, window, es[0]), window, es[1..]);
    }
  }

  /** Even after such a cut the next boot past the window only clears up: the binary stays. */
  lemma MissingBackupIsHarmless(s: State, window: int, readable: bool, restorable: bool, cut: nat)
    requires s.backup.None?
    ensures Boot(s, window, readable, restorable, cut).exec == s.exec
    ensures cut >= WHOLE && Judge(s, window, readable, restorable) != Probation ==>
              Boot(s, window, readable, restorable, cut).marker == None
  {
  }

  // --- An update inside a probation ---

  /** An install during which the installing process's own probation timer may fire at each gap. */
  function InstallWith(s: State, to: Binary, first: bool, second: bool, third: bool): State
    requires s.running.Some? && s.running.value.timer
  {
    var a := Mark(s, to);
    var b := if first then TimerFires(a, WHOLE) else a;
    var c := ClearBackup(b);
    var d := if second then TimerFires(c, WHOLE) else c;
    var e := Swap(d, true);
    if third then TimerFires(e, WHOLE) else e
  }

  /** The timer clears whatever marker it finds, so an install that overlaps the previous one's
      probation leaves the new binary a marker exactly when the timer stays silent throughout. */
  lemma OldTimerForgetsNewMarker(s: State, to: Binary, first: bool, second: bool, third: bool)
    requires Inv(s) && s.running.Some? && s.running.value.timer && Enabled(s, Marks(to))
    ensures var t := InstallWith(s, to, first, second, third);
            && t.exec == to && t.backup == Some(s.exec)
            && (Exposed(t) <==> !first && !second && !third)
  {
  }

  // --- The updater as it runs ---

  class Daemon {
    var exec: Binary
    var backup: Option<Binary>
    var marker: Option<Marker>
    var now: int
    var running: Option<Process>
    ghost var outgoing: Option<Binary>
    const window: int

    ghost function View(): State
      reads this
    { State(exec, backup, marker, now, running, outgoing) }

    constructor (exec: Binary, now: int, window: int)
      ensures View() == State(exec, None, None, now, None, None) && this.window == window
    {
      this.exec, this.now, this.window := exec, now, window;
      backup, marker, running, outgoing := None, None, None, None;
    }

    method CheckRollback(readable: bool, restorable: bool, cut: nat) returns (verdict: Verdict)
      requires running.None?
      modifies this
      ensures verdict == Judge(old(View()), window, readable, restorable)
      ensures View() == Boot(old(View()), window, readable, restorable, cut)
    {
      var mine := exec.version;
      verdict := Decide(readable, restorable);
      if verdict == RolledBack && cut >= 1 { exec := backup.value; }
      if (verdict == RolledBack && cut >= 2) || (verdict == ProbationComplete && cut >= 1) { backup := None; }
      var last := if verdict == RolledBack then 3 else if verdict == ProbationComplete then 2 else 1;
      if verdict != NoMarker && verdict != Probation && cut >= last { marker := None; }
      if verdict != RolledBack && cut >= WHOLE { running := Some(Process(mine, verdict == Probation, Idle)); }
    }

    method Decide(readable: bool, restorable: bool) returns (verdict: Verdict)
      ensures verdict == Judge(View(), window, readable, restorable)
    {
      if marker.None? { return NoMarker; }
      var m := marker.value;
      if m.version != exec.version { return StaleCleared; }
      if m.installedAt <= 0 { return StaleCleared; }
      if now - m.installedAt < window { return Probation; }
      if m.graceful { return ProbationComplete; }
      if m.expected.Some? && readable && exec.digest != m.expected.value { return ProbationComplete; }
      if backup.None? || !restorable { return RollbackFailed; }
      verdict := RolledBack;
    }

    method ProbationEnds(cut: nat)
      requires running.Some? && running.value.timer
      modifies `backup, `marker, `running
      ensures View() == TimerFires(old(View()), cut)
    {
      if marker.Some? && marker.value.version == running.value.version && cut >= 1 { backup := None; }
      if cut >= 2 { marker := None; }
      running := if cut < 2 then None else Some(running.value.(timer := false));
    }

    method MarkGracefulShutdown(written: bool)
      requires running.Some?
      modifies `marker, `running
      ensures View() == CleanStop(old(View()), written)
    {
      if marker.Some? && marker.value.version == running.value.version && !marker.value.graceful && written {
        marker := Some(marker.value.(graceful := true));
      }
      running := None;
    }

    /** An install that is neither interrupted nor overtaken by the timer. */
    method PerformInstall(to: Binary, works: bool, spawns: bool)
      requires running.Some? && running.value.install.Idle?
      modifies this
      ensures var swapped := Swap(ClearBackup(Mark(old(View()), to)), works);
              View() == if works && !spawns then SpawnFails(swapped) else swapped
    {
      marker := Some(Marker(to.version, now, false, Some(to.digest)));
      backup := None;
      if !works { return; }
      outgoing := Some(exec);
      backup := Some(exec);
      exec := to;
      running := Some(running.value.(install := Swapped));
      if !spawns { marker := None; }
    }
  }
}
