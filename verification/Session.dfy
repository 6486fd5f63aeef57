/**
 The engine's control-channel state: the persisted cursor, the watermark that caps
 it, and the phase shown to the operator. Each function is one method of SyncEngine
 restricted to these fields; counters say what is in flight.
 */
module Session {
  import opened Types

  datatype Phase =
    | Disconnected | Connecting | CatchingUp | InSync
    | Downloading | Uploading | Reconnecting | Faulted

  datatype Session = Session(
    phase: Phase,
    cursor: nat,       // last_seq, as persisted
    low: nat,          // _lowestUnappliedSeq; 0 means none
    tip: nat,          // _catchUpTipSeq
    caughtUp: bool,    // _caughtUpAtSeq
    handlers: nat,     // _catchUpPending
    downloads: nat,    // _activeDownloads
    uploads: nat,      // upload pool, in flight and queued
    rejected: bool)    // _terminalUpgradeReject

  // --- Cursor and watermark ---

  /** `_updateSeq`: advance to `n`, but never to or past the first refused event. */
  function UpdateSeq(s: Session, n: nat): Session {
    var low := if s.low > 0 && n == s.low then 0 else s.low;
    var target := if low > 0 && n >= low then low - 1 else n;
    s.(low := low, cursor := if target > s.cursor then target else s.cursor)
  }

  /** `_noteUnappliedSeq`: remember the lowest event this session failed to apply. */
  function NoteUnapplied(s: Session, n: nat): Session {
    if n > 0 && (s.low == 0 || n < s.low) then s.(low := n) else s
  }

  // --- Phase ---

  function FinishCatchUp(s: Session): Session {
    if s.phase == CatchingUp && s.caughtUp && s.handlers == 0 && s.downloads == 0
    then s.(caughtUp := false, phase := InSync)
    else s
  }

  function MarkSynced(s: Session): Session {
    if s.phase == Disconnected || s.phase == CatchingUp then s
    else if s.uploads == 0 && s.downloads == 0 then s.(phase := InSync)
    else s
  }

  function Open(s: Session): Session {
    s.(phase := CatchingUp, caughtUp := false, tip := 0, low := 0)
  }

  function Close(s: Session): Session {
    if s.rejected || s.phase == Disconnected then s else s.(phase := Reconnecting)
  }

  /** The wrapper's `reconnecting`. */
  function Retry(s: Session): Session { s.(phase := Reconnecting) }

  /** `start()`, in this process or the next: the cursor is all that is left of before. */
  function Start(s: Session): Session { Session(Connecting, s.cursor, 0, 0, false, 0, 0, 0, false) }

  function Fault(s: Session): Session { s.(phase := Faulted) }

  function Reject(s: Session): Session { s.(phase := Faulted, rejected := true) }

  function Heartbeat(s: Session, h: nat): Session {
    if s.phase != CatchingUp then s
    else if h <= s.cursor && (h != 0 || s.cursor == 0) then FinishCatchUp(s.(caughtUp := true))
    else if h > s.cursor then FinishCatchUp(s.(tip := h))
    else FinishCatchUp(s)
  }

  function BeginHandler(s: Session): Session { s.(handlers := s.handlers + 1) }

  function EndHandler(s: Session): Session {
    FinishCatchUp(s.(handlers := if s.handlers > 0 then s.handlers - 1 else 0))
  }

  function BeginDownload(s: Session): Session {
    s.(downloads := s.downloads + 1, phase := if s.phase == CatchingUp then CatchingUp else Downloading)
  }

  function EndDownload(s: Session): Session {
    FinishCatchUp(MarkSynced(s.(downloads := if s.downloads > 0 then s.downloads - 1 else 0)))
  }

  /** The pool counts a task from the moment it is offered. */
  function QueueUpload(s: Session): Session { s.(uploads := s.uploads + 1) }

  function BeginUpload(s: Session): Session {
    if s.phase == CatchingUp then s else s.(phase := Uploading)
  }

  /** The task re-derives the phase before it settles, so the pool still counts it. */
  function EndUpload(s: Session): Session {
    var marked := MarkSynced(s);
    marked.(uploads := if s.uploads > 0 then s.uploads - 1 else 0)
  }

  function BeginRename(s: Session): Session {
    if s.phase == CatchingUp then s else s.(phase := Uploading)
  }

  function EndRename(s: Session): Session { MarkSynced(s) }

  // --- The catch-up wedge ---

  /** `_maybeRecoverCatchUpWedge`: whether a sweep that landed `landed` rows and left
      `outstanding` stranded ones redials. */
  predicate Redials(s: Session, landed: nat, outstanding: nat) {
    && s.phase == CatchingUp
    && landed > 0
    && !s.caughtUp
    && s.handlers == 0 && s.downloads == 0
    && s.tip > s.cursor
    && !(s.low > 0 && s.low > s.cursor)
    && outstanding == 0
  }

  function Wedge(s: Session, landed: nat, outstanding: nat): Session {
    if Redials(s, landed, outstanding) then s.(phase := Connecting) else s
  }

  // --- Facts about single operations ---

  /** Neither operation moves the cursor back, and a refused event stays above it. */
  lemma UpdateSeqKeepsGap(s: Session, n: nat)
    requires s.low > 0 ==> s.cursor < s.low
    ensures var t := UpdateSeq(s, n);
            && t.cursor >= s.cursor
            && (t.low > 0 ==> t.cursor < t.low)
            && (t.cursor > s.cursor ==> t.cursor <= n)
            && (s.low > 0 && n != s.low ==> t.low == s.low)
  {
  }

  /** A pool task's own end never declares the engine synced: it still counts itself. */
  lemma UploadEndKeepsPhase(s: Session)
    requires s.uploads > 0
    ensures EndUpload(s).phase == s.phase
  {
  }

  // --- SYNCED is honest ---

  /** Anything that can happen to the control state, in any interleaving. */
  datatype Signal =
    | Opened | Closed | Retried | Broke | Refused | Started
    | Beat(n: nat)
    | HandlerBegins | HandlerEnds
    | DownloadBegins | DownloadEnds
    | UploadQueued | UploadBegins | UploadEnds
    | RenameBegins | RenameEnds
    | Settled(n: nat) | Unapplied(n: nat)
    | Swept(landed: nat, outstanding: nat)

  function React(s: Session, e: Signal): Session {
    match e
    case Opened => Open(s)
    case Closed => Close(s)
    case Retried => Retry(s)
    case Broke => Fault(s)
    case Refused => Reject(s)
    case Started => Start(s)
    case Beat(h) => Heartbeat(s, h)
    case HandlerBegins => BeginHandler(s)
    case HandlerEnds => EndHandler(s)
    case DownloadBegins => BeginDownload(s)
    case DownloadEnds => EndDownload(s)
    case UploadQueued => QueueUpload(s)
    case UploadBegins => BeginUpload(s)
    case UploadEnds => EndUpload(s)
    case RenameBegins => BeginRename(s)
    case RenameEnds => EndRename(s)
    case Settled(n) => UpdateSeq(s, n)
    case Unapplied(n) => NoteUnapplied(s, n)
    case Swept(l, o) => Wedge(s, l, o)
  }

  function After(s: Session, es: seq<Signal>): Session {
    if es == [] then s else React(After(s, es[..|es| - 1]), es[|es| - 1])
  }

  /** Some heartbeat since the latest open named a sequence number already reached. */
  ghost predicate CaughtUpThisSession(s: Session, es: seq<Signal>) {
    exists j :: 0 <= j < |es| && WitnessAt(s, es, j)
  }

  /** The heartbeat at `j` was one of this session's, and the cursor has covered it. */
  ghost predicate WitnessAt(s: Session, es: seq<Signal>, j: nat)
    requires j < |es|
  {
    && es[j].Beat?
    && (forall i :: j < i < |es| ==> es[i] != Opened)
    && After(s, es[..j]).phase == CatchingUp
    && es[j].n <= After(s, es[..j]).cursor
    && (es[j].n == 0 ==> After(s, es[..j]).cursor == 0)
    && es[j].n <= After(s, es).cursor
  }

  lemma ReactKeepsCursor(s: Session, e: Signal)
    ensures React(s, e).cursor >= s.cursor
  {
  }

  lemma WitnessSurvives(s: Session, es: seq<Signal>, j: nat)
    requires 0 < |es| && j < |es| - 1 && es[|es| - 1] != Opened
    requires WitnessAt(s, es[..|es| - 1], j)
    ensures WitnessAt(s, es, j)
  {
    var init := es[..|es| - 1];
    assert init[..j] == es[..j];
    assert forall i :: j < i < |init| ==> init[i] == es[i];
    ReactKeepsCursor(After(s, init), es[|es| - 1]);
  }

  /** The latch is only ever set by a qualifying heartbeat of the current session. */
  lemma {:induction false} LatchIsWitnessed(s: Session, es: seq<Signal>)
    requires !s.caughtUp
    ensures After(s, es).caughtUp ==> CaughtUpThisSession(s, es)
  {
    if es == [] { return; }
    var init, e := es[..|es| - 1], es[|es| - 1];
    LatchIsWitnessed(s, init);
    var before := After(s, init);
    if After(s, es).caughtUp {
      if before.caughtUp && e != Opened {
        var j :| 0 <= j < |init| && WitnessAt(s, init, j);
        WitnessSurvives(s, es, j);
      } else {
        assert WitnessAt(s, es, |es| - 1);
      }
    }
  }

  /** One step out of CATCHING_UP: the latch was set, or this is the heartbeat that sets it. */
  lemma OnlyLatchEndsCatchUp(s: Session, e: Signal)
    requires s.phase == CatchingUp && React(s, e).phase == InSync
    ensures s.caughtUp || (e.Beat? && e.n <= s.cursor && (e.n == 0 ==> s.cursor == 0))
    ensures e != Opened
    ensures React(s, e).handlers == 0 && React(s, e).downloads == 0
  {
  }

  /** The engine leaves CATCHING_UP for SYNCED only with nothing outstanding and after a
      heartbeat of this very session whose sequence number the cursor has reached, in any
      interleaving of handlers, transfers, drops and sweeps. */
  lemma SyncedIsHonest(s: Session, es: seq<Signal>)
    requires !s.caughtUp
    requires es != [] && After(s, es[..|es| - 1]).phase == CatchingUp && After(s, es).phase == InSync
    ensures CaughtUpThisSession(s, es)
    ensures After(s, es).handlers == 0 && After(s, es).downloads == 0
  {
    var init, e := es[..|es| - 1], es[|es| - 1];
    OnlyLatchEndsCatchUp(After(s, init), e);
    LatchIsWitnessed(s, init);
    if After(s, init).caughtUp {
      var j :| 0 <= j < |init| && WitnessAt(s, init, j);
      WitnessSurvives(s, es, j);
    } else {
      ReactKeepsCursor(After(s, init), e);
      assert WitnessAt(s, es, |es| - 1);
    }
  }

  // --- SYNCED and the connection ---

  predicate Live(p: Phase) { p == CatchingUp || p == InSync }

  /** The connection is given up: the socket closed, the server refused it, a retry is due, the
      engine redials, or it starts over. */
  predicate Downs(s: Session, e: Signal) {
    e == Closed || e == Refused || e == Retried || e == Started || (e.Swept? && Redials(s, e.landed, e.outstanding))
  }

  /** An open that nothing has ended since. */
  predicate Up(s: Session, es: seq<Signal>) {
    es != [] && (var init, e := es[..|es| - 1], es[|es| - 1];
                 e == Opened || (Up(s, init) && !Downs(After(s, init), e)))
  }

  /** The end of a transfer or a rename with nothing else in flight, on an engine not stopped. */
  predicate SettlesPhase(s: Session, e: Signal) {
    && (e.DownloadEnds? || e.UploadEnds? || e.RenameEnds?)
    && s.phase != Disconnected && s.uploads == 0 && s.downloads <= (if e.DownloadEnds? then 1 else 0)
  }

  /** Outside CATCHING_UP one step shows SYNCED exactly when it is such an end; whether a
      connection is up plays no part. An upload's own end never does, while the pool counts it. */
  lemma OnlyEndsShowSynced(s: Session, e: Signal)
    requires !Live(s.phase)
    ensures React(s, e).phase == InSync <==> SettlesPhase(s, e)
    ensures e.UploadEnds? && s.uploads > 0 ==> React(s, e).phase == s.phase
  {
    if e.UploadEnds? && s.uploads > 0 { UploadEndKeepsPhase(s); }
  }

  /** The step that makes the phase claim a connection there is none of: such an end while it is
      down, or a close that a permanent rejection of an earlier connection keeps from counting. */
  predicate Misleads(s: Session, es: seq<Signal>, i: nat)
    requires i < |es|
  {
    var now := After(s, es[..i]);
    || (!Live(now.phase) && !Up(s, es[..i]) && SettlesPhase(now, es[i]))
    || (Live(now.phase) && es[i] == Closed && now.rejected)
  }

  /** One step at a time: a phase that claims a connection only while it is up goes on doing so
      unless the step misleads. */
  lemma StepTellsConnection(s: Session, es: seq<Signal>)
    requires es != []
    requires var init := es[..|es| - 1]; Live(After(s, init).phase) ==> Up(s, init)
    ensures (Live(After(s, es).phase) ==> Up(s, es)) <==> !Misleads(s, es, |es| - 1)
  {
    var init, e := es[..|es| - 1], es[|es| - 1];
    var before := After(s, init);
    if !Live(before.phase) { OnlyEndsShowSynced(before, e); }
  }

  lemma PrefixMisleads(s: Session, es: seq<Signal>, i: nat)
    requires i < |es| - 1
    ensures Misleads(s, es[..|es| - 1], i) <==> Misleads(s, es, i)
  {
    assert es[..|es| - 1][..i] == es[..i];
  }

  /** Over any run from a disconnected engine, the phase says CATCHING_UP or SYNCED only while a
      connection is up, at every point, exactly when no step of the run misleads. */
  lemma {:induction false} PhaseTellsConnection(s: Session, es: seq<Signal>)
    requires !Live(s.phase)
    ensures (forall n :: 0 <= n <= |es| ==> Live(After(s, es[..n]).phase) ==> Up(s, es[..n]))
            <==> (forall i :: 0 <= i < |es| ==> !Misleads(s, es, i))
  {
    assert es[..|es|] == es;
    if es == [] { return; }
    var init := es[..|es| - 1];
    PhaseTellsConnection(s, init);
    forall n | 0 <= n < |es| ensures init[..n] == es[..n] {}
    forall i | 0 <= i < |init| ensures Misleads(s, init, i) <==> Misleads(s, es, i) { PrefixMisleads(s, es, i); }
    if forall i :: 0 <= i < |init| ==> !Misleads(s, es, i) {
      assert init[..|init|] == init;
      StepTellsConnection(s, es);
    }
  }

  /** Concretely: a sweep's download that ends after the socket dropped shows SYNCED. */
  lemma SyncedWithoutConnection()
    ensures
      var s := Session(Connecting, 5, 0, 0, false, 0, 0, 0, false);
      var dropped := [Opened, Closed, DownloadBegins, DownloadEnds];
      After(s, dropped).phase == InSync && !Up(s, dropped) && Misleads(s, dropped, 3)
  {
    var s := Session(Connecting, 5, 0, 0, false, 0, 0, 0, false);
    var dropped := [Opened, Closed, DownloadBegins, DownloadEnds];
    Unfold(s, dropped, 3);
    Unfold(s, dropped, 2);
    Unfold(s, dropped, 1);
    Unfold(s, dropped, 0);
    hide After, Up;
    assert dropped[..4] == dropped;
  }

  /** And so does one that ends after a permanent rejection. */
  lemma SyncedAfterRejection()
    ensures
      var s := Session(Connecting, 5, 0, 0, false, 0, 0, 0, false);
      var rejected := [Refused, DownloadBegins, DownloadEnds];
      && After(s, rejected).phase == InSync && After(s, rejected).rejected
      && !Up(s, rejected) && Misleads(s, rejected, 2)
  {
    var s := Session(Connecting, 5, 0, 0, false, 0, 0, 0, false);
    var rejected := [Refused, DownloadBegins, DownloadEnds];
    Unfold(s, rejected, 2);
    Unfold(s, rejected, 1);
    Unfold(s, rejected, 0);
    hide After, Up;
    assert rejected[..3] == rejected;
  }

  /** One more step of a run. */
  lemma Unfold(s: Session, es: seq<Signal>, i: nat)
    requires i < |es|
    ensures After(s, es[..0]) == s && !Up(s, es[..0])
    ensures After(s, es[..i + 1]) == React(After(s, es[..i]), es[i])
    ensures Up(s, es[..i + 1]) <==> es[i] == Opened || (Up(s, es[..i]) && !Downs(After(s, es[..i]), es[i]))
  {
    assert es[..i + 1][..i] == es[..i];
  }
}
