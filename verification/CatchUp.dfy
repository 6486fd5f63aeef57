/**
 A catch-up ends: the one step that ends it, the runs that must, how far the cursor gets, and when a
 sweep has to redial.
 */
module CatchUp {
  import opened Types
  import opened Session

  /** The heartbeat says that the cursor has reached the server's tip. A zero says so only of an empty
      bundle; otherwise it is a sign of life. */
  predicate Tells(s: Session, h: nat) { h <= s.cursor && (h == 0 ==> s.cursor == 0) }

  predicate Busy(s: Session) { s.handlers > 0 || s.downloads > 0 }

  /** A heartbeat while catching up: the engine is synced exactly when it is told so, now or before, and
      nothing is in flight; it remembers that it was told, and the tip if that lies ahead. */
  lemma HeartbeatAnswer(s: Session, h: nat)
    requires s.phase == CatchingUp
    ensures var t := React(s, Beat(h));
            && (t.phase == InSync <==> !Busy(s) && (s.caughtUp || Tells(s, h)))
            && (t.phase != InSync ==> t.phase == CatchingUp && (t.caughtUp <==> s.caughtUp || Tells(s, h)))
            && (t.phase == InSync ==> !t.caughtUp)
            && t.tip == (if h > s.cursor then h else s.tip)
            && t == s.(phase := t.phase, caughtUp := t.caughtUp, tip := t.tip)
  {
  }

  /** Any one step from CATCHING_UP to SYNCED: a heartbeat like that, or the end of the last handler or
      download after one. */
  lemma EndsCatchUp(s: Session, e: Signal)
    requires s.phase == CatchingUp
    ensures React(s, e).phase == InSync
            <==> (|| (e.Beat? && !Busy(s) && (s.caughtUp || Tells(s, e.n)))
                  || (e.HandlerEnds? && s.caughtUp && s.handlers <= 1 && s.downloads == 0)
                  || (e.DownloadEnds? && s.caughtUp && s.handlers == 0 && s.downloads <= 1))
  {
  }

  /** What puts the phase on another footing: the connection comes, goes, fails, or the engine restarts. */
  predicate Disturbs(e: Signal) {
    e == Opened || e == Closed || e == Retried || e == Broke || e == Refused || e == Started
  }

  lemma LatchStays(s: Session, e: Signal)
    requires s.phase == CatchingUp && s.caughtUp && Busy(s) && !Disturbs(e) && Busy(React(s, e))
    ensures React(s, e).phase == CatchingUp && React(s, e).caughtUp
  {
  }

  lemma {:induction false} LatchHolds(s: Session, es: seq<Signal>)
    requires s.phase == CatchingUp && s.caughtUp && Busy(s)
    requires forall i :: 0 <= i < |es| ==> !Disturbs(es[i])
    requires forall n :: 0 < n <= |es| ==> Busy(After(s, es[..n]))
    ensures After(s, es).phase == CatchingUp && After(s, es).caughtUp && Busy(After(s, es))
  {
    hide React;
    if es != [] {
      var init := es[..|es| - 1];
      forall n | 0 < n <= |init| ensures Busy(After(s, init[..n])) { assert init[..n] == es[..n]; }
      LatchHolds(s, init);
      assert es[..|es|] == es;
      LatchStays(After(s, init), es[|es| - 1]);
    }
  }

  /** Once a session has heard such a heartbeat, and nothing disturbs it before handlers and downloads
      are all back to zero, the engine is SYNCED at that very point. */
  lemma CatchUpEnds(s: Session, h: nat, es: seq<Signal>)
    requires s.phase == CatchingUp && Tells(s, h)
    requires forall i :: 0 <= i < |es| ==> !Disturbs(es[i])
    requires var t := React(s, Beat(h));
             && (forall n :: 0 <= n < |es| ==> Busy(After(t, es[..n])))
             && !Busy(After(t, es))
    ensures After(React(s, Beat(h)), es).phase == InSync
  {
    var t := React(s, Beat(h));
    HeartbeatAnswer(s, h);
    if es != [] {
      var init := es[..|es| - 1];
      assert es[..0] == [] && Busy(After(t, es[..0]));
      forall n | 0 < n <= |init| ensures Busy(After(t, init[..n])) { assert init[..n] == es[..n]; }
      LatchHolds(t, init);
      LastEnds(After(t, init), es[|es| - 1]);
    }
  }

  lemma LastEnds(s: Session, e: Signal)
    requires s.phase == CatchingUp && s.caughtUp && Busy(s) && !Disturbs(e) && !Busy(React(s, e))
    ensures React(s, e).phase == InSync
  {
  }

  /** Outside CATCHING_UP: no run of signals from a state without downloads ever shows SYNCED over one. */
  lemma {:induction false} SyncedHasNoDownload(s: Session, es: seq<Signal>)
    requires s.phase == InSync ==> s.downloads == 0
    ensures After(s, es).phase == InSync ==> After(s, es).downloads == 0
  {
    if es != [] {
      SyncedHasNoDownload(s, es[..|es| - 1]);
      StaysWithoutDownload(After(s, es[..|es| - 1]), es[|es| - 1]);
      hide React;
    }
  }

  lemma StaysWithoutDownload(s: Session, e: Signal)
    requires s.phase == InSync ==> s.downloads == 0
    ensures React(s, e).phase == InSync ==> React(s, e).downloads == 0
  {
  }

  /** What counts as in flight begins and ends one at a time, an end that has no beginning counts for
      nothing, and a start over forgets it all. */
  function Counted(e: Signal, begins: Signal, ends: Signal, n: nat): nat {
    if e == begins then n + 1
    else if e == ends then (if n > 0 then n - 1 else 0)
    else if e == Started then 0
    else n
  }

  lemma HandlersCount(s: Session, e: Signal)
    ensures React(s, e).handlers == Counted(e, HandlerBegins, HandlerEnds, s.handlers)
  {
  }

  lemma DownloadsCount(s: Session, e: Signal)
    ensures React(s, e).downloads == Counted(e, DownloadBegins, DownloadEnds, s.downloads)
  {
  }

  lemma UploadsCount(s: Session, e: Signal)
    ensures React(s, e).uploads == Counted(e, UploadQueued, UploadEnds, s.uploads)
  {
  }

  /** A beginning, its end, and what is in flight between them. */
  predicate Paired(begins: Signal, ends: Signal) {
    || (begins == HandlerBegins && ends == HandlerEnds)
    || (begins == DownloadBegins && ends == DownloadEnds)
    || (begins == UploadQueued && ends == UploadEnds)
  }

  function Ongoing(s: Session, begins: Signal): nat {
    if begins == HandlerBegins then s.handlers else if begins == DownloadBegins then s.downloads else s.uploads
  }

  function Times(es: seq<Signal>, x: Signal): nat {
    if es == [] then 0 else Times(es[..|es| - 1], x) + if es[|es| - 1] == x then 1 else 0
  }

  /** So over every run in which no end comes before its beginning, what is in flight is what has begun less
      what has ended; and nothing is once all of it has ended. */
  lemma {:induction false} InFlight(s: Session, es: seq<Signal>, begins: Signal, ends: Signal)
    requires Paired(begins, ends) && forall i :: 0 <= i < |es| ==> !es[i].Started?
    requires forall n :: 0 <= n <= |es| ==> Times(es[..n], ends) <= Ongoing(s, begins) + Times(es[..n], begins)
    ensures Ongoing(After(s, es), begins) + Times(es, ends) == Ongoing(s, begins) + Times(es, begins)
  {
    hide React;
    if es != [] {
      var init, e := es[..|es| - 1], es[|es| - 1];
      assert forall n :: 0 <= n <= |init| ==> init[..n] == es[..n];
      InFlight(s, init, begins, ends);
      assert es[..|es|] == es && !e.Started?;
      HandlersCount(After(s, init), e);
      DownloadsCount(After(s, init), e);
      UploadsCount(After(s, init), e);
    }
  }

  /** What the connection and the transfers make the engine show. */
  lemma PhaseAnswers(s: Session)
    ensures React(s, Opened) == s.(phase := CatchingUp, caughtUp := false, tip := 0, low := 0)
    ensures React(s, Closed).phase == if s.rejected || s.phase == Disconnected then s.phase else Reconnecting
    ensures React(s, Retried).phase == Reconnecting
    ensures React(s, Broke).phase == Faulted && React(s, Refused).phase == Faulted && React(s, Refused).rejected
    ensures React(s, Started).phase == Connecting && !React(s, Started).rejected && React(s, Started).cursor == s.cursor
    ensures !Busy(React(s, Started)) && React(s, Started).uploads == 0 && !React(s, Started).caughtUp
    ensures s.phase == CatchingUp ==>
              forall e :: e == DownloadBegins || e == UploadBegins || e == RenameBegins ==>
                React(s, e).phase == CatchingUp
    ensures s.phase != CatchingUp ==>
              && React(s, DownloadBegins).phase == Downloading
              && React(s, UploadBegins).phase == React(s, RenameBegins).phase == Uploading
  {
  }

  // --- The cursor ---

  /** An applied event takes the cursor to it, or up to just below the first refused one; its own
      success takes it off the refused ones. */
  lemma CursorAdvances(s: Session, n: nat)
    requires s.low > 0 ==> s.cursor < s.low
    ensures var t := React(s, Settled(n));
            && t.low == (if n == s.low then 0 else s.low)
            && (t.low == 0 || n < t.low ==> t.cursor == if n > s.cursor then n else s.cursor)
            && (0 < t.low <= n ==> t.cursor == t.low - 1)
  {
  }

  /** A refused event is remembered unless an earlier one is; one without a number is not. */
  lemma LowestIsKept(s: Session, n: nat)
    ensures var t := React(s, Unapplied(n));
            && (n > 0 ==> 0 < t.low <= n && (t.low == n || t.low == s.low) && (s.low > 0 ==> t.low <= s.low))
            && (n == 0 ==> t.low == s.low)
            && t == s.(low := t.low)
  {
  }

  // --- The wedge ---

  /** A redial is a fresh dial, and nothing but the phase changes. */
  lemma RedialAnswer(s: Session, landed: nat, outstanding: nat)
    ensures var t := React(s, Swept(landed, outstanding));
            && t == s.(phase := t.phase)
            && (t.phase != s.phase
                <==> (s.phase == CatchingUp && s.tip > s.cursor && s.low <= s.cursor && !s.caughtUp && !Busy(s)
                      && landed > 0 && outstanding == 0))
            && (t.phase != s.phase ==> t.phase == Connecting)
  {
  }
}
