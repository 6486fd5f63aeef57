/**
 The file watcher's lifecycle: a handle that can die, a bounded series of restarts behind a
 timer, and a counter that only a handle that lasts, or the operator, resets.
 */
module WatcherRecovery {
  import opened Types

  type Handle = nat

  /** RECOVERY_BACKOFF_MS, in milliseconds. */
  const BACKOFF: seq<nat> := [500, 2000, 5000, 15000]

  const MAX_ATTEMPTS: nat := 4

  datatype State = State(
    stopped: bool,
    handle: Option<Handle>,
    recovering: bool,
    timer: Option<nat>,             // _recoveryTimer, with its delay
    stable: Option<Handle>,         // _stableTimer, with the handle it was armed for
    attempts: nat,
    created: nat,                   // handles ever created
    announced: bool,                // history: 'degraded' was emitted since a handle last lived
    threw: bool,                    // history: no start() has succeeded since one threw, or at all
    restarts: nat)                  // history: re-creates since the counter was last reset

  const FRESH := State(false, None, false, None, None, 0, 0, false, true, 0)

  /** `b.watcher.create` succeeds. */
  function Live(s: State): State {
    s.(handle := Some(s.created), created := s.created + 1, announced := false, threw := false)
  }

  function Started(s: State, creates: bool): State {
    if s.handle.Some? then s
    else if creates then Live(s.(stopped := false)).(attempts := 0, restarts := 0)
    else s.(stopped := false, threw := true)
  }

  function Scheduled(s: State): State {
    if s.stopped || s.recovering || s.handle.Some? then s
    else if s.attempts >= MAX_ATTEMPTS then s.(announced := true)
    else s.(recovering := true, timer := Some(BACKOFF[s.attempts]))
  }

  /** `_onWatcherError` with a fatal code; it may come late, from a handle since replaced. */
  function Fatal(s: State): State {
    if s.stopped then s else Scheduled(s.(handle := None, stable := None))
  }

  function Recreate(s: State, creates: bool): State {
    if s.stopped || s.handle.Some? then s
    else
      var counted := s.(attempts := s.attempts + 1, restarts := s.restarts + 1);
      if creates then Live(counted) else Scheduled(counted)
  }

  function TimerFires(s: State, creates: bool): State {
    Recreate(s.(timer := None, recovering := false), creates)
  }

  /** A re-created handle has its baseline: its stability window begins. */
  function Ready(s: State, h: Handle): State {
    if s.handle == Some(h) && !s.stopped then s.(stable := Some(h)) else s
  }

  function Lasted(s: State): State
    requires s.stable.Some?
  {
    var t := s.(stable := None);
    if s.handle == s.stable && !s.stopped then t.(attempts := 0, restarts := 0) else t
  }

  function Halted(s: State): State {
    s.(stopped := true, timer := None, stable := None, recovering := false, handle := None)
  }

  /** `updatePatterns`; `changed` says the forwarded subtree patterns did. */
  function Repatterned(s: State, changed: bool, creates: bool): State {
    if !changed || s.stopped then s
    else
      var down := if s.handle.Some? then s.(handle := None)
                  else s.(recovering := false, timer := None, attempts := 0, restarts := 0);
      var up := Started(down, creates);
      if creates then up else Scheduled(up.(handle := None, threw := false))
  }

  datatype Event =
    | Starts(creates: bool) | Dies | Fires(creates: bool) | IsReady(h: Handle) | Lasts | Stops
    | NewPatterns(changed: bool, creates: bool)

  predicate Enabled(s: State, e: Event) {
    match e
    case Fires(_) => s.timer.Some?
    case Lasts => s.stable.Some?
    case _ => true
  }

  function Next(s: State, e: Event): State
    requires Enabled(s, e)
  {
    match e
    case Starts(c) => Started(s, c)
    case Dies => Fatal(s)
    case Fires(c) => TimerFires(s, c)
    case IsReady(h) => Ready(s, h)
    case Lasts => Lasted(s)
    case Stops => Halted(s)
    case NewPatterns(changed, c) => Repatterned(s, changed, c)
  }

  ghost predicate Possible(s: State, es: seq<Event>)
    decreases |es|
  { es != [] ==> Enabled(s, es[0]) && Possible(Next(s, es[0]), es[1..]) }

  ghost function Run(s: State, es: seq<Event>): State
    requires Possible(s, es)
    decreases |es|
  { if es == [] then s else Run(Next(s, es[0]), es[1..]) }

  /** Never silently dead, and never restarting without bound. */
  predicate Inv(s: State) {
    && (s.stopped || s.handle.Some? || s.timer.Some? || s.announced || s.threw)
    && (s.timer.Some? <==> s.recovering)
    && (s.timer.Some? ==> s.attempts < MAX_ATTEMPTS && s.timer.value in BACKOFF)
    && s.attempts == s.restarts <= MAX_ATTEMPTS
    && (s.announced && !s.threw && !s.stopped && s.handle.None? && s.timer.None? ==> s.attempts == MAX_ATTEMPTS)
  }

  lemma StepKeeps(s: State, e: Event)
    requires Inv(s) && Enabled(s, e)
    ensures Inv(Next(s, e))
  {
  }

  /** At every point of every run the watcher is stopped, has a live handle, has a restart armed,
      has announced that it is degraded, or told the caller of start() by throwing; and at most
      four re-creates happen between resets of the counter. */
  lemma {:induction false} NeverSilentlyDead(s: State, es: seq<Event>)
    requires Possible(s, es) && Inv(s)
    ensures Inv(Run(s, es))
    decreases |es|
  {
    if es != [] {
      StepKeeps(s, es[0]);
      NeverSilentlyDead(Next(s, es[0]), es[1..]);
    }
  }

  /** Four restarts that fail, one after the other, end in the announcement; and only then does a
      run of failures end. */
  lemma {:induction false} FailuresSettle(s: State, n: nat)
    requires Inv(s) && s.timer.Some? && !s.stopped && s.handle.None? && !s.announced && n <= MAX_ATTEMPTS - s.attempts
    ensures var es := seq(n, _ => Fires(false));
            Possible(s, es)
            && (var t := Run(s, es);
                t.attempts == s.attempts + n && t.handle.None? && (t.announced <==> t.attempts == MAX_ATTEMPTS)
                && (t.timer.Some? <==> !t.announced))
    decreases n
  {
    if n > 0 {
      var es := seq(n, _ => Fires(false));
      var u := Next(s, Fires(false));
      assert es[0] == Fires(false) && es[1..] == seq(n - 1, _ => Fires(false));
      StepKeeps(s, Fires(false));
      if u.timer.Some? { FailuresSettle(u, n - 1); } else { assert n == 1; }
    }
  }

  /** A handle that dies is answered with a restart after the delay of the next attempt, or with the
      announcement if there is none left; and a watcher that is stopped stays so. */
  lemma DeathIsAnswered(s: State)
    requires Inv(s)
    ensures var t := Next(s, Dies);
            if s.stopped then t == s
            else
              && t.handle.None? && t.stable.None? && t.attempts == s.attempts
              && (if s.recovering then t.timer == s.timer && t.announced == s.announced
                  else if s.attempts < MAX_ATTEMPTS then t.timer == Some(BACKOFF[s.attempts])
                                                         && t.announced == s.announced
                  else t.announced && t.timer.None?)
  {
  }

  /** The delays grow, from half a second to fifteen, and there is one for each attempt. */
  lemma DelaysRise()
    ensures |BACKOFF| == MAX_ATTEMPTS && BACKOFF[0] == 500 && BACKOFF[MAX_ATTEMPTS - 1] == 15000
    ensures forall i :: 0 <= i < MAX_ATTEMPTS - 1 ==> BACKOFF[i] < BACKOFF[i + 1]
  {
  }

  /** A start that has no live handle makes one, with the whole budget, or tells its caller; either way the
      watcher is no longer stopped. */
  lemma StartAnswer(s: State, creates: bool)
    ensures var t := Next(s, Starts(creates));
            if s.handle.Some? then t == s
            else if creates then
              t == s.(stopped := false, handle := Some(s.created), created := s.created + 1, attempts := 0,
                      restarts := 0,
                      announced := false, threw := false)
            else t == s.(stopped := false, threw := true)
  {
  }

  /** A restart that is due happens, unless the watcher was stopped or has a handle by then: it makes a new
      handle, or waits for the next one, or gives up. */
  lemma RestartAnswer(s: State, creates: bool)
    requires s.timer.Some?
    ensures var t := Next(s, Fires(creates));
            if s.stopped || s.handle.Some? then t == s.(timer := None, recovering := false)
            else
              && t.attempts == s.attempts + 1 && !t.stopped
              && (if creates then
                    && t.handle == Some(s.created) && t.created == s.created + 1 && t.timer.None? && !t.recovering
                    && !t.announced && !t.threw
                  else
                    && t.handle.None? && t.created == s.created
                    && (if t.attempts < MAX_ATTEMPTS then t.timer == Some(BACKOFF[t.attempts]) && t.recovering
                        else t.announced && t.timer.None? && !t.recovering))
  {
  }

  /** No handle is ever made twice. */
  lemma {:induction false} HandlesAreNew(s: State, es: seq<Event>)
    requires Possible(s, es) && (s.handle.Some? ==> s.handle.value < s.created)
    ensures var t := Run(s, es);
            && s.created <= t.created && (t.handle.Some? ==> t.handle.value < t.created)
            && (t.handle.Some? && t.handle != s.handle ==> t.handle.value >= s.created)
    decreases |es|
  {
    if es != [] { HandlesAreNew(Next(s, es[0]), es[1..]); }
  }

  /** A stop leaves nothing running or due. */
  lemma StopAnswer(s: State)
    ensures Next(s, Stops)
            == s.(stopped := true, handle := None, timer := None, stable := None, recovering := false)
  {
  }

  /** New patterns that concern the handle bounce it, keeping the count, and bring a dead watcher back with
      its whole budget; where no handle can be made a restart is due, or the watcher gives up. */
  lemma PatternsAnswer(s: State, changed: bool, creates: bool)
    requires Inv(s)
    ensures var t := Next(s, NewPatterns(changed, creates));
            if !changed || s.stopped then t == s
            else
              && !t.stopped && !t.threw
              && (if creates then t.handle == Some(s.created) && t.created == s.created + 1 && t.attempts == 0
                  else
                    && t.handle.None? && t.created == s.created
                    && t.attempts == (if s.handle.Some? then s.attempts else 0)
                    && (if t.recovering then t.timer.Some? else t.announced && t.attempts >= MAX_ATTEMPTS)
                    && (s.handle.None? ==> t.timer == Some(BACKOFF[0])))
  {
  }

  /** The stability timer resets the counter exactly when the handle it was armed for is the live one;
      it is armed for a handle that reports its baseline while it is. */
  lemma OnlyLastingResets(s: State, h: Handle)
    ensures Enabled(s, Lasts) ==>
              var t := Next(s, Lasts);
              && t.handle == s.handle && t.timer == s.timer && t.stable.None?
              && t.attempts == (if s.handle == s.stable && !s.stopped then 0 else s.attempts)
    ensures Next(s, IsReady(h)).stable == if s.handle == Some(h) && !s.stopped then Some(h) else s.stable
  {
  }

  /** So a watcher whose handle has lasted has its whole budget again: when it dies later, it takes four
      more failed restarts, with the delays from the first on, before it is announced degraded. */
  lemma LastingRestoresTheBudget(s: State, h: Handle)
    requires Inv(s) && s.handle == Some(h) && !s.stopped && !s.recovering && !s.announced
    ensures var up := [IsReady(h), Lasts, Dies];
            && Possible(s, up)
            && (var u := Run(s, up); u.timer == Some(BACKOFF[0]) && u.attempts == 0 && !u.announced)
            && (var u := Run(s, up); var es := seq(3, _ => Fires(false)); Possible(u, es) && !Run(u, es).announced)
            && (var u := Run(s, up); var es := seq(4, _ => Fires(false)); Possible(u, es) && Run(u, es).announced)
  {
    var up := [IsReady(h), Lasts, Dies];
    var a := Next(s, up[0]);
    var b := Next(a, up[1]);
    var u := Next(b, up[2]);
    assert up[1..] == [Lasts, Dies] && up[1..][1..] == [Dies] && [Dies][1..] == [];
    StepKeeps(s, up[0]);
    StepKeeps(a, up[1]);
    StepKeeps(b, up[2]);
    hide Next;
    assert Possible(u, []) && Possible(b, [Dies]) && Possible(a, [Lasts, Dies]) && Possible(s, up);
    assert Run(u, []) == u && Run(b, [Dies]) == u && Run(a, [Lasts, Dies]) == u && Run(s, up) == u;
    FailuresSettle(u, 3);
    FailuresSettle(u, 4);
  }

  // --- The watcher as it runs ---

  class Watcher {
    var stopped: bool
    var handle: Option<Handle>
    var recovering: bool
    var recoveryTimer: Option<nat>
    var stableTimer: Option<Handle>
    var recoveryAttempts: nat
    var created: nat
    ghost var announced: bool
    ghost var threw: bool
    ghost var restarts: nat

    ghost function View(): State
      reads this
    {
      State(stopped, handle, recovering, recoveryTimer, stableTimer, recoveryAttempts, created, announced, threw,
          restarts)
    }

    constructor ()
      ensures View() == FRESH
    {
      stopped, handle, recovering, recoveryTimer, stableTimer := false, None, false, None, None;
      recoveryAttempts, created, announced, threw, restarts := 0, 0, false, true, 0;
    }

    method Create()
      modifies `handle, `created, `announced, `threw
      ensures View() == Live(old(View()))
    {
      handle := Some(created);
      created := created + 1;
      announced, threw := false, false;
    }

    method Start(creates: bool) returns (ok: bool)
      modifies `stopped, `handle, `created, `announced, `threw, `recoveryAttempts, `restarts
      ensures View() == Started(old(View()), creates)
      ensures ok <==> old(handle).Some? || creates
    {
      if handle.Some? { return true; }
      stopped := false;
      if !creates {
        threw := true;
        return false;
      }
      Create();
      recoveryAttempts, restarts := 0, 0;
      ok := true;
    }

    method ScheduleRecovery()
      modifies `announced, `recovering, `recoveryTimer
      ensures View() == Scheduled(old(View()))
    {
      if stopped || recovering || handle.Some? { return; }
      if recoveryAttempts >= MAX_ATTEMPTS {
        announced := true;
        return;
      }
      recovering := true;
      recoveryTimer := Some(BACKOFF[recoveryAttempts]);
    }

    method OnFatalError()
      modifies `handle, `stableTimer, `announced, `recovering, `recoveryTimer
      ensures View() == Fatal(old(View()))
    {
      if stopped { return; }
      handle := None;
      stableTimer := None;
      ScheduleRecovery();
    }

    method RecoveryTimerFires(creates: bool)
      requires recoveryTimer.Some?
      modifies this
      ensures View() == TimerFires(old(View()), creates)
    {
      recoveryTimer := None;
      recovering := false;
      if stopped || handle.Some? { return; }
      recoveryAttempts, restarts := recoveryAttempts + 1, restarts + 1;
      if creates { Create(); } else { ScheduleRecovery(); }
    }

    method BaselineReady(h: Handle)
      modifies `stableTimer
      ensures View() == Ready(old(View()), h)
    {
      if handle == Some(h) && !stopped { stableTimer := Some(h); }
    }

    method StableTimerFires()
      requires stableTimer.Some?
      modifies `stableTimer, `recoveryAttempts, `restarts
      ensures View() == Lasted(old(View()))
    {
      if handle == stableTimer && !stopped { recoveryAttempts, restarts := 0, 0; }
      stableTimer := None;
    }

    method Stop()
      modifies `stopped, `recoveryTimer, `stableTimer, `recovering, `handle
      ensures View() == Halted(old(View()))
    {
      stopped := true;
      recoveryTimer, stableTimer, recovering, handle := None, None, false, None;
    }

    method UpdatePatterns(changed: bool, creates: bool)
      modifies this
      ensures View() == Repatterned(old(View()), changed, creates)
    {
      if !changed || stopped { return; }
      if handle.Some? {
        handle := None;
      } else {
        recovering, recoveryTimer := false, None;
        recoveryAttempts, restarts := 0, 0;
      }
      var ok := Start(creates);
      if !ok {
        handle := None;
        threw := false;
        ScheduleRecovery();
      }
    }
  }
}
