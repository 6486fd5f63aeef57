/**
 The WebSocket wrapper's lifecycle: one live client at a time, a reconnect timer that never
 coexists with it, and nothing delivered once closing.
 */
module Connection {
  import opened Types

  type Client = nat

  /** RECONNECT_DELAYS, in milliseconds. */
  const LADDER: seq<nat> := [1000, 2000, 4000, 8000, 16000, 32000, 60000, 120000, 300000]

  datatype Sent = Opened | Message | Failed | Refused | Closed | Retrying

  datatype State = State(
    reconnects: bool,             // config.reconnect
    client: Option<Client>,       // _b
    listening: set<Client>,       // clients that still carry this wrapper's listeners
    closing: bool,
    attempt: nat,
    timer: Option<nat>,           // _reconnectTimer, with its delay
    shaken: bool,                 // _handshakeComplete
    dialled: nat,                 // clients ever made
    log: seq<Sent>)               // history: what was delivered to the engine

  /** A wrapper that has yet to connect. */
  function Start(reconnects: bool): State { State(reconnects, None, {}, false, 0, None, false, 0, []) }

  /** How a dial comes out on the spot. */
  datatype Dialled = Made | Terminal | Transient

  /** `randomInt(0, half + 1)` */
  predicate Jitter(s: State, j: nat) { j <= Step(s.attempt) / 2 }

  function Step(attempt: nat): nat { LADDER[if attempt < |LADDER| then attempt else |LADDER| - 1] }

  function Schedule(s: State, j: nat): State {
    if s.closing || !s.reconnects then s
    else s.(attempt := s.attempt + 1, timer := Some(Step(s.attempt) / 2 + j))
  }

  function Emit(s: State, x: Sent): State { s.(log := s.log + [x]) }

  function Dial(s: State, d: Dialled, j: nat): State {
    var t := s.(shaken := false);
    match d
    case Made => t.(client := Some(s.dialled), listening := s.listening + {s.dialled}, dialled := s.dialled + 1)
    case Terminal => Emit(t.(closing := true), Refused)
    case Transient => Schedule(Emit(t, Failed), j)
  }

  /** Detach the outgoing client. */
  function Drop(s: State): State {
    if s.client.None? then s else s.(client := None, listening := s.listening - {s.client.value})
  }

  function Connect(s: State, d: Dialled, j: nat): State {
    Dial(Drop(s.(timer := None)).(closing := false, attempt := 0), d, j)
  }

  function Close(s: State): State { Drop(s.(closing := true, timer := None)) }

  /** The reconnect timer. */
  function Fire(s: State, d: Dialled, j: nat): State {
    var t := s.(timer := None);
    if s.closing then t else Dial(Emit(t, Retrying), d, j)
  }

  // The client's events, which reach the wrapper only while it listens

  function OnOpen(s: State, floor: bool): State {
    if s.closing then s
    else if !floor then Emit(s.(closing := true), Refused)
    else Emit(s.(shaken := true, attempt := 0), Opened)
  }

  function OnMessage(s: State): State { if s.closing then s else Emit(s, Message) }

  /** The client is finished. */
  function OnClose(s: State, c: Client, j: nat): State {
    Schedule(Emit(s.(client := None, listening := s.listening - {c}), Closed), j)
  }

  /** `permanent` is what `_isTerminalWsError` asks for besides the handshake; the outbound-URL guard's
      `blocked` is reported as a refusal either way; `silent` errors emit nothing. */
  function OnError(s: State, permanent: bool, blocked: bool, silent: bool): State {
    if s.closing then s
    else
      var terminal := permanent && !s.shaken;
      var t := s.(closing := terminal);
      if terminal || blocked then Emit(t, Refused) else if silent then t else Emit(t, Failed)
  }

  datatype Event =
    | Connects(d: Dialled, j: nat)
    | Closes
    | Fires(d: Dialled, j: nat)
    | Opens(c: Client, floor: bool)
    | Hears(c: Client)
    | Ends(c: Client, j: nat)
    | Errs(c: Client, permanent: bool, blocked: bool, silent: bool)

  /** A client's events come from any client that listens; its number is not checked by the handlers. */
  predicate Enabled(s: State, e: Event) {
    match e
    case Connects(_, j) => j <= Step(0) / 2
    case Closes => true
    case Fires(_, j) => s.timer.Some? && Jitter(s, j)
    case Ends(c, j) => c in s.listening && Jitter(s, j)
    case _ => e.c in s.listening
  }

  function Next(s: State, e: Event): State {
    match e
    case Connects(d, j) => Connect(s, d, j)
    case Closes => Close(s)
    case Fires(d, j) => Fire(s, d, j)
    case Opens(_, floor) => OnOpen(s, floor)
    case Hears(_) => OnMessage(s)
    case Ends(c, j) => OnClose(s, c, j)
    case Errs(_, t, g, q) => OnError(s, t, g, q)
  }

  predicate Possible(s: State, es: seq<Event>)
    decreases |es|
  { es != [] ==> Enabled(s, es[0]) && Possible(Next(s, es[0]), es[1..]) }

  function Run(s: State, es: seq<Event>): State
    decreases |es|
  { if es == [] then s else Run(Next(s, es[0]), es[1..]) }

  predicate Inv(s: State) {
    && s.listening == (if s.client.Some? then {s.client.value} else {})
    && (s.client.Some? ==> s.client.value < s.dialled)
    && (s.timer.Some? ==> s.reconnects && s.client.None? && !s.closing && s.attempt > 0)
    && (s.timer.Some? ==> Step(s.attempt - 1) / 2 <= s.timer.value <= Step(s.attempt - 1))
    && (s.closing || s.client.Some? || s.timer.Some? || !s.reconnects || s == Start(true))
  }

  lemma DialKeeps(s: State, d: Dialled, j: nat)
    requires s.client.None? && s.listening == {} && !s.closing && s.timer.None? && Jitter(s, j)
    ensures Inv(Dial(s, d, j))
  {
  }

  lemma StepKeeps(s: State, e: Event)
    requires Inv(s) && Enabled(s, e)
    ensures Inv(Next(s, e))
  {
    match e
    case Connects(d, j) => DialKeeps(Drop(s.(timer := None)).(closing := false, attempt := 0), d, j);
    case Fires(d, j) => if !s.closing { DialKeeps(Emit(s.(timer := None), Retrying), d, j); }
    case _ =>
  }

  /** In every run: at most one client carries listeners and it is the current one; a pending
      timer means there is none; closing means no timer; otherwise, once there was a connect and
      unless reconnecting is switched off, a connection is live or on its way; and every delay lies
      between half its ladder step and the step. */
  lemma {:induction false} OneConnection(s: State, es: seq<Event>)
    requires Inv(s) && Possible(s, es)
    ensures Inv(Run(s, es))
    decreases |es|
  {
    if es != [] {
      StepKeeps(s, es[0]);
      OneConnection(Next(s, es[0]), es[1..]);
    }
  }

  /** Nothing is delivered after close() until the next connect(), whatever the old client, its
      timers and its socket still do. */
  lemma {:induction false} SilentAfterClose(s: State, es: seq<Event>)
    requires Inv(s) && s.closing && s.client.None? && Possible(s, es)
    requires forall i :: 0 <= i < |es| ==> !es[i].Connects?
    ensures Run(s, es).log == s.log && Run(s, es).closing && Run(s, es).client.None?
    decreases |es|
  {
    if es != [] {
      assert !es[0].Connects?;
      StepKeeps(s, es[0]);
      SilentAfterClose(Next(s, es[0]), es[1..]);
    }
  }

  lemma CloseSilences(s: State, es: seq<Event>)
    requires Inv(s) && Possible(Close(s), es) && forall i :: 0 <= i < |es| ==> !es[i].Connects?
    ensures Run(Close(s), es).log == s.log
  {
    StepKeeps(s, Closes);
    SilentAfterClose(Close(s), es);
  }

  /** A rejection, by contrast, lets one thing through: the client's own end. */
  lemma {:induction false} RefusalEndsOnce(s: State, es: seq<Event>)
    requires Inv(s) && s.closing && Possible(s, es)
    requires forall i :: 0 <= i < |es| ==> !es[i].Connects?
    ensures Run(s, es).log == s.log || Run(s, es).log == s.log + [Closed]
    decreases |es|
  {
    if es != [] {
      assert !es[0].Connects?;
      StepKeeps(s, es[0]);
      var u := Next(s, es[0]);
      if u.client.None? { SilentAfterClose(u, es[1..]); } else { RefusalEndsOnce(u, es[1..]); }
    }
  }

  // --- What is delivered ---

  /** What the engine hears of a dial that comes to nothing on the spot. */
  function DialSays(d: Dialled): seq<Sent> {
    match d case Made => [] case Terminal => [Refused] case Transient => [Failed]
  }

  /** What the engine is to hear of an event. From a wrapper that is closing: of a retry nothing, of a
      client only its end. */
  function Says(s: State, e: Event): seq<Sent> {
    match e
    case Connects(d, _) => DialSays(d)
    case Closes => []
    case Fires(d, _) => if s.closing then [] else [Retrying] + DialSays(d)
    case Opens(_, floor) => if s.closing then [] else if floor then [Opened] else [Refused]
    case Hears(_) => if s.closing then [] else [Message]
    case Ends(_, _) => [Closed]
    case Errs(_, permanent, blocked, silent) =>
      if s.closing then []
      else if blocked || (permanent && !s.shaken) then [Refused]
      else if silent then []
      else [Failed]
  }

  function Story(s: State, es: seq<Event>): seq<Sent>
    decreases |es|
  { if es == [] then [] else Says(s, es[0]) + Story(Next(s, es[0]), es[1..]) }

  lemma StepHears(s: State, e: Event)
    ensures Next(s, e).log == s.log + Says(s, e)
  {
  }

  /** Over every run the engine hears exactly that, in order. */
  lemma {:induction false} EngineHears(s: State, es: seq<Event>)
    ensures Run(s, es).log == s.log + Story(s, es)
    decreases |es|
  {
    if es != [] {
      StepHears(s, es[0]);
      EngineHears(Next(s, es[0]), es[1..]);
    }
  }

  function CountOf(log: seq<Sent>, x: Sent): nat {
    if log == [] then 0 else (if log[0] == x then 1 else 0) + CountOf(log[1..], x)
  }

  lemma {:induction false} CountAppends(a: seq<Sent>, b: seq<Sent>, x: Sent)
    ensures CountOf(a + b, x) == CountOf(a, x) + CountOf(b, x)
  {
    if a == [] {
      assert a + b == b;
    } else {
      assert (a + b)[1..] == a[1..] + b && (a + b)[0] == a[0];
      CountAppends(a[1..], b, x);
    }
  }

  /** The event is heard while the wrapper is not closing. */
  predicate Heard(s: State, e: Event, x: Sent) {
    !s.closing && match x case Message => e.Hears? case Retrying => e.Fires? case _ => e.Opens? && e.floor
  }

  function CountHeard(s: State, es: seq<Event>, x: Sent): nat
    decreases |es|
  { if es == [] then 0 else (if Heard(s, es[0], x) then 1 else 0) + CountHeard(Next(s, es[0]), es[1..], x) }

  /** So no server message, open or retry is dropped, doubled or made up: as many are delivered as
      happen while the wrapper is not closing. */
  lemma {:induction false} NothingHeardIsLost(s: State, es: seq<Event>, x: Sent)
    requires x == Message || x == Opened || x == Retrying
    ensures CountOf(Run(s, es).log, x) == CountOf(s.log, x) + CountHeard(s, es, x)
    decreases |es|
  {
    hide Next, Says, Heard;
    if es != [] {
      NothingHeardIsLost(Next(s, es[0]), es[1..], x);
      StepHears(s, es[0]);
      CountAppends(s.log, Says(s, es[0]), x);
      SaysOnce(s, es[0], x);
    }
  }

  lemma SaysOnce(s: State, e: Event, x: Sent)
    requires x == Message || x == Opened || x == Retrying
    ensures CountOf(Says(s, e), x) == if Heard(s, e, x) then 1 else 0
  {
    if e.Fires? && !s.closing { CountAppends([Retrying], DialSays(e.d), x); }
  }

  // --- The ladder ---

  /** From a second to five minutes, and never shorter for a later attempt. */
  lemma LadderRises(attempt: nat)
    ensures Step(0) == 1000 && (attempt >= 8 ==> Step(attempt) == 300000)
    ensures Step(attempt) <= Step(attempt + 1) && (attempt < 8 ==> Step(attempt) < Step(attempt + 1))
  {
  }

  /** A dial, or a connection that ended before it opened, climbs the ladder by one step; an open at
      the floor and a connect start over. */
  lemma {:induction false} LadderClimbs(s: State, js: seq<nat>)
    requires s.timer.Some? && s.reconnects && !s.closing
    ensures var t := Run(s, seq(|js|, i requires 0 <= i < |js| => Fires(Transient, js[i])));
            && t.attempt == s.attempt + |js| && !t.closing && t.timer.Some?
            && (js != [] ==> t.timer.value == Step(t.attempt - 1) / 2 + js[|js| - 1])
    decreases |js|
  {
    if js != [] {
      var es := seq(|js|, i requires 0 <= i < |js| => Fires(Transient, js[i]));
      var rest := js[1..];
      assert es[1..] == seq(|rest|, i requires 0 <= i < |rest| => Fires(Transient, rest[i]));
      LadderClimbs(Next(s, es[0]), rest);
    }
  }

  /** A dial, from whatever there was: the one before is detached, the new client, if there is one, listens
      alone, and has not shaken hands; a refusal on the spot closes, anything else does not. */
  lemma DialAnswer(s: State, e: Event)
    requires Inv(s) && Enabled(s, e) && (e.Connects? || (e.Fires? && !s.closing))
    ensures var t := Next(s, e);
            && !t.shaken && t.reconnects == s.reconnects
            && (t.closing <==> e.d.Terminal?)
            && t.client == (if e.d.Made? then Some(s.dialled) else None)
            && t.listening == (if e.d.Made? then {s.dialled} else {})
            && t.dialled == (if e.d.Made? then s.dialled + 1 else s.dialled)
            && (t.timer.Some? <==> e.d.Transient? && s.reconnects)
            && t.attempt == (if e.Connects? then 0 else s.attempt) + (if t.timer.Some? then 1 else 0)
            && (t.timer.Some? ==> t.timer.value == Step(t.attempt - 1) / 2 + e.j)
  {
  }

  /** The handlers of a client that failed or ended, and what stays as it was. */
  lemma FailureAnswer(s: State, e: Event)
    requires Inv(s) && Enabled(s, e) && (e.Errs? || e.Ends?)
    ensures var t := Next(s, e);
            if e.Errs? then t == s.(closing := s.closing || (e.permanent && !s.shaken), log := t.log)
            else
              && t.client.None? && t.listening == {} && t.closing == s.closing && t.shaken == s.shaken
              && (t.timer.Some? <==> s.reconnects && !s.closing)
  {
  }

  lemma FreshWrapper(reconnects: bool)
    ensures var s := Start(reconnects);
            Inv(s) && !s.closing && !s.shaken && s.client.None? && s.timer.None? && s.attempt == 0 && s.log == []
  {
  }

  lemma OpenStartsOver(s: State, c: Client)
    requires !s.closing
    ensures var t := Next(s, Opens(c, true)); t.attempt == 0 && t.shaken && !t.closing && t.client == s.client
    ensures Next(s, Opens(c, false)).closing
    ensures forall j :: Next(s, Ends(c, j)).attempt == if s.reconnects then s.attempt + 1 else s.attempt
    ensures forall d, j :: d != Transient ==> Next(s, Connects(d, j)).attempt == 0
  {
  }

  // --- The wrapper as it runs ---

  class WsClient {
    const reconnects: bool
    var current: Option<Client>
    var listening: set<Client>
    var closing: bool
    var reconnectAttempt: nat
    var reconnectTimer: Option<nat>
    var handshakeComplete: bool
    var dialled: nat
    ghost var log: seq<Sent>

    ghost function View(): State
      reads this
    {
      State(reconnects, current, listening, closing, reconnectAttempt, reconnectTimer, handshakeComplete, dialled, log)
    }

    constructor (reconnects: bool)
      ensures View() == Start(reconnects)
    {
      this.reconnects := reconnects;
      current, listening, closing, reconnectAttempt := None, {}, false, 0;
      reconnectTimer, handshakeComplete, dialled, log := None, false, 0, [];
    }

    method ScheduleReconnect(j: nat)
      requires Jitter(View(), j)
      modifies `reconnectAttempt, `reconnectTimer
      ensures View() == Schedule(old(View()), j)
    {
      if closing { return; }
      if !reconnects { return; }
      var base := LADDER[if reconnectAttempt < |LADDER| then reconnectAttempt else |LADDER| - 1];
      var half := base / 2;
      reconnectAttempt := reconnectAttempt + 1;
      reconnectTimer := Some(half + j);
    }

    method DropClient()
      modifies `current, `listening
      ensures View() == Drop(old(View()))
    {
      if current.Some? {
        listening := listening - {current.value};
        current := None;
      }
    }

    method DialServer(d: Dialled, j: nat)
      requires Jitter(View(), j)
      modifies this
      ensures View() == Dial(old(View()), d, j)
    {
      handshakeComplete := false;
      match d {
        case Made =>
          current := Some(dialled);
          listening := listening + {dialled};
          dialled := dialled + 1;
        case Terminal =>
          closing := true;
          log := log + [Refused];
        case Transient =>
          log := log + [Failed];
          ScheduleReconnect(j);
      }
    }

    method ConnectTo(d: Dialled, j: nat)
      requires j <= Step(0) / 2
      modifies this
      ensures View() == Connect(old(View()), d, j)
    {
      reconnectTimer := None;
      DropClient();
      closing := false;
      reconnectAttempt := 0;
      DialServer(d, j);
    }

    method CloseAll()
      modifies `closing, `reconnectTimer, `current, `listening
      ensures View() == Close(old(View()))
    {
      closing := true;
      reconnectTimer := None;
      DropClient();
    }

    method ReconnectTimerFires(d: Dialled, j: nat)
      requires Jitter(View(), j)
      modifies this
      ensures View() == Fire(old(View()), d, j)
    {
      reconnectTimer := None;
      if closing { return; }
      log := log + [Retrying];
      DialServer(d, j);
    }

    method ClientOpened(floor: bool)
      modifies `closing, `handshakeComplete, `reconnectAttempt, `log
      ensures View() == OnOpen(old(View()), floor)
    {
      if closing { return; }
      if !floor {
        closing := true;
        log := log + [Refused];
        return;
      }
      handshakeComplete := true;
      reconnectAttempt := 0;
      log := log + [Opened];
    }

    method ClientClosed(c: Client, j: nat)
      requires Jitter(View(), j)
      modifies this
      ensures View() == OnClose(old(View()), c, j)
    {
      current := None;
      listening := listening - {c};
      log := log + [Closed];
      if !closing { ScheduleReconnect(j); }
    }

    method ClientFailed(permanent: bool, blocked: bool, silent: bool)
      modifies `closing, `log
      ensures View() == OnError(old(View()), permanent, blocked, silent)
    {
      if closing { return; }
      var terminal := permanent && !handshakeComplete;
      if terminal { closing := true; }
      if blocked || terminal {
        log := log + [Refused];
        return;
      }
      if silent { return; }
      log := log + [Failed];
    }
  }
}
